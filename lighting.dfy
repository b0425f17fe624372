/** The per-face decisions of WireframeViewer.display: back-face culling, and the shadow or
    ambient + diffuse + specular colour of a face that faces the viewer. */
module Lighting {
  import opened Geometry
  import opened Mesh

  /** m_ambient */
  const AmbientGain := 0.1
  /** m_diff = DiffuseGain * light_color */
  const DiffuseGain := 0.45
  /** m_spec = SpecularGain * light_color; the shininess m_gls = 4.0 is the power in Pow4 */
  const SpecularGain := 0.45

  /** A culled face is not drawn; a filled face is drawn as a polygon of the given colour. */
  datatype Shading = Culled | Filled(colour: Vec3)

  /** The face normal as display computes it from the face's first three nodes: the cross product
      of two edge vectors, normalised by the (abstract) `normalize`, which stands for v / norm(v). */
  function FaceNormal(normalize: Vec3 -> Vec3, nodes: seq<Vec3>, f: Face): Vec3
    requires FaceFits(nodes, f)
  {
    var p0 := nodes[f.indices[0]];
    normalize(Cross(Sub(nodes[f.indices[1]], p0), Sub(nodes[f.indices[2]], p0)))
  }

  /** light_color * (m_ambient * colour) */
  function Ambient(lightColour: Vec3, colour: Vec3): Vec3 {
    Mul(lightColour, Scale(AmbientGain, colour))
  }

  /** m_diff * colour * max(dot(normal, light), 0) */
  function Diffuse(normal: Vec3, light: Vec3, lightColour: Vec3, colour: Vec3): Vec3 {
    Scale(Max0(Dot(normal, light)), Mul(Scale(DiffuseGain, lightColour), colour))
  }

  /** 2 * max(dot(light, normal), 0) * normal - light */
  function Reflection(normal: Vec3, light: Vec3): Vec3 {
    Sub(Scale(2.0 * Max0(Dot(light, normal)), normal), light)
  }

  /** m_spec * colour * max(dot(view, reflection), 0) ** 4 */
  function Specular(normal: Vec3, view: Vec3, light: Vec3, lightColour: Vec3, colour: Vec3): Vec3 {
    Scale(Pow4(Max0(Dot(view, Reflection(normal, light)))), Mul(Scale(SpecularGain, lightColour), colour))
  }

  /** clip(diffuse + ambient + specular, 0, 255) */
  function LitColour(normal: Vec3, view: Vec3, light: Vec3, lightColour: Vec3, colour: Vec3): Vec3 {
    Clip(Add(Add(Diffuse(normal, light, lightColour, colour), Ambient(lightColour, colour)),
             Specular(normal, view, light, lightColour, colour)))
  }

  /** The decision display takes for one face with unit normal `normal`: cull it unless it faces
      the viewer; fill it with the ambient term alone when it faces away from the light (however
      far away); otherwise with the clamped Phong sum, whose channels all lie in [0, 255]. */
  function Shade(normal: Vec3, view: Vec3, light: Vec3, lightColour: Vec3, colour: Vec3): (r: Shading)
    ensures r.Culled? <==> Dot(normal, view) <= 0.0
    ensures Dot(normal, view) > 0.0 && Dot(normal, light) < 0.0 ==> r == Filled(Ambient(lightColour, colour))
    ensures Dot(normal, view) > 0.0 && Dot(normal, light) >= 0.0 ==>
              r == Filled(LitColour(normal, view, light, lightColour, colour)) && InChannelRange(r.colour)
  {
    if Dot(normal, view) > 0.0 then
      if Dot(normal, light) < 0.0 then Filled(Ambient(lightColour, colour))
      else Filled(LitColour(normal, view, light, lightColour, colour))
    else Culled
  }

  /** Every channel of a is at least the same channel of b. */
  predicate NoDarker(a: Vec3, b: Vec3) {
    a.x >= b.x && a.y >= b.y && a.z >= b.z
  }

  predicate InUnitRange(c: Vec3) {
    0.0 <= c.x <= 1.0 && 0.0 <= c.y <= 1.0 && 0.0 <= c.z <= 1.0
  }

  /** No channel is negative. */
  predicate NonNegative(v: Vec3) {
    v.x >= 0.0 && v.y >= 0.0 && v.z >= 0.0
  }

  lemma ScaleNonNegative(k: real, v: Vec3)
    requires k >= 0.0 && NonNegative(v)
    ensures NonNegative(Scale(k, v))
  {
  }

  lemma MulNonNegative(a: Vec3, b: Vec3)
    requires NonNegative(a) && NonNegative(b)
    ensures NonNegative(Mul(a, b))
  {
  }

  /** A gain in [0, 1] times a channel value in [0, 255] stays in [0, 255]. */
  lemma GainKeepsRange(g: real, a: real)
    requires 0.0 <= g <= 1.0 && 0.0 <= a <= 255.0
    ensures 0.0 <= g * a <= 255.0
  {
    assert 0.0 <= g * a;
    assert g * a <= a;
  }

  /** The ambient term of a light gain in [0, 1] and a colour in [0, 255] lies in [0, 255]. */
  lemma AmbientInRange(lightColour: Vec3, colour: Vec3)
    requires InUnitRange(lightColour) && InChannelRange(colour)
    ensures InChannelRange(Ambient(lightColour, colour))
  {
    GainKeepsRange(lightColour.x, AmbientGain * colour.x);
    GainKeepsRange(lightColour.y, AmbientGain * colour.y);
    GainKeepsRange(lightColour.z, AmbientGain * colour.z);
  }

  /** Adding non-negative light to an in-range colour and clipping never darkens it. */
  lemma ClippedSumNoDarker(a: Vec3, d: Vec3, s: Vec3)
    requires InChannelRange(a) && NonNegative(d) && NonNegative(s)
    ensures NoDarker(Clip(Add(Add(d, a), s)), a)
  {
  }

  lemma Pow4NonNegative(p: real)
    ensures Pow4(p) >= 0.0
  {
    assert Pow4(p) == (p * p) * (p * p);
  }

  /** For light and face colours in their usual ranges, a lit face is never darker, in any channel,
      than the same face in shadow: diffuse and specular only add light, and the clamp at 255 stays
      above the ambient term. */
  lemma {:induction false} LitNoDarkerThanShadow(normal: Vec3, view: Vec3, light: Vec3, lightColour: Vec3, colour: Vec3)
    requires InUnitRange(lightColour) && InChannelRange(colour)
    ensures NoDarker(LitColour(normal, view, light, lightColour, colour), Ambient(lightColour, colour))
  {
    var gainD := Scale(DiffuseGain, lightColour);
    var gainS := Scale(SpecularGain, lightColour);
    ScaleNonNegative(DiffuseGain, lightColour);
    ScaleNonNegative(SpecularGain, lightColour);
    MulNonNegative(gainD, colour);
    MulNonNegative(gainS, colour);
    ScaleNonNegative(Max0(Dot(normal, light)), Mul(gainD, colour));
    Pow4NonNegative(Max0(Dot(view, Reflection(normal, light))));
    ScaleNonNegative(Pow4(Max0(Dot(view, Reflection(normal, light)))), Mul(gainS, colour));
    AmbientInRange(lightColour, colour);
    ClippedSumNoDarker(Ambient(lightColour, colour), Diffuse(normal, light, lightColour, colour),
                       Specular(normal, view, light, lightColour, colour));
  }

  /** The nodes (0,0,0), (1,0,0), (0,1,0) of a one-triangle mesh. */
  function Triangle(): seq<Vec3> {
    [Vec3(0.0, 0.0, 0.0), Vec3(1.0, 0.0, 0.0), Vec3(0.0, 1.0, 0.0)]
  }

  lemma TriangleEdges()
    ensures Sub(Triangle()[1], Triangle()[0]) == Vec3(1.0, 0.0, 0.0)
    ensures Sub(Triangle()[2], Triangle()[0]) == Vec3(0.0, 1.0, 0.0)
  {
  }

  lemma TriangleFits(colour: Vec3)
    ensures FaceFits(Triangle(), Face([0, 1, 2], colour)) && FaceFits(Triangle(), Face([0, 2, 1], colour))
  {
  }

  /** Wound 0, 1, 2 the triangle has normal (0,0,1), for any normalisation that leaves that unit
      vector as it is. */
  lemma TriangleNormalUp(normalize: Vec3 -> Vec3, colour: Vec3)
    requires normalize(Vec3(0.0, 0.0, 1.0)) == Vec3(0.0, 0.0, 1.0)
    ensures FaceFits(Triangle(), Face([0, 1, 2], colour))
    ensures FaceNormal(normalize, Triangle(), Face([0, 1, 2], colour)) == Vec3(0.0, 0.0, 1.0)
  {
    TriangleFits(colour);
    TriangleEdges();
    assert Cross(Vec3(1.0, 0.0, 0.0), Vec3(0.0, 1.0, 0.0)) == Vec3(0.0, 0.0, 1.0);
  }

  /** Wound 0, 2, 1 the triangle has normal (0,0,-1). */
  lemma TriangleNormalDown(normalize: Vec3 -> Vec3, colour: Vec3)
    requires normalize(Vec3(0.0, 0.0, -1.0)) == Vec3(0.0, 0.0, -1.0)
    ensures FaceFits(Triangle(), Face([0, 2, 1], colour))
    ensures FaceNormal(normalize, Triangle(), Face([0, 2, 1], colour)) == Vec3(0.0, 0.0, -1.0)
  {
    TriangleFits(colour);
    TriangleEdges();
    assert Cross(Vec3(0.0, 1.0, 0.0), Vec3(1.0, 0.0, 0.0)) == Vec3(0.0, 0.0, -1.0);
  }

  /** Seen along view (0,0,-1), the triangle wound 0, 1, 2 faces away from the viewer and is
      culled, whatever the light. */
  lemma CulledTriangle(normalize: Vec3 -> Vec3, light: Vec3, lightColour: Vec3, colour: Vec3)
    requires normalize(Vec3(0.0, 0.0, 1.0)) == Vec3(0.0, 0.0, 1.0)
    ensures FaceFits(Triangle(), Face([0, 1, 2], colour))
    ensures Shade(FaceNormal(normalize, Triangle(), Face([0, 1, 2], colour)), Vec3(0.0, 0.0, -1.0),
                  light, lightColour, colour) == Culled
  {
    TriangleNormalUp(normalize, colour);
  }

  /** The terms for a face with normal (0,0,-1), viewed and lit along (0,0,-1), under white light
      with colour (100,100,100): diffuse 45, ambient 10 and specular 45 in every channel. */
  lemma WhiteDiffuse(n: Vec3, c: Vec3)
    requires n == Vec3(0.0, 0.0, -1.0) && c == Vec3(100.0, 100.0, 100.0)
    ensures Diffuse(n, n, Vec3(1.0, 1.0, 1.0), c) == Vec3(45.0, 45.0, 45.0)
  {
  }

  lemma WhiteAmbient(c: Vec3)
    requires c == Vec3(100.0, 100.0, 100.0)
    ensures Ambient(Vec3(1.0, 1.0, 1.0), c) == Vec3(10.0, 10.0, 10.0)
  {
  }

  /** Light straight along a unit normal is reflected back along itself, and a view along that
      normal gets the full highlight. */
  lemma HeadOnHighlight(n: Vec3)
    requires Dot(n, n) == 1.0
    ensures Reflection(n, n) == n
    ensures Pow4(Max0(Dot(n, Reflection(n, n)))) == 1.0
  {
  }

  /** At full highlight the specular term is the specular gain times the colour. */
  lemma FullHighlight(normal: Vec3, view: Vec3, light: Vec3, lightColour: Vec3, colour: Vec3)
    requires Pow4(Max0(Dot(view, Reflection(normal, light)))) == 1.0
    ensures Specular(normal, view, light, lightColour, colour) == Mul(Scale(SpecularGain, lightColour), colour)
  {
  }

  lemma WhiteSpecular(n: Vec3, c: Vec3)
    requires n == Vec3(0.0, 0.0, -1.0) && c == Vec3(100.0, 100.0, 100.0)
    ensures Specular(n, n, n, Vec3(1.0, 1.0, 1.0), c) == Vec3(45.0, 45.0, 45.0)
  {
    assert Dot(n, n) == 1.0;
    HeadOnHighlight(n);
    FullHighlight(n, n, n, Vec3(1.0, 1.0, 1.0), c);
  }

  /** The triangle wound 0, 2, 1 faces the viewer and the light, both along (0,0,-1); under white
      light with face colour (100,100,100) it is filled with 45 + 10 + 45 = 100 in every channel. */
  lemma LitTriangle(normalize: Vec3 -> Vec3)
    requires normalize(Vec3(0.0, 0.0, -1.0)) == Vec3(0.0, 0.0, -1.0)
    ensures var c, n := Vec3(100.0, 100.0, 100.0), Vec3(0.0, 0.0, -1.0);
            FaceFits(Triangle(), Face([0, 2, 1], c)) &&
            Shade(FaceNormal(normalize, Triangle(), Face([0, 2, 1], c)), n, n, Vec3(1.0, 1.0, 1.0), c) == Filled(c)
  {
    var c, n := Vec3(100.0, 100.0, 100.0), Vec3(0.0, 0.0, -1.0);
    TriangleNormalDown(normalize, c);
    WhiteDiffuse(n, c);
    WhiteAmbient(c);
    WhiteSpecular(n, c);
    assert LitColour(n, n, n, Vec3(1.0, 1.0, 1.0), c) == c;
  }

  /** The terms for colour (400,400,400) under head-on white light: 180, 40 and 180. */
  lemma BrightDiffuse(n: Vec3, c: Vec3)
    requires n == Vec3(0.0, 0.0, -1.0) && c == Vec3(400.0, 400.0, 400.0)
    ensures Diffuse(n, n, Vec3(1.0, 1.0, 1.0), c) == Vec3(180.0, 180.0, 180.0)
  {
  }

  lemma BrightAmbient(c: Vec3)
    requires c == Vec3(400.0, 400.0, 400.0)
    ensures Ambient(Vec3(1.0, 1.0, 1.0), c) == Vec3(40.0, 40.0, 40.0)
  {
  }

  lemma BrightSpecular(n: Vec3, c: Vec3)
    requires n == Vec3(0.0, 0.0, -1.0) && c == Vec3(400.0, 400.0, 400.0)
    ensures Specular(n, n, n, Vec3(1.0, 1.0, 1.0), c) == Vec3(180.0, 180.0, 180.0)
  {
    assert Dot(n, n) == 1.0;
    HeadOnHighlight(n);
    FullHighlight(n, n, n, Vec3(1.0, 1.0, 1.0), c);
  }

  lemma BrightLit(n: Vec3, c: Vec3)
    requires n == Vec3(0.0, 0.0, -1.0) && c == Vec3(400.0, 400.0, 400.0)
    ensures LitColour(n, n, n, Vec3(1.0, 1.0, 1.0), c) == Vec3(255.0, 255.0, 255.0)
  {
    BrightDiffuse(n, c);
    BrightAmbient(c);
    BrightSpecular(n, c);
    assert Clip(Vec3(400.0, 400.0, 400.0)) == Vec3(255.0, 255.0, 255.0);
  }

  /** Head-on white light on a face of colour (400,400,400) sums to 180 + 40 + 180 = 400 in every
      channel, which the clip brings down to 255. */
  lemma ClippedHighlight(n: Vec3, c: Vec3)
    requires n == Vec3(0.0, 0.0, -1.0) && c == Vec3(400.0, 400.0, 400.0)
    ensures Shade(n, n, n, Vec3(1.0, 1.0, 1.0), c) == Filled(Vec3(255.0, 255.0, 255.0))
  {
    assert Dot(n, n) == 1.0;
    BrightLit(n, c);
  }
}
