/** What WireframeViewer.display draws, as a sequence of drawing commands: the background fill,
    then for each mesh its faces (and, nested in the faces block, its edges), then its nodes, then
    the flip that shows the frame. Lines and circles are drawn in display's local `colour`, which
    only the face loop binds; drawing one before any face has been visited raises
    UnboundLocalError, which ends the frame (and the program) before the flip. The loops of display
    are the methods DrawFaces, DrawEdges, DrawNodes and DrawFrame, each proved against the function
    that specifies it. */
module Render {
  import opened Geometry
  import opened Mesh
  import opened Lighting
  import opened Dicts

  /** A point on the screen. */
  datatype Point = Point(x: real, y: real)

  /** The pygame calls display makes. Lines and circles are drawn in the colour left in display's
      local `colour` by the face loop. */
  datatype Draw =
    | Fill(colour: Vec3)                                 // screen.fill
    | Polygon(colour: Vec3, points: seq<Point>)          // pygame.draw.polygon, filled
    | Line(colour: Vec3, from: Point, to: Point)         // pygame.draw.aaline
    | Circle(colour: Vec3, cx: int, cy: int, radius: int) // pygame.draw.circle, filled
    | Flip                                               // pygame.display.flip

  datatype Option<T> = None | Some(value: T)

  /** The viewer fields display reads. A perspective of 0 stands for the initial False: both are
      falsy, so both switch the projection off. */
  datatype Settings = Settings(
    width: int, height: int,
    displayNodes: bool, displayEdges: bool, displayFaces: bool,
    perspective: real,
    view: Vec3, light: Vec3, lightColour: Vec3,
    background: Vec3, nodeRadius: int)

  /** A node drawn where it is, ignoring its depth. */
  function Flat(p: Vec3): Point {
    Point(p.x, p.y)
  }

  /** A node is in front of the eye at distance d when z > -d. */
  predicate InFront(d: real, z: real) {
    z > -d
  }

  /** The scale factor d / (d + z) of a node in front of the eye. */
  function Factor(d: real, z: real): (k: real)
    requires InFront(d, z)
    ensures k * (d + z) == d
  {
    d / (d + z)
  }

  /** The perspective projection of a node in front of the eye: w/2 + d/(d+z) * (x - w/2), and
      likewise for y with the height. The offset from the screen centre is scaled so that
      offset * (d + z) == d * (original offset); a node at depth 0 stays where it is. */
  function Project(d: real, width: int, height: int, p: Vec3): (r: Point)
    requires InFront(d, p.z)
    ensures (r.x - width as real / 2.0) * (d + p.z) == d * (p.x - width as real / 2.0)
    ensures (r.y - height as real / 2.0) * (d + p.z) == d * (p.y - height as real / 2.0)
    ensures p.z == 0.0 ==> r == Flat(p)
  {
    var cx, cy := width as real / 2.0, height as real / 2.0;
    var k := Factor(d, p.z);
    ScaledOffset(k, d + p.z, d, p.x - cx);
    ScaledOffset(k, d + p.z, d, p.y - cy);
    Point(cx + k * (p.x - cx), cy + k * (p.y - cy))
  }

  lemma ScaledOffset(k: real, e: real, d: real, a: real)
    requires k * e == d
    ensures (k * a) * e == d * a
  {
    calc {
      (k * a) * e;
      (k * e) * a;
      d * a;
    }
  }

  /** With the eye at positive distance d, a node at depth z >= 0 (behind the screen plane) is
      drawn no farther from the screen centre than it would be without perspective. */
  lemma ProjectionShrinks(d: real, width: int, height: int, p: Vec3)
    requires d > 0.0 && p.z >= 0.0
    ensures InFront(d, p.z)
    ensures var r, cx, cy := Project(d, width, height, p), width as real / 2.0, height as real / 2.0;
            Abs(r.x - cx) <= Abs(p.x - cx) && Abs(r.y - cy) <= Abs(p.y - cy)
  {
    var k := Factor(d, p.z);
    FactorInUnit(d, p.z);
    var cx, cy := width as real / 2.0, height as real / 2.0;
    ShrinkOffset(k, p.x - cx);
    ShrinkOffset(k, p.y - cy);
  }

  function Abs(a: real): real {
    if a < 0.0 then -a else a
  }

  lemma FactorInUnit(d: real, z: real)
    requires d > 0.0 && z >= 0.0
    ensures InFront(d, z)
    ensures 0.0 < Factor(d, z) <= 1.0
  {
    UnitFactor(d, z, Factor(d, z));
  }

  lemma UnitFactor(d: real, z: real, k: real)
    requires d > 0.0 && z >= 0.0 && k * (d + z) == d
    ensures 0.0 < k <= 1.0
  {
    if k > 1.0 {
      MulMonotone(k, 1.0, d + z);
    }
  }

  lemma MulMonotone(a: real, b: real, c: real)
    requires a > b && c > 0.0
    ensures a * c > b * c
  {
    assert (a - b) * c > 0.0;
    assert (a - b) * c == a * c - b * c;
  }

  lemma ShrinkOffset(k: real, a: real)
    requires 0.0 < k <= 1.0
    ensures Abs(k * a) <= Abs(a)
  {
    if a >= 0.0 {
      assert 0.0 <= k * a;
      assert k * a <= 1.0 * a;
    } else {
      assert k * a < 0.0;
      assert k * (-a) <= 1.0 * (-a);
    }
  }

  // ---- Edges (the loop over wireframe.edges) ----

  /** Whether display draws an edge: always with perspective off; with it on, only when both
      endpoints are in front of the eye. */
  predicate EdgeShown(s: Settings, nodes: seq<Vec3>, e: (nat, nat))
    requires e.0 < |nodes| && e.1 < |nodes|
  {
    s.perspective == 0.0 || (InFront(s.perspective, nodes[e.0].z) && InFront(s.perspective, nodes[e.1].z))
  }

  /** Some edge of the list is drawn. */
  predicate SomeEdgeShown(s: Settings, nodes: seq<Vec3>, edges: seq<(nat, nat)>)
    requires EdgesFit(nodes, edges)
  {
    exists i :: 0 <= i < |edges| && EdgeShown(s, nodes, edges[i])
  }

  /** The draw for one edge in colour c: with perspective on, a line between the projected
      endpoints if both are in front of the eye and nothing otherwise; with perspective off, a line
      between the endpoints as they are. */
  function EdgeDraws(s: Settings, nodes: seq<Vec3>, e: (nat, nat), c: Vec3): seq<Draw>
    requires e.0 < |nodes| && e.1 < |nodes|
  {
    var p, q := nodes[e.0], nodes[e.1];
    if s.perspective != 0.0 then
      if InFront(s.perspective, p.z) && InFront(s.perspective, q.z) then
        [Line(c, Project(s.perspective, s.width, s.height, p), Project(s.perspective, s.width, s.height, q))]
      else []
    else [Line(c, Flat(p), Flat(q))]
  }

  /** The draws for the edges in colour c, in order. */
  function EdgeCommands(s: Settings, nodes: seq<Vec3>, edges: seq<(nat, nat)>, c: Vec3): seq<Draw>
    requires EdgesFit(nodes, edges)
  {
    if edges == [] then []
    else EdgeCommands(s, nodes, edges[..|edges| - 1], c) + EdgeDraws(s, nodes, edges[|edges| - 1], c)
  }

  /** The edge loop with `colour` bound to c, or unbound (None): then the first edge it draws
      raises, before anything is drawn. */
  method DrawEdges(s: Settings, nodes: seq<Vec3>, edges: seq<(nat, nat)>, colour: Option<Vec3>)
    returns (cmds: seq<Draw>, raised: bool)
    requires EdgesFit(nodes, edges)
    ensures raised <==> colour.None? && SomeEdgeShown(s, nodes, edges)
    ensures cmds == (if colour.Some? then EdgeCommands(s, nodes, edges, colour.value) else [])
  {
    cmds, raised := [], false;
    var i := 0;
    while i < |edges|
      invariant 0 <= i <= |edges| && !raised
      invariant cmds == (if colour.Some? then EdgeCommands(s, nodes, edges[..i], colour.value) else [])
      invariant colour.None? ==> forall j :: 0 <= j < i ==> !EdgeShown(s, nodes, edges[j])
    {
      var (n1, n2) := edges[i];
      var p, q := nodes[n1], nodes[n2];
      if s.perspective == 0.0 || (p.z > -s.perspective && q.z > -s.perspective) {
        if colour.None? {
          raised := true;
          return;
        }
        if s.perspective != 0.0 {
          var a := Project(s.perspective, s.width, s.height, p);
          var b := Project(s.perspective, s.width, s.height, q);
          cmds := cmds + [Line(colour.value, a, b)];
        } else {
          cmds := cmds + [Line(colour.value, Point(p.x, p.y), Point(q.x, q.y))];
        }
      }
      assert edges[..i + 1][..i] == edges[..i];
      i := i + 1;
    }
    assert edges[..i] == edges;
  }

  /** The number of edges whose two endpoints are both in front of the eye. */
  function EdgesInFront(d: real, nodes: seq<Vec3>, edges: seq<(nat, nat)>): nat
    requires EdgesFit(nodes, edges)
  {
    if edges == [] then 0
    else
      var e := edges[0];
      (if InFront(d, nodes[e.0].z) && InFront(d, nodes[e.1].z) then 1 else 0) + EdgesInFront(d, nodes, edges[1..])
  }

  lemma EdgesFitParts(nodes: seq<Vec3>, a: seq<(nat, nat)>, b: seq<(nat, nat)>)
    requires EdgesFit(nodes, a + b)
    ensures EdgesFit(nodes, a) && EdgesFit(nodes, b)
  {
    assert forall i :: 0 <= i < |a| ==> a[i] == (a + b)[i];
    assert forall i :: 0 <= i < |b| ==> b[i] == (a + b)[|a| + i];
  }

  lemma {:induction false} EdgesInFrontAppend(d: real, nodes: seq<Vec3>, a: seq<(nat, nat)>, b: seq<(nat, nat)>)
    requires EdgesFit(nodes, a) && EdgesFit(nodes, b) && EdgesFit(nodes, a + b)
    ensures EdgesInFront(d, nodes, a + b) == EdgesInFront(d, nodes, a) + EdgesInFront(d, nodes, b)
    decreases |a|
  {
    if a == [] {
      assert a + b == b;
    } else {
      assert (a + b)[0] == a[0] && (a + b)[1..] == a[1..] + b;
      assert a == [a[0]] + a[1..];
      EdgesFitParts(nodes, [a[0]], a[1..]);
      EdgesInFrontAppend(d, nodes, a[1..], b);
    }
  }

  /** With perspective off every edge is drawn, as a line between its endpoints' x and y. */
  lemma {:induction false} EdgeLinesFlat(s: Settings, nodes: seq<Vec3>, edges: seq<(nat, nat)>, c: Vec3)
    requires EdgesFit(nodes, edges) && s.perspective == 0.0
    ensures |EdgeCommands(s, nodes, edges, c)| == |edges|
    ensures forall i :: 0 <= i < |edges| ==>
              EdgeCommands(s, nodes, edges, c)[i] == Line(c, Flat(nodes[edges[i].0]), Flat(nodes[edges[i].1]))
    decreases |edges|
  {
    if edges != [] {
      EdgeLinesFlat(s, nodes, edges[..|edges| - 1], c);
    }
  }

  /** With perspective on, exactly the edges with both endpoints in front of the eye are drawn, and
      every draw is a line in colour c. */
  lemma {:induction false} EdgeLinesPerspective(s: Settings, nodes: seq<Vec3>, edges: seq<(nat, nat)>, c: Vec3)
    requires EdgesFit(nodes, edges) && s.perspective != 0.0
    ensures |EdgeCommands(s, nodes, edges, c)| == EdgesInFront(s.perspective, nodes, edges)
    ensures forall i :: 0 <= i < |EdgeCommands(s, nodes, edges, c)| ==>
              EdgeCommands(s, nodes, edges, c)[i].Line? && EdgeCommands(s, nodes, edges, c)[i].colour == c
    decreases |edges|
  {
    if edges != [] {
      var init, last := edges[..|edges| - 1], edges[|edges| - 1];
      EdgeLinesPerspective(s, nodes, init, c);
      assert edges == init + [last];
      EdgesInFrontAppend(s.perspective, nodes, init, [last]);
    }
  }

  /** With perspective on and every node in front of the eye, every edge is drawn, as a line
      between the projections of its endpoints. */
  lemma {:induction false} EdgeLinesAllInFront(s: Settings, nodes: seq<Vec3>, edges: seq<(nat, nat)>, c: Vec3)
    requires EdgesFit(nodes, edges) && s.perspective != 0.0
    requires forall j :: 0 <= j < |nodes| ==> InFront(s.perspective, nodes[j].z)
    ensures |EdgeCommands(s, nodes, edges, c)| == |edges|
    ensures forall i :: 0 <= i < |edges| ==>
              EdgeCommands(s, nodes, edges, c)[i] ==
                Line(c, Project(s.perspective, s.width, s.height, nodes[edges[i].0]),
                     Project(s.perspective, s.width, s.height, nodes[edges[i].1]))
    decreases |edges|
  {
    if edges != [] {
      EdgeLinesAllInFront(s, nodes, edges[..|edges| - 1], c);
    }
  }

  // ---- Faces (the loop over wireframe.sortedFaces()) ----

  /** The polygon outline of a face: the x and y of its nodes, in the face's order. */
  function FacePoints(nodes: seq<Vec3>, indices: seq<nat>): (r: seq<Point>)
    requires forall i :: 0 <= i < |indices| ==> indices[i] < |nodes|
  {
    seq(|indices|, i requires 0 <= i < |indices| => Flat(nodes[indices[i]]))
  }

  /** The draw for one face: nothing if it is culled, else a filled polygon in its shade. */
  function FaceDraws(s: Settings, normalize: Vec3 -> Vec3, nodes: seq<Vec3>, f: Face): seq<Draw>
    requires FaceFits(nodes, f)
  {
    match Shade(FaceNormal(normalize, nodes, f), s.view, s.light, s.lightColour, f.colour)
    case Culled => []
    case Filled(c) => [Polygon(c, FacePoints(nodes, f.indices))]
  }

  function FaceCommands(s: Settings, normalize: Vec3 -> Vec3, nodes: seq<Vec3>, faces: seq<Face>): seq<Draw>
    requires FacesFit(nodes, faces)
  {
    if faces == [] then []
    else FaceCommands(s, normalize, nodes, faces[..|faces| - 1]) + FaceDraws(s, normalize, nodes, faces[|faces| - 1])
  }

  /** display's local `colour` after the face loop: the loop binds it to each face's colour in turn,
      culled or not, so it ends as the last face's colour, or as it was if there is no face. */
  function AfterFaceLoop(faces: seq<Face>, colour: Option<Vec3>): Option<Vec3> {
    if faces == [] then colour else Some(faces[|faces| - 1].colour)
  }

  method DrawFaces(s: Settings, normalize: Vec3 -> Vec3, nodes: seq<Vec3>, faces: seq<Face>, colour: Option<Vec3>)
    returns (cmds: seq<Draw>, colour': Option<Vec3>)
    requires FacesFit(nodes, faces)
    ensures cmds == FaceCommands(s, normalize, nodes, faces)
    ensures colour' == AfterFaceLoop(faces, colour)
  {
    cmds, colour' := [], colour;
    var i := 0;
    while i < |faces|
      invariant 0 <= i <= |faces|
      invariant cmds == FaceCommands(s, normalize, nodes, faces[..i])
      invariant colour' == AfterFaceLoop(faces[..i], colour)
    {
      var f := faces[i];
      colour' := Some(f.colour);
      var normal := FaceNormal(normalize, nodes, f);
      if Dot(normal, s.view) > 0.0 {
        var points := FacePoints(nodes, f.indices);
        if Dot(normal, s.light) < 0.0 {
          cmds := cmds + [Polygon(Ambient(s.lightColour, f.colour), points)];
        } else {
          cmds := cmds + [Polygon(LitColour(normal, s.view, s.light, s.lightColour, f.colour), points)];
        }
      }
      assert faces[..i + 1][..i] == faces[..i];
      i := i + 1;
    }
    assert faces[..i] == faces;
  }

  /** The number of faces that face the viewer. */
  function FacingViewer(s: Settings, normalize: Vec3 -> Vec3, nodes: seq<Vec3>, faces: seq<Face>): nat
    requires FacesFit(nodes, faces)
  {
    if faces == [] then 0
    else (if Dot(FaceNormal(normalize, nodes, faces[0]), s.view) > 0.0 then 1 else 0)
         + FacingViewer(s, normalize, nodes, faces[1..])
  }

  lemma FacesFitParts(nodes: seq<Vec3>, a: seq<Face>, b: seq<Face>)
    requires FacesFit(nodes, a + b)
    ensures FacesFit(nodes, a) && FacesFit(nodes, b)
  {
    assert forall i :: 0 <= i < |a| ==> a[i] == (a + b)[i];
    assert forall i :: 0 <= i < |b| ==> b[i] == (a + b)[|a| + i];
  }

  lemma {:induction false} FacingViewerAppend(s: Settings, normalize: Vec3 -> Vec3, nodes: seq<Vec3>, a: seq<Face>, b: seq<Face>)
    requires FacesFit(nodes, a) && FacesFit(nodes, b) && FacesFit(nodes, a + b)
    ensures FacingViewer(s, normalize, nodes, a + b) == FacingViewer(s, normalize, nodes, a) + FacingViewer(s, normalize, nodes, b)
    decreases |a|
  {
    if a == [] {
      assert a + b == b;
    } else {
      assert (a + b)[0] == a[0] && (a + b)[1..] == a[1..] + b;
      assert a == [a[0]] + a[1..];
      FacesFitParts(nodes, [a[0]], a[1..]);
      FacingViewerAppend(s, normalize, nodes, a[1..], b);
    }
  }

  /** Exactly the faces that face the viewer are drawn, each as a filled polygon through all of
      its nodes. */
  lemma {:induction false} FacePolygons(s: Settings, normalize: Vec3 -> Vec3, nodes: seq<Vec3>, faces: seq<Face>)
    requires FacesFit(nodes, faces)
    ensures |FaceCommands(s, normalize, nodes, faces)| == FacingViewer(s, normalize, nodes, faces)
    ensures forall i :: 0 <= i < |FaceCommands(s, normalize, nodes, faces)| ==>
              FaceCommands(s, normalize, nodes, faces)[i].Polygon? &&
              |FaceCommands(s, normalize, nodes, faces)[i].points| >= 3
    decreases |faces|
  {
    if faces != [] {
      var init, last := faces[..|faces| - 1], faces[|faces| - 1];
      FacePolygons(s, normalize, nodes, init);
      assert faces == init + [last];
      FacingViewerAppend(s, normalize, nodes, init, [last]);
    }
  }

  /** Under light of gains in [0, 1] and face colours in [0, 255], every polygon's colour lies in
      [0, 255], in the shadow branch (ambient, unclipped) as well as the lit one (clipped). */
  lemma {:induction false} FaceColoursInRange(s: Settings, normalize: Vec3 -> Vec3, nodes: seq<Vec3>, faces: seq<Face>)
    requires FacesFit(nodes, faces) && InUnitRange(s.lightColour)
    requires forall i :: 0 <= i < |faces| ==> InChannelRange(faces[i].colour)
    ensures forall i :: 0 <= i < |FaceCommands(s, normalize, nodes, faces)| ==>
              FaceCommands(s, normalize, nodes, faces)[i].Polygon? &&
              InChannelRange(FaceCommands(s, normalize, nodes, faces)[i].colour)
    decreases |faces|
  {
    if faces != [] {
      var last := faces[|faces| - 1];
      FaceColoursInRange(s, normalize, nodes, faces[..|faces| - 1]);
      AmbientInRange(s.lightColour, last.colour);
    }
  }

  // ---- Nodes ----

  /** The draws for the nodes in colour c: a filled circle of the node radius at int(x), int(y). */
  function NodeCommands(nodes: seq<Vec3>, radius: int, c: Vec3): seq<Draw> {
    if nodes == [] then []
    else
      var p := nodes[|nodes| - 1];
      NodeCommands(nodes[..|nodes| - 1], radius, c) + [Circle(c, Trunc(p.x), Trunc(p.y), radius)]
  }

  /** The node loop with `colour` bound to c, or unbound (None): then the first node raises. */
  method DrawNodes(nodes: seq<Vec3>, radius: int, colour: Option<Vec3>) returns (cmds: seq<Draw>, raised: bool)
    ensures raised <==> colour.None? && nodes != []
    ensures cmds == (if colour.Some? then NodeCommands(nodes, radius, colour.value) else [])
  {
    cmds, raised := [], false;
    var i := 0;
    while i < |nodes|
      invariant 0 <= i <= |nodes|
      invariant colour.None? ==> i == 0
      invariant cmds == (if colour.Some? then NodeCommands(nodes[..i], radius, colour.value) else [])
    {
      if colour.None? {
        raised := true;
        return;
      }
      var p := nodes[i];
      cmds := cmds + [Circle(colour.value, Trunc(p.x), Trunc(p.y), radius)];
      assert nodes[..i + 1][..i] == nodes[..i];
      i := i + 1;
    }
    assert nodes[..i] == nodes;
  }

  /** One circle per node, in node order, in colour c, centred on the node's coordinates truncated
      toward 0. */
  lemma {:induction false} NodeCircles(nodes: seq<Vec3>, radius: int, c: Vec3)
    ensures |NodeCommands(nodes, radius, c)| == |nodes|
    ensures forall i :: 0 <= i < |nodes| ==>
              NodeCommands(nodes, radius, c)[i] == Circle(c, Trunc(nodes[i].x), Trunc(nodes[i].y), radius)
    decreases |nodes|
  {
    if nodes != [] {
      NodeCircles(nodes[..|nodes| - 1], radius, c);
    }
  }

  // ---- One mesh, one frame ----

  /** display part-way through a frame: the draws made so far and its local `colour` (None while
      unbound), or the draws made before UnboundLocalError stopped it. */
  datatype Progress = Going(cmds: seq<Draw>, colour: Option<Vec3>) | Stopped(cmds: seq<Draw>)

  /** What display's loop body does for one mesh, from `colour` as the meshes before left it: the
      draws it makes, `colour` after it, and whether it raised. */
  datatype MeshOutcome = MeshOutcome(draws: seq<Draw>, colour: Option<Vec3>, raised: bool)

  /** The body of display's loop for one mesh: faces, then (inside the faces block) edges, then
      nodes, each under its flag. The edge or node loop raises if it draws while `colour` is
      unbound. */
  function MeshPass(s: Settings, normalize: Vec3 -> Vec3, colour: Option<Vec3>, w: Wireframe): MeshOutcome
    requires WellFormed(w)
  {
    var polygons := if s.displayFaces then FaceCommands(s, normalize, w.nodes, w.faces) else [];
    var c := if s.displayFaces then AfterFaceLoop(w.faces, colour) else colour;
    var edges := s.displayFaces && s.displayEdges;
    if edges && c.None? && SomeEdgeShown(s, w.nodes, w.edges) then MeshOutcome(polygons, c, true)
    else
      var lines := if edges && c.Some? then EdgeCommands(s, w.nodes, w.edges, c.value) else [];
      if s.displayNodes && c.None? && w.nodes != [] then MeshOutcome(polygons + lines, c, true)
      else
        var circles := if s.displayNodes && c.Some? then NodeCommands(w.nodes, s.nodeRadius, c.value) else [];
        MeshOutcome(polygons + lines + circles, c, false)
  }

  /** display after one more mesh. */
  function MeshStep(s: Settings, normalize: Vec3 -> Vec3, p: Progress, w: Wireframe): Progress
    requires WellFormed(w)
  {
    match p
    case Stopped(_) => p
    case Going(cmds, colour) =>
      var o := MeshPass(s, normalize, colour, w);
      if o.raised then Stopped(cmds + o.draws) else Going(cmds + o.draws, o.colour)
  }

  /** display's loop body for one mesh, from `colour` as the earlier meshes left it. */
  method DrawMesh(s: Settings, normalize: Vec3 -> Vec3, colour: Option<Vec3>, w: Wireframe) returns (o: MeshOutcome)
    requires WellFormed(w)
    ensures o == MeshPass(s, normalize, colour, w)
  {
    var cmds, c := [], colour;
    if s.displayFaces {
      cmds, c := DrawFaces(s, normalize, w.nodes, w.faces, c);
    }
    assert cmds == (if s.displayFaces then FaceCommands(s, normalize, w.nodes, w.faces) else []);
    assert c == (if s.displayFaces then AfterFaceLoop(w.faces, colour) else colour);
    if s.displayFaces {
      if s.displayEdges {
        var lines, raised := DrawEdges(s, w.nodes, w.edges, c);
        if raised {
          return MeshOutcome(cmds, c, true);
        }
        cmds := cmds + lines;
      }
    }
    if s.displayNodes {
      var circles, raised := DrawNodes(w.nodes, s.nodeRadius, c);
      if raised {
        return MeshOutcome(cmds, c, true);
      }
      cmds := cmds + circles;
    }
    o := MeshOutcome(cmds, c, false);
  }

  /** Every name listed in the dict has a well-formed mesh. */
  predicate MeshesFit(meshes: Dict<Wireframe>) {
    forall n :: n in meshes.keys ==> n in meshes.values && WellFormed(meshes.values[n])
  }

  /** display after the background fill and the meshes named, in that order; `colour` starts
      unbound. */
  function MeshesProgress(s: Settings, normalize: Vec3 -> Vec3, meshes: Dict<Wireframe>, names: seq<string>): Progress
    requires forall n :: n in names ==> n in meshes.values && WellFormed(meshes.values[n])
  {
    if names == [] then Going([Fill(s.background)], None)
    else
      var last := names[|names| - 1];
      MeshStep(s, normalize, MeshesProgress(s, normalize, meshes, names[..|names| - 1]), meshes.values[last])
  }

  /** What one call of display does: draw a frame and show it with the flip, or raise
      UnboundLocalError after the draws listed, with no flip. */
  datatype Frame = Shown(cmds: seq<Draw>) | Raised(cmds: seq<Draw>)

  /** A whole frame: fill with the background, draw the meshes in the dict's key order, flip. */
  function FrameOf(s: Settings, normalize: Vec3 -> Vec3, meshes: Dict<Wireframe>): Frame
    requires MeshesFit(meshes)
  {
    match MeshesProgress(s, normalize, meshes, meshes.keys)
    case Going(cmds, _) => Shown(cmds + [Flip])
    case Stopped(cmds) => Raised(cmds)
  }

  lemma MeshesProgressStep(s: Settings, normalize: Vec3 -> Vec3, meshes: Dict<Wireframe>, i: nat)
    requires MeshesFit(meshes) && i < |meshes.keys|
    ensures MeshesProgress(s, normalize, meshes, meshes.keys[..i + 1]) ==
              MeshStep(s, normalize, MeshesProgress(s, normalize, meshes, meshes.keys[..i]), meshes.values[meshes.keys[i]])
  {
    assert meshes.keys[..i + 1][..i] == meshes.keys[..i];
  }

  lemma MeshStepGoing(s: Settings, normalize: Vec3 -> Vec3, p: Progress, w: Wireframe, o: MeshOutcome)
    requires WellFormed(w) && p.Going? && o == MeshPass(s, normalize, p.colour, w)
    ensures MeshStep(s, normalize, p, w) == if o.raised then Stopped(p.cmds + o.draws) else Going(p.cmds + o.draws, o.colour)
  {
  }

  /** Once display has raised, the remaining meshes change nothing. */
  lemma {:induction false} StoppedStays(s: Settings, normalize: Vec3 -> Vec3, meshes: Dict<Wireframe>, names: seq<string>, i: nat)
    requires forall n :: n in names ==> n in meshes.values && WellFormed(meshes.values[n])
    requires i <= |names| && MeshesProgress(s, normalize, meshes, names[..i]).Stopped?
    ensures MeshesProgress(s, normalize, meshes, names) == MeshesProgress(s, normalize, meshes, names[..i])
    decreases |names|
  {
    if i < |names| {
      var init := names[..|names| - 1];
      assert init[..i] == names[..i];
      StoppedStays(s, normalize, meshes, init, i);
    } else {
      assert names[..i] == names;
    }
  }

  /** display's loop over the meshes, in the dict's key order, between the fill and the flip; an
      UnboundLocalError ends it early. */
  method DrawFrame(s: Settings, normalize: Vec3 -> Vec3, meshes: Dict<Wireframe>) returns (frame: Frame)
    requires MeshesFit(meshes)
    ensures frame == FrameOf(s, normalize, meshes)
  {
    var p := Going([Fill(s.background)], None);
    var i := 0;
    while i < |meshes.keys| && p.Going?
      invariant 0 <= i <= |meshes.keys|
      invariant p == MeshesProgress(s, normalize, meshes, meshes.keys[..i])
    {
      var w := meshes.values[meshes.keys[i]];
      var o := DrawMesh(s, normalize, p.colour, w);
      MeshesProgressStep(s, normalize, meshes, i);
      MeshStepGoing(s, normalize, p, w, o);
      p := if o.raised then Stopped(p.cmds + o.draws) else Going(p.cmds + o.draws, o.colour);
      i := i + 1;
    }
    if p.Stopped? {
      StoppedStays(s, normalize, meshes, meshes.keys, i);
      frame := Raised(p.cmds);
    } else {
      assert meshes.keys[..i] == meshes.keys;
      frame := Shown(p.cmds + [Flip]);
    }
  }

  // ---- When display raises ----

  /** The face loop of mesh w binds `colour`. */
  predicate BindsColour(s: Settings, w: Wireframe) {
    s.displayFaces && w.faces != []
  }

  /** Mesh w reads `colour`: it draws an edge or a node. */
  predicate NeedsColour(s: Settings, w: Wireframe)
    requires WellFormed(w)
  {
    (s.displayFaces && s.displayEdges && SomeEdgeShown(s, w.nodes, w.edges)) || (s.displayNodes && w.nodes != [])
  }

  /** The i-th mesh named reads `colour`, and no face loop up to and including its own has bound it. */
  predicate RaisesAt(s: Settings, meshes: Dict<Wireframe>, names: seq<string>, i: nat)
    requires forall n :: n in names ==> n in meshes.values && WellFormed(meshes.values[n])
    requires i < |names|
  {
    NeedsColour(s, meshes.values[names[i]]) && forall j :: 0 <= j <= i ==> !BindsColour(s, meshes.values[names[j]])
  }

  predicate RaisesIn(s: Settings, meshes: Dict<Wireframe>, names: seq<string>)
    requires forall n :: n in names ==> n in meshes.values && WellFormed(meshes.values[n])
  {
    exists i :: 0 <= i < |names| && RaisesAt(s, meshes, names, i)
  }

  /** display raises exactly when, in key order, some mesh draws an edge or a node before any mesh
      has visited a face. */
  predicate FrameRaises(s: Settings, meshes: Dict<Wireframe>)
    requires MeshesFit(meshes)
  {
    RaisesIn(s, meshes, meshes.keys)
  }

  lemma MeshPassColour(s: Settings, normalize: Vec3 -> Vec3, colour: Option<Vec3>, w: Wireframe)
    requires WellFormed(w)
    ensures MeshPass(s, normalize, colour, w).raised <==> colour.None? && !BindsColour(s, w) && NeedsColour(s, w)
    ensures MeshPass(s, normalize, colour, w).colour.None? <==> colour.None? && !BindsColour(s, w)
  {
  }

  lemma RaisesAtPrefix(s: Settings, meshes: Dict<Wireframe>, names: seq<string>, i: nat)
    requires forall n :: n in names ==> n in meshes.values && WellFormed(meshes.values[n])
    requires i < |names| - 1
    ensures RaisesAt(s, meshes, names, i) == RaisesAt(s, meshes, names[..|names| - 1], i)
  {
    var init := names[..|names| - 1];
    assert forall j :: 0 <= j <= i ==> names[j] == init[j];
  }

  /** Along the meshes, display has raised exactly when RaisesIn says so, and while it goes on,
      `colour` is unbound exactly when no face loop so far has bound it. */
  lemma {:induction false} ProgressColour(s: Settings, normalize: Vec3 -> Vec3, meshes: Dict<Wireframe>, names: seq<string>)
    requires forall n :: n in names ==> n in meshes.values && WellFormed(meshes.values[n])
    ensures MeshesProgress(s, normalize, meshes, names).Stopped? <==> RaisesIn(s, meshes, names)
    ensures MeshesProgress(s, normalize, meshes, names).Going? ==>
              (MeshesProgress(s, normalize, meshes, names).colour.None? <==>
               forall j :: 0 <= j < |names| ==> !BindsColour(s, meshes.values[names[j]]))
    decreases |names|
  {
    if names != [] {
      var init, last := names[..|names| - 1], names[|names| - 1];
      var w := meshes.values[last];
      ProgressColour(s, normalize, meshes, init);
      var p := MeshesProgress(s, normalize, meshes, init);
      assert forall j :: 0 <= j < |init| ==> init[j] == names[j];
      forall i | 0 <= i < |init|
        ensures RaisesAt(s, meshes, names, i) == RaisesAt(s, meshes, init, i)
      {
        RaisesAtPrefix(s, meshes, names, i);
      }
      if p.Going? {
        MeshPassColour(s, normalize, p.colour, w);
        if RaisesAt(s, meshes, names, |init|) {
          assert RaisesIn(s, meshes, names);
        }
      }
    }
  }

  /** display raises UnboundLocalError exactly when some mesh, in key order, draws an edge or a
      node before any face loop has bound `colour`. */
  lemma FrameRaisesIff(s: Settings, normalize: Vec3 -> Vec3, meshes: Dict<Wireframe>)
    requires MeshesFit(meshes)
    ensures FrameOf(s, normalize, meshes).Raised? <==> FrameRaises(s, meshes)
  {
    ProgressColour(s, normalize, meshes, meshes.keys);
  }

  /** Whether display raises does not depend on the light. */
  lemma RaisesIgnoresLight(s: Settings, light: Vec3, meshes: Dict<Wireframe>)
    requires MeshesFit(meshes)
    ensures FrameRaises(s.(light := light), meshes) == FrameRaises(s, meshes)
  {
    var s' := s.(light := light);
    forall w | WellFormed(w)
      ensures NeedsColour(s', w) == NeedsColour(s, w) && BindsColour(s', w) == BindsColour(s, w)
    {
      assert forall i :: 0 <= i < |w.edges| ==> EdgeShown(s', w.nodes, w.edges[i]) == EdgeShown(s, w.nodes, w.edges[i]);
    }
    forall i | 0 <= i < |meshes.keys|
      ensures RaisesAt(s', meshes, meshes.keys, i) == RaisesAt(s, meshes, meshes.keys, i)
    {
    }
  }

  /** If the first mesh has a face and faces are shown, `colour` is bound before anything reads it:
      display never raises. */
  lemma FirstFaceBinds(s: Settings, normalize: Vec3 -> Vec3, meshes: Dict<Wireframe>)
    requires MeshesFit(meshes) && s.displayFaces && |meshes.keys| > 0
    requires meshes.keys[0] in meshes.values && meshes.values[meshes.keys[0]].faces != []
    ensures FrameOf(s, normalize, meshes).Shown?
  {
    FrameRaisesIff(s, normalize, meshes);
    assert !FrameRaises(s, meshes) by {
      forall i | 0 <= i < |meshes.keys|
        ensures !RaisesAt(s, meshes, meshes.keys, i)
      {
        assert BindsColour(s, meshes.values[meshes.keys[0]]);
      }
    }
  }

  /** With faces and edges shown and perspective off, a first mesh without faces but with an edge
      makes display raise at that edge, after the background fill alone. */
  lemma EdgeBeforeAnyFace(s: Settings, normalize: Vec3 -> Vec3, meshes: Dict<Wireframe>)
    requires MeshesFit(meshes) && s.displayFaces && s.displayEdges && s.perspective == 0.0 && |meshes.keys| > 0
    requires meshes.keys[0] in meshes.values
    requires meshes.values[meshes.keys[0]].faces == [] && meshes.values[meshes.keys[0]].edges != []
    ensures FrameOf(s, normalize, meshes) == Raised([Fill(s.background)])
  {
    var w := meshes.values[meshes.keys[0]];
    assert EdgeShown(s, w.nodes, w.edges[0]);
    MeshesProgressStep(s, normalize, meshes, 0);
    assert meshes.keys[..0] == [];
    StoppedStays(s, normalize, meshes, meshes.keys, 1);
  }

  /** With faces hidden `colour` is never bound: no polygon or line is drawn, and display raises,
      after the background fill alone, exactly when nodes are shown and some mesh has a node;
      otherwise the frame is the fill and the flip. */
  lemma FacesHidden(s: Settings, normalize: Vec3 -> Vec3, meshes: Dict<Wireframe>)
    requires MeshesFit(meshes) && !s.displayFaces
    ensures FrameOf(s, normalize, meshes) ==
              if s.displayNodes && exists i :: 0 <= i < |meshes.keys| && meshes.values[meshes.keys[i]].nodes != []
              then Raised([Fill(s.background)])
              else Shown([Fill(s.background), Flip])
  {
    FacesHiddenProgress(s, normalize, meshes, meshes.keys);
  }

  lemma {:induction false} FacesHiddenProgress(s: Settings, normalize: Vec3 -> Vec3, meshes: Dict<Wireframe>, names: seq<string>)
    requires forall n :: n in names ==> n in meshes.values && WellFormed(meshes.values[n])
    requires !s.displayFaces
    ensures MeshesProgress(s, normalize, meshes, names) ==
              if s.displayNodes && exists i :: 0 <= i < |names| && meshes.values[names[i]].nodes != []
              then Stopped([Fill(s.background)])
              else Going([Fill(s.background)], None)
    decreases |names|
  {
    if names != [] {
      var init := names[..|names| - 1];
      FacesHiddenProgress(s, normalize, meshes, init);
      assert forall j :: 0 <= j < |init| ==> init[j] == names[j];
      assert [Fill(s.background)] + [] + [] == [Fill(s.background)];
    }
  }

  /** Every line and circle in the sequence is drawn in colour c. */
  predicate DrawnIn(c: Vec3, cs: seq<Draw>) {
    forall i :: 0 <= i < |cs| && (cs[i].Line? || cs[i].Circle?) ==> cs[i].colour == c
  }

  lemma DrawnInJoin(c: Vec3, a: seq<Draw>, b: seq<Draw>)
    requires DrawnIn(c, a) && DrawnIn(c, b)
    ensures DrawnIn(c, a + b)
  {
  }

  /** The polygons of a mesh, then its lines and circles in colour c, draw every line and circle
      in c. */
  lemma DrawnInColour(s: Settings, normalize: Vec3 -> Vec3, w: Wireframe, c: Vec3)
    requires WellFormed(w)
    ensures DrawnIn(c, FaceCommands(s, normalize, w.nodes, w.faces)
                       + (if s.displayEdges then EdgeCommands(s, w.nodes, w.edges, c) else [])
                       + (if s.displayNodes then NodeCommands(w.nodes, s.nodeRadius, c) else []))
  {
    var polygons := FaceCommands(s, normalize, w.nodes, w.faces);
    var lines := if s.displayEdges then EdgeCommands(s, w.nodes, w.edges, c) else [];
    var circles := if s.displayNodes then NodeCommands(w.nodes, s.nodeRadius, c) else [];
    FacePolygons(s, normalize, w.nodes, w.faces);
    assert DrawnIn(c, polygons);
    if s.displayEdges {
      if s.perspective == 0.0 {
        EdgeLinesFlat(s, w.nodes, w.edges, c);
      } else {
        EdgeLinesPerspective(s, w.nodes, w.edges, c);
      }
    }
    assert DrawnIn(c, lines);
    if s.displayNodes {
      NodeCircles(w.nodes, s.nodeRadius, c);
    }
    assert DrawnIn(c, circles);
    DrawnInJoin(c, polygons, lines);
    DrawnInJoin(c, polygons + lines, circles);
  }

  /** Every line and circle of a mesh whose face loop runs is drawn in the colour of its last face
      (the last of sortedFaces()), whatever the meshes before it left in `colour`; such a mesh
      never raises. */
  lemma LastFaceColour(s: Settings, normalize: Vec3 -> Vec3, colour: Option<Vec3>, w: Wireframe)
    requires WellFormed(w) && s.displayFaces && w.faces != []
    ensures var o := MeshPass(s, normalize, colour, w);
            !o.raised && o.colour == Some(w.faces[|w.faces| - 1].colour) &&
            DrawnIn(w.faces[|w.faces| - 1].colour, o.draws)
  {
    var c := w.faces[|w.faces| - 1].colour;
    assert AfterFaceLoop(w.faces, colour) == Some(c);
    DrawnInColour(s, normalize, w, c);
  }

  // ---- What a frame is made of ----

  /** A draw made for a mesh, as opposed to the fill and the flip that bracket a frame. */
  predicate MeshDraw(c: Draw) {
    c.Polygon? || c.Line? || c.Circle?
  }

  /** Every draw in the sequence is made for a mesh. */
  predicate MeshDraws(cs: seq<Draw>) {
    forall i :: 0 <= i < |cs| ==> MeshDraw(cs[i])
  }

  lemma MeshDrawsJoin(a: seq<Draw>, b: seq<Draw>)
    requires MeshDraws(a) && MeshDraws(b)
    ensures MeshDraws(a + b)
  {
  }

  lemma EdgeLinesOnly(s: Settings, nodes: seq<Vec3>, edges: seq<(nat, nat)>, c: Vec3)
    requires EdgesFit(nodes, edges)
    ensures MeshDraws(EdgeCommands(s, nodes, edges, c))
  {
    if s.perspective == 0.0 {
      EdgeLinesFlat(s, nodes, edges, c);
    } else {
      EdgeLinesPerspective(s, nodes, edges, c);
    }
  }

  /** A mesh's pass draws only polygons, lines and circles. */
  lemma MeshPassDraws(s: Settings, normalize: Vec3 -> Vec3, colour: Option<Vec3>, w: Wireframe)
    requires WellFormed(w)
    ensures MeshDraws(MeshPass(s, normalize, colour, w).draws)
  {
    var c := if s.displayFaces then AfterFaceLoop(w.faces, colour) else colour;
    var polygons := if s.displayFaces then FaceCommands(s, normalize, w.nodes, w.faces) else [];
    var lines := if s.displayFaces && s.displayEdges && c.Some? then EdgeCommands(s, w.nodes, w.edges, c.value) else [];
    var circles := if s.displayNodes && c.Some? then NodeCommands(w.nodes, s.nodeRadius, c.value) else [];
    FacePolygons(s, normalize, w.nodes, w.faces);
    if c.Some? {
      EdgeLinesOnly(s, w.nodes, w.edges, c.value);
      NodeCircles(w.nodes, s.nodeRadius, c.value);
    }
    assert MeshDraws(polygons) && MeshDraws(lines) && MeshDraws(circles);
    MeshDrawsJoin(polygons, lines);
    MeshDrawsJoin(polygons + lines, circles);
  }

  /** The draws so far: the background fill, then draws made for meshes. */
  predicate Bracketed(background: Vec3, cmds: seq<Draw>) {
    |cmds| >= 1 && cmds[0] == Fill(background) && MeshDraws(cmds[1..])
  }

  lemma {:induction false} ProgressBracketed(s: Settings, normalize: Vec3 -> Vec3, meshes: Dict<Wireframe>, names: seq<string>)
    requires forall n :: n in names ==> n in meshes.values && WellFormed(meshes.values[n])
    ensures Bracketed(s.background, MeshesProgress(s, normalize, meshes, names).cmds)
    decreases |names|
  {
    if names != [] {
      var init := names[..|names| - 1];
      ProgressBracketed(s, normalize, meshes, init);
      var p := MeshesProgress(s, normalize, meshes, init);
      if p.Going? {
        var q := MeshesProgress(s, normalize, meshes, names);
        var d := MeshPass(s, normalize, p.colour, meshes.values[names[|names| - 1]]).draws;
        MeshPassDraws(s, normalize, p.colour, meshes.values[names[|names| - 1]]);
        assert q.cmds == p.cmds + d;
        assert q.cmds[1..] == p.cmds[1..] + d;
        MeshDrawsJoin(p.cmds[1..], d);
      }
    }
  }

  /** Every frame opens with the one background fill, and everything after it is a polygon, a line
      or a circle, except that a frame that is shown closes with the one flip. */
  lemma FrameBracketed(s: Settings, normalize: Vec3 -> Vec3, meshes: Dict<Wireframe>)
    requires MeshesFit(meshes)
    ensures var r := FrameOf(s, normalize, meshes).cmds;
            |r| >= 1 && r[0] == Fill(s.background)
    ensures var r := FrameOf(s, normalize, meshes).cmds;
            FrameOf(s, normalize, meshes).Shown? ==>
              |r| >= 2 && r[|r| - 1] == Flip && forall i :: 0 < i < |r| - 1 ==> MeshDraw(r[i])
    ensures var r := FrameOf(s, normalize, meshes).cmds;
            FrameOf(s, normalize, meshes).Raised? ==> forall i :: 0 < i < |r| ==> MeshDraw(r[i])
  {
    var body := MeshesProgress(s, normalize, meshes, meshes.keys).cmds;
    ProgressBracketed(s, normalize, meshes, meshes.keys);
    assert forall i :: 0 < i < |body| ==> body[i] == body[1..][i - 1];
    var r := FrameOf(s, normalize, meshes).cmds;
    assert forall i :: 0 <= i < |body| ==> r[i] == body[i];
  }
}
