# WireframeViewer in Dafny

This project models the decision and bookkeeping layer of `WireframeViewer` in `lab-08.py`, a
pygame viewer that shades and draws wireframe meshes and lets the user turn the light with the
keyboard. It covers six pieces of the viewer:

- **rotation_matrix**: which single-axis 4x4 matrix is chosen by priority x, then y, then z, or
  the `"error"` sentinel when all angles are zero. Its fixed 0/1 entries, and how the matrix acts
  on a vector through `np.matmul(m, [*v, 1])[:3]`.
- **The mesh registry**: `addWireframe` and `addWireframeGroup` update two parallel dicts,
  `wireframes` and `wireframe_colours`.
- **keyEvent**: six keys each turn the light by ±10 degrees about one axis; every other key is a
  no-op.
- **The per-face decisions of display**:
  - back-face culling;
  - a shadow face gets the ambient term only;
  - a lit face gets the clipped ambient + diffuse + specular sum.
- **What display draws**:
  - one frame is a background fill, then per mesh its polygons, lines and circles, then a flip;
  - lines and circles are drawn in display's local `colour`, which only the face loop binds;
    drawing one while it is unbound raises UnboundLocalError and ends the frame before the flip;
  - the perspective edge test and projection;
  - each of display's loops is a method proved against a specification function.
- **run**: the event loop. KEYDOWN stores the held key and KEYUP releases it. QUIT stops the loop
  after the pass that handled it. A truthy held key turns the light once per frame. A frame that
  raises UnboundLocalError ends run.

Modules, one per file:

- `Geometry`: 3-vectors and the numpy operations used on them.
- `Transform`: rotation_matrix and matrix application.
- `Dicts`: Python dicts with insertion order.
- `Mesh`: faces and wireframes.
- `MeshRegistry`: the two dicts.
- `Lighting`: culling and shading.
- `Render`: draw commands and display's loops.
- `Input`: keys and events.
- `Viewer`: the `WireframeViewer` class and the specification of `run`.

Parameters stand for the parts of numpy and pygame whose code is not part of this model:

- **Trigonometry**: `np.cos(np.radians(a))` and `np.sin(np.radians(a))` are the two fields of a
  `Trig` value.
- **Normalisation**: `v / np.linalg.norm(v)` is the function `normalize`.
- **Event polling**: `run` receives its events as a list of batches, one per call of
  `pygame.event.get()`.

Numbers are Dafny reals, not floats. Python's `int()` on a float is truncation toward zero
(`Geometry.Trunc`). `width / 2` is true division.

Behaviour of the code worth noting:

- **Edges need faces.** The edge loop is nested inside `if self.displayFaces` (lab-08.py:86, 114).
  Edges are therefore drawn only when faces are displayed too (`Render.FacesHidden`).
- **Lines and circles borrow a face colour.** Edges and nodes are drawn in `colour`, the variable
  the face loop binds to each face's colour in turn (lab-08.py:87, 126, 128, 132). A mesh's lines
  and circles therefore take the colour of its last sorted face (`Render.LastFaceColour`), or of
  the last face of an earlier mesh if it has none. `wireframe_colours` is never read, so setting a
  mesh's colour to None does not hide it, contrary to the comment at lab-08.py:72.
- **UnboundLocalError.** If a line or a circle is drawn before any face loop has run, `colour` is
  unbound and display raises. This happens with faces hidden and a mesh with a node shown, or when
  the first mesh drawing an edge or a node comes before every mesh with a face
  (`Render.FrameRaisesIff`, `Render.FacesHidden`, `Render.EdgeBeforeAnyFace`). The exception leaves
  run, so that frame, never flipped, is the last (`Viewer.RunStopsAfterRaise`).
- **Per-mesh order.** Faces, edges and nodes are drawn mesh by mesh, not in three passes over all
  meshes.
- **No perspective for polygons or nodes.** Face polygons and node circles are drawn at the nodes'
  raw x and y. Only edges are perspective-projected.
- **A sentinel, not an exception.** rotation_matrix returns the string `"error"` for three zero
  angles instead of raising.
- **No zero-normal check.** Nothing guards a zero-length normal.
- **Fixed gains.** The shading gains 0.1, 0.45 and 0.45 and the shininess 4 are fixed in the code.
- **Any KEYUP releases.** A KEYUP of any key releases the held key, not only a KEYUP of the key
  that is held.

## Model

| member | source | states |
|---|---|---|
| `Geometry.Clip` | lab-08.py:111 | np.clip(…, 0, 255) channel by channel: a channel in [0, 255] is kept, one above 255 becomes 255, one below 0 becomes 0; so the result is in range, and a colour already in range is unchanged |
| `Geometry.Trunc` | lab-08.py:132 | int(x) truncates toward zero: the result is within 1 of x, on the side of 0 |
| `Transform.AxisMatrix` | lab-08.py:45-66 | each branch's matrix is 4x4, has last row and column [0,0,0,1], and has the unit vector as the row and column of its own axis |
| `Transform.RotationMatrix` | lab-08.py:41-68 | x ≠ 0 gives the x matrix whatever y and z are; y is used only when x = 0, and z only when x = y = 0; the "error" sentinel is returned exactly when all three are 0 |
| `Transform.ApplyKeepsAxis` | lab-08.py:45-66 | a matrix of that shape leaves the axis coordinate of the rotated vector unchanged |
| `Transform.AxisMatrixAction` | lab-08.py:45-66 | applying a branch's matrix turns the vector by (cos, sin) in the plane of the two other axes |
| `Transform.RotationKeepsLength` | lab-08.py:45-66 | if cos² + sin² = 1, the rotation keeps the squared length of every vector |
| `Transform.RotationUndone` | lab-08.py:45-66 | turning by an angle and then by its negative about the same axis restores the vector (cos even, sin odd, cos² + sin² = 1) |
| `Dicts.Insert` | lab-08.py:71 | `d[k] = v`: k maps to v; other keys keep membership and value; an existing key keeps its place, a new key goes last; the dict stays well-formed |
| `Dicts.Empty` | lab-08.py:20-21 | `{}` is a well-formed dict with no entries |
| `MeshRegistry.AddWireframe` | lab-08.py:70-73 | the name maps to the mesh and to (250,250,250), overwriting; every other name keeps both entries; the two dicts keep equal keys; a new name is appended to the key order (the order display draws in), and an overwritten one keeps its place |
| `MeshRegistry.AddAllKeepsValid` | lab-08.py:75-78 | every prefix of the group loop keeps the two dicts well-formed with equal keys |
| `MeshRegistry.AddAllMerges` | lab-08.py:75-78 | after the names visited so far, each visited name has the group's mesh and the default colour, and every other name keeps its entries |
| `MeshRegistry.AddAllKeys` | lab-08.py:75-78 | the loop keeps the old names in place and appends each name not yet present, in the order visited |
| `MeshRegistry.AddGroupMerges` | lab-08.py:75-78 | after addWireframeGroup the mesh dict is the old one overridden by the group's; group names get the default colour; other names keep their entries; the dicts stay parallel; the key order (the order display draws in) is the old keys, then the group's new names in the group's order |
| `Lighting.Shade` | lab-08.py:93-112 | culled exactly when dot(normal, view) ≤ 0; in shadow (dot(normal, light) < 0) exactly the ambient term; otherwise the clipped Phong sum, every channel in [0, 255] |
| `Lighting.AmbientInRange` | lab-08.py:97-98 | with light gains in [0, 1] and a colour in [0, 255], the unclipped ambient colour of the shadow branch lies in [0, 255] |
| `Lighting.ClippedSumNoDarker` | lab-08.py:111 | adding non-negative diffuse and specular light to an in-range ambient colour and clipping never lowers a channel |
| `Lighting.LitNoDarkerThanShadow` | lab-08.py:97-111 | a lit face is never darker in any channel than the same face in shadow |
| `Lighting.TriangleNormalUp` | lab-08.py:88-92 | the triangle (0,0,0), (1,0,0), (0,1,0) wound 0,1,2 has normal (0,0,1) |
| `Lighting.TriangleNormalDown` | lab-08.py:88-92 | wound 0,2,1, the same triangle has normal (0,0,-1) |
| `Lighting.CulledTriangle` | lab-08.py:88-96 | the triangle wound 0,1,2, seen along (0,0,-1), is culled whatever the light |
| `Lighting.HeadOnHighlight` | lab-08.py:108-109 | for any unit normal, light along it reflects onto itself, and a view along it gets the full highlight factor 1 |
| `Lighting.FullHighlight` | lab-08.py:109 | at full highlight the specular term is 0.45 · light colour · colour |
| `Lighting.ClippedHighlight` | lab-08.py:106-112 | with the normal, the light and the view all (0,0,-1), white light on a face of colour (400,400,400) sums to 400 per channel, and the clip fills the face with (255,255,255) |
| `Lighting.LitTriangle` | lab-08.py:88-112 | the triangle wound 0,2,1, lit and seen along (0,0,-1) in white light with colour (100,100,100), is filled with 45 + 10 + 45 = 100 per channel |
| `Render.Factor` | lab-08.py:118 | d / (d + z) times (d + z) gives d back, for a node in front of the eye |
| `Render.Project` | lab-08.py:118-124 | the projected offset from the screen centre satisfies offset · (d + z) = d · raw offset, for x with the width and y with the height; a node at z = 0 projects to its own (x, y) |
| `Render.ProjectionShrinks` | lab-08.py:118-124 | with d > 0, a node at z ≥ 0 is drawn no farther from the screen centre than without perspective |
| `Render.DrawEdges` | lab-08.py:114-128 | with `colour` bound, the edge loop draws exactly the lines EdgeCommands specifies, in that colour; with it unbound it draws nothing and raises exactly when some edge would be drawn |
| `Render.EdgeLinesFlat` | lab-08.py:127-128 | without perspective every edge gives one line, in order, between its endpoints' raw x and y |
| `Render.EdgeLinesPerspective` | lab-08.py:116-126 | with perspective, the number of lines equals the number of edges with both endpoints at z > -d, and every draw is a line in the given colour |
| `Render.EdgeLinesAllInFront` | lab-08.py:116-126 | with perspective and every node in front of the eye, each edge gives a line between its projected endpoints |
| `Render.DrawFaces` | lab-08.py:87-112 | the face loop draws exactly the polygons FaceCommands specifies, and leaves `colour` bound to the last face's colour (unchanged if there is no face) |
| `Render.FacePolygons` | lab-08.py:87-112 | one filled polygon per face facing the viewer and none for the rest; each polygon has at least 3 points |
| `Render.FaceColoursInRange` | lab-08.py:97-112 | with light gains in [0, 1] and face colours in [0, 255], every polygon colour lies in [0, 255], in both branches |
| `Render.DrawNodes` | lab-08.py:130-132 | with `colour` bound, the node loop draws exactly the circles NodeCommands specifies; with it unbound it raises exactly when there is a node |
| `Render.NodeCircles` | lab-08.py:130-132 | one circle per node, in order, in the given colour, at (int(x), int(y)) with the node radius |
| `Render.DrawMesh` | lab-08.py:84-132 | one mesh's pass is MeshPass: faces, then (inside the faces block) edges, then nodes, each under its flag, stopping at the first line or circle drawn while `colour` is unbound |
| `Render.DrawFrame` | lab-08.py:80-134 | display's loop over the meshes in dict order gives FrameOf: the fill, the meshes' draws and the flip, or the draws made before UnboundLocalError, with no flip |
| `Render.StoppedStays` | lab-08.py:80-134 | once display has raised, the remaining meshes draw nothing |
| `Render.FrameRaisesIff` | lab-08.py:83-132 | display raises exactly when, in key order, some mesh draws an edge or a node before any face loop has bound `colour` |
| `Render.RaisesIgnoresLight` | lab-08.py:83-132 | whether display raises does not depend on the light vector |
| `Render.FirstFaceBinds` | lab-08.py:86-87 | with faces shown and a first mesh that has a face, display never raises |
| `Render.EdgeBeforeAnyFace` | lab-08.py:86-128 | with faces and edges shown and no perspective, a first mesh with an edge but no face makes display raise after the fill alone |
| `Render.FacesHidden` | lab-08.py:86-132 | with faces hidden no polygon or line is drawn; display raises after the fill exactly when nodes are shown and some mesh has a node, and otherwise draws just the fill and the flip |
| `Render.LastFaceColour` | lab-08.py:87-132 | a mesh whose face loop runs never raises, and all its lines and circles take the colour of its last sorted face |
| `Render.MeshPassDraws` | lab-08.py:84-132 | every draw made for a mesh is a polygon, a line or a circle |
| `Render.FrameBracketed` | lab-08.py:80-134 | every frame starts with the one fill, with only mesh draws after it; a shown frame ends with the one flip |
| `Input.LightAfterKey` | lab-08.py:136-161 | a, d turn the light by +10, -10 degrees about y; w, s by -10, +10 about x; q, e by -10, +10 about z; any other key leaves it unchanged |
| `Input.KeyKeepsAxis` | lab-08.py:136-161 | a handled key keeps the light's coordinate along its own axis |
| `Input.KeyPairsCancel` | lab-08.py:136-161 | a key followed by its opposite (a/d, w/s, q/e, either order) restores the light |
| `Input.KeyKeepsLength` | lab-08.py:136-161 | every key keeps the light's length, so a unit light stays a unit light |
| `Input.HandleEvents` | lab-08.py:169-175 | the event loop over a batch ends in the state AfterEvents specifies |
| `Input.RunningAfterEvents` | lab-08.py:169-171 | running stays true after a batch exactly when it was true and the batch has no QUIT |
| `Input.HeldWithoutKeyEvents` | lab-08.py:172-175 | a batch without KEYDOWN or KEYUP keeps the held key |
| `Input.LastKeyEventWins` | lab-08.py:172-175 | the last key event of a batch decides the held key: its key for KEYDOWN, released for KEYUP |
| `Viewer.RunFromDone` | lab-08.py:168 | once running is false or the batches run out, no more frames are drawn |
| `Viewer.RunStopsAfterQuit` | lab-08.py:166-180 | if display does not raise and batch i is the first to contain QUIT, exactly i + 1 frames are drawn |
| `Viewer.RunWithoutQuit` | lab-08.py:168-180 | if display does not raise and no batch has a QUIT, every batch gets exactly one frame, and it is shown |
| `Viewer.KeyTurnedRaises` | lab-08.py:177-180 | turning the light for a held key does not change whether display raises |
| `Viewer.RunStopsAfterRaise` | lab-08.py:177-180 | if display raises, run draws one frame, which raises, and ends |
| `Viewer.RunKeepsLightLength` | lab-08.py:177-178 | across a whole run the light keeps its length |
| `Viewer.WireframeViewer.constructor` | lab-08.py:13-39 | empty parallel dicts; nodes hidden; edges and faces shown; no perspective; light colour (1,1,1); view and light (0,0,-1); background (10,10,50); node radius 4 |
| `Viewer.WireframeViewer.AddWireframe` | lab-08.py:70-73 | the registry becomes MeshRegistry.AddWireframe of the old one, stays valid, and the display settings are unchanged |
| `Viewer.WireframeViewer.AddWireframeGroup` | lab-08.py:75-78 | the loop leaves the registry as AddGroup of the old one, still valid, with the settings unchanged |
| `Viewer.WireframeViewer.KeyEvent` | lab-08.py:136-161 | the light vector becomes LightAfterKey of the old one; no other field changes |
| `Viewer.WireframeViewer.Display` | lab-08.py:80-134 | the frame is FrameOf the current settings and meshes: shown, or ended by UnboundLocalError |
| `Viewer.WireframeViewer.Pass` | lab-08.py:169-180 | one pass: handle the batch, turn the light if the held key is truthy, draw the frame of the new settings |
| `Viewer.WireframeViewer.Run` | lab-08.py:166-183 | the frames drawn and the final light are those RunFrom gives from a running loop with no key held, a raising frame being the last; the meshes are unchanged |

## Left out

- **pygame I/O** is not modelled: the window, caption, drawing, flip, event polling and `pygame.quit`. Draws are returned as values, and the events are a parameter.
- **Real cos, sin and radians values** are not modelled. The lemmas about rotations assume exact trigonometry; float rounding in `np.matmul` is not modelled.
- **Normalisation.** `np.linalg.norm` (lab-08.py:92) is the parameter `normalize`. A zero-length normal, which gives NaN in the source, is not modelled.
- **Face order.** `wireframe.sortedFaces()`, `self.update()` and `basicShapes.Spheroid` are not part of this model. A mesh's `faces` sequence stands for the list `sortedFaces()` returns, and the meshes do not change between frames.
- **The demo script** (lab-08.py:186-199) and the hex-dump text after it (lab-08.py:209-215) are left out.
- **The pygame surface** `screen` is the target of every draw in display. It is part of the pygame I/O left out: draws are returned as values instead.
- **Unused fields**: `eyeX`, `eyeY`, `nodeColour`, `control` and `object_to_update`. The code of lab-08.py never reads them. `self.update()` (lab-08.py:181) is inherited from `wireframe.WireframeGroup`, whose code is not part of this model, so it may read some of them.
- **keyEvent's print calls** are left out.
- **Node indices.** Node indices are natural numbers, and every edge and face must refer to existing nodes. Python's negative indices and the IndexError of a bad index are not modelled.
- **Node coordinates.** Nodes keep only x, y and z. The homogeneous fourth coordinate is never read by the viewer.
- Viewer.WireframeViewer.Run: runs over a finite list of event batches and stops when they run out. The source polls until a QUIT, or until display raises.
