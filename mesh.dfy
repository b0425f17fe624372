/** The parts of a wireframe (a mesh) that the viewer reads: node positions, edges as pairs of node
    indices, and faces as lists of node indices with a colour. Nodes are kept as their x, y, z;
    the homogeneous fourth coordinate is never read by the viewer. */
module Mesh {
  import opened Geometry

  datatype Face = Face(indices: seq<nat>, colour: Vec3)

  datatype Wireframe = Wireframe(nodes: seq<Vec3>, edges: seq<(nat, nat)>, faces: seq<Face>)

  /** Every index of the face names a node, and there are at least the three the normal needs. */
  predicate FaceFits(nodes: seq<Vec3>, f: Face) {
    |f.indices| >= 3 && forall i :: 0 <= i < |f.indices| ==> f.indices[i] < |nodes|
  }

  predicate FacesFit(nodes: seq<Vec3>, faces: seq<Face>) {
    forall i :: 0 <= i < |faces| ==> FaceFits(nodes, faces[i])
  }

  predicate EdgesFit(nodes: seq<Vec3>, edges: seq<(nat, nat)>) {
    forall i :: 0 <= i < |edges| ==> edges[i].0 < |nodes| && edges[i].1 < |nodes|
  }

  /** A wireframe as its generator must build it: every edge and face refers to existing nodes. */
  predicate WellFormed(w: Wireframe) {
    EdgesFit(w.nodes, w.edges) && FacesFit(w.nodes, w.faces)
  }
}
