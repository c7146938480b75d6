/**
 * The shape registry: named collision shapes built once from mesh data and shared by every body.
 * A mesh is given as data (its vertex list and its face list); reading the OBJ file is not modelled.
 */
module CollisionShapes {
  import opened Geometry
  import opened Wrappers

  /** A face of a loaded mesh: the indices of its first three vertices. */
  datatype Face = Face(v0: nat, v1: nat, v2: nat)

  datatype Mesh = Mesh(verts: seq<Vec3>, faces: seq<Face>)

  datatype Triangle = Triangle(p0: Vec3, p1: Vec3, p2: Vec3)

  /**
   * The collision shapes the game builds: a convex hull of a point list (ball and cube),
   * an exact triangle mesh (the maze, which has holes), and the ground's static plane.
   */
  datatype Shape =
    | ConvexHull(points: seq<Vec3>)
    | TriangleMesh(triangles: seq<Triangle>)
    | StaticPlane(normal: Vec3, constant: real)

  /** Every face indexes existing vertices; reading a vertex past the end is undefined in the source. */
  predicate FacesInRange(verts: seq<Vec3>, faces: seq<Face>)
  {
    forall k :: 0 <= k < |faces| ==> faces[k].v0 < |verts| && faces[k].v1 < |verts| && faces[k].v2 < |verts|
  }

  /** The triangle spanned by the three vertices a face indexes. */
  function FaceTriangle(verts: seq<Vec3>, f: Face): Triangle
    requires f.v0 < |verts| && f.v1 < |verts| && f.v2 < |verts|
  {
    Triangle(verts[f.v0], verts[f.v1], verts[f.v2])
  }

  /** The triangle list of a mesh, built by appending one triangle per face. */
  function Triangles(verts: seq<Vec3>, faces: seq<Face>): (r: seq<Triangle>)
    requires FacesInRange(verts, faces)
    ensures |r| == |faces|
    ensures forall k :: 0 <= k < |faces| ==> r[k] == FaceTriangle(verts, faces[k])
  {
    if faces == [] then []
    else Triangles(verts, faces[..|faces| - 1]) + [FaceTriangle(verts, faces[|faces| - 1])]
  }

  /** The registry: a map from shape name to shape. */
  class CollisionShape {
    var shapes: map<string, Shape>

    /** The registry starts out empty. */
    constructor ()
      ensures shapes == map[]
    {
      shapes := map[];
    }

    /** Registers, under `name`, the convex hull of exactly the mesh's vertices, in order. */
    method AddSphere(name: string, mesh: Mesh)
      modifies this
      ensures shapes == old(shapes)[name := ConvexHull(mesh.verts)]
    {
      var points := HullPoints(mesh);
      shapes := shapes[name := ConvexHull(points)];
    }

    /** Registers the same kind of shape as `AddSphere`: the hull of all vertices. */
    method AddBox(name: string, mesh: Mesh)
      modifies this
      ensures shapes == old(shapes)[name := ConvexHull(mesh.verts)]
    {
      var points := HullPoints(mesh);
      shapes := shapes[name := ConvexHull(points)];
    }

    /** Registers, under `name`, the exact triangle mesh with one triangle per face, in face order. */
    method AddMaze(name: string, mesh: Mesh)
      requires FacesInRange(mesh.verts, mesh.faces)
      modifies this
      ensures shapes == old(shapes)[name := TriangleMesh(Triangles(mesh.verts, mesh.faces))]
    {
      var tris: seq<Triangle> := [];
      for i := 0 to |mesh.faces|
        invariant tris == Triangles(mesh.verts, mesh.faces[..i])
      {
        var face := mesh.faces[i];
        tris := tris + [FaceTriangle(mesh.verts, face)];
        assert mesh.faces[..i + 1][..i] == mesh.faces[..i];
      }
      assert mesh.faces[..|mesh.faces|] == mesh.faces;
      shapes := shapes[name := TriangleMesh(tris)];
    }

    /** Looks a shape up by name; a missing name gives no shape, and nothing changes. */
    method GetShape(name: string) returns (r: Option<Shape>)
      ensures r == Lookup(shapes, name)
    {
      if name in shapes {
        r := Some(shapes[name]);
      } else {
        r := None;
      }
    }
  }

  /** The point list `addSphere` and `addBox` add to the hull one vertex at a time. */
  method HullPoints(mesh: Mesh) returns (points: seq<Vec3>)
    ensures points == mesh.verts
  {
    points := [];
    for i := 0 to |mesh.verts|
      invariant points == mesh.verts[..i]
    {
      points := points + [mesh.verts[i]];
    }
  }

  /** Lookup in a name-to-shape map: the stored shape when the name is registered, none otherwise. */
  function Lookup(shapes: map<string, Shape>, name: string): (r: Option<Shape>)
    ensures r.Some? <==> name in shapes
    ensures r.Some? ==> r.value == shapes[name]
  {
    if name in shapes then Some(shapes[name]) else None
  }

  /** Registering a name makes the new shape visible under it and leaves every other name as it was. */
  lemma RegisterLastWins(shapes: map<string, Shape>, name: string, s: Shape, other: string)
    ensures Lookup(shapes[name := s], name) == Some(s)
    ensures other != name ==> Lookup(shapes[name := s], other) == Lookup(shapes, other)
  {
  }

  /**
   * After `AddSphere` or `AddBox` registers a mesh under `name`, looking the name up finds a convex hull
   * whose points are the mesh's vertices, every one in order, and every other name finds what it did before.
   */
  lemma HullContainsEveryVertex(shapes: map<string, Shape>, name: string, mesh: Mesh, other: string)
    ensures var r := Lookup(shapes[name := ConvexHull(mesh.verts)], name);
      r.Some? && r.value.ConvexHull? && |r.value.points| == |mesh.verts| &&
      forall k :: 0 <= k < |mesh.verts| ==> r.value.points[k] == mesh.verts[k]
    ensures other != name ==> Lookup(shapes[name := ConvexHull(mesh.verts)], other) == Lookup(shapes, other)
  {
    RegisterLastWins(shapes, name, ConvexHull(mesh.verts), other);
  }

  /** Triangulating a concatenation of face lists concatenates the triangle lists. */
  lemma {:induction false} TrianglesAppend(verts: seq<Vec3>, f1: seq<Face>, f2: seq<Face>)
    requires FacesInRange(verts, f1) && FacesInRange(verts, f2)
    ensures FacesInRange(verts, f1 + f2)
    ensures Triangles(verts, f1 + f2) == Triangles(verts, f1) + Triangles(verts, f2)
  {
    var l, r := Triangles(verts, f1 + f2), Triangles(verts, f1) + Triangles(verts, f2);
    assert |l| == |r|;
    forall k | 0 <= k < |l| ensures l[k] == r[k] {
      if k < |f1| {
        assert (f1 + f2)[k] == f1[k];
      } else {
        assert (f1 + f2)[k] == f2[k - |f1|];
      }
    }
  }

  /**
   * The process-wide slot behind `instance()`: the registry is allocated on the first call,
   * and every later call hands out that same object.
   */
  class RegistrySlot {
    var current: CollisionShape?

    /** No registry exists before the first call. */
    constructor ()
      ensures current == null
    {
      current := null;
    }

    method Instance() returns (r: CollisionShape)
      modifies this
      ensures current == r
      ensures old(current) != null ==> r == old(current)
      ensures old(current) == null ==> fresh(r) && r.shapes == map[]
    {
      if current == null {
        current := new CollisionShape();
      }
      r := current;
    }
  }

  /** Two calls of `instance()` in a row give the same registry. */
  method InstanceIsShared(slot: RegistrySlot) returns (first: CollisionShape, second: CollisionShape)
    modifies slot
    ensures first == second && slot.current == first
  {
    first := slot.Instance();
    second := slot.Instance();
  }
}
