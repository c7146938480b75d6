/**
 * The body registry around the rigid-body engine.
 *
 * The world keeps two lists, as the source does: `bodies`, the game's ordered list of
 * name tags, and `objects`, the engine's collision-object array, whose entries carry the
 * body's attributes and transform. Name lookups address `bodies`, every transform query
 * and setter addresses `objects`. Each body carries an `id` standing for the identity of
 * its engine object, so removal and contact reports can name it.
 */
module Physics {
  import opened Geometry
  import opened CollisionShapes
  import opened Wrappers

  datatype CollisionFlag = StaticObject | KinematicObject | CustomMaterialCallback

  /** The engine body: the attributes the game sets, and its world transform. */
  datatype RigidBody = RigidBody(
    id: nat,
    shape: Shape,
    mass: real,
    friction: real,
    rollingFriction: real,
    restitution: real,
    angularDampingFactor: real,
    additionalDamping: bool,
    flags: set<CollisionFlag>,
    neverDeactivate: bool,
    transform: Transform)

  /** An entry of the game's body list: a name tag and the engine object it stands for. */
  datatype Body = Body(name: string, id: nat)

  /** A contact the engine reports for a pair test: the ids of its first and second object. */
  datatype ContactPoint = ContactPoint(obj0: nat, obj1: nat)

  /** The arguments of one call that advances the simulation. */
  datatype StepCall = StepCall(timeStep: real, maxSubSteps: int)

  datatype World = World(
    gravity: Vec3,
    bodies: seq<Body>,
    objects: seq<RigidBody>,
    collision: bool,
    nextId: nat,
    steps: seq<StepCall>)

  /** The engine's own gravity before the game sets one. */
  const EngineGravity: Vec3 := Vec3(0.0, -10.0, 0.0)

  const EmptyWorld: World := World(EngineGravity, [], [], false, 0, [])

  /** A body as the engine's construction info leaves it; a zero mass makes it static. */
  function NewBody(id: nat, shape: Shape, mass: real, t: Transform): RigidBody
  {
    RigidBody(id, shape, mass, 0.5, 0.0, 0.0, 0.01, false,
              if mass == 0.0 then {StaticObject} else {}, false, t)
  }

  /** The ground: a static plane with normal +Y at the given height; its transform is the identity. */
  function GroundPlane(id: nat, pos: Vec3): RigidBody
  {
    NewBody(id, StaticPlane(Vec3(0.0, 1.0, 0.0), pos.y), 0.0, Placed(Origin))
      .(friction := 1.0, rollingFriction := 2.0)
  }

  /** A ball: mass 1, the caller's friction, tagged for the contact callback. */
  function Ball(id: nat, shape: Shape, pos: Vec3, friction: real): RigidBody
  {
    NewBody(id, shape, 1.0, Placed(pos))
      .(friction := friction, flags := {CustomMaterialCallback})
  }

  /** The maze: kinematic, never deactivated, with a tenth of the configured friction. */
  function Maze(id: nat, shape: Shape, pos: Vec3, friction: real): RigidBody
  {
    NewBody(id, shape, 0.0, Placed(pos))
      .(friction := friction / 10.0, flags := {StaticObject, KinematicObject}, neverDeactivate := true)
  }

  /** The goal cube: kinematic, never deactivated, high friction, extra angular damping, tagged for contacts. */
  function Cube(id: nat, shape: Shape, pos: Vec3): RigidBody
  {
    NewBody(id, shape, 0.0, Placed(pos))
      .(restitution := 0.0, friction := 100.5, angularDampingFactor := 4.0, additionalDamping := true,
        flags := {StaticObject, CustomMaterialCallback, KinematicObject}, neverDeactivate := true)
  }

  /** Adds a body to the engine and appends its record to the body list. */
  function Spawn(w: World, name: string, rb: RigidBody): World
    requires rb.id == w.nextId
  {
    w.(bodies := w.bodies + [Body(name, w.nextId)], objects := w.objects + [rb], nextId := w.nextId + 1)
  }

  function WithGroundPlane(w: World, pos: Vec3, size: Vec3): World
  {
    Spawn(w, "groundPlane", GroundPlane(w.nextId, pos))
  }

  function WithSphere(w: World, name: string, shape: Shape, pos: Vec3, friction: real): World
  {
    Spawn(w, name, Ball(w.nextId, shape, pos, friction))
  }

  function WithMaze(w: World, name: string, shape: Shape, pos: Vec3, friction: real): World
  {
    Spawn(w, name, Maze(w.nextId, shape, pos, friction))
  }

  function WithCube(w: World, name: string, shape: Shape, pos: Vec3): World
  {
    Spawn(w, name, Cube(w.nextId, shape, pos))
  }

  function WithGravity(w: World, g: Vec3): World
  {
    w.(gravity := g)
  }

  /** Replaces the orientation of the engine object at index `i`; its origin stays. */
  function Orient(w: World, i: nat, q: Quat): World
    requires i < |w.objects|
  {
    var rb := w.objects[i];
    w.(objects := w.objects[i := rb.(transform := Transform(rb.transform.origin, q))])
  }

  /** The objects whose ids are not in `ids`, in their order. */
  function Without(objs: seq<RigidBody>, ids: set<nat>): seq<RigidBody>
  {
    if objs == [] then []
    else (if objs[0].id in ids then [] else [objs[0]]) + Without(objs[1..], ids)
  }

  function IdsOf(bodies: seq<Body>): set<nat>
  {
    set k | 0 <= k < |bodies| :: bodies[k].id
  }

  /** Takes every body after the first out of the engine, truncates the list to it, and clears the contact flag. */
  function ResetWorld(w: World): World
    requires |w.bodies| >= 1
  {
    w.(bodies := w.bodies[..1], objects := Without(w.objects, IdsOf(w.bodies[1..])), collision := false)
  }

  /** Takes the engine object of body `k + 1` out of the simulation and keeps the body list as it is. */
  function WithoutBody(w: World, k: nat): World
    requires k + 1 < |w.bodies|
  {
    w.(objects := Without(w.objects, {w.bodies[k + 1].id}))
  }

  /** Whether a contact with `cube` as first object and `ball` as second was reported. */
  predicate Touching(reported: seq<ContactPoint>, cube: nat, ball: nat)
  {
    exists k :: 0 <= k < |reported| && reported[k] == ContactPoint(cube, ball)
  }

  /** The verdict of a pair test between object `i` (the ball) and object `j` (the cube). */
  function ContactHit(w: World, i: nat, j: nat, reported: seq<ContactPoint>): bool
    requires i < |w.objects| && j < |w.objects|
  {
    Touching(reported, w.objects[j].id, w.objects[i].id)
  }

  /** The world after a pair test: only the contact flag changes, to the verdict. */
  function AfterContactTest(w: World, i: nat, j: nat, reported: seq<ContactPoint>): World
    requires i < |w.objects| && j < |w.objects|
  {
    w.(collision := ContactHit(w, i, j, reported))
  }

  /** One simulation step: the engine moves the objects to `moved`, and the call is recorded. */
  function Stepped(w: World, timeStep: real, maxSubSteps: int, moved: seq<Transform>): World
    requires |moved| == |w.objects|
  {
    w.(objects := seq(|w.objects|, k requires 0 <= k < |w.objects| => w.objects[k].(transform := moved[k])),
       steps := w.steps + [StepCall(timeStep, maxSubSteps)])
  }

  /** Ids are handed out once: every id is below the counter and no two entries of a list share one. */
  predicate WellFormed(w: World)
  {
    && (forall k :: 0 <= k < |w.bodies| ==> w.bodies[k].id < w.nextId)
    && (forall k :: 0 <= k < |w.objects| ==> w.objects[k].id < w.nextId)
    && (forall k, l :: 0 <= k < l < |w.bodies| ==> w.bodies[k].id != w.bodies[l].id)
    && (forall k, l :: 0 <= k < l < |w.objects| ==> w.objects[k].id != w.objects[l].id)
  }

  /** The body list and the engine array agree index by index, so a name found at `i` describes object `i`. */
  predicate Aligned(w: World)
  {
    |w.objects| == |w.bodies| && forall k :: 0 <= k < |w.bodies| ==> w.objects[k].id == w.bodies[k].id
  }

  lemma {:induction false} WithoutNothing(objs: seq<RigidBody>)
    ensures Without(objs, {}) == objs
  {
    if objs != [] {
      WithoutNothing(objs[1..]);
    }
  }

  lemma {:induction false} WithoutMember(objs: seq<RigidBody>, ids: set<nat>, x: RigidBody)
    ensures x in Without(objs, ids) <==> x in objs && x.id !in ids
  {
    if objs != [] {
      WithoutMember(objs[1..], ids, x);
      assert objs == [objs[0]] + objs[1..];
    }
  }

  lemma {:induction false} WithoutTwice(objs: seq<RigidBody>, s: set<nat>, t: set<nat>)
    ensures Without(Without(objs, s), t) == Without(objs, s + t)
  {
    if objs != [] {
      WithoutTwice(objs[1..], s, t);
      var o, rest := objs[0], Without(objs[1..], s);
      if o.id in s {
        assert Without(objs, s) == rest;
        assert Without(objs, s + t) == Without(objs[1..], s + t);
      } else {
        var once := [o] + rest;
        assert Without(objs, s) == once;
        assert once[0] == o && once[1..] == rest;
        assert Without(once, t) == (if o.id in t then [] else [o]) + Without(rest, t);
        assert Without(objs, s + t) == (if o.id in s + t then [] else [o]) + Without(objs[1..], s + t);
      }
    }
  }

  lemma IdsOfAppend(bodies: seq<Body>, b: Body)
    ensures IdsOf(bodies + [b]) == IdsOf(bodies) + {b.id}
  {
    var l := bodies + [b];
    forall x | x in IdsOf(l) ensures x in IdsOf(bodies) + {b.id} {
      var k :| 0 <= k < |l| && l[k].id == x;
      if k < |bodies| { assert l[k] == bodies[k]; }
    }
    forall x | x in IdsOf(bodies) + {b.id} ensures x in IdsOf(l) {
      if x == b.id {
        assert l[|bodies|] == b;
      } else {
        var k :| 0 <= k < |bodies| && bodies[k].id == x;
        assert l[k] == bodies[k];
      }
    }
  }

  /** Removing ids none of the objects has keeps the list as it is. */
  lemma {:induction false} WithoutDisjoint(objs: seq<RigidBody>, ids: set<nat>)
    requires forall k :: 0 <= k < |objs| ==> objs[k].id !in ids
    ensures Without(objs, ids) == objs
  {
    if objs != [] {
      WithoutDisjoint(objs[1..], ids);
    }
  }

  /** Removing the ids of all the objects leaves none. */
  lemma {:induction false} WithoutAll(objs: seq<RigidBody>, ids: set<nat>)
    requires forall k :: 0 <= k < |objs| ==> objs[k].id in ids
    ensures Without(objs, ids) == []
  {
    if objs != [] {
      WithoutAll(objs[1..], ids);
    }
  }

  /** Adding a body keeps the ids unique and the two lists in step, and leaves the earlier entries alone. */
  lemma SpawnKeepsInvariant(w: World, name: string, rb: RigidBody)
    requires rb.id == w.nextId && WellFormed(w)
    ensures WellFormed(Spawn(w, name, rb))
    ensures Aligned(w) ==> Aligned(Spawn(w, name, rb))
    ensures Spawn(w, name, rb).bodies[..|w.bodies|] == w.bodies
    ensures Spawn(w, name, rb).objects[..|w.objects|] == w.objects
    ensures Spawn(w, name, rb).bodies[|w.bodies|] == Body(name, rb.id)
    ensures Spawn(w, name, rb).objects[|w.objects|] == rb
  {
  }

  /**
   * On a world whose lists are in step, `reset` leaves exactly the first body, both in the
   * body list and in the engine, with the contact flag cleared.
   */
  lemma {:induction false} ResetKeepsOnlyFirst(w: World)
    requires WellFormed(w) && Aligned(w) && |w.bodies| >= 1
    ensures ResetWorld(w).bodies == [w.bodies[0]]
    ensures ResetWorld(w).objects == [w.objects[0]]
    ensures !ResetWorld(w).collision
    ensures WellFormed(ResetWorld(w)) && Aligned(ResetWorld(w))
  {
    var ids := IdsOf(w.bodies[1..]);
    forall k | 0 <= k < |w.bodies[1..]| ensures w.bodies[1..][k].id != w.objects[0].id {
      assert w.bodies[1..][k] == w.bodies[k + 1];
    }
    forall k | 0 <= k < |w.objects[1..]| ensures w.objects[1..][k].id in ids {
      assert w.bodies[1..][k].id == w.objects[k + 1].id;
    }
    WithoutAll(w.objects[1..], ids);
    assert w.objects == [w.objects[0]] + w.objects[1..];
  }

  /** A second `reset` changes nothing. */
  lemma ResetIdempotent(w: World)
    requires |w.bodies| >= 1
    ensures ResetWorld(ResetWorld(w)) == ResetWorld(w)
  {
    var r := ResetWorld(w);
    assert r.bodies[1..] == [];
    assert IdsOf(r.bodies[1..]) == {};
    WithoutNothing(r.objects);
  }

  /** `removeBody(k)` keeps the body list and takes exactly the engine object of body `k + 1` away. */
  lemma RemoveBodyEffect(w: World, k: nat, x: RigidBody)
    requires k + 1 < |w.bodies|
    ensures WithoutBody(w, k).bodies == w.bodies
    ensures x in WithoutBody(w, k).objects <==> x in w.objects && x.id != w.bodies[k + 1].id
  {
    WithoutMember(w.objects, {w.bodies[k + 1].id}, x);
  }

  /** Setting an orientation changes only that object's rotation, to exactly the given quaternion. */
  lemma OrientChangesOnlyRotation(w: World, i: nat, q: Quat, k: nat)
    requires i < |w.objects| && k < |w.objects|
    ensures Orient(w, i, q).objects[i].transform == Transform(w.objects[i].transform.origin, q)
    ensures k != i ==> Orient(w, i, q).objects[k] == w.objects[k]
    ensures Orient(w, i, q).bodies == w.bodies && |Orient(w, i, q).objects| == |w.objects|
  {
  }

  /** The pair test is direction-sensitive: a contact reported as (ball, cube) does not count. */
  lemma ContactIsDirectional(cube: nat, ball: nat)
    requires cube != ball
    ensures Touching([ContactPoint(cube, ball)], cube, ball)
    ensures !Touching([ContactPoint(ball, cube)], cube, ball)
  {
    assert [ContactPoint(cube, ball)][0] == ContactPoint(cube, ball);
  }

  /** The physics world object: the state the engine and the game layer update in place. */
  class PhysicsWorld {
    var gravity: Vec3
    var bodies: seq<Body>
    var objects: seq<RigidBody>
    var collision: bool
    var nextId: nat
    var steps: seq<StepCall>

    function Model(): World
      reads this
    {
      World(gravity, bodies, objects, collision, nextId, steps)
    }

    /** A new world holds no body and has the engine's default gravity. */
    constructor ()
      ensures Model() == EmptyWorld
    {
      gravity, bodies, objects, collision, nextId, steps := EngineGravity, [], [], false, 0, [];
    }

    method SetGravity(x: real, y: real, z: real)
      modifies this
      ensures Model() == WithGravity(old(Model()), Vec3(x, y, z))
    {
      gravity := Vec3(x, y, z);
    }

    method SetGravityVec(g: Vec3)
      modifies this
      ensures Model() == WithGravity(old(Model()), g)
    {
      gravity := g;
    }

    /** Adds an engine object and appends its record to the body list. */
    method Append(name: string, rb: RigidBody)
      requires rb.id == nextId
      modifies this
      ensures Model() == Spawn(old(Model()), name, rb)
    {
      objects := objects + [rb];
      bodies := bodies + [Body(name, nextId)];
      nextId := nextId + 1;
    }

    method AddGroundPlane(pos: Vec3, size: Vec3)
      modifies this
      ensures Model() == WithGroundPlane(old(Model()), pos, size)
    {
      Append("groundPlane", GroundPlane(nextId, pos));
    }

    /** The shape is looked up in the registry; a missing shape is a null dereference in the source. */
    method AddSphere(reg: CollisionShape, shapeName: string, pos: Vec3, friction: real)
      requires shapeName in reg.shapes
      modifies this
      ensures Model() == WithSphere(old(Model()), shapeName, reg.shapes[shapeName], pos, friction)
    {
      var found := reg.GetShape(shapeName);
      Append(shapeName, Ball(nextId, found.value, pos, friction));
    }

    method AddMaze(reg: CollisionShape, shapeName: string, pos: Vec3, friction: real)
      requires shapeName in reg.shapes
      modifies this
      ensures Model() == WithMaze(old(Model()), shapeName, reg.shapes[shapeName], pos, friction)
    {
      var found := reg.GetShape(shapeName);
      Append(shapeName, Maze(nextId, found.value, pos, friction));
    }

    method AddCube(reg: CollisionShape, shapeName: string, pos: Vec3)
      requires shapeName in reg.shapes
      modifies this
      ensures Model() == WithCube(old(Model()), shapeName, reg.shapes[shapeName], pos)
    {
      var found := reg.GetShape(shapeName);
      Append(shapeName, Cube(nextId, found.value, pos));
    }

    /** Moves the transform's origin away, sets the rotation, and puts the origin back. */
    method SetRot(i: nat, q: Quat)
      requires i < |objects|
      modifies this
      ensures Model() == Orient(old(Model()), i, q)
    {
      var t := objects[i].transform;
      var offset := t.origin;
      t := t.(origin := Origin);
      t := t.(rotation := q);
      t := t.(origin := offset);
      objects := objects[i := objects[i].(transform := t)];
    }

    /** Sets the rotation of the stored transform directly. */
    method SetRotAboutOrigin(i: nat, q: Quat)
      requires i < |objects|
      modifies this
      ensures Model() == Orient(old(Model()), i, q)
    {
      var t := objects[i].transform;
      t := t.(rotation := q);
      objects := objects[i := objects[i].(transform := t)];
    }

    method GetPosition(i: nat) returns (p: Vec3)
      requires i < |objects|
      ensures p == objects[i].transform.origin
    {
      p := objects[i].transform.origin;
    }

    method GetRotation(i: nat) returns (q: Quat)
      requires i < |objects|
      ensures q == objects[i].transform.rotation
    {
      q := objects[i].transform.rotation;
    }

    /** The name at index `i` of the body list; the source does no bounds check. */
    method BodyNameAt(i: nat) returns (name: string)
      requires i < |bodies|
      ensures name == bodies[i].name
    {
      name := bodies[i].name;
    }

    /** The number of objects in the engine, which callers use as the bound for name lookups. */
    method NumCollisionObjects() returns (n: nat)
      ensures n == |objects|
    {
      n := |objects|;
    }

    method RemoveBody(k: nat)
      requires k + 1 < |bodies|
      modifies this
      ensures Model() == WithoutBody(old(Model()), k)
    {
      objects := Without(objects, {bodies[k + 1].id});
    }

    /** Removes bodies 1 to the end from the engine one at a time, then truncates the list. */
    method Reset()
      requires |bodies| >= 1
      modifies this
      ensures Model() == ResetWorld(old(Model()))
    {
      assert bodies[1..1] == [] && IdsOf(bodies[1..1]) == {};
      WithoutNothing(objects);
      for i := 1 to |bodies|
        invariant bodies == old(bodies) && gravity == old(gravity) && collision == old(collision)
        invariant objects == Without(old(objects), IdsOf(bodies[1..i]))
        invariant nextId == old(nextId) && steps == old(steps)
      {
        WithoutTwice(old(objects), IdsOf(bodies[1..i]), {bodies[i].id});
        assert bodies[1..i + 1] == bodies[1..i] + [bodies[i]];
        IdsOfAppend(bodies[1..i], bodies[i]);
        objects := Without(objects, {bodies[i].id});
      }
      assert bodies[1..|bodies|] == bodies[1..];
      bodies := bodies[..1];
      collision := false;
    }

    /**
     * Pair test between object `i` (the ball) and object `j` (the cube): the flag is cleared,
     * and the callback sets it for each reported contact whose first object is the cube and
     * whose second is the ball.
     */
    method ContactTest(i: nat, j: nat, reported: seq<ContactPoint>) returns (hit: bool)
      requires i < |objects| && j < |objects|
      modifies this
      ensures hit == ContactHit(old(Model()), i, j, reported)
      ensures Model() == AfterContactTest(old(Model()), i, j, reported)
    {
      collision := false;
      var cube, ball := objects[j].id, objects[i].id;
      for k := 0 to |reported|
        invariant collision <==> Touching(reported[..k], cube, ball)
        invariant Model() == old(Model()).(collision := collision)
      {
        if reported[k].obj0 == cube && reported[k].obj1 == ball {
          collision := true;
        }
        assert reported[..k + 1][k] == reported[k];
        assert forall m :: 0 <= m < k ==> reported[..k + 1][m] == reported[..k][m];
      }
      assert reported[..|reported|] == reported;
      hit := collision;
    }

    method Step(timeStep: real, maxSubSteps: int, moved: seq<Transform>)
      requires |moved| == |objects|
      modifies this
      ensures Model() == Stepped(old(Model()), timeStep, maxSubSteps, moved)
    {
      var objs := objects;
      objects := seq(|objs|, k requires 0 <= k < |objs| => objs[k].(transform := moved[k]));
      steps := steps + [StepCall(timeStep, maxSubSteps)];
    }
  }
}
