/**
 * The game controller: start-up population, the tilt scans, the lose and win checks,
 * spawning extra balls, the game state, and the state-gated simulation step.
 * Rendering, camera and text are not part of this model.
 */
module Game {
  import opened Geometry
  import opened CollisionShapes
  import opened Physics
  import opened Wrappers

  /** Game states as the source numbers them. */
  const Menu: int := 0
  const Playing: int := 1
  const LostState: int := 2
  const WonState: int := 3

  const BallStart: Vec3 := Vec3(-15.0, 25.0, -15.0)
  const MazeStart: Vec3 := Vec3(0.0, 20.0, 0.0)
  const CubeStart: Vec3 := Vec3(0.0, 17.0, 0.0)
  const GroundSize: Vec3 := Vec3(50.0, 0.01, 50.0)

  /** A ball whose height is below this has fallen off the maze. */
  const FallHeight: real := 3.0

  const FrameTime: real := 1.0 / 60.0
  const FrameSubSteps: int := 10

  /** The three registered shapes the game builds bodies from. */
  datatype ShapeSet = ShapeSet(ball: Shape, maze: Shape, cube: Shape)

  /** The controller's state: the physics world, the game state and the two last verdicts. */
  datatype GameModel = GameModel(world: World, state: int, lost: bool, won: bool)

  /** The world `setPhysics` builds: gravity, then ground, ball, maze and cube in that order. */
  function Setup(gravityY: int, friction: real, s: ShapeSet): World
  {
    var w0 := WithGravity(EmptyWorld, Vec3(0.0, gravityY as real, 0.0));
    var w1 := WithGroundPlane(w0, Origin, GroundSize);
    var w2 := WithSphere(w1, "ball", s.ball, BallStart, friction);
    var w3 := WithMaze(w2, "maze", s.maze, MazeStart, friction);
    WithCube(w3, "cube", s.cube, CubeStart)
  }

  /** The world after a lose or a win: reset, then maze, ball and cube, in that order. */
  function Respawn(w: World, friction: real, s: ShapeSet): World
    requires |w.bodies| >= 1
  {
    var w0 := ResetWorld(w);
    var w1 := WithMaze(w0, "maze", s.maze, MazeStart, friction);
    var w2 := WithSphere(w1, "ball", s.ball, BallStart, friction);
    WithCube(w2, "cube", s.cube, CubeStart)
  }

  function Names(w: World): seq<string>
  {
    seq(|w.bodies|, k requires 0 <= k < |w.bodies| => w.bodies[k].name)
  }

  /** The bodies a tilt turns: the maze, and the cube that turns with it. */
  predicate Tilts(name: string)
  {
    name == "maze" || name == "cube"
  }

  /** A body whose orientation is pre-multiplied by `local`; its position is kept. */
  function Turned(rb: RigidBody, local: Quat): RigidBody
  {
    rb.(transform := Transform(rb.transform.origin, Mul(local, rb.transform.rotation)))
  }

  /**
   * One tilt scan: every engine object from index 1 on whose entry in the body list is
   * named "maze" or "cube" is turned by `local`.
   */
  function Tilted(w: World, local: Quat): World
    requires |w.objects| <= |w.bodies|
  {
    w.(objects := seq(|w.objects|, k requires 0 <= k < |w.objects| =>
         if 1 <= k && Tilts(w.bodies[k].name) then Turned(w.objects[k], local) else w.objects[k]))
  }

  /** The first index in [i, n) whose body is named `name`, if any. */
  function FirstNamed(bodies: seq<Body>, name: string, i: nat, n: nat): (r: Option<nat>)
    requires n <= |bodies|
    ensures r.Some? ==> i <= r.value < n && bodies[r.value].name == name
    ensures r.Some? ==> forall m :: i <= m < r.value ==> bodies[m].name != name
    ensures r.None? ==> forall m :: i <= m < n ==> bodies[m].name != name
    decreases n - i
  {
    if i >= n then None
    else if bodies[i].name == name then Some(i)
    else FirstNamed(bodies, name, i + 1, n)
  }

  /** What `lose` does: only the first ball is looked at. */
  function AfterLose(g: GameModel, friction: real, s: ShapeSet): (GameModel, bool)
    requires |g.world.objects| <= |g.world.bodies| && |g.world.bodies| >= 1
  {
    match FirstNamed(g.world.bodies, "ball", 1, |g.world.objects|)
    case None => (g, g.lost)
    case Some(k) =>
      if g.world.objects[k].transform.origin.y < FallHeight
      then (GameModel(Respawn(g.world, friction, s), LostState, true, g.won), true)
      else (g.(lost := false), false)
  }

  /**
   * One row of `win`'s nested scan: ball index `i` against cube indices from `j` up to `n`.
   * The second component is false when the scan would read past the end of a list, which the
   * source does without a check.
   */
  function WinRow(g: GameModel, reported: seq<ContactPoint>, friction: real, s: ShapeSet,
                  n: nat, i: nat, j: nat): (r: (GameModel, bool))
    requires |g.world.bodies| >= 1
    ensures |r.0.world.bodies| >= 1
    decreases n - j
  {
    var w := g.world;
    if j >= n then (g, true)
    else if i >= |w.bodies| then (g, false)
    else if w.bodies[i].name != "ball" then WinRow(g, reported, friction, s, n, i, j + 1)
    else if j >= |w.bodies| then (g, false)
    else if w.bodies[j].name != "cube" then WinRow(g, reported, friction, s, n, i, j + 1)
    else if i >= |w.objects| || j >= |w.objects| then (g, false)
    else PairOutcome(g, reported, friction, s, i, j)
  }

  /** The outcome of testing ball `i` against cube `c` in `win`. */
  function PairOutcome(g: GameModel, reported: seq<ContactPoint>, friction: real, s: ShapeSet,
                       i: nat, c: nat): (GameModel, bool)
    requires |g.world.bodies| >= 1 && i < |g.world.objects| && c < |g.world.objects|
  {
    var w := g.world;
    if ContactHit(w, i, c, reported)
    then (GameModel(Respawn(AfterContactTest(w, i, c, reported), friction, s), WonState, g.lost, true), true)
    else (g.(world := AfterContactTest(w, i, c, reported), won := false), true)
  }

  /** `win`'s outer scan over ball indices `i` up to the bound `n` taken before the scan began. */
  function WinScan(g: GameModel, reported: seq<ContactPoint>, friction: real, s: ShapeSet,
                   n: nat, i: nat): (r: (GameModel, bool))
    requires |g.world.bodies| >= 1
    ensures |r.0.world.bodies| >= 1
    decreases n - i
  {
    if i >= n then (g, true)
    else
      var row := WinRow(g, reported, friction, s, n, i, 1);
      if !row.1 then row else WinScan(row.0, reported, friction, s, n, i + 1)
  }

  /** What `win` does; its verdict is the `won` field of the resulting state. */
  function AfterWin(g: GameModel, reported: seq<ContactPoint>, friction: real, s: ShapeSet): (GameModel, bool)
    requires |g.world.bodies| >= 1
  {
    WinScan(g, reported, friction, s, |g.world.objects|, 1)
  }

  /** `draw` steps the simulation once by 1/60 s with at most 10 sub-steps, and only while playing. */
  function AfterDraw(g: GameModel, moved: seq<Transform>): GameModel
    requires |moved| == |g.world.objects|
  {
    if g.state == Playing then g.(world := Stepped(g.world, FrameTime, FrameSubSteps, moved)) else g
  }

  /** Start-up yields ground, ball, maze and cube, in that order, with ids 0 to 3. */
  lemma SetupLayout(gravityY: int, friction: real, s: ShapeSet)
    ensures var w := Setup(gravityY, friction, s);
      && Names(w) == ["groundPlane", "ball", "maze", "cube"]
      && w.objects == [GroundPlane(0, Origin), Ball(1, s.ball, BallStart, friction),
                       Maze(2, s.maze, MazeStart, friction), Cube(3, s.cube, CubeStart)]
      && w.gravity == Vec3(0.0, gravityY as real, 0.0)
      && w.nextId == 4 && !w.collision && w.steps == []
      && WellFormed(w) && Aligned(w)
  {
  }

  /** A respawn keeps the first body and adds maze, ball and cube, in that order, with fresh ids. */
  lemma RespawnLayout(w: World, friction: real, s: ShapeSet)
    requires WellFormed(w) && Aligned(w) && |w.bodies| >= 1
    ensures var r := Respawn(w, friction, s);
      && Names(r) == [w.bodies[0].name, "maze", "ball", "cube"]
      && r.objects == [w.objects[0], Maze(w.nextId, s.maze, MazeStart, friction),
                       Ball(w.nextId + 1, s.ball, BallStart, friction), Cube(w.nextId + 2, s.cube, CubeStart)]
      && r.bodies[0] == w.bodies[0]
      && r.gravity == w.gravity && r.steps == w.steps && r.nextId == w.nextId + 3 && !r.collision
      && WellFormed(r) && Aligned(r)
  {
    ResetKeepsOnlyFirst(w);
    var w0 := ResetWorld(w);
    SpawnKeepsInvariant(w0, "maze", Maze(w0.nextId, s.maze, MazeStart, friction));
    var w1 := WithMaze(w0, "maze", s.maze, MazeStart, friction);
    SpawnKeepsInvariant(w1, "ball", Ball(w1.nextId, s.ball, BallStart, friction));
    var w2 := WithSphere(w1, "ball", s.ball, BallStart, friction);
    SpawnKeepsInvariant(w2, "cube", Cube(w2.nextId, s.cube, CubeStart));
  }

  /** The respawn order differs from the start-up order: maze and ball trade places. */
  lemma RespawnOrderDiffersFromStartup(gravityY: int, friction: real, s: ShapeSet)
    ensures Names(Respawn(Setup(gravityY, friction, s), friction, s)) == ["groundPlane", "maze", "ball", "cube"]
    ensures Names(Respawn(Setup(gravityY, friction, s), friction, s)) != Names(Setup(gravityY, friction, s))
  {
    SetupLayout(gravityY, friction, s);
    RespawnLayout(Setup(gravityY, friction, s), friction, s);
  }

  /**
   * A tilt turns exactly the maze and cube objects from index 1 on, by `local`, and leaves
   * the ground, every ball and every position as they were; the list invariants hold after it.
   */
  lemma TiltedEffect(w: World, local: Quat)
    requires Aligned(w)
    ensures var t := Tilted(w, local);
      && t.bodies == w.bodies && |t.objects| == |w.objects| && t.nextId == w.nextId
      && (|w.objects| >= 1 ==> t.objects[0] == w.objects[0])
      && (forall k :: 0 <= k < |w.objects| ==>
            t.objects[k].id == w.objects[k].id
            && t.objects[k].transform.origin == w.objects[k].transform.origin
            && t.objects[k].transform.rotation
               == (if 1 <= k && Tilts(w.bodies[k].name) then Mul(local, w.objects[k].transform.rotation)
                   else w.objects[k].transform.rotation))
      && (WellFormed(w) ==> WellFormed(t)) && Aligned(t)
  {
  }

  /** A tilt by the identity quaternion changes nothing. */
  lemma TiltByIdentity(w: World)
    requires |w.objects| <= |w.bodies|
    ensures Tilted(w, Identity) == w
  {
    var t := Tilted(w, Identity);
    forall k | 0 <= k < |w.objects| ensures t.objects[k] == w.objects[k] {
      MulIdentity(w.objects[k].transform.rotation);
    }
    assert t.objects == w.objects;
  }

  /** Only the first ball decides `lose`: the verdict follows its height alone. */
  lemma LoseChecksFirstBall(g: GameModel, friction: real, s: ShapeSet, k: nat)
    requires |g.world.objects| <= |g.world.bodies| && |g.world.bodies| >= 1
    requires FirstNamed(g.world.bodies, "ball", 1, |g.world.objects|) == Some(k)
    ensures AfterLose(g, friction, s).1 <==> g.world.objects[k].transform.origin.y < FallHeight
    ensures AfterLose(g, friction, s).1 ==>
      AfterLose(g, friction, s).0 == GameModel(Respawn(g.world, friction, s), LostState, true, g.won)
    ensures !AfterLose(g, friction, s).1 ==> AfterLose(g, friction, s).0 == g.(lost := false)
  {
  }

  /** Two worlds with the same names whose first balls stand at the same height get the same verdict. */
  lemma LoseIgnoresOtherBalls(g: GameModel, h: GameModel, friction: real, s: ShapeSet, k: nat)
    requires |g.world.objects| <= |g.world.bodies| && |g.world.bodies| >= 1
    requires h.world.bodies == g.world.bodies && |h.world.objects| == |g.world.objects| && h.lost == g.lost
    requires FirstNamed(g.world.bodies, "ball", 1, |g.world.objects|) == Some(k)
    requires h.world.objects[k].transform.origin.y == g.world.objects[k].transform.origin.y
    ensures AfterLose(h, friction, s).1 == AfterLose(g, friction, s).1
  {
  }

  /** Without a ball from index 1 on, `lose` changes nothing and repeats its previous verdict. */
  lemma LoseWithoutBall(g: GameModel, friction: real, s: ShapeSet)
    requires |g.world.objects| <= |g.world.bodies| && |g.world.bodies| >= 1
    requires forall k :: 1 <= k < |g.world.objects| ==> g.world.bodies[k].name != "ball"
    ensures AfterLose(g, friction, s) == (g, g.lost)
  {
  }

  /**
   * A game lost by a fallen ball is respawned in the respawn order, and the fresh ball is too
   * high to lose again at once.
   */
  lemma LoseRespawns(g: GameModel, friction: real, s: ShapeSet)
    requires WellFormed(g.world) && Aligned(g.world) && |g.world.bodies| >= 1
    requires FirstNamed(g.world.bodies, "ball", 1, |g.world.objects|).Some? && AfterLose(g, friction, s).1
    ensures var r := AfterLose(g, friction, s).0;
      && r.state == LostState && r.lost && r.won == g.won
      && Names(r.world) == [g.world.bodies[0].name, "maze", "ball", "cube"]
      && WellFormed(r.world) && Aligned(r.world)
      && FirstNamed(r.world.bodies, "ball", 1, |r.world.objects|) == Some(2)
      && !AfterLose(r, friction, s).1
  {
    RespawnLayout(g.world, friction, s);
    var r := AfterLose(g, friction, s).0;
    assert r.world == Respawn(g.world, friction, s);
    assert r.world.bodies[1].name == "maze" && r.world.bodies[2].name == "ball";
    assert r.world.objects[2].transform.origin.y == 25.0;
  }

  /** A row whose index does not name a ball tests nothing. */
  lemma {:induction false} WinRowSkipsNonBall(g: GameModel, reported: seq<ContactPoint>, friction: real,
                                              s: ShapeSet, n: nat, i: nat, j: nat)
    requires |g.world.bodies| >= 1 && i < |g.world.bodies| && g.world.bodies[i].name != "ball"
    ensures WinRow(g, reported, friction, s, n, i, j) == (g, true)
    decreases n - j
  {
    if j < n {
      WinRowSkipsNonBall(g, reported, friction, s, n, i, j + 1);
    }
  }

  /** A ball is paired with its first cube from `j` on and no other; with no cube, nothing happens. */
  lemma {:induction false} WinRowTestsFirstCube(g: GameModel, reported: seq<ContactPoint>, friction: real,
                                                s: ShapeSet, n: nat, i: nat, j: nat)
    requires |g.world.bodies| >= 1 && n <= |g.world.bodies| && n <= |g.world.objects|
    requires i < n && g.world.bodies[i].name == "ball"
    ensures WinRow(g, reported, friction, s, n, i, j) ==
      match FirstNamed(g.world.bodies, "cube", j, n)
      case None => (g, true)
      case Some(c) => PairOutcome(g, reported, friction, s, i, c)
    decreases n - j
  {
    if j < n && g.world.bodies[j].name != "cube" {
      WinRowTestsFirstCube(g, reported, friction, s, n, i, j + 1);
    }
  }

  /** With no ball and cube pair in the scanned range, `win` changes nothing and repeats its previous verdict. */
  lemma {:induction false} WinScanWithoutPair(g: GameModel, reported: seq<ContactPoint>, friction: real,
                                              s: ShapeSet, n: nat, i: nat)
    requires |g.world.bodies| >= 1 && n <= |g.world.bodies| && n <= |g.world.objects| && 1 <= i
    requires forall a, b :: 1 <= a < n && 1 <= b < n && g.world.bodies[a].name == "ball"
               ==> g.world.bodies[b].name != "cube"
    ensures WinScan(g, reported, friction, s, n, i) == (g, true)
    decreases n - i
  {
    if i < n {
      if g.world.bodies[i].name == "ball" {
        WinRowTestsFirstCube(g, reported, friction, s, n, i, 1);
      } else {
        WinRowSkipsNonBall(g, reported, friction, s, n, i, 1);
      }
      WinScanWithoutPair(g, reported, friction, s, n, i + 1);
    }
  }

  lemma WinWithoutPair(g: GameModel, reported: seq<ContactPoint>, friction: real, s: ShapeSet)
    requires Aligned(g.world) && |g.world.bodies| >= 1
    requires forall a, b :: 1 <= a < |g.world.bodies| && 1 <= b < |g.world.bodies| && g.world.bodies[a].name == "ball"
               ==> g.world.bodies[b].name != "cube"
    ensures AfterWin(g, reported, friction, s) == (g, true)
  {
    WinScanWithoutPair(g, reported, friction, s, |g.world.objects|, 1);
  }

  /** The start-up world in the terms the win scans need: names, ids 0 to 3, and the invariants. */
  lemma StartupIds(gravityY: int, friction: real, s: ShapeSet)
    ensures var w := Setup(gravityY, friction, s);
      && |w.bodies| == 4 && WellFormed(w) && Aligned(w) && w.nextId == 4 && w.bodies[0].name == "groundPlane"
      && w.bodies[1].name == "ball" && w.bodies[2].name == "maze" && w.bodies[3].name == "cube"
      && w.objects[1].id == 1 && w.objects[2].id == 2 && w.objects[3].id == 3
  {
    SetupLayout(gravityY, friction, s);
    var w := Setup(gravityY, friction, s);
    assert Names(w)[0] == "groundPlane" && Names(w)[1] == "ball" && Names(w)[2] == "maze" && Names(w)[3] == "cube";
  }

  /** A respawned world in the same terms: maze, ball and cube at 1 to 3 with the next three ids. */
  lemma RespawnIds(w: World, friction: real, s: ShapeSet)
    requires WellFormed(w) && Aligned(w) && |w.bodies| >= 1
    ensures var r := Respawn(w, friction, s);
      && |r.bodies| == 4 && WellFormed(r) && Aligned(r) && r.nextId == w.nextId + 3 && !r.collision
      && r.bodies[0] == w.bodies[0]
      && r.bodies[1].name == "maze" && r.bodies[2].name == "ball" && r.bodies[3].name == "cube"
      && r.objects[1].id == w.nextId && r.objects[2].id == w.nextId + 1 && r.objects[3].id == w.nextId + 2
  {
    RespawnLayout(w, friction, s);
    var r := Respawn(w, friction, s);
    assert Names(r)[1] == "maze" && Names(r)[2] == "ball" && Names(r)[3] == "cube";
  }

  /** A ball's row of the scan is the outcome of its pair with the first cube, and the scan goes on from the next row. */
  lemma WinScanBallRow(g: GameModel, reported: seq<ContactPoint>, friction: real, s: ShapeSet, n: nat, i: nat, c: nat)
    requires |g.world.bodies| >= 1 && n <= |g.world.bodies| && n <= |g.world.objects|
    requires i < n && g.world.bodies[i].name == "ball" && FirstNamed(g.world.bodies, "cube", 1, n) == Some(c)
    ensures WinScan(g, reported, friction, s, n, i)
         == WinScan(PairOutcome(g, reported, friction, s, i, c).0, reported, friction, s, n, i + 1)
  {
    WinRowTestsFirstCube(g, reported, friction, s, n, i, 1);
  }

  /**
   * The scan from row 2 over a respawned world (maze, ball, cube at 1 to 3) without a contact
   * between its ball and cube: the verdict is cleared, and with the bound five taken before the
   * respawn the last row reads past the end of the four-entry body list.
   */
  lemma ScanAfterRespawnWithoutContact(g: GameModel, reported: seq<ContactPoint>, friction: real, s: ShapeSet, n: nat)
    requires |g.world.bodies| == 4 && Aligned(g.world) && 4 <= n <= 5
    requires g.world.bodies[1].name == "maze" && g.world.bodies[2].name == "ball" && g.world.bodies[3].name == "cube"
    requires !ContactHit(g.world, 2, 3, reported)
    ensures WinScan(g, reported, friction, s, n, 2)
         == (g.(world := AfterContactTest(g.world, 2, 3, reported), won := false), n == 4)
  {
    var g2 := g.(world := AfterContactTest(g.world, 2, 3, reported), won := false);
    assert WinRow(g, reported, friction, s, n, 2, 3) == (g2, true);
    assert WinRow(g, reported, friction, s, n, 2, 1) == (g2, true);
    assert WinScan(g, reported, friction, s, n, 2) == WinScan(g2, reported, friction, s, n, 3);
    WinRowSkipsNonBall(g2, reported, friction, s, n, 3, 1);
    assert WinScan(g2, reported, friction, s, n, 3) == WinScan(g2, reported, friction, s, n, 4);
    if n == 5 {
      assert WinRow(g2, reported, friction, s, n, 4, 1) == (g2, false);
    }
  }

  /**
   * A contact between the ball at index 1 and the cube at index 3 of a four-body world laid out
   * in start-up order: the pair respawns the world and sets state 3, but the scan goes on with
   * its old bound, pairs the fresh ball at index 2 with the fresh cube at index 3, and, as no
   * contact is reported for fresh bodies, overwrites the verdict with false.
   */
  lemma WinInStartupOrder(g: GameModel, reported: seq<ContactPoint>, friction: real, s: ShapeSet)
    requires WellFormed(g.world) && Aligned(g.world) && |g.world.bodies| == 4
    requires g.world.bodies[1].name == "ball" && g.world.bodies[2].name == "maze" && g.world.bodies[3].name == "cube"
    requires forall k :: 0 <= k < |reported| ==> reported[k].obj0 < g.world.nextId
    requires ContactHit(g.world, 1, 3, reported)
    ensures var r := AfterWin(g, reported, friction, s);
      && r.1 && r.0.state == WonState && !r.0.won && r.0.lost == g.lost
      && Names(r.0.world) == [g.world.bodies[0].name, "maze", "ball", "cube"]
  {
    var w := g.world;
    assert FirstNamed(w.bodies, "cube", 1, 4) == Some(3);
    WinScanBallRow(g, reported, friction, s, 4, 1, 3);
    var wc := AfterContactTest(w, 1, 3, reported);
    RespawnIds(wc, friction, s);
    var g1 := GameModel(Respawn(wc, friction, s), WonState, g.lost, true);
    assert !ContactHit(g1.world, 2, 3, reported);
    ScanAfterRespawnWithoutContact(g1, reported, friction, s, 4);
    var r := AfterContactTest(g1.world, 2, 3, reported);
    assert Names(r) == [g.world.bodies[0].name, "maze", "ball", "cube"];
  }

  /**
   * In a four-body world in respawn order (maze, ball, cube at 1 to 3) a contact between ball and
   * cube is seen by the scan's last pair: state 3 and the verdict true.
   */
  lemma WinInRespawnOrder(g: GameModel, reported: seq<ContactPoint>, friction: real, s: ShapeSet)
    requires WellFormed(g.world) && Aligned(g.world) && |g.world.bodies| == 4
    requires g.world.bodies[1].name == "maze" && g.world.bodies[2].name == "ball" && g.world.bodies[3].name == "cube"
    requires ContactHit(g.world, 2, 3, reported)
    ensures var r := AfterWin(g, reported, friction, s);
      && r.1 && r.0.state == WonState && r.0.won && r.0.lost == g.lost
      && Names(r.0.world) == [g.world.bodies[0].name, "maze", "ball", "cube"]
  {
    var w := g.world;
    WinRowSkipsNonBall(g, reported, friction, s, 4, 1, 1);
    assert WinScan(g, reported, friction, s, 4, 1) == WinScan(g, reported, friction, s, 4, 2);
    assert FirstNamed(w.bodies, "cube", 1, 4) == Some(3);
    WinScanBallRow(g, reported, friction, s, 4, 2, 3);
    var wc := AfterContactTest(w, 2, 3, reported);
    RespawnIds(wc, friction, s);
    var g1 := GameModel(Respawn(wc, friction, s), WonState, g.lost, true);
    WinRowSkipsNonBall(g1, reported, friction, s, 4, 3, 1);
    assert WinScan(g1, reported, friction, s, 4, 3) == WinScan(g1, reported, friction, s, 4, 4);
    assert Names(g1.world) == [g.world.bodies[0].name, "maze", "ball", "cube"];
  }

  /**
   * In a five-body world whose entries 1 to 3 are ball, maze and cube, a contact of that ball
   * and cube respawns the world down to four bodies while the scan keeps the bound five: the
   * scan reads past the end of the body list.
   */
  lemma WinPastShrunkList(g: GameModel, reported: seq<ContactPoint>, friction: real, s: ShapeSet)
    requires WellFormed(g.world) && Aligned(g.world) && |g.world.bodies| == 5
    requires g.world.bodies[1].name == "ball" && g.world.bodies[2].name == "maze" && g.world.bodies[3].name == "cube"
    requires forall k :: 0 <= k < |reported| ==> reported[k].obj0 < g.world.nextId
    requires ContactHit(g.world, 1, 3, reported)
    ensures var r := AfterWin(g, reported, friction, s);
      && !r.1 && r.0.state == WonState && !r.0.won && |r.0.world.bodies| == 4
  {
    var w := g.world;
    assert FirstNamed(w.bodies, "cube", 1, 5) == Some(3);
    WinScanBallRow(g, reported, friction, s, 5, 1, 3);
    var wc := AfterContactTest(w, 1, 3, reported);
    RespawnIds(wc, friction, s);
    var g1 := GameModel(Respawn(wc, friction, s), WonState, g.lost, true);
    assert !ContactHit(g1.world, 2, 3, reported);
    ScanAfterRespawnWithoutContact(g1, reported, friction, s, 5);
  }

  /** The first win from start-up reports false, although the state becomes "won". */
  lemma WinFromStartupReportsFalse(gravityY: int, friction: real, s: ShapeSet, lost: bool, won: bool)
    ensures var r := AfterWin(GameModel(Setup(gravityY, friction, s), Playing, lost, won),
                              [ContactPoint(3, 1)], friction, s);
      && r.1 && r.0.state == WonState && !r.0.won && r.0.lost == lost
      && Names(r.0.world) == ["groundPlane", "maze", "ball", "cube"]
  {
    var rep := [ContactPoint(3, 1)];
    StartupIds(gravityY, friction, s);
    var w := Setup(gravityY, friction, s);
    assert ContactHit(w, 1, 3, rep) by { assert rep[0] == ContactPoint(3, 1); }
    WinInStartupOrder(GameModel(w, Playing, lost, won), rep, friction, s);
  }

  /** After one respawn the same kind of contact makes `win` report true. */
  lemma WinAfterRespawnReportsTrue(gravityY: int, friction: real, s: ShapeSet, lost: bool, won: bool)
    ensures var w := Respawn(Setup(gravityY, friction, s), friction, s);
      var r := AfterWin(GameModel(w, Playing, lost, won), [ContactPoint(6, 5)], friction, s);
      && r.1 && r.0.state == WonState && r.0.won && r.0.lost == lost
      && Names(r.0.world) == ["groundPlane", "maze", "ball", "cube"]
  {
    var rep := [ContactPoint(6, 5)];
    StartupIds(gravityY, friction, s);
    var w0 := Setup(gravityY, friction, s);
    RespawnIds(w0, friction, s);
    var w := Respawn(w0, friction, s);
    assert ContactHit(w, 2, 3, rep) by { assert rep[0] == ContactPoint(6, 5); }
    WinInRespawnOrder(GameModel(w, Playing, lost, won), rep, friction, s);
  }

  /** A contact reported the other way round, ball first and cube second, never wins. */
  lemma WinNeedsCubeFirst(gravityY: int, friction: real, s: ShapeSet, lost: bool, won: bool)
    ensures var r := AfterWin(GameModel(Setup(gravityY, friction, s), Playing, lost, won),
                              [ContactPoint(1, 3)], friction, s);
      && r.1 && r.0.state == Playing && !r.0.won
      && r.0.world.bodies == Setup(gravityY, friction, s).bodies
  {
    var rep := [ContactPoint(1, 3)];
    var w := Setup(gravityY, friction, s);
    StartupIds(gravityY, friction, s);
    var g := GameModel(w, Playing, lost, won);
    assert FirstNamed(w.bodies, "cube", 1, 4) == Some(3);
    WinScanBallRow(g, rep, friction, s, 4, 1, 3);
    assert !ContactHit(w, 1, 3, rep);
    var g1 := g.(world := AfterContactTest(w, 1, 3, rep), won := false);
    WinRowSkipsNonBall(g1, rep, friction, s, 4, 2, 1);
    assert WinScan(g1, rep, friction, s, 4, 2) == WinScan(g1, rep, friction, s, 4, 3);
    WinRowSkipsNonBall(g1, rep, friction, s, 4, 3, 1);
    assert WinScan(g1, rep, friction, s, 4, 3) == WinScan(g1, rep, friction, s, 4, 4);
  }

  /**
   * With one extra ball spawned, a win shrinks the body list to four entries while the scan still
   * runs to the old bound of five: the row for index 4 reads past the end of the list.
   */
  lemma WinWithExtraBallReadsPastEnd(gravityY: int, friction: real, s: ShapeSet, lost: bool, won: bool)
    ensures var w := WithSphere(Setup(gravityY, friction, s), "ball", s.ball, BallStart, friction);
      var r := AfterWin(GameModel(w, Playing, lost, won), [ContactPoint(3, 1)], friction, s);
      && !r.1 && r.0.state == WonState && !r.0.won && |r.0.world.bodies| == 4
  {
    var rep := [ContactPoint(3, 1)];
    var w0 := Setup(gravityY, friction, s);
    StartupIds(gravityY, friction, s);
    SpawnKeepsInvariant(w0, "ball", Ball(4, s.ball, BallStart, friction));
    var w := WithSphere(w0, "ball", s.ball, BallStart, friction);
    assert w.bodies[1] == w0.bodies[1] && w.bodies[2] == w0.bodies[2] && w.bodies[3] == w0.bodies[3];
    assert w.objects[1] == w0.objects[1] && w.objects[3] == w0.objects[3];
    assert ContactHit(w, 1, 3, rep) by { assert rep[0] == ContactPoint(3, 1); }
    WinPastShrunkList(GameModel(w, Playing, lost, won), rep, friction, s);
  }

  /**
   * Right after a respawn, `win` finds the fresh ball at index 2 and pairs it with the fresh
   * cube at index 3. Contacts reported only for bodies that existed before the respawn cannot
   * involve them, so the verdict is false and nothing else changes.
   */
  lemma WinRightAfterRespawn(g: GameModel, reported: seq<ContactPoint>, friction: real, s: ShapeSet)
    requires WellFormed(g.world) && Aligned(g.world) && |g.world.bodies| >= 1
    requires forall k :: 0 <= k < |reported| ==> reported[k].obj0 < g.world.nextId
    ensures var r := g.(world := Respawn(g.world, friction, s));
      AfterWin(r, reported, friction, s) == (r.(won := false), true)
  {
    RespawnIds(g.world, friction, s);
    var r := g.(world := Respawn(g.world, friction, s));
    var w := r.world;
    WinRowSkipsNonBall(r, reported, friction, s, 4, 1, 1);
    assert WinScan(r, reported, friction, s, 4, 1) == WinScan(r, reported, friction, s, 4, 2);
    assert !Touching(reported, w.objects[3].id, w.objects[2].id);
    assert AfterContactTest(w, 2, 3, reported) == w;
    ScanAfterRespawnWithoutContact(r, reported, friction, s, 4);
  }

  /** `draw` advances the simulation by exactly one 1/60 s step, and only while playing. */
  lemma DrawStepsOnlyWhilePlaying(g: GameModel, moved: seq<Transform>)
    requires |moved| == |g.world.objects|
    ensures var d := AfterDraw(g, moved);
      && d.state == g.state && d.lost == g.lost && d.won == g.won && d.world.bodies == g.world.bodies
      && d.world.steps == (if g.state == Playing then g.world.steps + [StepCall(FrameTime, FrameSubSteps)]
                           else g.world.steps)
      && (g.state != Playing ==> d == g)
      && (WellFormed(g.world) ==> WellFormed(d.world)) && (Aligned(g.world) ==> Aligned(d.world))
  {
  }

  /** The shapes the game registered, read by name from the registry. */
  function ShapesOf(reg: CollisionShape): ShapeSet
    reads reg
    requires "ball" in reg.shapes && "maze" in reg.shapes && "cube" in reg.shapes
  {
    ShapeSet(reg.shapes["ball"], reg.shapes["maze"], reg.shapes["cube"])
  }

  /** `setPhysics`: a new world with the configured gravity, then ground, ball, maze and cube. */
  method BuildPhysics(reg: CollisionShape, gravityY: int, friction: real) returns (p: PhysicsWorld)
    requires "ball" in reg.shapes && "maze" in reg.shapes && "cube" in reg.shapes
    ensures fresh(p)
    ensures p.Model() == Setup(gravityY, friction, ShapesOf(reg))
  {
    p := new PhysicsWorld();
    p.SetGravityVec(Vec3(0.0, gravityY as real, 0.0));
    p.AddGroundPlane(Origin, GroundSize);
    p.AddSphere(reg, "ball", BallStart, friction);
    p.AddMaze(reg, "maze", MazeStart, friction);
    p.AddCube(reg, "cube", CubeStart);
  }

  /** The game controller: the physics world, the shape registry, the game state and the last verdicts. */
  class Controller {
    var physics: PhysicsWorld
    var registry: CollisionShape
    var state: int
    var lost: bool
    var won: bool

    function Model(): GameModel
      reads this, physics
    {
      GameModel(physics.Model(), state, lost, won)
    }

    /** The three shapes are registered, ids are unique, and the body list and the engine array agree. */
    predicate Valid()
      reads this, physics, registry
    {
      && "ball" in registry.shapes && "maze" in registry.shapes && "cube" in registry.shapes
      && WellFormed(physics.Model()) && Aligned(physics.Model()) && |physics.bodies| >= 1
    }

    function Shapes(): ShapeSet
      reads this, registry
      requires "ball" in registry.shapes && "maze" in registry.shapes && "cube" in registry.shapes
    {
      ShapesOf(registry)
    }

    /**
     * Construction registers the ball, maze and cube shapes in the shared registry, and
     * `setPhysics` builds the start-up world. The three flags start as given, since the
     * source leaves them uninitialised.
     */
    constructor (slot: RegistrySlot, sphereMesh: Mesh, mazeMesh: Mesh, cubeMesh: Mesh,
                 gravityY: int, friction: real, state0: int, lost0: bool, won0: bool)
      requires FacesInRange(mazeMesh.verts, mazeMesh.faces)
      modifies slot, slot.current
      ensures Valid()
      ensures registry == slot.current && (old(slot.current) != null ==> registry == old(slot.current))
      ensures registry.shapes == (if old(slot.current) != null then old(slot.current.shapes) else map[])
                                 ["ball" := ConvexHull(sphereMesh.verts)]
                                 ["maze" := TriangleMesh(Triangles(mazeMesh.verts, mazeMesh.faces))]
                                 ["cube" := ConvexHull(cubeMesh.verts)]
      ensures fresh(physics)
      ensures Model() == GameModel(Setup(gravityY, friction, Shapes()), state0, lost0, won0)
    {
      var reg := slot.Instance();
      reg.AddSphere("ball", sphereMesh);
      reg.AddMaze("maze", mazeMesh);
      reg.AddBox("cube", cubeMesh);
      var p := BuildPhysics(reg, gravityY, friction);
      SetupLayout(gravityY, friction, ShapesOf(reg));
      physics := p;
      registry := reg;
      state := state0;
      lost := lost0;
      won := won0;
    }

    /** `setPhysics` called again: a fresh start-up world; the flags and the registry stay. */
    method SetPhysics(gravityY: int, friction: real)
      requires Valid()
      modifies this
      ensures Valid() && fresh(physics) && registry == old(registry)
      ensures Model() == old(Model()).(world := Setup(gravityY, friction, Shapes()))
    {
      physics := BuildPhysics(registry, gravityY, friction);
      SetupLayout(gravityY, friction, Shapes());
    }

    /** Any int is stored, with no range check. */
    method SetGameState(st: int)
      modifies this
      ensures state == st && Model() == old(Model()).(state := st)
      ensures physics == old(physics) && registry == old(registry)
    {
      state := st;
    }

    method GetGameState() returns (st: int)
      ensures st == state
    {
      st := state;
    }

    /** One tilt scan over indices 1 to n - 1: mazes through `setRot`, cubes through `setRotAboutOrigin`. */
    method Tilt(local: Quat)
      requires Valid()
      modifies physics
      ensures Valid()
      ensures Model() == old(Model()).(world := Tilted(old(physics.Model()), local))
    {
      ghost var w := physics.Model();
      var n := physics.NumCollisionObjects();
      var i := 1;
      while i < n
        invariant 1 <= i && (n >= 1 ==> i <= n)
        invariant physics.bodies == w.bodies && |physics.objects| == n && physics.gravity == w.gravity
        invariant physics.collision == w.collision && physics.nextId == w.nextId && physics.steps == w.steps
        invariant forall k :: 0 <= k < n ==>
          physics.objects[k] == (if 1 <= k < i && Tilts(w.bodies[k].name) then Turned(w.objects[k], local)
                                 else w.objects[k])
      {
        var name := physics.BodyNameAt(i);
        if name == "maze" {
          var total := physics.GetRotation(i);
          physics.SetRot(i, Mul(local, total));
        }
        name := physics.BodyNameAt(i);
        if name == "cube" {
          var total := physics.GetRotation(i);
          physics.SetRotAboutOrigin(i, Mul(local, total));
        }
        i := i + 1;
      }
      assert physics.objects == Tilted(w, local).objects;
      TiltedEffect(w, local);
    }

    /** `rotateMazeXUP`: `h` holds the cosine and sine of half the angle increment. */
    method RotateMazeXUp(h: HalfAngle)
      requires Valid()
      modifies physics
      ensures Valid()
      ensures Model() == old(Model()).(world := Tilted(old(physics.Model()), AboutX(h)))
    {
      Tilt(AboutX(h));
    }

    /** `rotateMazeXDOWN`: the same increment about X with the angle negated. */
    method RotateMazeXDown(h: HalfAngle)
      requires Valid()
      modifies physics
      ensures Valid()
      ensures Model() == old(Model()).(world := Tilted(old(physics.Model()), AboutX(Negate(h))))
    {
      Tilt(AboutX(Negate(h)));
    }

    /** `rotateMazeZRIGHT`: an increment about Z. */
    method RotateMazeZRight(h: HalfAngle)
      requires Valid()
      modifies physics
      ensures Valid()
      ensures Model() == old(Model()).(world := Tilted(old(physics.Model()), AboutZ(h)))
    {
      Tilt(AboutZ(h));
    }

    /** `rotateMazeZLEFT`: the increment about Z with the angle negated. */
    method RotateMazeZLeft(h: HalfAngle)
      requires Valid()
      modifies physics
      ensures Valid()
      ensures Model() == old(Model()).(world := Tilted(old(physics.Model()), AboutZ(Negate(h))))
    {
      Tilt(AboutZ(Negate(h)));
    }

    /** Reset, then maze, ball and cube, as `lose` and `win` both do. */
    method RespawnBodies(friction: real)
      requires Valid()
      modifies physics
      ensures Valid()
      ensures physics.Model() == Respawn(old(physics.Model()), friction, Shapes())
    {
      RespawnLayout(physics.Model(), friction, Shapes());
      physics.Reset();
      physics.AddMaze(registry, "maze", MazeStart, friction);
      physics.AddSphere(registry, "ball", BallStart, friction);
      physics.AddCube(registry, "cube", CubeStart);
    }

    /** `lose`: looks at the first ball only, and respawns with state 2 if it has fallen below height 3. */
    method Lose(friction: real) returns (r: bool)
      requires Valid()
      modifies this, physics
      ensures Valid() && physics == old(physics) && registry == old(registry)
      ensures (Model(), r) == AfterLose(old(Model()), friction, Shapes())
    {
      ghost var g := Model();
      var n := physics.NumCollisionObjects();
      var i := 1;
      while i < n
        invariant 1 <= i && (n >= 1 ==> i <= n) && Model() == g && Valid()
        invariant physics == old(physics) && registry == old(registry)
        invariant forall m :: 1 <= m < i ==> physics.bodies[m].name != "ball"
      {
        var name := physics.BodyNameAt(i);
        if name == "ball" {
          assert FirstNamed(g.world.bodies, "ball", 1, n) == Some(i);
          r := LoseAt(friction, i);
          return;
        }
        i := i + 1;
      }
      r := lost;
    }

    /** The rest of `lose` once the first ball is found at index `i`: the height test and its outcome. */
    method LoseAt(friction: real, i: nat) returns (r: bool)
      requires Valid() && i < |physics.objects|
      requires FirstNamed(physics.bodies, "ball", 1, |physics.objects|) == Some(i)
      modifies this, physics
      ensures Valid() && physics == old(physics) && registry == old(registry)
      ensures (Model(), r) == AfterLose(old(Model()), friction, Shapes())
    {
      var pos := physics.GetPosition(i);
      if pos.y < FallHeight {
        RespawnBodies(friction);
        state := LostState;
        lost := true;
      } else {
        lost := false;
      }
      r := lost;
    }

    /** One pair test of `win`: on contact a respawn with state 3, otherwise the verdict false. */
    method TestPair(friction: real, reported: seq<ContactPoint>, i: nat, j: nat)
      requires Valid() && i < |physics.objects| && j < |physics.objects|
      modifies this, physics
      ensures Valid() && physics == old(physics) && registry == old(registry)
      ensures Model() == PairOutcome(old(Model()), reported, friction, Shapes(), i, j).0
    {
      var hit := physics.ContactTest(i, j, reported);
      if hit {
        RespawnBodies(friction);
        state := WonState;
        won := true;
      } else {
        // The repeated test sees the same contacts and gives the same verdict.
        var again := physics.ContactTest(i, j, reported);
        assert !again;
        won := false;
      }
    }

    /** The inner loop of `win` for ball index `i`; `defined` is false where the source reads past the list. */
    method TestRow(friction: real, reported: seq<ContactPoint>, n: nat, i: nat) returns (defined: bool)
      requires Valid()
      modifies this, physics
      ensures Valid() && physics == old(physics) && registry == old(registry)
      ensures Model() == WinRow(old(Model()), reported, friction, Shapes(), n, i, 1).0
      ensures defined == WinRow(old(Model()), reported, friction, Shapes(), n, i, 1).1
    {
      ghost var g := Model();
      var j := 1;
      while j < n
        invariant 1 <= j && Model() == g && Valid()
        invariant physics == old(physics) && registry == old(registry)
        invariant WinRow(g, reported, friction, Shapes(), n, i, j) == WinRow(g, reported, friction, Shapes(), n, i, 1)
      {
        if i >= |physics.bodies| {
          return false;
        }
        var nameI := physics.BodyNameAt(i);
        if nameI == "ball" {
          if j >= |physics.bodies| {
            return false;
          }
          var nameJ := physics.BodyNameAt(j);
          if nameJ == "cube" {
            TestPair(friction, reported, i, j);
            return true;
          }
        }
        j := j + 1;
      }
      defined := true;
    }

    /**
     * `win`: every ball index is paired with its first cube index; a contact respawns with
     * state 3. The bound is taken once, before any respawn. `defined` is false when the scan
     * would read past the end of the body list, where the source's behaviour is undefined.
     */
    method Win(friction: real, reported: seq<ContactPoint>) returns (r: bool, defined: bool)
      requires Valid()
      modifies this, physics
      ensures Valid() && physics == old(physics) && registry == old(registry)
      ensures Model() == AfterWin(old(Model()), reported, friction, Shapes()).0
      ensures defined == AfterWin(old(Model()), reported, friction, Shapes()).1
      ensures r == won
    {
      ghost var target := AfterWin(Model(), reported, friction, Shapes());
      var n := physics.NumCollisionObjects();
      var i := 1;
      while i < n
        invariant 1 <= i && Valid() && physics == old(physics) && registry == old(registry)
        invariant Shapes() == old(Shapes())
        invariant WinScan(Model(), reported, friction, Shapes(), n, i) == target
      {
        var ok := TestRow(friction, reported, n, i);
        if !ok {
          return won, false;
        }
        i := i + 1;
      }
      r, defined := won, true;
    }

    /** `createball`: one more ball at the start position. */
    method CreateBall(friction: real)
      requires Valid()
      modifies physics
      ensures Valid()
      ensures Model() == old(Model()).(world := WithSphere(old(physics.Model()), "ball", Shapes().ball, BallStart, friction))
    {
      SpawnKeepsInvariant(physics.Model(), "ball", Ball(physics.nextId, Shapes().ball, BallStart, friction));
      physics.AddSphere(registry, "ball", BallStart, friction);
    }

    /** The simulating part of `draw`: one step of 1/60 s with at most 10 sub-steps, while playing. */
    method Draw(moved: seq<Transform>)
      requires Valid() && |moved| == |physics.objects|
      modifies physics
      ensures Valid()
      ensures Model() == AfterDraw(old(Model()), moved)
    {
      var st := GetGameState();
      if st == Playing {
        physics.Step(FrameTime, FrameSubSteps, moved);
      }
    }
  }
}
