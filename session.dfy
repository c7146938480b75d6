/**
 * The program's main loop: keyboard events drive the game state, the spawning of balls and
 * the four rotation amounts; every frame tilts the maze, draws, and while playing checks for
 * a loss and a win and updates the high score. Window, mouse, rendering and the clock are
 * not part of this model: the score the clock yields and the engine's outputs are inputs.
 */
module Session {
  import opened Geometry
  import opened CollisionShapes
  import opened Physics
  import opened Game
  import opened Config

  datatype Key = KeyA | KeyB | ArrowUp | ArrowDown | ArrowLeft | ArrowRight | Escape | OtherKey

  datatype Event = QuitEvent | KeyDown(key: Key) | KeyUp(key: Key) | OtherEvent

  /** The rotation amount an arrow key sets while it is held down during play. */
  const RotateAmount: real := 0.003

  /** The four rotation amounts, one per arrow key. */
  datatype Rotations = Rotations(up: real, down: real, left: real, right: real)

  const NoRotation: Rotations := Rotations(0.0, 0.0, 0.0, 0.0)

  /** Key `a`: the menu, the lost screen and the won screen all start play; during play nothing changes. */
  function StartKey(state: int): (r: int)
    ensures state in {Menu, Playing, LostState, WonState} ==> r == Playing
    ensures state !in {Menu, Playing, LostState, WonState} ==> r == state
  {
    if state == Menu || state == LostState || state == WonState then Playing else state
  }

  /** Pressing an arrow key sets its amount, but only during play. */
  function OnKeyDown(rot: Rotations, state: int, k: Key): Rotations
  {
    if state != Playing then rot
    else match k
      case ArrowUp => rot.(up := RotateAmount)
      case ArrowDown => rot.(down := RotateAmount)
      case ArrowLeft => rot.(left := RotateAmount)
      case ArrowRight => rot.(right := RotateAmount)
      case _ => rot
  }

  /** Releasing an arrow key clears its amount, in every state. */
  function OnKeyUp(rot: Rotations, k: Key): Rotations
  {
    match k
    case ArrowUp => rot.(up := 0.0)
    case ArrowDown => rot.(down := 0.0)
    case ArrowLeft => rot.(left := 0.0)
    case ArrowRight => rot.(right := 0.0)
    case _ => rot
  }

  function OnEvent(rot: Rotations, state: int, e: Event): Rotations
  {
    match e
    case KeyDown(k) => OnKeyDown(rot, state, k)
    case KeyUp(k) => OnKeyUp(rot, k)
    case _ => rot
  }

  /** The amount an arrow key controls. */
  function Amount(rot: Rotations, k: Key): real
  {
    match k
    case ArrowUp => rot.up
    case ArrowDown => rot.down
    case ArrowLeft => rot.left
    case ArrowRight => rot.right
    case _ => 0.0
  }

  /** Outside play no key press changes a rotation amount. */
  lemma KeysOnlyTurnWhilePlaying(rot: Rotations, state: int, k: Key)
    requires state != Playing
    ensures OnKeyDown(rot, state, k) == rot
  {
  }

  /** A released arrow key never leaves its amount set, whatever happened before; the other amounts stay. */
  lemma ReleaseStopsTurning(rot: Rotations, state: int, k: Key, other: Key)
    ensures Amount(OnKeyUp(OnKeyDown(rot, state, k), k), k) == 0.0
    ensures other != k ==> Amount(OnKeyUp(rot, k), other) == Amount(rot, other)
  {
  }

  /** The high score after a frame: replaced by the score only on a win with a smaller score. */
  function HighScoreAfter(highScore: int, score: int, won: bool): (r: int)
    ensures r <= highScore
    ensures r != highScore ==> won && r == score
    ensures won && score < highScore ==> r == score
  {
    if won && score < highScore then score else highScore
  }

  /** The four tilt scans of one frame, in the order the loop calls them. */
  function AfterTilts(w: World, hUp: HalfAngle, hDown: HalfAngle, hLeft: HalfAngle, hRight: HalfAngle): (r: World)
    requires Aligned(w)
    ensures Aligned(r) && r.bodies == w.bodies && (WellFormed(w) ==> WellFormed(r))
  {
    TiltedEffect(w, AboutX(hUp));
    var w1 := Tilted(w, AboutX(hUp));
    TiltedEffect(w1, AboutX(Negate(hDown)));
    var w2 := Tilted(w1, AboutX(Negate(hDown)));
    TiltedEffect(w2, AboutZ(Negate(hLeft)));
    var w3 := Tilted(w2, AboutZ(Negate(hLeft)));
    TiltedEffect(w3, AboutZ(hRight));
    Tilted(w3, AboutZ(hRight))
  }

  /** What one frame does to the game, the new high score, and whether the frame's `win` stayed in range. */
  datatype FrameResult = FrameResult(game: GameModel, highScore: int, defined: bool)

  /**
   * One frame: the tilts, the draw step, then, if the state is "playing" at that point, `lose`
   * and `win` one after the other (so `win` runs even when `lose` has just changed the state),
   * and the high score update on a win.
   */
  function Frame(g: GameModel, halfAngle: real -> HalfAngle, rot: Rotations, moved: seq<Transform>,
                 reported: seq<ContactPoint>, friction: real, s: ShapeSet, score: int, highScore: int): (r: FrameResult)
    requires WellFormed(g.world) && Aligned(g.world) && |g.world.bodies| >= 1 && |moved| == |g.world.objects|
    ensures r.highScore <= highScore
  {
    var t := g.(world := AfterTilts(g.world, halfAngle(rot.up), halfAngle(rot.down),
                                    halfAngle(rot.left), halfAngle(rot.right)));
    DrawStepsOnlyWhilePlaying(t, moved);
    var d := AfterDraw(t, moved);
    if d.state != Playing then FrameResult(d, highScore, true)
    else PlayStep(d, reported, friction, s, score, highScore)
  }

  /** The part of a frame that runs only while playing: `lose`, then `win`, then the high score. */
  function PlayStep(d: GameModel, reported: seq<ContactPoint>, friction: real, s: ShapeSet,
                    score: int, highScore: int): (r: FrameResult)
    requires |d.world.objects| <= |d.world.bodies| && |d.world.bodies| >= 1
    ensures r.highScore <= highScore
  {
    var l := AfterLose(d, friction, s).0;
    var w := AfterWin(l, reported, friction, s);
    FrameResult(w.0, HighScoreAfter(highScore, score, w.0.won), w.1)
  }

  /** With every amount zero and the game not in play, a frame changes nothing. */
  lemma IdleFrameChangesNothing(g: GameModel, halfAngle: real -> HalfAngle, moved: seq<Transform>,
                                reported: seq<ContactPoint>, friction: real, s: ShapeSet, score: int, highScore: int)
    requires WellFormed(g.world) && Aligned(g.world) && |g.world.bodies| >= 1 && |moved| == |g.world.objects|
    requires halfAngle(0.0) == HalfAngle(1.0, 0.0) && g.state != Playing
    ensures Frame(g, halfAngle, NoRotation, moved, reported, friction, s, score, highScore)
         == FrameResult(g, highScore, true)
  {
    var h := HalfAngle(1.0, 0.0);
    assert AboutX(h) == Identity && AboutZ(h) == Identity && Negate(h) == h;
    TiltByIdentity(g.world);
    assert AfterTilts(g.world, h, h, h, h) == g.world;
    var t := g.(world := AfterTilts(g.world, halfAngle(NoRotation.up), halfAngle(NoRotation.down),
                                    halfAngle(NoRotation.left), halfAngle(NoRotation.right)));
    assert t == g;
    assert AfterDraw(t, moved) == g;
  }

  /**
   * A frame in which the ball falls: `lose` respawns with state 2, and the `win` that follows in
   * the same frame clears the win flag and keeps the state, so the high score stays.
   */
  lemma LosingFrame(g: GameModel, halfAngle: real -> HalfAngle, rot: Rotations, moved: seq<Transform>,
                    reported: seq<ContactPoint>, friction: real, s: ShapeSet, score: int, highScore: int)
    requires WellFormed(g.world) && Aligned(g.world) && |g.world.bodies| >= 1 && |moved| == |g.world.objects|
    requires g.state == Playing
    requires forall k :: 0 <= k < |reported| ==> reported[k].obj0 < g.world.nextId
    requires var t := g.(world := AfterTilts(g.world, halfAngle(rot.up), halfAngle(rot.down),
                                             halfAngle(rot.left), halfAngle(rot.right)));
             var d := AfterDraw(t, moved);
             FirstNamed(d.world.bodies, "ball", 1, |d.world.objects|).Some? && AfterLose(d, friction, s).1
    ensures var r := Frame(g, halfAngle, rot, moved, reported, friction, s, score, highScore);
      && r.defined && r.game.state == LostState && r.game.lost && !r.game.won && r.highScore == highScore
      && Names(r.game.world) == [g.world.bodies[0].name, "maze", "ball", "cube"]
  {
    var t := g.(world := AfterTilts(g.world, halfAngle(rot.up), halfAngle(rot.down),
                                    halfAngle(rot.left), halfAngle(rot.right)));
    DrawStepsOnlyWhilePlaying(t, moved);
    var d := AfterDraw(t, moved);
    assert d.world.nextId == g.world.nextId;
    LoseRespawns(d, friction, s);
    var l := AfterLose(d, friction, s).0;
    assert l.world == Respawn(d.world, friction, s);
    WinRightAfterRespawn(l.(world := d.world), reported, friction, s);
    assert l.(world := d.world).(world := Respawn(d.world, friction, s)) == l;
  }

  /** The main loop's state: the controller, the rotation amounts, the high score and the settings. */
  class Session {
    var ctrl: Controller
    var rotateUp: real
    var rotateDown: real
    var rotateLeft: real
    var rotateRight: real
    var highScore: int
    var gravityY: int
    var friction: real
    var quit: bool

    function Rot(): Rotations
      reads this
    {
      Rotations(rotateUp, rotateDown, rotateLeft, rotateRight)
    }

    predicate Valid()
      reads this, ctrl, ctrl.physics, ctrl.registry
    {
      ctrl.Valid()
    }

    /**
     * Start-up after the configuration is read: the controller with the settings, state 0, and
     * every rotation amount zero. The two verdict flags start as given, since the source leaves
     * them uninitialised.
     */
    constructor (slot: RegistrySlot, sphereMesh: Mesh, mazeMesh: Mesh, cubeMesh: Mesh,
                 settings: Settings, lost0: bool, won0: bool)
      requires FacesInRange(mazeMesh.verts, mazeMesh.faces)
      modifies slot, slot.current
      ensures Valid() && Rot() == NoRotation && !quit
      ensures highScore == settings.highScore && gravityY == settings.gravityY && friction == settings.friction
      ensures ctrl.Model() == GameModel(Setup(settings.gravityY, settings.friction, ctrl.Shapes()), Menu, lost0, won0)
    {
      ctrl := new Controller(slot, sphereMesh, mazeMesh, cubeMesh, settings.gravityY, settings.friction,
                             Menu, lost0, won0);
      rotateUp, rotateDown, rotateLeft, rotateRight := 0.0, 0.0, 0.0, 0.0;
      highScore, gravityY, friction := settings.highScore, settings.gravityY, settings.friction;
      quit := false;
    }

    /** One polled event. */
    method HandleEvent(e: Event)
      requires Valid()
      modifies this, ctrl, ctrl.physics
      ensures Valid() && ctrl == old(ctrl) && ctrl.physics == old(ctrl.physics) && ctrl.registry == old(ctrl.registry)
      ensures quit == (old(quit) || e == QuitEvent || e == KeyDown(Escape))
      ensures Rot() == OnEvent(old(Rot()), old(ctrl.state), e)
      ensures ctrl.state == (if e == KeyDown(KeyA) then StartKey(old(ctrl.state)) else old(ctrl.state))
      ensures ctrl.lost == old(ctrl.lost) && ctrl.won == old(ctrl.won)
      ensures ctrl.physics.Model()
           == if e == KeyDown(KeyB) && old(ctrl.state) == Playing
              then WithSphere(old(ctrl.physics.Model()), "ball", ctrl.Shapes().ball, BallStart, friction)
              else old(ctrl.physics.Model())
      ensures highScore == old(highScore) && gravityY == old(gravityY) && friction == old(friction)
    {
      match e
      case QuitEvent =>
        quit := true;
      case OtherEvent =>
      case KeyUp(k) =>
        match k {
          case ArrowUp => rotateUp := 0.0;
          case ArrowRight => rotateRight := 0.0;
          case ArrowDown => rotateDown := 0.0;
          case ArrowLeft => rotateLeft := 0.0;
          case _ =>
        }
      case KeyDown(k) =>
        var st := ctrl.GetGameState();
        match k {
          case Escape => quit := true;
          case KeyB =>
            if st == Playing {
              ctrl.CreateBall(friction);
            }
          case ArrowUp =>
            if st == Playing { rotateUp := RotateAmount; }
          case ArrowRight =>
            if st == Playing { rotateRight := RotateAmount; }
          case ArrowDown =>
            if st == Playing { rotateDown := RotateAmount; }
          case ArrowLeft =>
            if st == Playing { rotateLeft := RotateAmount; }
          case KeyA =>
            if st == Menu {
              ctrl.SetGameState(Playing);
            } else if st == LostState {
              ctrl.SetGameState(Playing);
            } else if st == WonState {
              ctrl.SetGameState(Playing);
            }
          case OtherKey =>
        }
    }

    /** The four tilt calls at the top of the loop, in their order. */
    method TiltAll(halfAngle: real -> HalfAngle)
      requires Valid()
      modifies ctrl, ctrl.physics
      ensures Valid() && ctrl.physics == old(ctrl.physics) && ctrl.registry == old(ctrl.registry)
      ensures ctrl.Model() == old(ctrl.Model()).(world := AfterTilts(old(ctrl.Model().world), halfAngle(rotateUp),
                                                                    halfAngle(rotateDown), halfAngle(rotateLeft),
                                                                    halfAngle(rotateRight)))
    {
      ctrl.RotateMazeXUp(halfAngle(rotateUp));
      ctrl.RotateMazeXDown(halfAngle(rotateDown));
      ctrl.RotateMazeZLeft(halfAngle(rotateLeft));
      ctrl.RotateMazeZRight(halfAngle(rotateRight));
    }

    /**
     * One pass of the loop after the events: tilt by the four amounts (`halfAngle` gives the
     * cosine and sine of half an angle), draw, and while playing run `lose` and `win` and update
     * the high score. `score` is what the clock shows; `moved` and `reported` are the engine's
     * positions after its step and the contacts it reports.
     */
    method RunFrame(halfAngle: real -> HalfAngle, moved: seq<Transform>, reported: seq<ContactPoint>, score: int)
      returns (defined: bool)
      requires Valid() && |moved| == |ctrl.physics.objects|
      modifies ctrl, ctrl.physics, this`highScore
      ensures Valid() && ctrl == old(ctrl) && ctrl.physics == old(ctrl.physics) && ctrl.registry == old(ctrl.registry)
      ensures var r := Frame(old(ctrl.Model()), halfAngle, old(Rot()), moved, reported, friction, ctrl.Shapes(),
                             score, old(highScore));
        ctrl.Model() == r.game && highScore == r.highScore && defined == r.defined
      ensures highScore <= old(highScore) && Rot() == old(Rot()) && quit == old(quit)
      ensures gravityY == old(gravityY) && friction == old(friction)
    {
      TiltAll(halfAngle);
      ctrl.Draw(moved);
      defined := true;
      var st := ctrl.GetGameState();
      if st == Playing {
        defined := Play(reported, score);
      }
    }

    /** The calls made while playing: `lose`, `win`, and the high score update on a win. */
    method Play(reported: seq<ContactPoint>, score: int) returns (defined: bool)
      requires Valid()
      modifies ctrl, ctrl.physics, this`highScore
      ensures Valid() && ctrl.physics == old(ctrl.physics) && ctrl.registry == old(ctrl.registry)
      ensures var r := PlayStep(old(ctrl.Model()), reported, friction, ctrl.Shapes(), score, old(highScore));
        ctrl.Model() == r.game && highScore == r.highScore && defined == r.defined
    {
      var lostNow := ctrl.Lose(friction);
      var wonNow: bool;
      wonNow, defined := ctrl.Win(friction, reported);
      if wonNow && score < highScore {
        highScore := score;
      }
    }

    /** The lines written back to the configuration on exit. */
    method WriteBack(frictionText: string) returns (lines: seq<string>)
      ensures lines == WriteConfig(Settings(highScore, gravityY, friction), frictionText)
    {
      lines := ["HighScore " + IntToString(highScore), "Gravity " + IntToString(gravityY),
                "Friction " + frictionText];
    }
  }
}
