# Labyrinth: a verified model of the game core

Labyrinth is a small C++ tilting-maze game. The player tilts a maze with the arrow keys to roll a ball into a
black cube. A Bullet rigid-body world holds the bodies, and SDL provides the window and the keyboard. This project
models the game logic in Dafny, with the renderer and the physics engine's numeric simulation left out, and proves
properties of that model.

- `wrappers.dfy` (`Wrappers`): `Option` and `Result`.
- `geometry.dfy` (`Geometry`): vectors, Bullet's quaternion product, and the incremental rotations about the x and
  z axes. Each rotation is built from a (cosine, sine) pair for the half angle.
- `collision_shape.dfy` (`CollisionShapes`): the shared registry of named collision shapes.
  - The sphere and the box become convex hulls of all their mesh vertices.
  - The maze becomes a triangle mesh with one triangle per face.
  - The registry is a singleton. It is modelled as a slot (`RegistrySlot`) whose `Instance` creates the registry
    once and then always hands back the same object.
- `physics_world.dfy` (`Physics`): the physics world wrapper.
  - The state is the `World` value: gravity, the named-body list (`m_bodies`), the engine's collision-object array,
    the contact flag and a counter for object identity.
  - The class `PhysicsWorld` keeps these fields. Each of its methods is proved against a function on `World`.
  - Modelled operations: adding the ground plane, spheres, the maze and the cube, each with the source's
    friction/damping/flag constants; `setRot`/`setRotAboutOrigin`, `getPosition`/`getRotation`, `removeBody`,
    `reset`, `contactTest` and `step`.
- `game.dfy` (`Game`): the `NGLDraw` controller.
  - Start-up layout and the respawn layout.
  - The four maze-tilting scans.
  - `lose`, which looks at the first ball only.
  - `win`, a nested scan over ball/cube pairs: it respawns on contact, and its bound is fixed before the respawn.
  - `createball`.
  - The physics step, taken only while the state is "playing".
- `config.dfy` (`Config`): reading and writing the `HighScore`, `Gravity` and `Friction` configuration file.
  - Boost tokenizing on space, tab, CR and LF.
  - `lexical_cast<int>` limited to the 32-bit range.
  - Error results for lines the source cannot handle.
- `session.dfy` (`Session`): the main loop.
  - Events: quit, Escape, `a` (start), `b` (new ball), and the arrow keys pressed and released.
  - One frame: the four tilts, draw, `lose`, `win` and the high-score update.
  - Writing the settings back at exit.

## Inputs the model takes from outside

The physics engine's simulation and its contact detection are not modelled.
- `step` receives the new transforms of the objects as a parameter.
- `contactTest` receives the contact points the engine reports as a list of `(obj0, obj1)` object identities.
  - The source's callback only sets the flag when the cube is `obj0` and the ball is `obj1`.
  - That direction sensitivity is kept.

Other inputs:
- Trigonometry is an input. A rotation increment is a `HalfAngle(cos, sin)`, and a frame receives the function
  from an angle to that pair.
- The clock's score is a parameter of the frame.
- The configuration file is a sequence of lines.
- Object-file meshes are `Mesh` values.

Assumptions about these inputs:
- The contact points a frame reports never name an object created during that frame (an identity at or above
  the world's next identity). Lemmas about `win` after a respawn, among them Game.WinInStartupOrder,
  Game.WinPastShrunkList, Game.WinRightAfterRespawn and Session.LosingFrame, state this as a precondition.
  It matches the game: a respawn places the fresh ball at (-15, 25, -15) and the fresh cube at (0, 17, 0), which
  do not touch, and no simulation step runs between the respawn and the remaining tests of the same `win` call.
  The result that a win from the start-up order returns false holds under this assumption.
- The transforms `step` receives are not constrained. Any object may be given any transform, including the
  static ground plane and the kinematic maze and cube, which the engine would leave in place or take from the
  rotation `setRot` stored. No property of the model depends on what `step` does to them.

## Model

| member | source | states |
|---|---|---|
| CollisionShapes.Triangles | Labyrinth/src/CollisionShape.cpp:49-65 | one triangle per face, in face order, whose corners are the face's three vertices |
| CollisionShapes.TrianglesAppend | Labyrinth/src/CollisionShape.cpp:49-65 | the triangle list of concatenated face lists is the concatenation of their triangle lists |
| CollisionShapes.HullPoints | Labyrinth/src/CollisionShape.cpp:32-37 | the loop adds exactly the mesh's vertex list, in order, as hull points |
| CollisionShapes.HullContainsEveryVertex | Labyrinth/src/CollisionShape.cpp:27-39 | after `addSphere` or `addBox` stores a mesh under a name, looking that name up finds a convex hull whose points are all the mesh vertices in order, and every other name finds what it found before |
| CollisionShapes.Lookup | Labyrinth/src/CollisionShape.cpp:73-83 | a shape is found if and only if the name is registered, and then it is the registered shape; otherwise none (null) |
| CollisionShapes.RegisterLastWins | Labyrinth/src/CollisionShape.cpp:38 | registering a name replaces its earlier shape and leaves every other name's lookup unchanged |
| CollisionShapes.CollisionShape.constructor | Labyrinth/include/CollisionShape.h:59-63 | a new registry holds no shapes |
| CollisionShapes.CollisionShape.AddSphere | Labyrinth/src/CollisionShape.cpp:27-39 | the name now maps to the convex hull of all mesh vertices; all other entries are kept |
| CollisionShapes.CollisionShape.AddBox | Labyrinth/src/CollisionShape.cpp:87-99 | the name now maps to the convex hull of all mesh vertices; all other entries are kept |
| CollisionShapes.CollisionShape.AddMaze | Labyrinth/src/CollisionShape.cpp:43-69 | the name now maps to the triangle mesh of all faces; the face loop's invariant is the triangle list of the faces seen so far |
| CollisionShapes.CollisionShape.GetShape | Labyrinth/src/CollisionShape.cpp:73-83 | returns the lookup of the name: the shape when registered, none otherwise |
| CollisionShapes.RegistrySlot.constructor | Labyrinth/src/CollisionShape.cpp:13 | the shared instance starts null |
| CollisionShapes.RegistrySlot.Instance | Labyrinth/src/CollisionShape.cpp:15-23 | the first call creates an empty registry and stores it; later calls return the stored one |
| CollisionShapes.InstanceIsShared | Labyrinth/src/CollisionShape.cpp:15-23 | two successive calls return the same registry object |
| Geometry.MulIdentity | Labyrinth/src/NGLDraw.cpp:369-374 | the default (identity) quaternion is neutral for the product used to compose tilts |
| Geometry.AboutXComposes | Labyrinth/src/NGLDraw.cpp:371-374 | two x-axis increments compose into one whose half angle is the sum (angle-addition form) |
| Geometry.AboutZComposes | Labyrinth/src/NGLDraw.cpp:401-404 | two z-axis increments compose into one whose half angle is the sum |
| Geometry.OppositeIncrementsCancel | Labyrinth/src/NGLDraw.cpp:422-448 | the XDOWN (ZLEFT) increment undoes the XUP (ZRIGHT) increment of the same amount |
| Physics.WithoutNothing | Labyrinth/src/PhysicsWorld.cpp:272-284 | removing no identities leaves the collision array as it is |
| Physics.WithoutMember | Labyrinth/src/PhysicsWorld.cpp:272-284 | an object stays after removal exactly when it was there and its identity was not removed |
| Physics.WithoutTwice | Labyrinth/src/PhysicsWorld.cpp:272-284 | removing one set of bodies and then another is removing their union |
| Physics.IdsOfAppend | Labyrinth/include/PhysicsWorld.h:168 | appending a named body adds its identity to the body list's identities |
| Physics.WithoutDisjoint | Labyrinth/src/PhysicsWorld.cpp:272-284 | removing identities that no object has changes nothing |
| Physics.WithoutAll | Labyrinth/src/PhysicsWorld.cpp:272-284 | removing every object's identity empties the array |
| Physics.SpawnKeepsInvariant | Labyrinth/src/PhysicsWorld.cpp:36-62 | adding a body appends the same entry to the name list and to the collision array and keeps both earlier prefixes; distinct identities and the alignment of the two lists are preserved |
| Physics.ResetKeepsOnlyFirst | Labyrinth/src/PhysicsWorld.cpp:272-284 | reset leaves just the first body (the ground plane) in both lists, clears the contact flag and keeps the invariants |
| Physics.ResetIdempotent | Labyrinth/src/PhysicsWorld.cpp:272-284 | resetting twice is resetting once |
| Physics.RemoveBodyEffect | Labyrinth/src/PhysicsWorld.cpp:265-268 | removeBody(k) removes the engine object of body k+1 and keeps the name list |
| Physics.OrientChangesOnlyRotation | Labyrinth/src/PhysicsWorld.cpp:148-164 | setting a rotation changes only that object's rotation; its position and all other objects stay |
| Physics.ContactIsDirectional | Labyrinth/src/PhysicsWorld.cpp:288-309 | a contact counts only as (cube, ball), never as (ball, cube) |
| Physics.PhysicsWorld.constructor | Labyrinth/src/PhysicsWorld.cpp:13-32 | an empty world with the engine's default gravity |
| Physics.PhysicsWorld.SetGravity | Labyrinth/include/PhysicsWorld.h:48-51 | only gravity changes, to the given components |
| Physics.PhysicsWorld.SetGravityVec | Labyrinth/include/PhysicsWorld.h:56-59 | only gravity changes, to the given vector |
| Physics.PhysicsWorld.Append | Labyrinth/src/PhysicsWorld.cpp:56-61 | a body is added to the engine and named at the end of the body list |
| Physics.PhysicsWorld.AddGroundPlane | Labyrinth/src/PhysicsWorld.cpp:66-92 | appends "groundPlane": a static plane, normal up, at the position's height, friction 1, rolling friction 2 |
| Physics.PhysicsWorld.AddSphere | Labyrinth/src/PhysicsWorld.cpp:36-62 | appends a unit-mass ball with the registered shape, the given friction and the contact callback flag |
| Physics.PhysicsWorld.AddMaze | Labyrinth/src/PhysicsWorld.cpp:116-144 | appends a static kinematic maze, friction divided by ten, never deactivated |
| Physics.PhysicsWorld.AddCube | Labyrinth/src/PhysicsWorld.cpp:327-360 | appends the static kinematic cube with friction 100.5, damping 4 and the contact flag |
| Physics.PhysicsWorld.SetRot | Labyrinth/src/PhysicsWorld.cpp:148-164 | object i gets the given rotation at its old position; nothing else changes |
| Physics.PhysicsWorld.SetRotAboutOrigin | Labyrinth/src/PhysicsWorld.cpp:168-180 | object i gets the given rotation at its old position; nothing else changes |
| Physics.PhysicsWorld.GetPosition | Labyrinth/src/PhysicsWorld.cpp:246-259 | returns object i's position |
| Physics.PhysicsWorld.GetRotation | Labyrinth/src/PhysicsWorld.cpp:232-243 | returns object i's rotation |
| Physics.PhysicsWorld.BodyNameAt | Labyrinth/include/PhysicsWorld.h:64 | returns the name of entry i of the body list |
| Physics.PhysicsWorld.NumCollisionObjects | Labyrinth/include/PhysicsWorld.h:105-108 | returns the length of the engine's collision array |
| Physics.PhysicsWorld.RemoveBody | Labyrinth/src/PhysicsWorld.cpp:265-268 | the engine object of body k+1 is removed; the body list is kept |
| Physics.PhysicsWorld.Reset | Labyrinth/src/PhysicsWorld.cpp:272-284 | the loop removes the objects of bodies 1.. one by one; the result is the reset world (first body only, flag cleared) |
| Physics.PhysicsWorld.ContactTest | Labyrinth/src/PhysicsWorld.cpp:288-323 | the result is true exactly when the engine reports (object j, object i) as (cube, ball), and the flag then stays set |
| Physics.PhysicsWorld.Step | Labyrinth/src/PhysicsWorld.cpp:184-187 | each object takes the transform the engine computed; bodies and flags are unchanged |
| Game.FirstNamed | Labyrinth/src/NGLDraw.cpp:486-488 | the scan's hit is the first index in range carrying the name, and none means no index in range carries it |
| Game.WinRow | Labyrinth/src/NGLDraw.cpp:519-539 | one row of the win scan keeps the ground plane |
| Game.WinScan | Labyrinth/src/NGLDraw.cpp:517-540 | the whole win scan keeps the ground plane |
| Game.SetupLayout | Labyrinth/src/NGLDraw.cpp:115-125 | start-up world is ground plane, ball, maze, cube with identities 0-3 at the start positions, gravity (0, g, 0), invariants hold |
| Game.RespawnLayout | Labyrinth/src/NGLDraw.cpp:493-496 | after a respawn the list is first body, maze, ball, cube, each with a fresh identity, invariants kept |
| Game.RespawnOrderDiffersFromStartup | Labyrinth/src/NGLDraw.cpp:493-496 | a respawn puts the maze before the ball, unlike start-up |
| Game.TiltedEffect | Labyrinth/src/NGLDraw.cpp:362-388 | every maze and cube object is premultiplied by the increment at its old position; every other object and the lists are unchanged |
| Game.TiltByIdentity | Labyrinth/src/NGLDraw.cpp:362-388 | a tilt by the identity leaves the world unchanged |
| Game.LoseChecksFirstBall | Labyrinth/src/NGLDraw.cpp:483-510 | the verdict is "the first ball is below height 3"; a loss respawns with state 2, otherwise only the lost flag clears |
| Game.LoseIgnoresOtherBalls | Labyrinth/src/NGLDraw.cpp:486-505 | only the first ball's height decides the verdict |
| Game.LoseWithoutBall | Labyrinth/src/NGLDraw.cpp:483-510 | with no ball the game is unchanged and the previous lost flag is returned |
| Game.LoseRespawns | Labyrinth/src/NGLDraw.cpp:491-499 | a loss gives state 2, the respawn layout with the ball at index 2, the invariants, and the flag set |
| Game.WinRowSkipsNonBall | Labyrinth/src/NGLDraw.cpp:521 | a row whose body is not a ball changes nothing |
| Game.WinRowTestsFirstCube | Labyrinth/src/NGLDraw.cpp:519-537 | a ball's row ends at its first cube: that pair's outcome decides the row |
| Game.WinScanBallRow | Labyrinth/src/NGLDraw.cpp:517-540 | a ball row contributes exactly the outcome of its first ball/cube pair, then the scan continues at the next row |
| Game.WinScanWithoutPair | Labyrinth/src/NGLDraw.cpp:517-540 | with no ball/cube pair in range the scan changes nothing |
| Game.WinWithoutPair | Labyrinth/src/NGLDraw.cpp:514-542 | without a ball and a cube, win returns the previous flag and changes nothing |
| Game.WinFromStartupReportsFalse | Labyrinth/src/NGLDraw.cpp:514-542 | in the start-up layout a cube/ball contact sets state 3 but win returns false: the later ball row tests the fresh bodies and clears the flag |
| Game.WinAfterRespawnReportsTrue | Labyrinth/src/NGLDraw.cpp:514-542 | in the respawn layout the same contact gives state 3 and returns true |
| Game.WinNeedsCubeFirst | Labyrinth/src/PhysicsWorld.cpp:288-309 | a contact reported as (ball, cube) is no win |
| Game.WinWithExtraBallReadsPastEnd | Labyrinth/src/NGLDraw.cpp:516-521 | with an extra ball, a win shrinks the list below the scan bound, so the scan reads past the end of the body list |
| Game.ScanAfterRespawnWithoutContact | Labyrinth/src/NGLDraw.cpp:516-540 | in a respawned four-body list whose fresh ball and cube are not touching, the scan from row 2 only clears the win flag; with a bound of five it then reads past the end, with a bound of four it stays in range |
| Game.StartupIds | Labyrinth/src/NGLDraw.cpp:115-125 | the start-up world has four well-formed bodies, the ground plane, ball, maze and cube, with ids 0 to 3 and next id 4 |
| Game.RespawnIds | Labyrinth/src/NGLDraw.cpp:493-496 | after a respawn the world has four well-formed bodies, the kept ground plane then maze, ball and cube with the next three ids, and the contact flag clear |
| Game.WinInStartupOrder | Labyrinth/src/NGLDraw.cpp:514-542 | in any four-body world ordered ball, maze, cube whose ball and cube touch, win stays in range and sets state 3 but returns false, leaving the respawn order |
| Game.WinInRespawnOrder | Labyrinth/src/NGLDraw.cpp:514-542 | in any four-body world ordered maze, ball, cube whose ball and cube touch, win stays in range, sets state 3 and returns true, leaving the respawn order |
| Game.WinPastShrunkList | Labyrinth/src/NGLDraw.cpp:514-542 | in a five-body world ordered ball, maze, cube whose ball and cube touch, the win respawns to four bodies and the scan still bounded by five reads past the end |
| Game.WinRightAfterRespawn | Labyrinth/src/NGLDraw.cpp:514-542 | just after a respawn no contact involves the fresh bodies: win clears the flag and changes nothing else |
| Game.DrawStepsOnlyWhilePlaying | Labyrinth/src/NGLDraw.cpp:216-219 | the world steps only in state 1; otherwise the game is unchanged; the invariants hold |
| Game.BuildPhysics | Labyrinth/src/NGLDraw.cpp:115-125 | a fresh physics world equal to the start-up layout |
| Game.Controller.constructor | Labyrinth/src/NGLDraw.cpp:92-95 | registers "ball", "maze", "cube" in the shared registry (the existing one if any) and builds the start-up world |
| Game.Controller.SetPhysics | Labyrinth/src/NGLDraw.cpp:115-125 | replaces the world with a fresh start-up layout; state and flags kept |
| Game.Controller.SetGameState | Labyrinth/include/NGLDraw.h:117 | only the state changes |
| Game.Controller.GetGameState | Labyrinth/include/NGLDraw.h:122 | returns the state |
| Game.Controller.Tilt | Labyrinth/src/NGLDraw.cpp:362-388 | the loop over objects 1.. leaves the tilted world |
| Game.Controller.RotateMazeXUp | Labyrinth/src/NGLDraw.cpp:362-388 | tilt by the x increment (cos, sin) |
| Game.Controller.RotateMazeXDown | Labyrinth/src/NGLDraw.cpp:422-448 | tilt by the x increment of the opposite angle |
| Game.Controller.RotateMazeZRight | Labyrinth/src/NGLDraw.cpp:392-418 | tilt by the z increment (cos, sin) |
| Game.Controller.RotateMazeZLeft | Labyrinth/src/NGLDraw.cpp:452-479 | tilt by the z increment of the opposite angle |
| Game.Controller.RespawnBodies | Labyrinth/src/NGLDraw.cpp:493-496 | reset, then maze, ball and cube at their start positions |
| Game.Controller.Lose | Labyrinth/src/NGLDraw.cpp:483-510 | the scan's new game and verdict are those of the lose function |
| Game.Controller.LoseAt | Labyrinth/src/NGLDraw.cpp:490-505 | with the first ball at index i: below height 3 respawn, state 2 and the flag set, otherwise the flag cleared; agrees with the lose function |
| Game.Controller.TestPair | Labyrinth/src/NGLDraw.cpp:523-537 | one ball/cube test with respawn on contact, else the flag cleared |
| Game.Controller.TestRow | Labyrinth/src/NGLDraw.cpp:519-539 | the inner loop's result is one row of the win scan, including whether it stayed in range |
| Game.Controller.Win | Labyrinth/src/NGLDraw.cpp:514-542 | the nested scan's result is the win function's, and the returned flag is the stored one |
| Game.Controller.CreateBall | Labyrinth/src/NGLDraw.cpp:546-549 | appends a ball at the start position |
| Game.Controller.Draw | Labyrinth/src/NGLDraw.cpp:207-230 | steps the world exactly in state 1 |
| Config.Word | Labyrinth/src/main.cpp:100 | the leading run of non-separators: a prefix with no separator that ends at a separator or at the end |
| Config.Tokens | Labyrinth/src/main.cpp:100-108 | every token is non-empty and has no separator |
| Config.NonSeparatorsAppend | Labyrinth/src/main.cpp:100 | keeping the non-separators distributes over concatenation |
| Config.NonSeparatorsOfWord | Labyrinth/src/main.cpp:100 | a string without separators is kept whole |
| Config.TokensKeepAllOtherCharacters | Labyrinth/src/main.cpp:100-108 | the tokens, joined, are exactly the line's non-separator characters in order |
| Config.Pow10 | Labyrinth/src/main.cpp:59 | a power of ten is at least one |
| Config.ParseInt | Labyrinth/src/main.cpp:39 | a value is produced only for an optional sign then digits, and it lies in the 32-bit range |
| Config.DotIndex | Labyrinth/src/main.cpp:59 | the position of the first dot, or the length when there is none |
| Config.DecimalExtendsInt | Labyrinth/src/main.cpp:59 | every integer text reads as the same number as a float |
| Config.ParseIntValue | Labyrinth/src/main.cpp:36-52 | success exactly when there is a second token that converts; the value is that token's |
| Config.ParseFriction | Labyrinth/src/main.cpp:56-62 | success exactly when there is a second token that converts as a decimal; the value is that token's |
| Config.ReadConfig | Labyrinth/src/main.cpp:102-128 | the line loop, which stops at the first error, yields the configuration function's result |
| Config.ErrorsAreFinal | Labyrinth/src/main.cpp:102-128 | once a prefix fails, the whole file fails with that error |
| Config.NatToString | Labyrinth/src/main.cpp:368 | the decimal text is non-empty digits |
| Config.NatToStringValue | Labyrinth/src/main.cpp:368 | the decimal text reads back as the number |
| Config.IntRoundTrip | Labyrinth/src/main.cpp:368-369 | a 32-bit value printed then cast back is the value |
| Config.TokensOfWord | Labyrinth/src/main.cpp:100-108 | a leading word followed by a separator is the first token |
| Config.TokensOfDirective | Labyrinth/src/main.cpp:368-370 | "keyword value" splits into exactly those two tokens |
| Config.WordStopsAtSeparator | Labyrinth/src/main.cpp:100 | the leading word ends at the first separator |
| Config.NatToStringNoSeparator | Labyrinth/src/main.cpp:368 | printed numbers contain no separator |
| Config.LoadAppend | Labyrinth/src/main.cpp:102-128 | reading one more line applies it to the previous result, or keeps an error |
| Config.IntTextIsToken | Labyrinth/src/main.cpp:368-369 | a printed int is one token |
| Config.ApplyHighScoreLine | Labyrinth/src/main.cpp:111-114 | a "HighScore v" line sets the high score to v |
| Config.ApplyGravityLine | Labyrinth/src/main.cpp:115-118 | a "Gravity v" line sets gravity to v |
| Config.ApplyFrictionLine | Labyrinth/src/main.cpp:119-122 | a "Friction t" line sets the friction to t's value |
| Config.WriteThenRead | Labyrinth/src/main.cpp:368-370 | the high score and gravity come back exactly; the friction comes back as the value of the text written for it |
| Config.UnknownLineIgnored | Labyrinth/src/main.cpp:123-126 | a line with any other first word changes nothing |
| Config.LastDirectiveWins | Labyrinth/src/main.cpp:111-114 | appending two printed HighScore lines to a file that reads gives the second one's value and keeps the other settings |
| Config.OtherLineKeepsHighScore | Labyrinth/src/main.cpp:106-126 | a line read without error that does not name HighScore leaves the high score unchanged |
| Config.OtherLineKeepsGravity | Labyrinth/src/main.cpp:106-126 | a line read without error that does not name Gravity leaves the gravity unchanged |
| Config.OtherLineKeepsFriction | Labyrinth/src/main.cpp:106-126 | a line read without error that does not name Friction leaves the friction unchanged |
| Config.LastHighScoreWins | Labyrinth/src/main.cpp:102-114 | in any file that reads, the high score is the converted value of the last line naming HighScore, whatever lines come between it and the end and however its value is written |
| Config.LastGravityWins | Labyrinth/src/main.cpp:102-118 | in any file that reads, the gravity is the converted value of the last line naming Gravity |
| Config.LastFrictionWins | Labyrinth/src/main.cpp:102-122 | in any file that reads, the friction is the decimal value of the last line naming Friction |
| Config.ExtraTokensIgnored | Labyrinth/src/main.cpp:36-62 | only the first two tokens of a line matter |
| Config.OnlySeparatorsNoTokens | Labyrinth/src/main.cpp:100-108 | a line of separators has no tokens |
| Config.BlankLineIsAnError | Labyrinth/src/main.cpp:106-111 | a non-empty line with only separators is an error (its first token does not exist) |
| Config.AbsentDirectivesKeepDefaults | Labyrinth/src/main.cpp:74-82 | a setting no line names keeps its default (1000, 0, 0.0) |
| Session.StartKey | Labyrinth/src/main.cpp:242-264 | `a` gives state 1 from the menu, lost and won states; any other state stays |
| Session.KeysOnlyTurnWhilePlaying | Labyrinth/src/main.cpp:217-240 | outside play no key press changes a rotation amount |
| Session.ReleaseStopsTurning | Labyrinth/src/main.cpp:279-292 | releasing an arrow clears its amount and leaves the others |
| Session.HighScoreAfter | Labyrinth/src/main.cpp:313-320 | the high score never rises, and changes only on a win, to the smaller score |
| Session.AfterTilts | Labyrinth/src/main.cpp:299-302 | the four tilts keep the body list and the invariants |
| Session.Frame | Labyrinth/src/main.cpp:298-320 | a frame never raises the high score |
| Session.PlayStep | Labyrinth/src/main.cpp:307-320 | the playing part of a frame, lose then win, never raises the high score |
| Session.IdleFrameChangesNothing | Labyrinth/src/main.cpp:298-320 | outside play, with no key held, a frame changes nothing |
| Session.LosingFrame | Labyrinth/src/main.cpp:307-320 | after a fall, win still runs in the same frame: state 2, lost set, won clear, high score kept, respawn layout |
| Session.Session.constructor | Labyrinth/src/main.cpp:172-179 | the menu state, no rotation, the loaded settings, the start-up world |
| Session.Session.HandleEvent | Labyrinth/src/main.cpp:184-295 | quit on window close or Escape; `a` per the start rule; `b` adds a ball only while playing; arrows per the key rules |
| Session.Session.RunFrame | Labyrinth/src/main.cpp:298-320 | the frame's game, high score and range flag are the frame function's, computed with the loaded friction; the rotation amounts, the quit flag, the gravity and the friction stay |
| Session.Session.TiltAll | Labyrinth/src/main.cpp:299-302 | the four tilt calls in the order up, down, left, right together give the composed tilt of the world; nothing else changes |
| Session.Session.Play | Labyrinth/src/main.cpp:307-320 | the lose and win calls and the high score update give exactly the playing step of the frame function; the physics object and registry stay |
| Session.Session.WriteBack | Labyrinth/src/main.cpp:368-370 | the three written lines |

## Left out

- Rendering, shaders, the camera, text, mouse and wheel handling, window resizing, SDL setup, and the `w`, `s`
  and `g` keys (which only change the drawing or the window): they are presentation only.
- The engine's simulation (integration, collision detection, solver) is not modelled. Its outputs are parameters:
  the new transforms for `step` and the reported contact points for `contactTest`.
- Inertia, motion states and the matrix-to-quaternion round trip in `getRotation` are engine internals. The model
  keeps an object's rotation as set.
- `getTransformMatrix`, `getUserData` and `getCollisionShape` are used only by the renderer.
- Physics.PhysicsWorld.RemoveBody: removal from the collision array keeps the order of the remaining objects,
  whereas the engine swaps the last object into the gap. `reset`, the only removal the game uses, leaves only the
  first object either way.
- Physics.PhysicsWorld.AddSphere: requires the shape name to be registered. For an unregistered name the lookup
  returns null, and the source's first use of it is a virtual `calculateLocalInertia` call through that null
  pointer, which is undefined behaviour. The game registers all three shapes before adding any body.
- Physics.PhysicsWorld.AddMaze: requires the shape name to be registered, for the same reason.
- Physics.PhysicsWorld.AddCube: requires the shape name to be registered, for the same reason.
- Game.Controller.RotateMazeXDown: the opposite increment is written as (cos, -sin) of the given half angle. This
  relies on cosine being even and sine odd, and the trigonometry itself is an input.
- Game.Controller.RotateMazeZLeft: the opposite increment is written as (cos, -sin) of the given half angle, as
  for RotateMazeXDown.
- Game.Controller.Tilt: the composition of successive tilts on an arbitrary earlier orientation is not proved.
  Only the increments themselves are proved to compose and to cancel, in Geometry.
- Config.ParseFriction: `lexical_cast<float>` is modelled as an optional sign, digits and an optional fraction,
  read as an exact rational. Exponents, `inf`/`nan` and float rounding are not modelled.
- Session.Session.WriteBack: the friction is written from a text the caller supplies, because float formatting is
  not modelled.
- Session.Frame: the score comes from the clock, so it is a parameter. The timer, the accumulator and the pause
  arithmetic are not modelled.
- Geometry.AboutX and Geometry.AboutZ: the source builds the increment from a default-constructed quaternion,
  sets only `w` and one axis component, and leaves the other two components uninitialised. The model sets them
  to zero, so the increment is a pure rotation about that axis.
- Single-precision rounding is not modelled. Positions, rotations, quaternion products and the friction
  arithmetic are exact reals, so rounding drift over many tilts is not captured.
- File opening and its failure exits, command-line handling, console output and `std::cerr` messages are I/O.
- `m_state`, `m_lost` and `m_win` are never initialised by the source, so their starting values are constructor
  parameters.
- A whitespace-only line, a keyword line without a value, and a value the cast rejects are undefined behaviour or
  an uncaught exception in the source. The model gives an error result instead.
- `win` reading past the end of `m_bodies` is undefined behaviour. The model reports it through the `defined`
  result, as shown by Game.WinWithExtraBallReadsPastEnd.
