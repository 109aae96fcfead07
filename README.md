# A verified model of the game loop of a browser platformer

The game is a 2D side-scroller. A player character runs and jumps across a
procedurally generated row of platforms, stomps or avoids patrolling enemies,
and wins by touching a goal flag. It loses by touching an enemy from anywhere
but above, or by falling out of the world. This project models the simulation
core of `game.js`, that is, everything that changes state once per animation
frame:

- `Player.update` (steering, friction, the speed cap, the jump with its dust,
  gravity, the Euler step, the fall-death check);
- `Player.checkCollisions` (the platform pass with its landing, head-bump and
  side-push branches, the enemy pass with stomp versus hit, the goal test);
- `Enemy.update` (the patrol), the `Particle` constructor and `Particle.update`;
- the geometry of `Platform` and `Goal`;
- `Game.loadLevel` (the ground, the generation loop, the goal and its
  platform), `Game.startGame`, and what `gameOver` and `victory` do to the run;
- `Game.update` (the enemies' patrol, the particle pass that splices expired
  particles out while it iterates, the enemy filter, the camera).

Layout:

- `geometry.dfy`: the constants and the overlap test.
- `entities.dfy`: platforms, the goal, enemies and particles as values, with
  the per-entity update rules.
- `physics.dfy`: the player's motion and the platform resolver.
- `particles.dfy`: the particle pass.
- `contacts.dfy`: the enemy resolver.
- `camera.dfy`: the camera.
- `level.dfy`: the level generator.
- `rules.dfy`: one frame as a function on a `State` value, phase by phase, with
  the lemmas about a whole frame.
- `game.dfy`: the `Game` object as the class `World`. It holds the player's
  fields, the entity lists as `seq` fields, the camera, the score and the run
  flags. Its methods follow the source statement by statement, and each one
  ensures that the new state is the matching phase function of the old one.

`Math.random` is a parameter `rand: nat -> real`. The n-th draw of a run is
`rand(n)`, and a `draws` counter says how many draws have been taken. The draws
happen in the source's order: size, speedX and speedY for a particle; gap,
width, height and the enemy coin for a platform. `IsUnitSource(rand)` says
every draw lies in [0, 1).

The two end screens are modelled as two flags, `lost` (set by `gameOver`) and
`won` (set by `victory`). Both can be set in the same frame, as in the source.

Where the code and the game's design description disagree, the model follows
the code:

- An enemy's patrol does not stay inside [startX, startX + range]. The turn is
  decided after the step, so the enemy goes one step past either end
  (`PatrolOvershootsRange`; the bound that does hold is `PatrolStaysInBand`).
- The ground strip is always 5000 wide. It does not cover the hard level,
  which is 8000 long (`GroundCoverage`).
- The particle pass removes particles during iteration. A removal shifts the
  next particle into the removed slot, and `forEach` then moves past that slot,
  so that particle is not aged this frame (`ExpiryShieldsSuccessor`).
- Gaps are drawn from [50, maxGap) and widths from [100, 400), both half-open.
- A generated enemy is not centred on its platform. Its x is its left edge,
  and it is set to the platform's midpoint, so the enemy's box lies right of
  centre. Its patrol runs from the midpoint to half a platform width past the
  platform's right end, so for part of it the enemy walks over the gap. Its
  feet are 7.6 below the platform's top (`EnemyOverIsOffCentre`).

## Model

| member | source | states |
|---|---|---|
| Geometry.Overlaps | game.js:270-273 | the strict AABB test used for platforms (270-273), enemies (306-309) and the goal (327-330); boxes can only overlap when their widths and heights sum to something positive |
| Geometry.OverlapsIffSharedPoint | game.js:270-273 | for boxes of positive size, the test holds exactly when some point lies strictly inside both boxes |
| Entities.NewGoal | game.js:455-458 | a goal is a 60 x 120 box at the given corner |
| Entities.NewEnemy | game.js:392-409 | an enemy's box is 0.6 times as wide as it is high, and its height is 0.08 of the canvas height; it starts at its x with the given range, heading right at speed 2, unmarked, and it is patrolling when its range is non-negative |
| Entities.Patrol | game.js:410-415 | a patrol step moves x by speed times direction (so by exactly one speed, in the heading's direction), changes only x and direction, flips the direction exactly when the new x is outside [startX, startX + range], and keeps the patrol invariant |
| Entities.PatrolStepsKeepInvariant | game.js:410-415 | any number of patrol steps keeps the patrol invariant and changes only x and direction |
| Entities.PatrolStaysInBand | game.js:393-415 | a new enemy, however long it patrols, stays within one step of [startX, startX + range] and heads left or right |
| Entities.PatrolOvershootsRange | game.js:410-415 | with range 3 the second step reaches startX + 4 before the enemy turns, so the patrol leaves its range |
| Entities.NewParticle | game.js:433-441 | a new particle is at its origin with life 1; draws in [0, 1) give size in [2, 7) and each speed in [-3, 3) |
| Entities.ParticleStep | game.js:442-446 | a particle moves by its own speed and loses exactly 0.05 of life, nothing else changes |
| Entities.Unmarked | game.js:611 | the filter keeps exactly the unmarked enemies, in their order |
| Entities.UnmarkedKeepsCopies | game.js:611 | the filter keeps every copy of an unmarked enemy and no copy of a marked one |
| Physics.Steered | game.js:224-238 | the new velX lies in [-35, 35]; with neither key or both, it is the capped coasting speed; with only d it is the capped (velX + 4) * 0.8, never below coasting; with only a it is the capped (velX - 4) * 0.8, never above coasting |
| Physics.Facing | game.js:224-231 | holding a faces left (a is handled after d); d alone faces right; no steering key keeps the facing |
| Physics.Cap | game.js:236-238 | the capped speed lies in [-35, 35], equals the input when it is already there, and never grows in magnitude |
| Physics.Motion | game.js:222-256 | the speed is capped; with neither steering key or both, friction only slows the player; with one key the push of 4 comes before friction; a is handled after d, so holding it faces left and d alone faces right; a jump (jump key while grounded) sets velY to gravity minus the jump force and clears grounded, otherwise gravity is added; the position moves by the new velocity |
| Physics.ResolvePlatform | game.js:269-302 | no overlap changes nothing; a landing snaps the feet onto the top, zeroes velY and grounds; a head bump snaps below and zeroes velY; side contacts snap beside and zero velX; grounded is set exactly by a landing; every branch that moves the player ends the overlap |
| Physics.ResolvePlatforms | game.js:269-302 | the platform loop resolves each platform in order against the player the earlier ones left; it never changes the facing and never clears grounded |
| Physics.UntouchedPlayerIsUnchanged | game.js:265-302 | a player touching no platform leaves the platform pass unchanged (so it stays airborne) |
| Physics.GroundedOnlyByLanding | game.js:265-302 | starting airborne, the pass grounds the player exactly when some platform, met in order, takes the landing branch |
| Physics.GroundedPlayerIsAtRest | game.js:269-302 | after the pass a grounded player has velY 0 |
| Physics.RestingPlayerOnlyHitsSides | game.js:277-301 | once velY is 0, a later overlapping platform can only push sideways, never land or bump |
| Particles.Dust | game.js:245-247 | n spawned particles sit at the origin with the colour and life 1, all alive, with size and speeds in range when the draws are |
| Particles.ParticlePass | game.js:605-608 | the pass never lengthens the list and keeps every particle alive if all were |
| Particles.SpliceAt | game.js:606-607 | one iteration keeps the length or removes exactly one particle |
| Particles.PendingStep | game.js:605-608 | one iteration at index k preserves what the loop will have produced |
| Particles.RemovalsNeedExpiry | game.js:605-608 | the pass removes at most as many particles as expire when aged |
| Particles.LiveParticlesStay | game.js:605-608 | a particle is removed only if its own update takes its life to 0 or below: every other one is still there after the pass, aged, or as it was if the splice before it made the loop skip it |
| Particles.NoExpiryUpdatesAll | game.js:605-608 | when no particle expires, every particle is aged exactly once and none is removed |
| Particles.ExpiryShieldsSuccessor | game.js:605-608 | when the first particle expires, the second survives this frame without being aged |
| Contacts.ContactWith | game.js:306-312 | a contact is a miss exactly when the boxes do not overlap, and a stomp exactly when they overlap, the player is falling and its foot was above the enemy's mid-height before this step |
| Contacts.EnemyPass | game.js:305-324 | the pass changes only the player's velY; any stomp leaves it at minus half the jump force; no stomp leaves the player as it was; one contact per enemy |
| Contacts.PerStomp | game.js:315 | the stomp total is 0 exactly when the weight is 0 or there is no stomp |
| Contacts.AfterContact | game.js:313 | an enemy is marked exactly when it was already marked or is stomped, and nothing else about it changes |
| Contacts.Burst | game.js:317-319 | a stomp spawns ten live particles and any other contact none |
| Contacts.EnemyPassStep | game.js:305-324 | each enemy's contact is decided against the player the earlier enemies left |
| Contacts.StompsStep | game.js:305-324 | one more contact adds a stomp's weight exactly when it is a stomp, and is a hit or not |
| Contacts.AtMostOneStomp | game.js:312-314 | the bounce makes velY negative, so at most one enemy is stomped per pass and a pass earns one bonus or none |
| Camera.FollowCamera | game.js:614-616 | the camera never goes below 0, and when it stays above 0 its distance to the target shrinks to 0.9 of what it was |
| Camera.CameraSettlesAtOrigin | game.js:614-616 | with the player held at x = 0, a camera at offset c reaches 0 within c / 38.4 frames |
| Level.GroundCoverage | game.js:568 | the ground starts at 0 and covers the easy and medium levels but stops 3000 short of the hard one |
| Level.DifficultyOf | game.js:571-572 | "easy" and "medium" select those tiers, anything else the hard one |
| Level.LevelLength | game.js:571 | every level length lies beyond the starting cursor 600 |
| Level.MaxGapSize | game.js:572 | every maximum gap exceeds the minimum gap 50 |
| Level.GapSize | game.js:576 | a draw in [0, 1) gives a gap in [50, maxGapSize) |
| Level.PlatformWidth | game.js:577 | a draw in [0, 1) gives a width in [100, 400) |
| Level.PlatformY | game.js:581-583 | a draw in [0, 1) gives a top in [370, 570) |
| Level.EnemyOver | game.js:588-590 | the enemy placed over a platform has its left edge at the platform's midpoint and its top 50 above the platform's top, patrols over a range as wide as the platform, and is patrolling and unmarked |
| Level.EnemyOverIsOffCentre | game.js:588-590 | the enemy placed over a platform is not centred on it: its box lies right of the platform's midpoint, its patrol ends half a platform width past the platform's right end, and its feet are 7.6 below the platform's top |
| Level.Generate | game.js:570-592 | the generation loop places a platform exactly when the cursor starts short of the level's end, and at most one enemy per platform |
| Level.Placed | game.js:576-585 | each placed platform is in the band, 40 high, starts a gap after the cursor, and moves the cursor by at least 150 |
| Level.GenerateAfterPlacing | game.js:575-592 | one iteration of the generation loop keeps what the loop will have produced, and the cursor gets closer to the level's end |
| Level.PlatformsCons | game.js:575-592 | a platform in the band, placed a gap after the cursor, keeps the layout's shape and spacing when put in front of platforms laid out from its right end |
| Level.GeneratedPlatforms | game.js:575-592 | every generated platform is in the band, each follows the previous one after a gap in [50, maxGapSize), and the last reaches the level's end |
| Level.UnderUndoesEnemyOver | game.js:588-590 | for a platform of the generated height, the platform recovered under the enemy placed over it is that platform |
| Level.EnemiesPlacedCons | game.js:585-590 | a placed platform, with or without the enemy over it, keeps the level's enemies on their platforms |
| Level.GeneratedEnemies | game.js:575-592 | every generated enemy is the enemy placed over one of the generated platforms, patrolling and unmarked |
| Level.GeneratedEnemiesStep | game.js:585-591 | one iteration of the loop keeps every generated enemy on its platform |
| Level.GeneratedExtent | game.js:570-592 | the loop takes four draws per platform and ends within one iteration per 150 of length |
| Rules.Loaded | game.js:560-598 | after loadLevel the player is fresh at (100, 100), the particles are gone, the camera is at 0, the goal is placed, the ground is the first of at least three platforms and the goal's platform the last; the score and the run flags are untouched |
| Rules.Started | game.js:535-545 | after startGame the run is on with score 0, no outcome and a goal |
| Rules.Moved | game.js:222-260 | the player's update before the collision pass touches only the player, the particles, the draws and the run flags; it appends five particles after a jump and keeps the old ones; the run stops and is lost exactly when the player has fallen out |
| Rules.Landed | game.js:265-302 | the platform pass changes only the player, and not its facing |
| Rules.Met | game.js:305-324 | meeting one enemy keeps the number of enemies, the platforms, the goal, the camera and the win flag; the score never drops; it can stop the run and set the loss, never undo them |
| Rules.MetUpTo | game.js:305-324 | the enemy loop keeps the number of enemies, the platforms, the goal, the camera and the win flag; the score never drops; it can stop the run and set the loss, never undo them |
| Rules.Collided | game.js:265-333 | checkCollisions keeps the number of enemies, the platforms, the goal and the camera; the score never drops; it can stop the run and set an outcome, never undo them |
| Rules.PatrolAll | game.js:604 | every enemy takes exactly one patrol step, in place |
| Rules.Advanced | game.js:604-616 | the rest of the frame touches only the enemies, the particles and the camera; no marked enemy survives, no particle is added, and the camera ends at or above 0 |
| Rules.Step | game.js:600-619 | a frame of a stopped game changes nothing; a frame keeps the platforms and the goal, never lowers the score, never restarts the run, and leaves the camera at or above 0 |
| Rules.MetUpToPlayer | game.js:305-324 | after n iterations the player is the one the contact pass computes, the later enemies are untouched, and the platforms, goal, camera and win flag are unchanged |
| Rules.MetContact | game.js:305-324 | iteration i meets enemy i as it was, against the player the first i contacts left |
| Rules.MetUpToMarks | game.js:313 | after n iterations exactly the stomped enemies are marked |
| Rules.MetUpToScore | game.js:315-319 | after n iterations the score grows by 100 and the draws by 30 per stomp |
| Rules.MetEffects | game.js:305-324 | one iteration appends its burst, takes its draws, adds its bonus, and marks only its own enemy |
| Rules.MetUpToParticles | game.js:317-319 | after n iterations the old particles are in place, ten more follow per stomp, and all are alive if the old ones were |
| Rules.MetUpToOutcome | game.js:320-322 | after n iterations the run stops and is lost exactly when some contact was a hit |
| Rules.StartedLevel | game.js:535-598 | a started game is running and valid with score 0; the ground is first and the goal's platform last; between them lies at least one generated platform, each in the band and spaced by a gap in [50, maxGapSize), the last reaching the level's end; every enemy is the one placed over one of them; there are no more enemies than platforms |
| Rules.MetUpToKeepsPatrolling | game.js:305-324 | the enemy loop leaves every enemy patrolling |
| Rules.StepPreservesValid | game.js:600-619 | a frame keeps the camera at or above 0, every particle alive, every enemy patrolling and unmarked, and a running game with its goal and no outcome |
| Rules.StepStopsOnOutcome | game.js:255-332 | in a running game a frame stops the run exactly when it sets an outcome; it is lost exactly when the player fell out or hit an enemy, and won exactly when the player, after the platform and enemy passes, touches the goal; a loss does not stop the pass, so both can be set in one frame |
| Rules.StepScore | game.js:315 | a frame raises the score by 0 or exactly 100 |
| Game.World.constructor | game.js:473-491 | a new game has the player at (100, 100), empty lists, no goal, camera 0, score 0, and is not running |
| Game.World.Random | game.js:437-439 | the next draw is taken from the stream and the cursor advances by one |
| Game.World.SpawnParticles | game.js:245-247 | n particles are appended, as Dust computes them from the next 3n draws |
| Game.World.GameOver | game.js:547-552 | gameOver stops the run and records a loss |
| Game.World.Victory | game.js:554-558 | victory stops the run and records a win |
| Game.World.Begin | game.js:541-542 | startGame sets the run on with score 0 and no outcome, nothing else |
| Game.World.StartGame | game.js:535-545 | startGame leaves the game the function Started describes, running and valid |
| Game.World.LoadLevel | game.js:560-598 | loadLevel leaves the game the function Loaded describes |
| Game.World.ResetPlayer | game.js:203-214 | a new player is at (100, 100), at rest, in the air, facing right |
| Game.World.ClearLevel | game.js:561-568 | the lists are emptied, the player is new, the camera is at 0, and the ground is the only platform |
| Game.World.PlaceGoal | game.js:595-597 | the goal is placed 200 past the level's end, and a 500-wide platform is appended at the level's end |
| Game.World.GeneratePlatforms | game.js:570-592 | the generation loop appends exactly the layout Generate produces and takes its draws |
| Game.World.PlaceNext | game.js:576-591 | one iteration appends the placed platform, the enemy when the fourth draw is below 0.4, takes four draws, and yields the platform's right end |
| Game.World.Steer | game.js:224-238 | steering changes only velX and the facing, as Steered and Facing say |
| Game.World.Jump | game.js:241-248 | a jump sets velY to minus the jump force, clears grounded and appends five dust particles; otherwise nothing changes |
| Game.World.Fall | game.js:250-260 | gravity and the Euler step move the player, and falling out of the world calls gameOver |
| Game.World.MovePlayer | game.js:222-260 | the player's update before the collision pass is the function Moved |
| Game.World.ResolvePlatformContacts | game.js:269-302 | the platform loop leaves the player as the fold ResolvePlatforms computes |
| Game.World.StompEnemy | game.js:313-319 | a stomp marks the enemy, bounces the player, adds 100 and appends ten particles |
| Game.World.MeetEnemy | game.js:306-323 | one iteration of the enemy loop is the function Met |
| Game.World.ResolveEnemyContacts | game.js:305-324 | the enemy loop is MetUpTo over every enemy |
| Game.World.LandPlayer | game.js:266-302 | grounded is cleared, then the platform pass runs |
| Game.World.CheckGoal | game.js:326-332 | touching the goal calls victory, and nothing else changes |
| Game.World.CheckCollisions | game.js:265-333 | checkCollisions is the function Collided |
| Game.World.UpdatePlayer | game.js:222-263 | the player's update is Moved followed by Collided |
| Game.World.UpdateEnemies | game.js:604 | every enemy takes one patrol step in place |
| Game.World.UpdateParticles | game.js:605-608 | the in-place splicing loop yields exactly ParticlePass of the particles it started with |
| Game.World.Advance | game.js:604-616 | after the player's update: patrol, particle pass, enemy filter and camera, as Advanced says |
| Game.World.Tick | game.js:600-619 | a frame is the function Step, and it keeps the game valid |

## Left out

- Rendering (`draw` of every entity, the canvas, `ui.score` text) is not modelled: it reads the state and changes none of it.
- The animation loop (`loop`, `requestAnimationFrame`) is not modelled: `Tick` is one call of `Game.update`.
- Game.World.StartGame: `startGame` ends by calling `loop`, which runs the first `update` at once (game.js:544, 633-636); the model's StartGame stops before that frame, which is left to the host's first `Tick`.
- The end screens and the HUD (`ui.*`, the final-score text) are reduced to the `lost` and `won` flags.
- Input devices (keyboard, touch buttons, accelerometer, its permission request) are reduced to the `Keys` triple passed to each frame.
- Player and enemy images are not modelled: they only affect drawing.
- `Math.random` is the injected stream `rand`, so the model is deterministic given that stream.
- Floating-point arithmetic is modelled with exact reals, so rounding is not captured (for example a particle's life after twenty fades is exactly 0 here).
- The game's `difficulty` comes in as the button's string; `DifficultyOf` maps any other string to the hard tier, as the nested conditionals do.
- `goal` is `null` before the first level. `checkCollisions` would dereference it, but it only runs while a game is running, which needs a loaded level. The model uses `Option`, and a missing goal is never reached.
- Rules.MetUpToParticles: states the length, the kept prefix and liveness of the particles after the enemy loop, not the closed form of every appended particle; each iteration's exact burst is stated by Rules.MetEffects.
- Whether the gaps the generator leaves can be jumped (the end-to-end "walking right reaches the goal" property) is not modelled: it depends on the physics envelope and the source does not guarantee it.
