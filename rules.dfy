/** One frame of the game as a function of the whole game state: the phases
    Game.update runs in order (the player's motion, the platform and enemy
    passes of checkCollisions, the goal test, the enemies' patrol, the
    particle pass, the enemy filter and the camera), each a function from
    state to state, and what they guarantee together. */
module Rules {
  import opened Geometry
  import opened Entities
  import opened Physics
  import opened Particles
  import opened Contacts
  import opened Camera
  import opened Level

  /** Everything the Game object holds between frames, as a value; draws is
      how many random draws the run has taken so far. */
  datatype State = State(player: Body, platforms: seq<Platform>, enemies: seq<Enemy>,
                         particles: seq<Particle>, goal: Option<Goal>, cameraX: real,
                         score: nat, isRunning: bool, lost: bool, won: bool, draws: nat)
  {
    /** What holds between frames of a run: the camera is right of the
        origin, every particle is alive, every enemy is patrolling and none
        is marked, and a running game has a goal and no outcome yet. */
    predicate Valid()
    {
      && cameraX >= 0.0
      && AllAlive(particles)
      && AllPatrolling(enemies)
      && (isRunning ==> goal.Some? && !lost && !won)
    }
  }

  /** loadLevel up to its generation loop: a fresh player at (100, 100),
      the camera at the origin, and an empty world but for the ground. */
  function Cleared(s: State): State
  {
    s.(player := Body(START_POSITION, START_POSITION, 0.0, 0.0, false, true),
       platforms := [GROUND], enemies := [], particles := [], cameraX := 0.0)
  }

  /** The generation loop of loadLevel: what Generate lays out from x = 600
      is appended to the platforms and the enemies. */
  function Generated(s: State, levelLength: real, maxGapSize: real, rand: nat -> real): State
    requires IsUnitSource(rand) && MIN_GAP < maxGapSize
  {
    var layout := Generate(START_X, levelLength, maxGapSize, rand, s.draws);
    s.(platforms := s.platforms + layout.platforms, enemies := s.enemies + layout.enemies,
       draws := layout.draws)
  }

  /** The end of loadLevel: the goal 200 past the level's end and the
      platform under it. */
  function GoalPlaced(s: State, levelLength: real): State
  {
    s.(goal := Some(GoalFor(levelLength)), platforms := s.platforms + [GoalPlatform(levelLength)])
  }

  /** loadLevel(difficulty). */
  function Loaded(s: State, difficulty: Difficulty, rand: nat -> real): (r: State)
    requires IsUnitSource(rand)
    ensures r.player == Body(START_POSITION, START_POSITION, 0.0, 0.0, false, true)
    ensures r.particles == [] && r.cameraX == 0.0 && r.goal == Some(GoalFor(LevelLength(difficulty)))
    ensures |r.platforms| >= 3 && r.platforms[0] == GROUND
    ensures r.platforms[|r.platforms| - 1] == GoalPlatform(LevelLength(difficulty))
    ensures r.score == s.score && r.isRunning == s.isRunning && r.lost == s.lost && r.won == s.won
  {
    var levelLength := LevelLength(difficulty);
    GoalPlaced(Generated(Cleared(s), levelLength, MaxGapSize(difficulty), rand), levelLength)
  }

  /** startGame(difficulty): the run starts with a score of 0 and no
      outcome, on a freshly loaded level. */
  function Started(s: State, difficulty: Difficulty, rand: nat -> real): (r: State)
    requires IsUnitSource(rand)
    ensures r.isRunning && r.score == 0 && !r.lost && !r.won && r.goal.Some?
  {
    Loaded(s.(isRunning := true, score := 0, lost := false, won := false), difficulty, rand)
  }

  /** Player.update up to checkCollisions: the motion, the jump dust, and
      gameOver once the player has fallen out of the world. */
  function Moved(s: State, keys: Keys, rand: nat -> real): (r: State)
    ensures r == s.(player := r.player, particles := r.particles, draws := r.draws,
                    isRunning := r.isRunning, lost := r.lost)
    ensures |r.particles| == |s.particles| + (if Jumps(s.player, keys) then JUMP_DUST else 0)
    ensures forall i :: 0 <= i < |s.particles| ==> r.particles[i] == s.particles[i]
    ensures r.isRunning == (s.isRunning && !FellOut(r.player))
    ensures r.lost == (s.lost || FellOut(r.player))
  {
    var jumped := Jumps(s.player, keys);
    var p := Motion(s.player, keys);
    s.(player := p,
       particles := s.particles + (if jumped then JumpDust(s.player, rand, s.draws) else []),
       draws := s.draws + (if jumped then 3 * JUMP_DUST else 0),
       isRunning := s.isRunning && !FellOut(p),
       lost := s.lost || FellOut(p))
  }

  /** The platform pass of checkCollisions, which starts by clearing
      isGrounded. */
  function Landed(s: State): (r: State)
    ensures r == s.(player := r.player)
    ensures r.player.facingRight == s.player.facingRight
  {
    s.(player := ResolvePlatforms(s.player.(isGrounded := false), s.platforms))
  }

  /** One iteration of the enemy loop of checkCollisions: the player meets
      enemy i, stomping it (mark, bounce, score, dust) or ending the run. */
  function Met(s: State, i: nat, rand: nat -> real): (r: State)
    requires i < |s.enemies|
    ensures |r.enemies| == |s.enemies|
    ensures r.platforms == s.platforms && r.goal == s.goal && r.cameraX == s.cameraX && r.won == s.won
    ensures r.score >= s.score && (r.isRunning ==> s.isRunning) && (s.lost ==> r.lost)
  {
    var e := s.enemies[i];
    var c := ContactWith(s.player, e);
    if c == Stomp then
      s.(player := s.player.(velY := -JUMP_FORCE / 2.0),
         enemies := s.enemies[i := AfterContact(e, c)],
         score := s.score + STOMP_BONUS,
         particles := s.particles + Burst(e, c, rand, s.draws),
         draws := s.draws + STOMP_DRAWS)
    else if c == Hit then
      s.(isRunning := false, lost := true)
    else
      s
  }

  /** The enemy loop of checkCollisions after its first n iterations. */
  function MetUpTo(s: State, n: nat, rand: nat -> real): (r: State)
    requires n <= |s.enemies|
    ensures |r.enemies| == |s.enemies|
    ensures r.platforms == s.platforms && r.goal == s.goal && r.cameraX == s.cameraX && r.won == s.won
    ensures r.score >= s.score && (r.isRunning ==> s.isRunning) && (s.lost ==> r.lost)
    decreases n
  {
    if n == 0 then s else Met(MetUpTo(s, n - 1, rand), n - 1, rand)
  }

  /** Whether the player touches the goal. */
  predicate Reached(s: State)
  {
    s.goal.Some? && Overlaps(s.player.Bounds(), s.goal.value.Bounds())
  }

  /** checkCollisions(): platforms, then every enemy, then the goal, whose
      touch calls victory(). */
  function Collided(s: State, rand: nat -> real): (r: State)
    ensures |r.enemies| == |s.enemies|
    ensures r.platforms == s.platforms && r.goal == s.goal && r.cameraX == s.cameraX
    ensures r.score >= s.score && (r.isRunning ==> s.isRunning) && (s.lost ==> r.lost) && (s.won ==> r.won)
  {
    var t := MetUpTo(Landed(s), |s.enemies|, rand);
    if Reached(t) then t.(isRunning := false, won := true) else t
  }

  /** enemies.forEach(e => e.update()). */
  function PatrolAll(es: seq<Enemy>): (r: seq<Enemy>)
    ensures |r| == |es|
    ensures forall i :: 0 <= i < |es| ==> r[i] == Patrol(es[i])
  {
    seq(|es|, i requires 0 <= i < |es| => Patrol(es[i]))
  }

  /** The rest of Game.update after the player: the enemies patrol, the
      particles age, the marked enemies are dropped and the camera eases
      toward the player. */
  function Advanced(s: State): (r: State)
    ensures r == s.(enemies := r.enemies, particles := r.particles, cameraX := r.cameraX)
    ensures forall i :: 0 <= i < |r.enemies| ==> !r.enemies[i].markedForDeletion
    ensures |r.particles| <= |s.particles|
    ensures r.cameraX >= 0.0
  {
    s.(enemies := Unmarked(PatrolAll(s.enemies)),
       particles := ParticlePass(s.particles),
       cameraX := FollowCamera(s.cameraX, s.player.x))
  }

  /** Game.update(): one frame, a no-op unless the game is running. */
  function Step(s: State, keys: Keys, rand: nat -> real): (r: State)
    ensures !s.isRunning ==> r == s
    ensures r.platforms == s.platforms && r.goal == s.goal
    ensures r.score >= s.score && (r.isRunning ==> s.isRunning)
    ensures s.isRunning ==> r.cameraX >= 0.0
  {
    if !s.isRunning then s else Advanced(Collided(Moved(s, keys, rand), rand))
  }

  /** The enemy loop in closed form, first the player: after n iterations
      it is the one EnemyPass computes for the first n enemies, the later
      enemies are untouched, and nothing outside the loop's reach changes. */
  lemma {:induction false} MetUpToPlayer(s: State, n: nat, rand: nat -> real)
    requires n <= |s.enemies|
    ensures var r := MetUpTo(s, n, rand);
            && r.player == EnemyPass(s.player, s.enemies[..n]).0
            && (forall j :: n <= j < |s.enemies| ==> r.enemies[j] == s.enemies[j])
            && r.platforms == s.platforms && r.goal == s.goal && r.cameraX == s.cameraX && r.won == s.won
    decreases n
  {
    if n > 0 {
      MetUpToPlayer(s, n - 1, rand);
      EnemyPassStep(s.player, s.enemies, n - 1);
    }
  }

  /** The contact of iteration i is the one EnemyPass records for enemy i. */
  lemma MetContact(s: State, i: nat, rand: nat -> real)
    requires i < |s.enemies|
    ensures var before := MetUpTo(s, i, rand);
            var pass := EnemyPass(s.player, s.enemies[..i]);
            && before.player == pass.0
            && before.enemies[i] == s.enemies[i]
            && EnemyPass(s.player, s.enemies[..i + 1]).1 == pass.1 + [ContactWith(pass.0, s.enemies[i])]
  {
    MetUpToPlayer(s, i, rand);
    EnemyPassStep(s.player, s.enemies, i);
  }

  /** The enemies after n iterations: the first n are marked exactly where
      EnemyPass recorded a stomp. */
  lemma {:induction false} MetUpToMarks(s: State, n: nat, rand: nat -> real)
    requires n <= |s.enemies|
    ensures var r := MetUpTo(s, n, rand);
            var cs := EnemyPass(s.player, s.enemies[..n]).1;
            forall j :: 0 <= j < n ==> r.enemies[j] == AfterContact(s.enemies[j], cs[j])
    decreases n
  {
    if n > 0 {
      var before := MetUpTo(s, n - 1, rand);
      var pass := EnemyPass(s.player, s.enemies[..n - 1]);
      var c := ContactWith(pass.0, s.enemies[n - 1]);
      var cs := pass.1 + [c];
      var r := MetUpTo(s, n, rand);
      assert r == Met(before, n - 1, rand);
      MetUpToMarks(s, n - 1, rand);
      MetContact(s, n - 1, rand);
      MetEffects(before, n - 1, rand);
      assert r.enemies[n - 1] == AfterContact(s.enemies[n - 1], c);
      forall j | 0 <= j < n - 1
        ensures r.enemies[j] == AfterContact(s.enemies[j], cs[j])
      {
        assert r.enemies[j] == before.enemies[j];
        assert cs[j] == pass.1[j];
      }
    }
  }

  /** The score and the draws after n iterations: one bonus and one burst's
      worth of draws per stomp. */
  lemma {:induction false} MetUpToScore(s: State, n: nat, rand: nat -> real)
    requires n <= |s.enemies|
    ensures var r := MetUpTo(s, n, rand);
            var cs := EnemyPass(s.player, s.enemies[..n]).1;
            && r.score == s.score + PerStomp(cs, STOMP_BONUS)
            && r.draws == s.draws + PerStomp(cs, STOMP_DRAWS)
    decreases n
  {
    if n > 0 {
      var before := MetUpTo(s, n - 1, rand);
      var pass := EnemyPass(s.player, s.enemies[..n - 1]);
      var c := ContactWith(pass.0, s.enemies[n - 1]);
      MetUpToScore(s, n - 1, rand);
      MetContact(s, n - 1, rand);
      MetEffects(before, n - 1, rand);
      StompsStep(pass.1, c);
      assert MetUpTo(s, n, rand) == Met(before, n - 1, rand);
    }
  }

  /** One iteration of the enemy loop appends the burst of its contact
      (empty unless a stomp), takes its draws and adds its bonus. */
  lemma MetEffects(s: State, i: nat, rand: nat -> real)
    requires i < |s.enemies|
    ensures var c := ContactWith(s.player, s.enemies[i]);
            && Met(s, i, rand).particles == s.particles + Burst(s.enemies[i], c, rand, s.draws)
            && Met(s, i, rand).draws == s.draws + (if c == Stomp then STOMP_DRAWS else 0)
            && Met(s, i, rand).score == s.score + (if c == Stomp then STOMP_BONUS else 0)
            && forall j :: 0 <= j < |s.enemies| ==>
                 Met(s, i, rand).enemies[j] == if j == i then AfterContact(s.enemies[i], c) else s.enemies[j]
  {
    var c := ContactWith(s.player, s.enemies[i]);
    if c != Stomp {
      assert s.particles + Burst(s.enemies[i], c, rand, s.draws) == s.particles;
    }
  }

  /** The particles after n iterations: the ones there were are left in
      place, ten more follow per stomp, and all of them are alive if the
      ones there were are. */
  lemma {:induction false} MetUpToParticles(s: State, n: nat, rand: nat -> real)
    requires n <= |s.enemies|
    ensures var r := MetUpTo(s, n, rand);
            var cs := EnemyPass(s.player, s.enemies[..n]).1;
            && |r.particles| == |s.particles| + PerStomp(cs, STOMP_DUST)
            && (forall j :: 0 <= j < |s.particles| ==> r.particles[j] == s.particles[j])
            && (AllAlive(s.particles) ==> AllAlive(r.particles))
    decreases n
  {
    if n > 0 {
      var before := MetUpTo(s, n - 1, rand);
      var pass := EnemyPass(s.player, s.enemies[..n - 1]);
      var c := ContactWith(pass.0, s.enemies[n - 1]);
      var burst := Burst(s.enemies[n - 1], c, rand, before.draws);
      var r := MetUpTo(s, n, rand);
      MetUpToParticles(s, n - 1, rand);
      MetContact(s, n - 1, rand);
      MetEffects(before, n - 1, rand);
      assert r.particles == before.particles + burst;
      assert EnemyPass(s.player, s.enemies[..n]).1 == pass.1 + [c];
      StompsStep(pass.1, c);
      assert PerStomp(pass.1 + [c], STOMP_DUST) == PerStomp(pass.1, STOMP_DUST) + |burst|;
      forall j | 0 <= j < |s.particles|
        ensures r.particles[j] == s.particles[j]
      {
        assert r.particles[j] == before.particles[j];
      }
      if AllAlive(s.particles) {
        AllAliveConcat(before.particles, burst);
      }
    }
  }

  /** The outcome after n iterations: a hit has called gameOver. */
  lemma {:induction false} MetUpToOutcome(s: State, n: nat, rand: nat -> real)
    requires n <= |s.enemies|
    ensures var r := MetUpTo(s, n, rand);
            var cs := EnemyPass(s.player, s.enemies[..n]).1;
            && r.isRunning == (s.isRunning && Hit !in cs)
            && r.lost == (s.lost || Hit in cs)
    decreases n
  {
    if n > 0 {
      MetUpToOutcome(s, n - 1, rand);
      MetContact(s, n - 1, rand);
      var pass := EnemyPass(s.player, s.enemies[..n - 1]);
      StompsStep(pass.1, ContactWith(pass.0, s.enemies[n - 1]));
    }
  }

  /** A started game is a valid running one, and its level is as the
      generator promises: the ground first and the goal's platform last,
      between them at least one platform, each in the band and after a gap
      in [50, maxGapSize) from the previous one's end, the last reaching the
      level's end, and every enemy placed over one of them. */
  lemma StartedLevel(s: State, difficulty: Difficulty, rand: nat -> real)
    requires IsUnitSource(rand)
    ensures var r := Started(s, difficulty, rand);
            var levelLength := LevelLength(difficulty);
            var ps := r.platforms[1..|r.platforms| - 1];
            && r.Valid() && r.isRunning && r.score == 0
            && |ps| >= 1 && r.platforms[0] == GROUND && r.platforms[|r.platforms| - 1] == GoalPlatform(levelLength)
            && (forall i :: 0 <= i < |ps| ==> InBand(ps[i]))
            && SpacedFrom(START_X, ps, MaxGapSize(difficulty))
            && ps[|ps| - 1].x + ps[|ps| - 1].width >= levelLength
            && OverPlatforms(r.enemies, ps) && |r.enemies| <= |ps|
  {
    var levelLength := LevelLength(difficulty);
    var r := Started(s, difficulty, rand);
    var layout := Generate(START_X, levelLength, MaxGapSize(difficulty), rand, s.draws);
    GeneratedPlatforms(START_X, levelLength, MaxGapSize(difficulty), rand, s.draws);
    GeneratedEnemies(START_X, levelLength, MaxGapSize(difficulty), rand, s.draws);
    GeneratedExtent(START_X, levelLength, MaxGapSize(difficulty), rand, s.draws);
    assert r.platforms[1..|r.platforms| - 1] == layout.platforms;
  }

  /** The enemies after the enemy loop of a valid state are all still
      patrolling: a stomp only marks its enemy. */
  lemma MetUpToKeepsPatrolling(s: State, rand: nat -> real)
    requires AllPatrolling(s.enemies)
    ensures var es := MetUpTo(s, |s.enemies|, rand).enemies;
            forall j :: 0 <= j < |es| ==> es[j].Patrolling()
  {
    var n := |s.enemies|;
    MetUpToMarks(s, n, rand);
    assert s.enemies[..n] == s.enemies;
  }

  /** One frame keeps the state valid. */
  lemma StepPreservesValid(s: State, keys: Keys, rand: nat -> real)
    requires s.Valid()
    ensures Step(s, keys, rand).Valid()
  {
    if s.isRunning {
      var m := Moved(s, keys, rand);
      var l := Landed(m);
      var n := |s.enemies|;
      var t := MetUpTo(l, n, rand);
      var c := Collided(m, rand);
      var r := Advanced(c);
      AllAliveConcat(s.particles, if Jumps(s.player, keys) then JumpDust(s.player, rand, s.draws) else []);
      MetUpToParticles(l, n, rand);
      MetUpToKeepsPatrolling(l, rand);
      var patrolled := PatrolAll(c.enemies);
      forall j | 0 <= j < |r.enemies|
        ensures r.enemies[j].Patrolling() && !r.enemies[j].markedForDeletion
      {
        assert r.enemies[j] in patrolled;
      }
      MetUpToOutcome(l, n, rand);
      MetUpToPlayer(l, n, rand);
    }
  }

  /** In a valid running state, one frame stops the run exactly when it
      ends it with an outcome: a fall or a hit (lost) or the goal (won).
      A loss does not end the frame early, so the goal can still be won in
      the same frame, leaving both flags set. */
  lemma StepStopsOnOutcome(s: State, keys: Keys, rand: nat -> real)
    requires s.Valid() && s.isRunning
    ensures var r := Step(s, keys, rand);
            var m := Moved(s, keys, rand);
            var cs := EnemyPass(Landed(m).player, s.enemies).1;
            && (!r.isRunning <==> r.lost || r.won)
            && (r.lost <==> FellOut(m.player) || Hit in cs)
            && (r.won <==> Reached(MetUpTo(Landed(m), |s.enemies|, rand)))
            && (Reached(MetUpTo(Landed(m), |s.enemies|, rand)) && (FellOut(m.player) || Hit in cs)
                ==> r.won && r.lost)
  {
    var m := Moved(s, keys, rand);
    var l := Landed(m);
    var n := |s.enemies|;
    MetUpToOutcome(l, n, rand);
    MetUpToPlayer(l, n, rand);
    assert l.enemies[..n] == s.enemies;
  }

  /** One frame of a running game earns either nothing or exactly one
      stomp's bonus, however many enemies the player overlaps. */
  lemma StepScore(s: State, keys: Keys, rand: nat -> real)
    requires s.isRunning
    ensures var r := Step(s, keys, rand);
            r.score == s.score || r.score == s.score + STOMP_BONUS
  {
    var l := Landed(Moved(s, keys, rand));
    var n := |s.enemies|;
    MetUpToScore(l, n, rand);
    AtMostOneStomp(l.player, l.enemies[..n]);
    assert Step(s, keys, rand).score == MetUpTo(l, n, rand).score;
  }
}
