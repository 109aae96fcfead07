/** The Game object: the world state one run owns, the level generator
    (loadLevel), the player's update and collision pass, and the per-frame
    update (Game.update) as a single Tick. */
module Game {
  import opened Geometry
  import opened Entities
  import opened Physics
  import opened Particles
  import opened Contacts
  import opened Level
  import opened Rules

  class World {
    /** Math.random, injected: the n-th draw of the run is rand(n). */
    const rand: nat -> real
    /** How many draws have been taken so far. */
    var draws: nat

    // The player (the Player object's fields).
    var playerX: real
    var playerY: real
    var velX: real
    var velY: real
    var isGrounded: bool
    var facingRight: bool

    var platforms: seq<Platform>
    var enemies: seq<Enemy>
    var particles: seq<Particle>
    var goal: Option<Goal>

    var cameraX: real
    var score: nat
    var isRunning: bool
    /** Whether gameOver() and victory() ran during this run (the screens
        they show). Both can happen in the same tick. */
    var lost: bool
    var won: bool

    function Player(): Body
      reads this
    {
      Body(playerX, playerY, velX, velY, isGrounded, facingRight)
    }

    /** The whole state as a value. */
    function Snapshot(): State
      reads this
    {
      State(Player(), platforms, enemies, particles, goal, cameraX, score, isRunning, lost, won, draws)
    }

    /** What holds between ticks: the draws come from a uniform source and
        the state is valid. */
    ghost predicate Valid()
      reads this
    {
      IsUnitSource(rand) && Snapshot().Valid()
    }

    /** The Game constructor: an empty world that is not running yet. */
    constructor (rand: nat -> real)
      requires IsUnitSource(rand)
      ensures Valid()
      ensures this.rand == rand && draws == 0
      ensures Player() == Body(START_POSITION, START_POSITION, 0.0, 0.0, false, true)
      ensures platforms == [] && enemies == [] && particles == [] && goal == None
      ensures cameraX == 0.0 && score == 0 && !isRunning && !lost && !won
    {
      this.rand := rand;
      draws := 0;
      playerX, playerY, velX, velY := START_POSITION, START_POSITION, 0.0, 0.0;
      isGrounded, facingRight := false, true;
      platforms, enemies, particles, goal := [], [], [], None;
      cameraX, score, isRunning := 0.0, 0, false;
      lost, won := false, false;
    }

    /** Math.random(): the next draw. */
    method Random() returns (r: real)
      modifies this`draws
      ensures r == rand(old(draws)) && draws == old(draws) + 1
    {
      r := rand(draws);
      draws := draws + 1;
    }

    /** Pushes n new Particles at (x, y). */
    method SpawnParticles(x: real, y: real, color: string, n: nat)
      modifies this`particles, this`draws
      ensures particles == old(particles) + Dust(x, y, color, n, rand, old(draws))
      ensures draws == old(draws) + 3 * n
    {
      for i := 0 to n
        invariant particles == old(particles) + Dust(x, y, color, i, rand, old(draws))
        invariant draws == old(draws) + 3 * i
      {
        var size := Random();
        var speedX := Random();
        var speedY := Random();
        particles := particles + [NewParticle(x, y, color, size, speedX, speedY)];
      }
    }

    /** gameOver(), as far as the simulation sees it. */
    method GameOver()
      modifies this`isRunning, this`lost
      ensures !isRunning && lost
    {
      isRunning := false;
      lost := true;
    }

    /** victory(), as far as the simulation sees it. */
    method Victory()
      modifies this`isRunning, this`won
      ensures !isRunning && won
    {
      isRunning := false;
      won := true;
    }

    /** The flags startGame sets before loading the level: the run is on,
        the score is 0 and neither end screen is up. */
    method Begin()
      modifies this`isRunning, this`score, this`lost, this`won
      ensures Snapshot() == old(Snapshot()).(isRunning := true, score := 0, lost := false, won := false)
    {
      isRunning := true;
      score := 0;
      lost, won := false, false;
    }

    /** startGame(difficulty) without its screen changes. */
    method StartGame(difficulty: string)
      requires IsUnitSource(rand)
      modifies this`isRunning, this`score, this`lost, this`won,
               this`platforms, this`enemies, this`particles, this`cameraX, this`goal, this`draws,
               this`playerX, this`playerY, this`velX, this`velY, this`isGrounded, this`facingRight
      ensures Snapshot() == Started(old(Snapshot()), DifficultyOf(difficulty), rand)
      ensures Valid() && isRunning
    {
      Begin();
      LoadLevel(DifficultyOf(difficulty));
      StartedLevel(old(Snapshot()), DifficultyOf(difficulty), rand);
    }

    /** loadLevel(difficulty): a fresh player, the ground, the generated
        platforms and enemies, then the goal and the platform under it. */
    method LoadLevel(difficulty: Difficulty)
      requires IsUnitSource(rand)
      modifies this`platforms, this`enemies, this`particles, this`cameraX, this`goal, this`draws,
               this`playerX, this`playerY, this`velX, this`velY, this`isGrounded, this`facingRight
      ensures Snapshot() == Loaded(old(Snapshot()), difficulty, rand)
    {
      ClearLevel();
      var levelLength := LevelLength(difficulty);
      var maxGapSize := MaxGapSize(difficulty);
      GeneratePlatforms(levelLength, maxGapSize);
      PlaceGoal(levelLength);
    }

    /** new Player(game): the player at (100, 100), at rest, in the air and
        facing right. */
    method ResetPlayer()
      modifies this`playerX, this`playerY, this`velX, this`velY, this`isGrounded, this`facingRight
      ensures Snapshot() == old(Snapshot()).(player := Body(START_POSITION, START_POSITION, 0.0, 0.0, false, true))
    {
      playerX, playerY := START_POSITION, START_POSITION;
      velX, velY := 0.0, 0.0;
      isGrounded, facingRight := false, true;
    }

    /** The start of loadLevel: empty lists, a fresh player, the camera at
        the origin, and the ground. */
    method ClearLevel()
      modifies this`platforms, this`enemies, this`particles, this`cameraX,
               this`playerX, this`playerY, this`velX, this`velY, this`isGrounded, this`facingRight
      ensures Snapshot() == Cleared(old(Snapshot()))
    {
      platforms, enemies, particles := [], [], [];
      ResetPlayer();
      cameraX := 0.0;
      platforms := platforms + [GROUND];
    }

    /** The end of loadLevel: the goal, and a platform under it. */
    method PlaceGoal(levelLength: real)
      modifies this`goal, this`platforms
      ensures Snapshot() == GoalPlaced(old(Snapshot()), levelLength)
    {
      goal := Some(GoalFor(levelLength));
      platforms := platforms + [GoalPlatform(levelLength)];
    }

    /** The generation loop of loadLevel: from x = 600 until the cursor
        reaches the level's length, a gap, a platform and, with probability
        0.4, an enemy on it. */
    method GeneratePlatforms(levelLength: real, maxGapSize: real)
      requires IsUnitSource(rand) && MIN_GAP < maxGapSize
      modifies this`platforms, this`enemies, this`draws
      ensures Snapshot() == Generated(old(Snapshot()), levelLength, maxGapSize, rand)
    {
      var currentX := START_X;
      ghost var all := Generate(START_X, levelLength, maxGapSize, rand, draws);
      while currentX < levelLength
        invariant var rest := Generate(currentX, levelLength, maxGapSize, rand, draws);
                  && platforms + rest.platforms == old(platforms) + all.platforms
                  && enemies + rest.enemies == old(enemies) + all.enemies
                  && rest.draws == all.draws
        decreases (levelLength - currentX).Floor
      {
        ghost var k, x, platforms0, enemies0 := draws, currentX, platforms, enemies;
        currentX := PlaceNext(currentX, maxGapSize);
        GenerateAfterPlacing(x, levelLength, maxGapSize, rand, k, currentX, draws, platforms0, enemies0);
      }
    }

    /** One iteration of the generation loop: a gap, a platform after it
        and, with probability 0.4, an enemy on the platform; yields the
        platform's right end as the new cursor. */
    method PlaceNext(currentX: real, maxGapSize: real) returns (next: real)
      requires IsUnitSource(rand) && MIN_GAP < maxGapSize
      modifies this`platforms, this`enemies, this`draws
      ensures var p := Placed(currentX, maxGapSize, rand, old(draws));
              && platforms == old(platforms) + [p]
              && enemies == old(enemies) + (if rand(old(draws) + 3) < ENEMY_CHANCE then [EnemyOver(p)] else [])
              && draws == old(draws) + 4
              && next == p.x + p.width
    {
      ghost var p := Placed(currentX, maxGapSize, rand, draws);

      var gapDraw := Random();
      var gapSize := GapSize(gapDraw, maxGapSize);
      var widthDraw := Random();
      var platformWidth := PlatformWidth(widthDraw);
      var yDraw := Random();
      var platformY := PlatformY(yDraw);

      var platform := Platform(currentX + gapSize, platformY, platformWidth, PLATFORM_HEIGHT);
      assert platform == p;
      platforms := platforms + [platform];

      var enemyDraw := Random();
      if enemyDraw < ENEMY_CHANCE {
        var enemy := NewEnemy(currentX + gapSize + platformWidth / 2.0, platformY - 50.0, platformWidth);
        assert enemy == EnemyOver(p);
        enemies := enemies + [enemy];
      }

      next := currentX + (gapSize + platformWidth);
    }

    /** The steering part of Player.update. */
    method Steer(keys: Keys)
      modifies this`velX, this`facingRight
      ensures Snapshot() == old(Snapshot()).(player := old(Player()).(velX := Steered(old(velX), keys),
                                                                      facingRight := Facing(old(facingRight), keys)))
    {
      if keys.d {
        velX := velX + PLAYER_SPEED;
        facingRight := true;
      }
      if keys.a {
        velX := velX - PLAYER_SPEED;
        facingRight := false;
      }

      velX := velX * FRICTION;

      if velX > PLAYER_MAX_SPEED { velX := PLAYER_MAX_SPEED; }
      if velX < -PLAYER_MAX_SPEED { velX := -PLAYER_MAX_SPEED; }
    }

    /** The jump part of Player.update: the impulse and its dust. */
    method Jump(keys: Keys)
      modifies this`velY, this`isGrounded, this`particles, this`draws
      ensures var jumped := Jumps(old(Player()), keys);
              Snapshot() == old(Snapshot()).(
                player := old(Player()).(velY := if jumped then -JUMP_FORCE else old(velY),
                                         isGrounded := old(isGrounded) && !jumped),
                particles := old(particles) + (if jumped then JumpDust(old(Player()), rand, old(draws)) else []),
                draws := old(draws) + (if jumped then 3 * JUMP_DUST else 0))
    {
      if keys.space && isGrounded {
        velY := -JUMP_FORCE;
        isGrounded := false;
        SpawnParticles(playerX + PLAYER_WIDTH / 2.0, playerY + PLAYER_HEIGHT, JUMP_DUST_COLOR, JUMP_DUST);
      }
    }

    /** The rest of Player.update before checkCollisions: gravity, the Euler
        step and the fall-death check. */
    method Fall()
      modifies this`playerX, this`playerY, this`velY, this`isRunning, this`lost
      ensures var p := old(Player()).(x := old(playerX) + old(velX),
                                      y := old(playerY) + (old(velY) + GRAVITY),
                                      velY := old(velY) + GRAVITY);
              Snapshot() == old(Snapshot()).(player := p,
                                             isRunning := old(isRunning) && !FellOut(p),
                                             lost := old(lost) || FellOut(p))
    {
      velY := velY + GRAVITY;

      playerX := playerX + velX;
      playerY := playerY + velY;

      if playerY > CANVAS_HEIGHT + 100.0 {
        GameOver();
      }
    }

    /** Player.update before checkCollisions: steering, friction and the
        speed cap, the jump (with its dust), gravity, the Euler step and the
        fall-death check. */
    method MovePlayer(keys: Keys)
      modifies this`playerX, this`playerY, this`velX, this`velY, this`isGrounded, this`facingRight,
               this`particles, this`draws, this`isRunning, this`lost
      ensures Snapshot() == Moved(old(Snapshot()), keys, rand)
    {
      Steer(keys);
      Jump(keys);
      Fall();
    }

    /** The platform loop of checkCollisions. */
    method ResolvePlatformContacts()
      modifies this`playerX, this`playerY, this`velX, this`velY, this`isGrounded
      ensures Player() == ResolvePlatforms(old(Player()), platforms)
    {
      for i := 0 to |platforms|
        invariant Player() == ResolvePlatforms(old(Player()), platforms[..i])
      {
        ghost var before := Player();
        var platform := platforms[i];
        if playerX < platform.x + platform.width &&
           playerX + PLAYER_WIDTH > platform.x &&
           playerY < platform.y + platform.height &&
           playerY + PLAYER_HEIGHT > platform.y
        {
          var prevY := playerY - velY;
          if prevY + PLAYER_HEIGHT <= platform.y {
            playerY := platform.y - PLAYER_HEIGHT;
            velY := 0.0;
            isGrounded := true;
          } else if prevY >= platform.y + platform.height {
            playerY := platform.y + platform.height;
            velY := 0.0;
          } else {
            var prevX := playerX - velX;
            if prevX + PLAYER_WIDTH <= platform.x {
              playerX := platform.x - PLAYER_WIDTH;
              velX := 0.0;
            } else if prevX >= platform.x + platform.width {
              playerX := platform.x + platform.width;
              velX := 0.0;
            }
          }
        }
        assert Player() == ResolvePlatform(before, platform);
        assert platforms[..i + 1][..i] == platforms[..i];
      }
      assert platforms[..|platforms|] == platforms;
    }

    /** The stomp branch of the enemy loop: the enemy is marked, the player
        bounces, the score rises and dust bursts from the enemy's centre. */
    method StompEnemy(i: nat)
      requires i < |enemies|
      modifies this`velY, this`enemies, this`score, this`particles, this`draws
      ensures Snapshot() == old(Snapshot()).(player := old(Player()).(velY := -JUMP_FORCE / 2.0),
                                             enemies := old(enemies)[i := AfterContact(old(enemies)[i], Stomp)],
                                             score := old(score) + STOMP_BONUS,
                                             particles := old(particles) + Burst(old(enemies)[i], Stomp, rand, old(draws)),
                                             draws := old(draws) + STOMP_DRAWS)
    {
      var enemy := enemies[i];
      enemies := enemies[i := enemy.(markedForDeletion := true)];
      velY := -JUMP_FORCE / 2.0;
      score := score + STOMP_BONUS;
      SpawnParticles(enemy.x + enemy.width / 2.0, enemy.y + enemy.height / 2.0, ENEMY_COLOR, STOMP_DUST);
    }

    /** One iteration of the enemy loop of checkCollisions: the player meets
        enemy i. */
    method MeetEnemy(i: nat)
      requires i < |enemies|
      modifies this`velY, this`enemies, this`score, this`particles, this`draws, this`isRunning, this`lost
      ensures Snapshot() == Met(old(Snapshot()), i, rand)
    {
      var enemy := enemies[i];
      if playerX < enemy.x + enemy.width &&
         playerX + PLAYER_WIDTH > enemy.x &&
         playerY < enemy.y + enemy.height &&
         playerY + PLAYER_HEIGHT > enemy.y
      {
        if velY > 0.0 && playerY + PLAYER_HEIGHT - velY < enemy.y + enemy.height * 0.5 {
          assert ContactWith(Player(), enemy) == Stomp;
          StompEnemy(i);
        } else {
          assert ContactWith(Player(), enemy) == Hit;
          GameOver();
        }
      } else {
        assert ContactWith(Player(), enemy) == Miss;
      }
    }

    /** The enemy loop of checkCollisions. */
    method ResolveEnemyContacts()
      modifies this`velY, this`enemies, this`score, this`particles, this`draws, this`isRunning, this`lost
      ensures Snapshot() == MetUpTo(old(Snapshot()), |old(enemies)|, rand)
    {
      for i := 0 to |enemies|
        invariant Snapshot() == MetUpTo(old(Snapshot()), i, rand)
      {
        MeetEnemy(i);
      }
    }

    /** The start of checkCollisions: isGrounded is cleared, then the
        platforms are resolved. */
    method LandPlayer()
      modifies this`playerX, this`playerY, this`velX, this`velY, this`isGrounded
      ensures Snapshot() == Landed(old(Snapshot()))
    {
      isGrounded := false;
      ResolvePlatformContacts();
    }

    /** The end of checkCollisions: touching the goal calls victory(). */
    method CheckGoal()
      modifies this`isRunning, this`won
      ensures Snapshot() == if Reached(old(Snapshot())) then old(Snapshot()).(isRunning := false, won := true)
                            else old(Snapshot())
    {
      if goal.Some? {
        var g := goal.value;
        if playerX < g.x + g.width &&
           playerX + PLAYER_WIDTH > g.x &&
           playerY < g.y + g.height &&
           playerY + PLAYER_HEIGHT > g.y
        {
          Victory();
        }
      }
    }

    /** checkCollisions(): platforms, then enemies, then the goal. */
    method CheckCollisions()
      modifies this`playerX, this`playerY, this`velX, this`velY, this`isGrounded,
               this`enemies, this`score, this`particles, this`draws, this`isRunning, this`lost, this`won
      ensures Snapshot() == Collided(old(Snapshot()), rand)
    {
      LandPlayer();
      ResolveEnemyContacts();
      CheckGoal();
    }

    /** Player.update(): motion, then the collision pass. */
    method UpdatePlayer(keys: Keys)
      modifies this`playerX, this`playerY, this`velX, this`velY, this`isGrounded, this`facingRight,
               this`enemies, this`score, this`particles, this`draws, this`isRunning, this`lost, this`won
      ensures Snapshot() == Collided(Moved(old(Snapshot()), keys, rand), rand)
    {
      MovePlayer(keys);
      CheckCollisions();
    }

    /** enemies.forEach(e => e.update()). */
    method UpdateEnemies()
      modifies this`enemies
      ensures enemies == PatrolAll(old(enemies))
    {
      for i := 0 to |enemies|
        invariant |enemies| == |old(enemies)|
        invariant forall j :: 0 <= j < i ==> enemies[j] == Patrol(old(enemies)[j])
        invariant forall j :: i <= j < |enemies| ==> enemies[j] == old(enemies)[j]
      {
        enemies := enemies[i := Patrol(enemies[i])];
      }
    }

    /** The particle pass of Game.update: forEach over the particles,
        updating each and splicing it out at its index once its life is
        used up; forEach keeps counting up to the length it started with and
        stops at the first index past the shrunken end. */
    method UpdateParticles()
      modifies this`particles
      ensures particles == ParticlePass(old(particles))
    {
      var n := |particles|;
      var k := 0;
      PendingBounds(particles, 0);
      while k < n
        invariant 0 <= k <= n && |particles| <= n
        invariant Pending(particles, k) == ParticlePass(old(particles))
      {
        if k < |particles| {
          PendingStep(particles, k);
          var p := ParticleStep(particles[k]);
          if p.life <= 0.0 {
            particles := particles[..k] + particles[k + 1..];
          } else {
            particles := particles[k := p];
          }
        } else {
          PendingBounds(particles, k);
        }
        k := k + 1;
      }
      PendingBounds(particles, k);
    }

    /** Game.update() after the player's update: the enemies patrol, the
        particles age, the marked enemies are dropped and the camera eases
        toward the player. */
    method Advance()
      modifies this`enemies, this`particles, this`cameraX
      ensures Snapshot() == Advanced(old(Snapshot()))
    {
      UpdateEnemies();
      UpdateParticles();

      enemies := Unmarked(enemies);

      var targetCameraX := playerX - CANVAS_WIDTH * 0.3;
      cameraX := cameraX + (targetCameraX - cameraX) * 0.1;
      if cameraX < 0.0 {
        cameraX := 0.0;
      }
    }

    /** Game.update(): one frame of the simulation, a no-op unless running. */
    method Tick(keys: Keys)
      modifies this`playerX, this`playerY, this`velX, this`velY, this`isGrounded, this`facingRight,
               this`enemies, this`score, this`particles, this`draws, this`isRunning, this`lost, this`won,
               this`cameraX
      ensures Snapshot() == Step(old(Snapshot()), keys, rand)
      ensures old(Valid()) ==> Valid()
    {
      if isRunning {
        UpdatePlayer(keys);
        Advance();
      }
      if old(Valid()) {
        StepPreservesValid(old(Snapshot()), keys, rand);
      }
    }
  }
}
