/** The pure pieces of Game.loadLevel: the difficulty table, how each draw
    becomes a gap, a width or a height, and the fixed platforms and goal. */
module Level {
  import opened Geometry
  import opened Entities

  /** Where loadLevel places the new Player. */
  const START_POSITION: real := 100.0
  const START_X: real := 600.0
  const MIN_GAP: real := 50.0
  const MIN_WIDTH: real := 100.0
  const PLATFORM_HEIGHT: real := 40.0
  /** Vertical band of the generated platforms: from the high one down to
      the low one. */
  const HIGHEST_Y: real := CANVAS_HEIGHT - 350.0
  const LOWEST_Y: real := CANVAS_HEIGHT - 150.0
  const ENEMY_CHANCE: real := 0.4

  /** The ground strip, always 5000 wide whatever the level's length. */
  const GROUND: Platform := Platform(0.0, CANVAS_HEIGHT - 60.0, 5000.0, 60.0)

  datatype Difficulty = Easy | Medium | Hard

  /** The ground strip reaches past the end of the easy and the medium
      levels but stops 3000 short of the hard level's end. */
  lemma GroundCoverage()
    ensures GROUND.x == 0.0
    ensures GROUND.x + GROUND.width >= LevelLength(Easy) && GROUND.x + GROUND.width >= LevelLength(Medium)
    ensures LevelLength(Hard) - (GROUND.x + GROUND.width) == 3000.0
  {
  }

  /** The difficulty a start button names: anything other than "easy" or
      "medium" gets the hardest level. */
  function DifficultyOf(name: string): (d: Difficulty)
    ensures d == Easy <==> name == "easy"
    ensures d == Medium <==> name == "medium"
  {
    if name == "easy" then Easy else if name == "medium" then Medium else Hard
  }

  /** How far the generated platforms reach. */
  function LevelLength(d: Difficulty): (r: real)
    ensures START_X < r
  {
    match d
    case Easy => 3000.0
    case Medium => 5000.0
    case Hard => 8000.0
  }

  /** Upper bound (exclusive) on the gap before each generated platform. */
  function MaxGapSize(d: Difficulty): (r: real)
    ensures MIN_GAP < r
  {
    match d
    case Easy => 150.0
    case Medium => 200.0
    case Hard => 250.0
  }

  /** A draw in [0, 1) stretched over [0, width). */
  function Scale(draw: real, width: real): (r: real)
    ensures 0.0 <= draw < 1.0 && 0.0 < width ==> 0.0 <= r < width
  {
    draw * width
  }

  /** A uniform draw scaled to [MIN_GAP, maxGapSize). */
  function GapSize(draw: real, maxGapSize: real): (g: real)
    ensures 0.0 <= draw < 1.0 && MIN_GAP < maxGapSize ==> MIN_GAP <= g < maxGapSize
  {
    Scale(draw, maxGapSize - MIN_GAP) + MIN_GAP
  }

  /** A uniform draw scaled to [100, 400). */
  function PlatformWidth(draw: real): (w: real)
    ensures 0.0 <= draw < 1.0 ==> MIN_WIDTH <= w < 400.0
  {
    draw * 300.0 + MIN_WIDTH
  }

  /** A uniform draw scaled to [HIGHEST_Y, LOWEST_Y), that is [370, 570). */
  function PlatformY(draw: real): (y: real)
    ensures 0.0 <= draw < 1.0 ==> HIGHEST_Y <= y < LOWEST_Y
  {
    draw * (LOWEST_Y - HIGHEST_Y) + HIGHEST_Y
  }

  /** The shape every generated platform has. */
  predicate InBand(p: Platform)
  {
    MIN_WIDTH <= p.width < 400.0 && HIGHEST_Y <= p.y < LOWEST_Y && p.height == PLATFORM_HEIGHT
  }

  /** The platforms follow one another from start, each after a gap in
      [MIN_GAP, maxGapSize) from where the previous one ends. */
  predicate SpacedFrom(start: real, ps: seq<Platform>, maxGapSize: real)
  {
    && (ps != [] ==> MIN_GAP <= ps[0].x - start < maxGapSize)
    && forall i :: 0 <= i < |ps| - 1 ==>
         MIN_GAP <= ps[i + 1].x - (ps[i].x + ps[i].width) < maxGapSize
  }

  /** The enemy the generator may place on a platform: its left edge at the
      platform's midpoint, its top 50 above the platform's top, patrolling
      from the midpoint over a range as wide as the platform. */
  function EnemyOver(p: Platform): (e: Enemy)
    ensures e.x == p.x + p.width / 2.0 && e.y == p.y - 50.0 && e.range == p.width
    ensures p.width >= 0.0 ==> e.Patrolling() && !e.markedForDeletion
  {
    NewEnemy(p.x + p.width / 2.0, p.y - 50.0, p.width)
  }

  /** The enemy over a platform is not centred on it: its box lies right of
      the platform's midpoint, its patrol runs half a platform width past
      the platform's right end, and its feet sink 7.6 below the platform's
      top. */
  lemma EnemyOverIsOffCentre(p: Platform)
    ensures var e := EnemyOver(p);
            && e.startX + e.range == p.x + p.width + p.width / 2.0
            && (p.width > 0.0 ==> e.startX + e.range > p.x + p.width)
            && e.x + e.width / 2.0 > p.x + p.width / 2.0
            && e.y + e.height == p.y + 7.6
  {
  }

  /** The solid platform under the goal, appended last. */
  function GoalPlatform(levelLength: real): Platform
  {
    Platform(levelLength, CANVAS_HEIGHT - 60.0, 500.0, 60.0)
  }

  function GoalFor(levelLength: real): Goal
  {
    NewGoal(levelLength + 200.0, CANVAS_HEIGHT - 180.0)
  }

  /** What the generation loop of loadLevel produces: the platforms, the
      enemies on them, and the draw cursor after the loop. */
  datatype Layout = Layout(platforms: seq<Platform>, enemies: seq<Enemy>, draws: nat)

  /** The generation loop of loadLevel from the cursor currentX and the draw
      k on: while the cursor is short of the level's length, a gap, a width
      and a height are drawn, the platform is placed, a fourth draw below
      0.4 puts an enemy on it, and the cursor moves to its right end. It
      places a platform exactly when the cursor starts short of the level's
      end, and at most one enemy per platform. */
  function Generate(currentX: real, levelLength: real, maxGapSize: real, rand: nat -> real, k: nat): (r: Layout)
    requires IsUnitSource(rand) && MIN_GAP < maxGapSize
    ensures r.platforms != [] <==> currentX < levelLength
    ensures |r.enemies| <= |r.platforms|
    decreases if currentX < levelLength then (levelLength - currentX).Floor + 1 else 0
  {
    if currentX >= levelLength then Layout([], [], k)
    else
      var p := Placed(currentX, maxGapSize, rand, k);
      var rest := Generate(p.x + p.width, levelLength, maxGapSize, rand, k + 4);
      Layout([p] + rest.platforms,
             (if rand(k + 3) < ENEMY_CHANCE then [EnemyOver(p)] else []) + rest.enemies,
             rest.draws)
  }

  /** The platform placed after the cursor currentX from the draws k, k + 1
      and k + 2: it starts a gap after the cursor, and since the gap is at
      least 50 and the width at least 100, the cursor advances by 150 or
      more. */
  function Placed(currentX: real, maxGapSize: real, rand: nat -> real, k: nat): (p: Platform)
    requires IsUnitSource(rand) && MIN_GAP < maxGapSize
    ensures InBand(p)
    ensures MIN_GAP <= p.x - currentX < maxGapSize
    ensures p.x + p.width >= currentX + 150.0
  {
    Platform(currentX + GapSize(rand(k), maxGapSize), PlatformY(rand(k + 2)), PlatformWidth(rand(k + 1)),
             PLATFORM_HEIGHT)
  }

  /** The layout from a cursor short of the level's end: the placed
      platform, the enemy the fourth draw may put on it, and the rest. */
  lemma GenerateCons(currentX: real, levelLength: real, maxGapSize: real, rand: nat -> real, k: nat)
    requires IsUnitSource(rand) && MIN_GAP < maxGapSize && currentX < levelLength
    ensures var p := Placed(currentX, maxGapSize, rand, k);
            var rest := Generate(p.x + p.width, levelLength, maxGapSize, rand, k + 4);
            Generate(currentX, levelLength, maxGapSize, rand, k)
              == Layout([p] + rest.platforms,
                        (if rand(k + 3) < ENEMY_CHANCE then [EnemyOver(p)] else []) + rest.enemies,
                        rest.draws)
  {
  }

  /** One iteration of the generation loop: once the platform is placed
      (and the enemy on it, if the fourth draw says so) and the cursor has
      moved to the platform's right end, the rest of the level is what
      remained to generate, and the cursor is closer to the level's end. */
  lemma GenerateAfterPlacing(currentX: real, levelLength: real, maxGapSize: real, rand: nat -> real,
                             k: nat, next: real, k': nat, ps: seq<Platform>, es: seq<Enemy>)
    requires IsUnitSource(rand) && MIN_GAP < maxGapSize && currentX < levelLength
    requires next == Placed(currentX, maxGapSize, rand, k).x + Placed(currentX, maxGapSize, rand, k).width
    requires k' == k + 4
    ensures var p := Placed(currentX, maxGapSize, rand, k);
            var here := Generate(currentX, levelLength, maxGapSize, rand, k);
            var rest := Generate(next, levelLength, maxGapSize, rand, k');
            && ps + [p] + rest.platforms == ps + here.platforms
            && es + (if rand(k + 3) < ENEMY_CHANCE then [EnemyOver(p)] else []) + rest.enemies
               == es + here.enemies
            && rest.draws == here.draws
            && (levelLength - next).Floor < (levelLength - currentX).Floor
  {
    var p := Placed(currentX, maxGapSize, rand, k);
    var head: seq<Enemy> := if rand(k + 3) < ENEMY_CHANCE then [EnemyOver(p)] else [];
    var rest := Generate(next, levelLength, maxGapSize, rand, k');
    ConcatAssoc(ps, [p], rest.platforms);
    ConcatAssoc(es, head, rest.enemies);
  }

  /** Platforms laid out as the generator lays them after the cursor
      start: each in the band, each after a gap in [MIN_GAP, maxGapSize)
      from where the previous one ends, and the last reaching the level's
      end. */
  predicate LaidOut(start: real, ps: seq<Platform>, levelLength: real, maxGapSize: real)
  {
    && (forall i :: 0 <= i < |ps| ==> InBand(ps[i]))
    && SpacedFrom(start, ps, maxGapSize)
    && (ps != [] ==> ps[|ps| - 1].x + ps[|ps| - 1].width >= levelLength)
  }

  /** The generated platforms have the generator's shape and spacing, and
      the last one reaches the level's end. */
  lemma {:induction false} GeneratedPlatforms(currentX: real, levelLength: real, maxGapSize: real,
                                              rand: nat -> real, k: nat)
    requires IsUnitSource(rand) && MIN_GAP < maxGapSize
    ensures LaidOut(currentX, Generate(currentX, levelLength, maxGapSize, rand, k).platforms, levelLength, maxGapSize)
    decreases if currentX < levelLength then (levelLength - currentX).Floor + 1 else 0
  {
    if currentX < levelLength {
      var p := Placed(currentX, maxGapSize, rand, k);
      var rest := Generate(p.x + p.width, levelLength, maxGapSize, rand, k + 4).platforms;
      GeneratedPlatforms(p.x + p.width, levelLength, maxGapSize, rand, k + 4);
      assert Generate(currentX, levelLength, maxGapSize, rand, k).platforms == [p] + rest;
      PlatformsCons(currentX, p, rest, levelLength, maxGapSize);
    }
  }

  /** The inductive step of GeneratedPlatforms: a platform in the band, a
      gap after the cursor, put in front of platforms laid out from its
      right end, reaching the level's end if nothing follows it. */
  lemma PlatformsCons(start: real, p: Platform, rest: seq<Platform>, levelLength: real, maxGapSize: real)
    requires InBand(p) && MIN_GAP <= p.x - start < maxGapSize
    requires LaidOut(p.x + p.width, rest, levelLength, maxGapSize)
    requires rest == [] ==> p.x + p.width >= levelLength
    ensures LaidOut(start, [p] + rest, levelLength, maxGapSize)
  {
    var ps := [p] + rest;
    assert forall i :: 1 <= i < |ps| ==> ps[i] == rest[i - 1];
  }

  /** The platform a generated enemy was placed over: it starts half the
      enemy's range left of the enemy's left edge, its top 50 below the
      enemy's, as wide as the enemy's patrol. */
  function Under(e: Enemy): Platform
  {
    Platform(e.x - e.range / 2.0, e.y + 50.0, e.range, PLATFORM_HEIGHT)
  }

  /** Under recovers the platform an enemy was placed over, for every
      platform of the generated height. */
  lemma UnderUndoesEnemyOver(p: Platform)
    requires p.height == PLATFORM_HEIGHT
    ensures Under(EnemyOver(p)) == p
  {
  }

  /** Every enemy is the one the generator places over one of the
      platforms. */
  predicate OverPlatforms(es: seq<Enemy>, ps: seq<Platform>)
  {
    forall e :: e in es ==> Under(e) in ps && e == EnemyOver(Under(e))
  }

  /** A placed platform, with the enemy the generator may place over it, keeps a
      layout's enemies placed when prepended to it. */
  lemma EnemiesPlacedCons(p: Platform, head: seq<Enemy>, rest: Layout)
    requires EnemiesPlaced(rest) && InBand(p) && (head == [] || head == [EnemyOver(p)])
    ensures EnemiesPlaced(Layout([p] + rest.platforms, head + rest.enemies, rest.draws))
  {
    OverPlatformsPrepend(p, head, rest.enemies, rest.platforms);
    AllPatrollingConcat(head, rest.enemies);
  }

  /** Putting a platform in front, with or without the enemy over it,
      keeps every enemy placed over a platform. */
  lemma OverPlatformsPrepend(p: Platform, head: seq<Enemy>, es: seq<Enemy>, ps: seq<Platform>)
    requires OverPlatforms(es, ps) && p.height == PLATFORM_HEIGHT && (head == [] || head == [EnemyOver(p)])
    ensures OverPlatforms(head + es, [p] + ps)
  {
    if head != [] {
      UnderUndoesEnemyOver(p);
    }
  }

  /** The enemies of a layout are the generator's, each placed over one of
      its platforms, patrolling and unmarked. */
  predicate EnemiesPlaced(l: Layout)
  {
    OverPlatforms(l.enemies, l.platforms) && AllPatrolling(l.enemies)
  }

  /** Every enemy the generator places is EnemyOver of one of the generated
      platforms, patrolling and unmarked. */
  lemma {:induction false} GeneratedEnemies(currentX: real, levelLength: real, maxGapSize: real,
                                            rand: nat -> real, k: nat)
    requires IsUnitSource(rand) && MIN_GAP < maxGapSize
    ensures EnemiesPlaced(Generate(currentX, levelLength, maxGapSize, rand, k))
    decreases if currentX < levelLength then (levelLength - currentX).Floor + 1 else 0
  {
    if currentX < levelLength {
      var p := Placed(currentX, maxGapSize, rand, k);
      GeneratedEnemies(p.x + p.width, levelLength, maxGapSize, rand, k + 4);
      GeneratedEnemiesStep(currentX, levelLength, maxGapSize, rand, k);
    } else {
      assert Generate(currentX, levelLength, maxGapSize, rand, k) == Layout([], [], k);
    }
  }

  /** The inductive step of GeneratedEnemies: the platform placed at the
      cursor, with the enemy the fourth draw may put on it, keeps the rest of
      the level's enemies placed. */
  lemma GeneratedEnemiesStep(currentX: real, levelLength: real, maxGapSize: real, rand: nat -> real, k: nat)
    requires IsUnitSource(rand) && MIN_GAP < maxGapSize && currentX < levelLength
    requires var p := Placed(currentX, maxGapSize, rand, k);
             EnemiesPlaced(Generate(p.x + p.width, levelLength, maxGapSize, rand, k + 4))
    ensures EnemiesPlaced(Generate(currentX, levelLength, maxGapSize, rand, k))
  {
    var p := Placed(currentX, maxGapSize, rand, k);
    var head: seq<Enemy> := if rand(k + 3) < ENEMY_CHANCE then [EnemyOver(p)] else [];
    GenerateCons(currentX, levelLength, maxGapSize, rand, k);
    EnemiesPlacedCons(p, head, Generate(p.x + p.width, levelLength, maxGapSize, rand, k + 4));
  }

  /** The loop takes four draws per platform and terminates within a bound
      set by the level's length: the cursor advances by at least 150 per
      platform, so no more platforms are placed than 150-wide steps fit
      between the cursor and the level's end. */
  lemma {:induction false} GeneratedExtent(currentX: real, levelLength: real, maxGapSize: real,
                                           rand: nat -> real, k: nat)
    requires IsUnitSource(rand) && MIN_GAP < maxGapSize
    ensures var r := Generate(currentX, levelLength, maxGapSize, rand, k);
            && r.draws == k + 4 * |r.platforms|
            && (r.platforms != [] ==> currentX + 150.0 * (|r.platforms| - 1) as real < levelLength)
    decreases if currentX < levelLength then (levelLength - currentX).Floor + 1 else 0
  {
    if currentX < levelLength {
      var p := Placed(currentX, maxGapSize, rand, k);
      var rest := Generate(p.x + p.width, levelLength, maxGapSize, rand, k + 4);
      GeneratedExtent(p.x + p.width, levelLength, maxGapSize, rand, k + 4);
      assert |Generate(currentX, levelLength, maxGapSize, rand, k).platforms| == 1 + |rest.platforms|;
    }
  }
}
