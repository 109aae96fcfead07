/** The game's entities as values: platforms, the goal, patrolling enemies and
    cosmetic particles, with the per-entity update rules of Enemy and Particle. */
module Entities {
  import opened Geometry

  const PLAYER_HEIGHT: real := CANVAS_HEIGHT * 0.11
  const PLAYER_WIDTH: real := PLAYER_HEIGHT * 0.7
  const ENEMY_HEIGHT: real := CANVAS_HEIGHT * 0.08
  const ENEMY_WIDTH: real := ENEMY_HEIGHT * 0.6
  const ENEMY_SPEED: real := 2.0
  const ENEMY_COLOR: string := "#8B0000"
  const JUMP_DUST_COLOR: string := "#fff"
  const GOAL_WIDTH: real := 60.0
  const GOAL_HEIGHT: real := 120.0
  /** How much life a particle loses per tick. */
  const PARTICLE_FADE: real := 0.05

  datatype Option<T> = None | Some(value: T)

  /** A static block; never moves after the level generator places it. */
  datatype Platform = Platform(x: real, y: real, width: real, height: real)
  {
    function Bounds(): Box { Box(x, y, width, height) }
  }

  /** The flag that ends the level when the player touches it. */
  datatype Goal = Goal(x: real, y: real, width: real, height: real)
  {
    function Bounds(): Box { Box(x, y, width, height) }
  }

  function NewGoal(x: real, y: real): (g: Goal)
    ensures g.Bounds() == Box(x, y, GOAL_WIDTH, GOAL_HEIGHT)
  {
    Goal(x, y, GOAL_WIDTH, GOAL_HEIGHT)
  }

  /** A patrolling enemy: it walks from startX with the given speed and turns
      around once it has left [startX, startX + range]. */
  datatype Enemy = Enemy(x: real, y: real, width: real, height: real,
                         startX: real, range: real, speed: real,
                         direction: int, markedForDeletion: bool)
  {
    function Bounds(): Box { Box(x, y, width, height) }

    /** The patrol invariant: walking right the enemy is at most one step
        left of startX and not past the far end; walking left it is not
        before startX and at most one step past the far end. */
    predicate Patrolling()
    {
      && speed >= 0.0 && range >= 0.0
      && (|| (direction == 1 && startX - speed <= x <= startX + range)
          || (direction == -1 && startX <= x <= startX + range + speed))
    }
  }

  /** The Enemy constructor: width and height are fixed fractions of the
      canvas height, speed 2, heading right, not marked. */
  function NewEnemy(x: real, y: real, range: real): (e: Enemy)
    ensures e.Bounds() == Box(x, y, ENEMY_WIDTH, ENEMY_HEIGHT)
    ensures e.startX == x && e.range == range && e.speed == ENEMY_SPEED && e.direction == 1
    ensures !e.markedForDeletion
    ensures range >= 0.0 ==> e.Patrolling()
  {
    Enemy(x, y, ENEMY_WIDTH, ENEMY_HEIGHT, x, range, ENEMY_SPEED, 1, false)
  }

  /** Every enemy is patrolling and none is marked for deletion. */
  predicate AllPatrolling(es: seq<Enemy>)
  {
    forall i :: 0 <= i < |es| ==> es[i].Patrolling() && !es[i].markedForDeletion
  }

  lemma AllPatrollingConcat(a: seq<Enemy>, b: seq<Enemy>)
    requires AllPatrolling(a) && AllPatrolling(b)
    ensures AllPatrolling(a + b)
  {
  }

  /** Enemy.update: one step along the patrol, turning around when the step
      took the enemy outside [startX, startX + range]. */
  function Patrol(e: Enemy): (r: Enemy)
    ensures r == e.(x := r.x, direction := r.direction)
    ensures r.x == e.x + e.speed * e.direction as real
    ensures (e.direction == 1 || e.direction == -1) ==>
              && (r.direction == 1 || r.direction == -1)
              && (r.x - e.x == e.speed || e.x - r.x == e.speed)
              && (r.direction != e.direction <==> (r.x > e.startX + e.range || r.x < e.startX))
    ensures e.Patrolling() ==> r.Patrolling()
  {
    var x := e.x + e.speed * e.direction as real;
    e.(x := x,
       direction := if x > e.startX + e.range || x < e.startX then -e.direction else e.direction)
  }

  /** The enemy after n patrol steps. */
  function PatrolSteps(e: Enemy, n: nat): Enemy
  {
    if n == 0 then e else Patrol(PatrolSteps(e, n - 1))
  }

  lemma {:induction false} PatrolStepsKeepInvariant(e: Enemy, n: nat)
    requires e.Patrolling()
    ensures PatrolSteps(e, n).Patrolling()
    ensures PatrolSteps(e, n) == e.(x := PatrolSteps(e, n).x, direction := PatrolSteps(e, n).direction)
  {
    if n > 0 {
      PatrolStepsKeepInvariant(e, n - 1);
    }
  }

  /** A freshly built enemy with a non-negative range never strays more than
      one step outside [startX, startX + range], however long it patrols,
      and always heads left or right. */
  lemma PatrolStaysInBand(x: real, y: real, range: real, n: nat)
    requires range >= 0.0
    ensures var e := PatrolSteps(NewEnemy(x, y, range), n);
            && x - ENEMY_SPEED <= e.x <= x + range + ENEMY_SPEED
            && (e.direction == 1 || e.direction == -1)
  {
    PatrolStepsKeepInvariant(NewEnemy(x, y, range), n);
  }

  /** The patrol does leave [startX, startX + range]: with range 3 the second
      step already ends at startX + 4 before the enemy turns. */
  lemma PatrolOvershootsRange()
    ensures PatrolSteps(NewEnemy(0.0, 0.0, 3.0), 2).x == 4.0
    ensures PatrolSteps(NewEnemy(0.0, 0.0, 3.0), 2).direction == -1
  {
  }

  /** A purely cosmetic particle; life starts at 1 and fades each tick. */
  datatype Particle = Particle(x: real, y: real, color: string, size: real,
                               speedX: real, speedY: real, life: real)

  /** The Particle constructor; the three draws become size, speedX and
      speedY in that order. */
  function NewParticle(x: real, y: real, color: string,
                       sizeDraw: real, speedXDraw: real, speedYDraw: real): (p: Particle)
    ensures p.x == x && p.y == y && p.color == color && p.life == 1.0
    ensures 0.0 <= sizeDraw < 1.0 ==> 2.0 <= p.size < 7.0
    ensures 0.0 <= speedXDraw < 1.0 ==> -3.0 <= p.speedX < 3.0
    ensures 0.0 <= speedYDraw < 1.0 ==> -3.0 <= p.speedY < 3.0
  {
    Particle(x, y, color, sizeDraw * 5.0 + 2.0, speedXDraw * 6.0 - 3.0, speedYDraw * 6.0 - 3.0, 1.0)
  }

  /** Particle.update: linear motion at the particle's own speed while its
      life strictly decreases. */
  function ParticleStep(p: Particle): (r: Particle)
    ensures r == p.(x := r.x, y := r.y, life := r.life)
    ensures r.x - p.x == p.speedX && r.y - p.y == p.speedY
    ensures r.life < p.life && p.life - r.life == PARTICLE_FADE
  {
    p.(x := p.x + p.speedX, y := p.y + p.speedY, life := p.life - PARTICLE_FADE)
  }

  /** a occurs in b in the same relative order (b may hold more). */
  predicate SubsequenceOf<T(==)>(a: seq<T>, b: seq<T>)
    decreases |b|
  {
    a == [] || (b != [] && if a[0] == b[0] then SubsequenceOf(a[1..], b[1..]) else SubsequenceOf(a, b[1..]))
  }

  /** The enemy filter at the end of a tick: exactly the enemies not marked
      for deletion survive, in their original order. */
  function Unmarked(es: seq<Enemy>): (r: seq<Enemy>)
    ensures forall i :: 0 <= i < |r| ==> !r[i].markedForDeletion
    ensures forall e :: e in r <==> e in es && !e.markedForDeletion
    ensures SubsequenceOf(r, es)
  {
    if es == [] then []
    else if es[0].markedForDeletion then Unmarked(es[1..])
    else [es[0]] + Unmarked(es[1..])
  }

  /** The filter drops no copy of an unmarked enemy: each unmarked enemy
      occurs as often after the filter as before, and a marked one not at
      all. */
  lemma {:induction false} UnmarkedKeepsCopies(es: seq<Enemy>)
    ensures forall e :: multiset(Unmarked(es))[e] == if e.markedForDeletion then 0 else multiset(es)[e]
    decreases |es|
  {
    if es != [] {
      UnmarkedKeepsCopies(es[1..]);
      assert es == [es[0]] + es[1..];
    }
  }
}
