/** The player's physics (Player.update before its collision pass) and the
    platform half of the collision resolver (Player.checkCollisions). */
module Physics {
  import opened Geometry
  import opened Entities
  import opened Particles

  /** How many particles a jump kicks up. */
  const JUMP_DUST: nat := 5

  /** The input flags read each tick: left, right and jump. */
  datatype Keys = Keys(a: bool, d: bool, space: bool)

  /** The player's mutable state. */
  datatype Body = Body(x: real, y: real, velX: real, velY: real,
                       isGrounded: bool, facingRight: bool)
  {
    function Bounds(): Box { Box(x, y, PLAYER_WIDTH, PLAYER_HEIGHT) }
  }

  function Abs(v: real): real { if v < 0.0 then -v else v }

  /** The speed cap applied after friction. */
  function Cap(v: real): (r: real)
    ensures -PLAYER_MAX_SPEED <= r <= PLAYER_MAX_SPEED
    ensures -PLAYER_MAX_SPEED <= v <= PLAYER_MAX_SPEED ==> r == v
    ensures Abs(r) <= Abs(v)
  {
    if v > PLAYER_MAX_SPEED then PLAYER_MAX_SPEED
    else if v < -PLAYER_MAX_SPEED then -PLAYER_MAX_SPEED
    else v
  }

  /** A jump happens exactly when jump is held while standing on something. */
  predicate Jumps(b: Body, keys: Keys)
  {
    keys.space && b.isGrounded
  }

  /** The player leaves the world once it is more than 100 below the canvas. */
  predicate FellOut(b: Body)
  {
    b.y > CANVAS_HEIGHT + 100.0
  }

  /** The horizontal velocity after steering, friction and the speed cap. */
  function Steered(velX: real, keys: Keys): (v: real)
    ensures -PLAYER_MAX_SPEED <= v <= PLAYER_MAX_SPEED
    ensures keys.a == keys.d ==> v == Cap(FRICTION * velX)
    ensures keys.d && !keys.a ==> v == Cap((velX + PLAYER_SPEED) * FRICTION) && v >= Cap(FRICTION * velX)
    ensures keys.a && !keys.d ==> v == Cap((velX - PLAYER_SPEED) * FRICTION) && v <= Cap(FRICTION * velX)
  {
    var push := (if keys.d then PLAYER_SPEED else 0.0) - (if keys.a then PLAYER_SPEED else 0.0);
    Cap((velX + push) * FRICTION)
  }

  /** Which way the player faces after steering: the last key handled wins. */
  function Facing(facingRight: bool, keys: Keys): (r: bool)
    ensures keys.a ==> !r
    ensures keys.d && !keys.a ==> r
    ensures !keys.a && !keys.d ==> r == facingRight
  {
    if keys.a then false else if keys.d then true else facingRight
  }

  /** Player.update up to the collision pass: steering, friction, the speed
      cap, the jump impulse, gravity and one Euler step. */
  function Motion(b: Body, keys: Keys): (r: Body)
    ensures -PLAYER_MAX_SPEED <= r.velX <= PLAYER_MAX_SPEED
    ensures keys.a == keys.d ==> r.velX == Cap(FRICTION * b.velX) && Abs(r.velX) <= Abs(b.velX)
    ensures keys.d && !keys.a ==> r.velX == Cap((b.velX + PLAYER_SPEED) * FRICTION)
    ensures keys.a && !keys.d ==> r.velX == Cap((b.velX - PLAYER_SPEED) * FRICTION)
    ensures keys.a ==> !r.facingRight
    ensures keys.d && !keys.a ==> r.facingRight
    ensures !keys.a && !keys.d ==> r.facingRight == b.facingRight
    ensures Jumps(b, keys) ==> r.velY == GRAVITY - JUMP_FORCE && !r.isGrounded
    ensures !Jumps(b, keys) ==> r.velY == b.velY + GRAVITY && r.isGrounded == b.isGrounded
    ensures r.x == b.x + r.velX && r.y == b.y + r.velY
  {
    var velX := Steered(b.velX, keys);
    var facing := Facing(b.facingRight, keys);
    var jump := Jumps(b, keys);
    var velY := (if jump then -JUMP_FORCE else b.velY) + GRAVITY;
    Body(b.x + velX, b.y + velY, velX, velY, if jump then false else b.isGrounded, facing)
  }

  /** The particles a jump spawns at the player's feet, from the draws
      k, k + 1, ... */
  function JumpDust(b: Body, rand: nat -> real, k: nat): seq<Particle>
  {
    Dust(b.x + PLAYER_WIDTH / 2.0, b.y + PLAYER_HEIGHT, JUMP_DUST_COLOR, JUMP_DUST, rand, k)
  }

  /** Where the player was before this tick's motion, as the resolver sees
      it: the current position minus the current velocity. */
  function PrevX(b: Body): real { b.x - b.velX }
  function PrevY(b: Body): real { b.y - b.velY }

  predicate Touches(b: Body, p: Platform)
  {
    Overlaps(b.Bounds(), p.Bounds())
  }

  /** The player came from above: its previous bottom edge was at or above
      the platform's top. */
  predicate LandsOn(b: Body, p: Platform)
  {
    Touches(b, p) && PrevY(b) + PLAYER_HEIGHT <= p.y
  }

  /** The player came from below: its previous top edge was at or below the
      platform's bottom. */
  predicate BumpsHead(b: Body, p: Platform)
  {
    Touches(b, p) && !(PrevY(b) + PLAYER_HEIGHT <= p.y) && PrevY(b) >= p.y + p.height
  }

  /** A side contact: neither from above nor from below. */
  predicate HitsSide(b: Body, p: Platform)
  {
    Touches(b, p) && !LandsOn(b, p) && !BumpsHead(b, p)
  }

  /** A side contact from the left (previous right edge at or before the
      platform's left edge). */
  predicate PushedLeft(b: Body, p: Platform)
  {
    HitsSide(b, p) && PrevX(b) + PLAYER_WIDTH <= p.x
  }

  /** A side contact from the right. */
  predicate PushedRight(b: Body, p: Platform)
  {
    HitsSide(b, p) && !(PrevX(b) + PLAYER_WIDTH <= p.x) && PrevX(b) >= p.x + p.width
  }

  /** One iteration of the platform loop in checkCollisions. */
  function ResolvePlatform(b: Body, p: Platform): (r: Body)
    ensures !Touches(b, p) ==> r == b
    ensures r.facingRight == b.facingRight
    ensures r.isGrounded == (b.isGrounded || LandsOn(b, p))
    ensures LandsOn(b, p) ==>
              r == b.(y := r.y, velY := 0.0, isGrounded := true) && r.y + PLAYER_HEIGHT == p.y
    ensures BumpsHead(b, p) ==> r == b.(y := p.y + p.height, velY := 0.0)
    ensures PushedLeft(b, p) ==> r == b.(x := r.x, velX := 0.0) && r.x + PLAYER_WIDTH == p.x
    ensures PushedRight(b, p) ==> r == b.(x := p.x + p.width, velX := 0.0)
    ensures HitsSide(b, p) && !PushedLeft(b, p) && !PushedRight(b, p) ==> r == b
    ensures LandsOn(b, p) || BumpsHead(b, p) || PushedLeft(b, p) || PushedRight(b, p) ==>
              !Touches(r, p)
  {
    if Touches(b, p) then
      var prevY := b.y - b.velY;
      if prevY + PLAYER_HEIGHT <= p.y then
        b.(y := p.y - PLAYER_HEIGHT, velY := 0.0, isGrounded := true)
      else if prevY >= p.y + p.height then
        b.(y := p.y + p.height, velY := 0.0)
      else
        var prevX := b.x - b.velX;
        if prevX + PLAYER_WIDTH <= p.x then
          b.(x := p.x - PLAYER_WIDTH, velX := 0.0)
        else if prevX >= p.x + p.width then
          b.(x := p.x + p.width, velX := 0.0)
        else
          b
    else
      b
  }

  /** The platform loop of checkCollisions: the platforms are resolved one
      after the other, each against the state the previous ones left. */
  function ResolvePlatforms(b: Body, ps: seq<Platform>): (r: Body)
    ensures r.facingRight == b.facingRight
    ensures b.isGrounded ==> r.isGrounded
    decreases |ps|
  {
    if ps == [] then b
    else ResolvePlatform(ResolvePlatforms(b, ps[..|ps| - 1]), ps[|ps| - 1])
  }

  /** A player that touches no platform is left exactly as it was: in
      particular, having just had isGrounded cleared, it stays airborne. */
  lemma {:induction false} UntouchedPlayerIsUnchanged(b: Body, ps: seq<Platform>)
    requires forall i :: 0 <= i < |ps| ==> !Touches(b, ps[i])
    ensures ResolvePlatforms(b, ps) == b
    decreases |ps|
  {
    if ps != [] {
      UntouchedPlayerIsUnchanged(b, ps[..|ps| - 1]);
    }
  }

  /** One more platform grounds the player exactly when it was already
      grounded or lands on that platform. */
  lemma GroundedStep(b: Body, ps: seq<Platform>)
    requires ps != []
    ensures var front := ResolvePlatforms(b, ps[..|ps| - 1]);
            ResolvePlatforms(b, ps).isGrounded == (front.isGrounded || LandsOn(front, ps[|ps| - 1]))
  {
  }

  /** Starting airborne, the pass leaves the player grounded exactly when
      some platform, met in order, took the landing branch. */
  lemma {:induction false} GroundedOnlyByLanding(b: Body, ps: seq<Platform>)
    requires !b.isGrounded
    ensures ResolvePlatforms(b, ps).isGrounded <==>
              exists i :: 0 <= i < |ps| && LandsOn(ResolvePlatforms(b, ps[..i]), ps[i])
    decreases |ps|
  {
    if ps != [] {
      var n := |ps| - 1;
      var front := ps[..n];
      GroundedOnlyByLanding(b, front);
      GroundedStep(b, ps);
      assert forall i :: 0 <= i < n ==> front[..i] == ps[..i] && front[i] == ps[i];
      if ResolvePlatforms(b, ps).isGrounded {
        if !LandsOn(ResolvePlatforms(b, front), ps[n]) {
          var i :| 0 <= i < n && LandsOn(ResolvePlatforms(b, front[..i]), front[i]);
          assert LandsOn(ResolvePlatforms(b, ps[..i]), ps[i]);
        } else {
          assert ps[..n] == front;
        }
      } else {
        forall i | 0 <= i < |ps|
          ensures !LandsOn(ResolvePlatforms(b, ps[..i]), ps[i])
        {
          if i == n {
            assert ps[..i] == front;
          }
        }
      }
    }
  }

  /** A grounded player is at rest vertically: once a landing zeroes velY,
      no later platform in the same pass gives it vertical speed again. */
  lemma {:induction false} GroundedPlayerIsAtRest(b: Body, ps: seq<Platform>)
    requires b.isGrounded ==> b.velY == 0.0
    ensures ResolvePlatforms(b, ps).isGrounded ==> ResolvePlatforms(b, ps).velY == 0.0
    decreases |ps|
  {
    if ps != [] {
      GroundedPlayerIsAtRest(b, ps[..|ps| - 1]);
    }
  }

  /** The resolver reads velY after earlier platforms in the same pass may
      have zeroed it. With velY zero the "previous" position is the current
      one, so an overlapping platform can then only push sideways or leave
      the player embedded, never land it or bump its head. */
  lemma RestingPlayerOnlyHitsSides(b: Body, p: Platform)
    requires b.velY == 0.0 && Touches(b, p)
    ensures !LandsOn(b, p) && !BumpsHead(b, p) && HitsSide(b, p)
  {
  }
}
