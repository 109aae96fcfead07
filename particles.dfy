/** The particle subsystem: bursts spawned on jumps and stomps, and the
    per-tick pass of Game.update that ages particles and splices out the
    expired ones while it is iterating over them. */
module Particles {
  import opened Geometry
  import opened Entities

  /** n particles spawned at (x, y) from the draws k, k + 1, ...: each new
      Particle consumes three draws (size, speedX, speedY). */
  function Dust(x: real, y: real, color: string, n: nat, rand: nat -> real, k: nat): (r: seq<Particle>)
    ensures |r| == n
    ensures forall i :: 0 <= i < n ==> r[i].x == x && r[i].y == y && r[i].color == color && r[i].life == 1.0
    ensures AllAlive(r)
    ensures IsUnitSource(rand) ==>
              forall i :: 0 <= i < n ==>
                2.0 <= r[i].size < 7.0 && -3.0 <= r[i].speedX < 3.0 && -3.0 <= r[i].speedY < 3.0
  {
    if n == 0 then []
    else
      var j := k + 3 * (n - 1);
      Dust(x, y, color, n - 1, rand, k) + [NewParticle(x, y, color, rand(j), rand(j + 1), rand(j + 2))]
  }

  /** Every particle is still alive, with life in (0, 1]. */
  predicate AllAlive(ps: seq<Particle>)
  {
    forall i :: 0 <= i < |ps| ==> 0.0 < ps[i].life <= 1.0
  }

  lemma AllAliveConcat(a: seq<Particle>, b: seq<Particle>)
    requires AllAlive(a) && AllAlive(b)
    ensures AllAlive(a + b)
  {
  }

  /** The particle pass of Game.update, stated over the particles as they
      were when the pass began. A particle is updated; if that leaves its
      life at or below zero it is spliced out, the next particle shifts into
      its slot and the iteration moves past that slot, so the next particle
      is kept but not updated this tick. */
  function ParticlePass(ps: seq<Particle>): (r: seq<Particle>)
    ensures |r| <= |ps|
    ensures AllAlive(ps) ==> AllAlive(r)
    decreases |ps|
  {
    if ps == [] then []
    else
      var p := ParticleStep(ps[0]);
      if p.life <= 0.0 then
        (if |ps| == 1 then [] else [ps[1]] + ParticlePass(ps[2..]))
      else
        [p] + ParticlePass(ps[1..])
  }

  /** One iteration of the particle loop at index k: the particle there is
      updated in place, or spliced out once its life is gone. */
  function SpliceAt(ps: seq<Particle>, k: nat): (r: seq<Particle>)
    requires k < |ps|
    ensures |r| == |ps| || |r| == |ps| - 1
  {
    var p := ParticleStep(ps[k]);
    if p.life <= 0.0 then ps[..k] + ps[k + 1..] else ps[k := p]
  }

  /** What the particle loop will have produced once it finishes, seen from
      index k: the slots it has passed stay, and the pass runs over the
      rest. */
  function Pending(ps: seq<Particle>, k: nat): seq<Particle>
  {
    if k <= |ps| then ps[..k] + ParticlePass(ps[k..]) else ps
  }

  /** An iteration of the loop keeps what it will produce. */
  lemma PendingStep(ps: seq<Particle>, k: nat)
    requires k < |ps|
    ensures Pending(SpliceAt(ps, k), k + 1) == Pending(ps, k)
  {
    var r := SpliceAt(ps, k);
    var p := ParticleStep(ps[k]);
    if p.life <= 0.0 {
      if k + 1 <= |r| {
        assert ps[k..][2..] == r[k + 1..];
        assert r[..k + 1] == ps[..k] + [ps[k + 1]];
        ConcatAssoc(ps[..k], [ps[k + 1]], ParticlePass(r[k + 1..]));
      } else {
        assert r == ps[..k];
        assert ps[k..] == [ps[k]];
      }
    } else {
      assert ps[k..][1..] == r[k + 1..];
      assert r[..k + 1] == ps[..k] + [p];
      ConcatAssoc(ps[..k], [p], ParticlePass(r[k + 1..]));
    }
  }

  /** At the start the loop will produce the whole pass; past the end it
      has produced the particles as they stand. */
  lemma PendingBounds(ps: seq<Particle>, k: nat)
    ensures Pending(ps, 0) == ParticlePass(ps)
    ensures k >= |ps| ==> Pending(ps, k) == ps && Pending(ps, k + 1) == ps
  {
    assert ps[..0] == [] && ps[0..] == ps;
    if k >= |ps| {
      assert ps[..|ps|] == ps && ps[|ps|..] == [];
    }
  }

  /** How many particles expire when updated. */
  function Expiring(ps: seq<Particle>): nat
    decreases |ps|
  {
    if ps == [] then 0
    else (if ParticleStep(ps[0]).life <= 0.0 then 1 else 0) + Expiring(ps[1..])
  }

  /** Every removal is paid for by an expiry: the pass removes at most as
      many particles as there are particles whose update takes their life
      to zero or below. */
  lemma {:induction false} RemovalsNeedExpiry(ps: seq<Particle>)
    ensures |ps| - |ParticlePass(ps)| <= Expiring(ps)
    decreases |ps|
  {
    if ps != [] {
      if ParticleStep(ps[0]).life <= 0.0 {
        if |ps| > 1 {
          RemovalsNeedExpiry(ps[2..]);
          ExpiringOfTail(ps[1..]);
          assert ps[1..][1..] == ps[2..];
        }
      } else {
        RemovalsNeedExpiry(ps[1..]);
      }
    }
  }

  /** A particle is removed only if its own update takes its life to zero
      or below: every other particle is still there after the pass, aged,
      or as it was when the splice before it made the loop skip it. */
  lemma {:induction false} LiveParticlesStay(ps: seq<Particle>)
    ensures forall i :: 0 <= i < |ps| && ParticleStep(ps[i]).life > 0.0 ==>
              ParticleStep(ps[i]) in ParticlePass(ps) || ps[i] in ParticlePass(ps)
    decreases |ps|
  {
    if ps != [] {
      var r := ParticlePass(ps);
      if ParticleStep(ps[0]).life <= 0.0 {
        if |ps| > 1 {
          LiveParticlesStay(ps[2..]);
          assert r == [ps[1]] + ParticlePass(ps[2..]);
          forall i | 2 <= i < |ps| && ParticleStep(ps[i]).life > 0.0
            ensures ParticleStep(ps[i]) in r || ps[i] in r
          {
            assert ps[i] == ps[2..][i - 2];
          }
        }
      } else {
        LiveParticlesStay(ps[1..]);
        assert r == [ParticleStep(ps[0])] + ParticlePass(ps[1..]);
        forall i | 1 <= i < |ps| && ParticleStep(ps[i]).life > 0.0
          ensures ParticleStep(ps[i]) in r || ps[i] in r
        {
          assert ps[i] == ps[1..][i - 1];
        }
      }
    }
  }

  lemma ExpiringOfTail(ps: seq<Particle>)
    requires ps != []
    ensures Expiring(ps[1..]) <= Expiring(ps)
  {
  }

  /** When no particle expires, the pass updates every particle exactly
      once and removes none. */
  lemma {:induction false} NoExpiryUpdatesAll(ps: seq<Particle>)
    requires forall i :: 0 <= i < |ps| ==> ParticleStep(ps[i]).life > 0.0
    ensures |ParticlePass(ps)| == |ps|
    ensures forall i :: 0 <= i < |ps| ==> ParticlePass(ps)[i] == ParticleStep(ps[i])
    decreases |ps|
  {
    if ps != [] {
      NoExpiryUpdatesAll(ps[1..]);
    }
  }

  /** The splice skips a particle: when the first particle expires, the
      second survives this tick without being updated. */
  lemma ExpiryShieldsSuccessor(ps: seq<Particle>)
    requires |ps| >= 2 && ParticleStep(ps[0]).life <= 0.0
    ensures ParticlePass(ps)[0] == ps[1]
  {
  }
}
