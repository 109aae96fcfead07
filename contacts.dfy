/** The enemy half of the collision resolver (Player.checkCollisions): each
    overlapping enemy is either stomped or ends the run. */
module Contacts {
  import opened Geometry
  import opened Entities
  import opened Physics
  import opened Particles

  const STOMP_BONUS: nat := 100
  const STOMP_DUST: nat := 10
  /** Each stomp's dust consumes three draws per particle. */
  const STOMP_DRAWS: nat := 3 * STOMP_DUST

  datatype Contact = Miss | Stomp | Hit

  /** How the player meets one enemy: a stomp needs the player falling and
      its foot, before this tick's vertical motion, above the enemy's
      mid-height; any other overlap is a hit. */
  function ContactWith(b: Body, e: Enemy): (c: Contact)
    ensures c == Miss <==> !Overlaps(b.Bounds(), e.Bounds())
    ensures c == Stomp <==>
              && Overlaps(b.Bounds(), e.Bounds())
              && b.velY > 0.0
              && b.y + PLAYER_HEIGHT - b.velY < e.y + e.height * 0.5
  {
    if !Overlaps(b.Bounds(), e.Bounds()) then Miss
    else if b.velY > 0.0 && b.y + PLAYER_HEIGHT - b.velY < e.y + e.height * 0.5 then Stomp
    else Hit
  }

  /** The enemy loop of checkCollisions: the enemies are met in order, and a
      stomp's bounce is what the later enemies see. Yields the player after
      the loop and what happened with each enemy. */
  function EnemyPass(b: Body, es: seq<Enemy>): (r: (Body, seq<Contact>))
    ensures |r.1| == |es|
    ensures r.0 == b.(velY := r.0.velY)
    ensures Stomp in r.1 ==> r.0.velY == -JUMP_FORCE / 2.0
    ensures Stomp !in r.1 ==> r.0 == b
    decreases |es|
  {
    if es == [] then (b, [])
    else
      var front := EnemyPass(b, es[..|es| - 1]);
      var c := ContactWith(front.0, es[|es| - 1]);
      (if c == Stomp then front.0.(velY := -JUMP_FORCE / 2.0) else front.0, front.1 + [c])
  }

  /** w for every stomp among the contacts: the score a pass earns
      (w = STOMP_BONUS) and the draws its dust consumes (w = STOMP_DRAWS). */
  function PerStomp(cs: seq<Contact>, w: nat): (n: nat)
    ensures n == 0 <==> w == 0 || Stomp !in cs
    decreases |cs|
  {
    if cs == [] then 0
    else PerStomp(cs[..|cs| - 1], w) + (if cs[|cs| - 1] == Stomp then w else 0)
  }

  /** The enemy after the pass: marked for deletion exactly when stomped. */
  function AfterContact(e: Enemy, c: Contact): (r: Enemy)
    ensures r == e.(markedForDeletion := r.markedForDeletion)
    ensures r.markedForDeletion == (e.markedForDeletion || c == Stomp)
  {
    if c == Stomp then e.(markedForDeletion := true) else e
  }

  /** The particles one contact spawns from the draws k, k + 1, ...: ten at
      the enemy's centre in its colour after a stomp, none otherwise. */
  function Burst(e: Enemy, c: Contact, rand: nat -> real, k: nat): (r: seq<Particle>)
    ensures |r| == if c == Stomp then STOMP_DUST else 0
    ensures AllAlive(r)
  {
    if c == Stomp then Dust(e.x + e.width / 2.0, e.y + e.height / 2.0, ENEMY_COLOR, STOMP_DUST, rand, k)
    else []
  }

  /** Extending the pass by the next enemy: the contact is decided against
      the player the earlier enemies left. */
  lemma {:induction false} EnemyPassStep(b: Body, es: seq<Enemy>, i: nat)
    requires i < |es|
    ensures var pass := EnemyPass(b, es[..i]);
            var c := ContactWith(pass.0, es[i]);
            EnemyPass(b, es[..i + 1]) == (if c == Stomp then pass.0.(velY := -JUMP_FORCE / 2.0) else pass.0,
                                          pass.1 + [c])
  {
    assert es[..i + 1][..i] == es[..i];
  }

  /** One more contact adds one stomp's worth of score and draws exactly
      when it is a stomp, and is a hit or not. */
  lemma {:induction false} StompsStep(cs: seq<Contact>, c: Contact)
    ensures forall w: nat :: PerStomp(cs + [c], w) == PerStomp(cs, w) + (if c == Stomp then w else 0)
    ensures Hit in cs + [c] <==> Hit in cs || c == Hit
  {
    assert (cs + [c])[..|cs|] == cs;
  }

  /** At most one enemy is stomped per pass: the bounce makes velY negative,
      so every later overlapping enemy is a hit. A pass therefore earns one
      stomp's worth or nothing. */
  lemma {:induction false} AtMostOneStomp(b: Body, es: seq<Enemy>)
    ensures forall w: nat :: PerStomp(EnemyPass(b, es).1, w) == if Stomp in EnemyPass(b, es).1 then w else 0
    ensures forall i, j :: 0 <= i < j < |es| && EnemyPass(b, es).1[i] == Stomp ==>
              EnemyPass(b, es).1[j] != Stomp
    decreases |es|
  {
    if es != [] {
      var n := |es| - 1;
      var front := EnemyPass(b, es[..n]);
      var cs := EnemyPass(b, es).1;
      AtMostOneStomp(b, es[..n]);
      assert cs[..n] == front.1;
      assert cs == front.1 + [cs[n]];
      StompsStep(front.1, cs[n]);
      if Stomp in front.1 {
        assert cs[n] != Stomp;
      }
    }
  }
}
