/**
 * Particle-effect lifetimes (`Logic::updateDisplay`): every queued spawn
 * becomes an effect with a countdown of 30 ticks; each frame the countdowns
 * drop by the number of ticks simulated since the previous frame, stopping
 * at zero, and effects whose countdown reached zero are erased.
 */
module Particles {
  import opened Types

  /** The countdown a new effect starts with. */
  const LIFETIME: nat := 30

  /** A running effect: its countdown and the presentation data it carries. */
  datatype Effect<P> = Effect(countdown: nat, payload: P)

  /** Saturating decrement: `c > n ? c - n : 0`. */
  function Decay(c: nat, n: nat): (r: nat)
    ensures r <= c
    ensures r == 0 <==> c <= n
    ensures r != 0 ==> r + n == c
  {
    if c > n then c - n else 0
  }

  /** Every effect's countdown after `n` ticks. */
  function DecayAll<P>(es: seq<Effect<P>>, n: nat): seq<Effect<P>> {
    seq(|es|, i requires 0 <= i < |es| => es[i].(countdown := Decay(es[i].countdown, n)))
  }

  /** The effects started for a frame's queued spawns, in queue order. */
  function Launch<P>(spawns: seq<P>): seq<Effect<P>> {
    seq(|spawns|, i requires 0 <= i < |spawns| => Effect(LIFETIME, spawns[i]))
  }

  predicate Expired<P>(e: Effect<P>) {
    e.countdown == 0
  }

  /** The effects left after erasing the expired ones. */
  function Survivors<P>(es: seq<Effect<P>>): seq<Effect<P>> {
    RemoveIf(es, Expired)
  }

  /** The particle list at the end of a frame that saw `n` ticks and the queued `spawns`. */
  function NextFrame<P>(es: seq<Effect<P>>, spawns: seq<P>, n: nat): seq<Effect<P>> {
    Survivors(DecayAll(es + Launch(spawns), n))
  }

  /** Every countdown is running and at most the starting value. */
  predicate AllRunning<P>(es: seq<Effect<P>>) {
    forall i :: 0 <= i < |es| ==> 0 < es[i].countdown <= LIFETIME
  }

  /** Two frames' decrements add up: splitting ticks over frames does not change a countdown. */
  lemma DecayComposes<P>(es: seq<Effect<P>>, a: nat, b: nat)
    ensures DecayAll(DecayAll(es, a), b) == DecayAll(es, a + b)
  {
  }

  /** Decrementing commutes with concatenation. */
  lemma DecayAllAppend<P>(a: seq<Effect<P>>, b: seq<Effect<P>>, n: nat)
    ensures DecayAll(a + b, n) == DecayAll(a, n) + DecayAll(b, n)
  {
  }

  /** A frame keeps every remaining countdown in `1 .. 30`. */
  lemma NextFrameRunning<P>(es: seq<Effect<P>>, spawns: seq<P>, n: nat)
    requires AllRunning(es)
    ensures AllRunning(NextFrame(es, spawns, n))
  {
    var all := es + Launch(spawns);
    var d := DecayAll(all, n);
    var r := NextFrame(es, spawns, n);
    forall i | 0 <= i < |r|
      ensures 0 < r[i].countdown <= LIFETIME
    {
      assert r[i] in r;
      SurvivorFrom(d, r[i]);
      var j :| 0 <= j < |d| && d[j] == r[i];
      assert all[j] == if j < |es| then es[j] else Launch(spawns)[j - |es|];
    }
  }

  /** A survivor was among the effects and is still running. */
  lemma SurvivorFrom<P>(d: seq<Effect<P>>, x: Effect<P>)
    requires x in Survivors(d)
    ensures x in d && x.countdown != 0
  {
    RemoveIfMembers(d, Expired);
  }

  /**
   * The surviving old effects come first and the survivors of this frame's
   * spawns after them, each group in its original order.
   */
  lemma {:induction false} NextFrameOrder<P>(es: seq<Effect<P>>, spawns: seq<P>, n: nat)
    ensures NextFrame(es, spawns, n) == Survivors(DecayAll(es, n)) + Survivors(DecayAll(Launch(spawns), n))
  {
    DecayAllAppend(es, Launch(spawns), n);
    RemoveIfAppend(DecayAll(es, n), DecayAll(Launch(spawns), n), Expired);
  }

  /** An effect started this frame survives it, at `30 - n`, exactly when fewer than 30 ticks were simulated. */
  lemma LaunchedSurvival<P>(spawns: seq<P>, n: nat)
    ensures n < LIFETIME ==> Survivors(DecayAll(Launch(spawns), n)) == DecayAll(Launch(spawns), n)
    ensures n < LIFETIME ==> forall i :: 0 <= i < |spawns| ==>
              DecayAll(Launch(spawns), n)[i] == Effect(LIFETIME - n, spawns[i])
    ensures LIFETIME <= n ==> Survivors(DecayAll(Launch(spawns), n)) == []
  {
    if LIFETIME <= n {
      RemoveIfDropsAll(DecayAll(Launch(spawns), n), Expired);
    } else {
      RemoveIfKeepsAll(DecayAll(Launch(spawns), n), Expired);
    }
  }
}
