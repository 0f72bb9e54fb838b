/**
 * Assigning AI keys to the computer-controlled players when a level starts
 * (the `Gameplays::IA` branch of the `Logic` constructor). A ranged class
 * gets a DISTANCE variant, a melee class a CONTACT variant; a slot becomes a
 * COMPANION when the scan over the players finds one with no AI (a human) or
 * a leader AI, and a LEADER when its key is still 0 after the scan.
 *
 * The code scans every player, the slot itself included, and the slot's own
 * key is 0 when the scan reaches it, so it always becomes a companion and the
 * leader branch never runs (`AsWrittenAlwaysCompanion`). `AssignSlot` is the
 * corrected assignment, which scans the other players only; the simulation
 * uses it.
 */
module Squad {
  import opened Players

  /** How a player slot is controlled. */
  datatype Gameplay = Keyboard | Joystick | IA

  function Companion(id: PlayerId): AI {
    if IsRanged(id) then CompanionDistance else CompanionContact
  }

  function Leader(id: PlayerId): AI {
    if IsRanged(id) then LeaderDistance else LeaderContact
  }

  predicate IsLeader(a: AI) {
    a == LeaderContact || a == LeaderDistance
  }

  /** A player a companion can follow: a human (key 0) or a leader. */
  predicate Followable(a: AI) {
    a == NoAI || IsLeader(a)
  }

  /** No two players are leaders. */
  predicate AtMostOneLeader(ais: seq<AI>) {
    forall a, b :: 0 <= a < |ais| && 0 <= b < |ais| && IsLeader(ais[a]) && IsLeader(ais[b]) ==> a == b
  }

  /** Some player other than slot `i` can be followed. */
  predicate HasGuide(ais: seq<AI>, i: nat) {
    exists k :: 0 <= k < |ais| && k != i && Followable(ais[k])
  }

  // ---------------------------------------------------------------------------
  // The assignment as the code writes it

  /** The keys after the scan has looked at players `0 .. j - 1`, slot `i` included. */
  function ScanAsWritten(ais: seq<AI>, i: nat, id: PlayerId, j: nat): (r: seq<AI>)
    requires i < |ais| && j <= |ais|
    ensures |r| == |ais|
  {
    if j == 0 then ais
    else
      var s := ScanAsWritten(ais, i, id, j - 1);
      if Followable(s[j - 1]) then s[i := Companion(id)] else s
  }

  /** One IA slot as the code assigns it. */
  function AssignAsWritten(ais: seq<AI>, i: nat, id: PlayerId): (r: seq<AI>)
    requires i < |ais|
    ensures |r| == |ais|
  {
    var s := ScanAsWritten(ais, i, id, |ais|);
    if s[i] == NoAI then s[i := Leader(id)] else s
  }

  /** Once the scan has passed slot `i` (whose key started at 0), that slot is a companion. */
  lemma {:induction false} ScanAsWrittenReachesSelf(ais: seq<AI>, i: nat, id: PlayerId, j: nat)
    requires i < |ais| && j <= |ais| && ais[i] == NoAI
    ensures ScanAsWritten(ais, i, id, j) == ais || ScanAsWritten(ais, i, id, j) == ais[i := Companion(id)]
    ensures i < j ==> ScanAsWritten(ais, i, id, j) == ais[i := Companion(id)]
  {
    if j > 0 {
      ScanAsWrittenReachesSelf(ais, i, id, j - 1);
    }
  }

  /** As written, an IA slot always ends up a companion: the leader branch is dead. */
  lemma AsWrittenAlwaysCompanion(ais: seq<AI>, i: nat, id: PlayerId)
    requires i < |ais| && ais[i] == NoAI
    ensures AssignAsWritten(ais, i, id) == ais[i := Companion(id)]
    ensures !IsLeader(AssignAsWritten(ais, i, id)[i])
  {
    ScanAsWrittenReachesSelf(ais, i, id, |ais|);
  }

  /** The smallest case: a lone archer played by the computer becomes a companion with nobody to follow. */
  lemma AsWrittenLoneArcher()
    ensures AssignAsWritten([NoAI], 0, Archer) == [CompanionDistance]
    ensures AssignSlot([NoAI], 0, Archer) == [LeaderDistance]
  {
    AsWrittenAlwaysCompanion([NoAI], 0, Archer);
    AssignSlotSpec([NoAI], 0, Archer);
  }

  // ---------------------------------------------------------------------------
  // The corrected assignment

  /** The keys after the scan has looked at players `0 .. j - 1`, slot `i` skipped. */
  function ScanOthers(ais: seq<AI>, i: nat, id: PlayerId, j: nat): (r: seq<AI>)
    requires i < |ais| && j <= |ais|
    ensures |r| == |ais|
  {
    if j == 0 then ais
    else
      var s := ScanOthers(ais, i, id, j - 1);
      if j - 1 != i && Followable(s[j - 1]) then s[i := Companion(id)] else s
  }

  /** One IA slot, assigned against the other players only. */
  function AssignSlot(ais: seq<AI>, i: nat, id: PlayerId): (r: seq<AI>)
    requires i < |ais|
    ensures |r| == |ais|
  {
    var s := ScanOthers(ais, i, id, |ais|);
    if s[i] == NoAI then s[i := Leader(id)] else s
  }

  /** The scan so far has made slot `i` a companion exactly when it met a player to follow. */
  lemma {:induction false} ScanOthersSoFar(ais: seq<AI>, i: nat, id: PlayerId, j: nat)
    requires i < |ais| && j <= |ais| && ais[i] == NoAI
    ensures ScanOthers(ais, i, id, j) ==
              ais[i := if exists k :: 0 <= k < j && k != i && Followable(ais[k]) then Companion(id) else NoAI]
  {
    if j > 0 {
      ScanOthersSoFar(ais, i, id, j - 1);
      if j - 1 != i && Followable(ais[j - 1]) {
        assert 0 <= j - 1 < j && j - 1 != i && Followable(ais[j - 1]);
      }
    }
  }

  /** A slot becomes a companion when another player can be followed, and the leader otherwise; no other slot changes. */
  lemma AssignSlotSpec(ais: seq<AI>, i: nat, id: PlayerId)
    requires i < |ais| && ais[i] == NoAI
    ensures AssignSlot(ais, i, id) == ais[i := if HasGuide(ais, i) then Companion(id) else Leader(id)]
  {
    ScanOthersSoFar(ais, i, id, |ais|);
  }

  /** The keys after the IA slots among the first `n` have been assigned in order. */
  function AssignAll(ais: seq<AI>, ids: seq<PlayerId>, gp: seq<Gameplay>, n: nat): (r: seq<AI>)
    requires |ids| == |ais| && n <= |gp| <= |ais|
    ensures |r| == |ais|
  {
    if n == 0 then ais
    else
      var s := AssignAll(ais, ids, gp, n - 1);
      if gp[n - 1] == IA then AssignSlot(s, n - 1, ids[n - 1]) else s
  }

  /**
   * Starting from no AI anywhere: every IA slot gets the companion or leader key of
   * its class's archetype, every other slot keeps key 0, there is at most one
   * leader, and there is none while some player is left without an AI.
   */
  lemma {:induction false} AssignAllSpec(ais: seq<AI>, ids: seq<PlayerId>, gp: seq<Gameplay>, n: nat)
    requires |ids| == |ais| && n <= |gp| <= |ais|
    requires forall k :: 0 <= k < |ais| ==> ais[k] == NoAI
    ensures forall k :: 0 <= k < |ais| ==>
              if k < n && gp[k] == IA
              then AssignAll(ais, ids, gp, n)[k] in {Companion(ids[k]), Leader(ids[k])}
              else AssignAll(ais, ids, gp, n)[k] == NoAI
    ensures AtMostOneLeader(AssignAll(ais, ids, gp, n))
    ensures (exists k :: 0 <= k < |ais| && (n <= k || gp[k] != IA)) ==>
              forall k :: 0 <= k < |ais| ==> !IsLeader(AssignAll(ais, ids, gp, n)[k])
  {
    if n > 0 {
      var i := n - 1;
      AssignAllSpec(ais, ids, gp, i);
      var s := AssignAll(ais, ids, gp, i);
      var r := AssignAll(ais, ids, gp, n);
      if gp[i] == IA {
        AssignSlotSpec(s, i, ids[i]);
        assert r == s[i := if HasGuide(s, i) then Companion(ids[i]) else Leader(ids[i])];
        if exists k :: 0 <= k < |ais| && (n <= k || gp[k] != IA) {
          var k0 :| 0 <= k0 < |ais| && (n <= k0 || gp[k0] != IA);
          assert 0 <= k0 < |ais| && (i <= k0 || gp[k0] != IA);
          assert k0 != i && s[k0] == NoAI;
          assert HasGuide(s, i);
          forall k | 0 <= k < |ais|
            ensures !IsLeader(r[k])
          {
            if k != i {
              assert r[k] == s[k];
            }
          }
        }
        if !HasGuide(s, i) {
          forall k | 0 <= k < |ais| && k != i
            ensures !IsLeader(r[k])
          {
            assert !Followable(s[k]) && r[k] == s[k];
          }
        }
      } else {
        assert r == s;
        if exists k :: 0 <= k < |ais| && (n <= k || gp[k] != IA) {
          var k0 :| 0 <= k0 < |ais| && (n <= k0 || gp[k0] != IA);
          assert 0 <= k0 < |ais| && (i <= k0 || gp[k0] != IA);
        }
      }
    }
  }

  /**
   * A party played entirely by the computer gets exactly one leader: the last
   * slot, whose scan finds only companions; every other slot follows it.
   */
  lemma {:induction false} AllComputerOneLeader(ais: seq<AI>, ids: seq<PlayerId>, gp: seq<Gameplay>)
    requires |ids| == |ais| == |gp| > 0
    requires forall k :: 0 <= k < |ais| ==> ais[k] == NoAI && gp[k] == IA
    ensures AssignAll(ais, ids, gp, |gp|)[|gp| - 1] == Leader(ids[|gp| - 1])
    ensures forall k :: 0 <= k < |gp| - 1 ==> AssignAll(ais, ids, gp, |gp|)[k] == Companion(ids[k])
  {
    var i := |gp| - 1;
    var s := AssignAll(ais, ids, gp, i);
    FollowersBeforeLast(ais, ids, gp);
    LastAlone(s, i, ids);
    LastSlotStep(ais, ids, gp, |gp|);
    var r := AssignAll(ais, ids, gp, |gp|);
    assert r == s[i := Leader(ids[i])];
    forall k | 0 <= k < i
      ensures r[k] == Companion(ids[k])
    {
      assert r[k] == s[k];
    }
  }

  /** The last step of the assignment of an all-computer party assigns its last slot. */
  lemma {:induction false} LastSlotStep(ais: seq<AI>, ids: seq<PlayerId>, gp: seq<Gameplay>, n: nat)
    requires |ids| == |ais| && 0 < n <= |gp| <= |ais| && gp[n - 1] == IA
    ensures AssignAll(ais, ids, gp, n) == AssignSlot(AssignAll(ais, ids, gp, n - 1), n - 1, ids[n - 1])
  {
  }

  /** Before the last slot is assigned, every earlier slot of an all-computer party is a companion. */
  lemma {:induction false} FollowersBeforeLast(ais: seq<AI>, ids: seq<PlayerId>, gp: seq<Gameplay>)
    requires |ids| == |ais| == |gp| > 0
    requires forall k :: 0 <= k < |ais| ==> ais[k] == NoAI && gp[k] == IA
    ensures AssignAll(ais, ids, gp, |gp| - 1)[|gp| - 1] == NoAI
    ensures forall k :: 0 <= k < |gp| - 1 ==> AssignAll(ais, ids, gp, |gp| - 1)[k] == Companion(ids[k])
  {
    var i := |gp| - 1;
    AssignAllSpec(ais, ids, gp, i);
    var s := AssignAll(ais, ids, gp, i);
    assert exists k :: 0 <= k < |ais| && (i <= k || gp[k] != IA) by {
      assert 0 <= i < |ais| && gp[i] == IA;
    }
    assert forall k :: 0 <= k < |ais| ==> !IsLeader(s[k]);
    forall k | 0 <= k < i
      ensures s[k] == Companion(ids[k])
    {
      assert 0 <= k < |ais| && k < i && gp[k] == IA;
      assert s[k] in {Companion(ids[k]), Leader(ids[k])};
      assert !IsLeader(s[k]);
    }
  }

  /** A last slot among companions only has nobody to follow and leads. */
  lemma {:induction false} LastAlone(s: seq<AI>, i: nat, ids: seq<PlayerId>)
    requires i + 1 == |s| == |ids| && s[i] == NoAI
    requires forall k :: 0 <= k < i ==> s[k] == Companion(ids[k])
    ensures AssignSlot(s, i, ids[i]) == s[i := Leader(ids[i])]
  {
    assert !HasGuide(s, i) by {
      forall k | 0 <= k < |s| && k != i
        ensures !Followable(s[k])
      {
        assert s[k] == Companion(ids[k]);
      }
    }
    AssignSlotSpec(s, i, ids[i]);
  }
}
