/** Full channels: when a visit of the matching loop, whose sends wait for room in the channel of its
    waiter, can come to its end. */
module BrokerVisit {
  import opened Wrappers
  import opened BrokerModel
  import opened BrokerProtocol
  import opened BrokerConservation
  import opened BrokerPlaces
  import opened BrokerRuns
  import opened BrokerPieces

  predicate PoliteMoves(moves: seq<Option<Action>>) {
    forall n :: 0 <= n < |moves| && moves[n].Some? ==> Polite(moves[n].value)
  }

  /** Nobody can come to wait on slot i while the broker visits it. */
  predicate NoNewReader(c: Config, i: nat) {
    Sized(c) && i < |c.s.sources| && c.held[i] == 0 && i !in c.s.freeSources
  }

  /** The targets from j on that match source i. */
  function HitsLeft(s: State, i: nat, j: nat): nat
    requires i < |s.sources| && j <= |s.targets|
    decreases |s.targets| - j
  {
    if j == |s.targets| then 0 else Bit(Matches(s.targets[j], s.sources[i])) + HitsLeft(s, i, j + 1)
  }

  lemma {:induction false} HitsLeftAll(s: State, i: nat, j: nat)
    requires i < |s.sources| && j <= |s.targets|
    ensures |Hits(s, i, j)| + HitsLeft(s, i, j) == |Hits(s, i, |s.targets|)|
    decreases |s.targets| - j
  {
    if j == |s.targets| {
    } else {
      HitsLeftAll(s, i, j + 1);
    }
  }

  /** What the loop still has to test is the same in both. */
  predicate SameTests(s: State, r: State, i: nat, j: nat)
    requires i < |s.sources|
  {
    && |r.sources| == |s.sources| && |r.targets| == |s.targets| && r.sources[i].slotType == s.sources[i].slotType
    && forall h :: j <= h < |s.targets| ==> r.targets[h].slotType == s.targets[h].slotType && r.targets[h].state == s.targets[h].state
  }

  lemma {:induction false} HitsLeftSame(s: State, r: State, i: nat, j: nat)
    requires i < |s.sources| && j <= |s.targets| && SameTests(s, r, i, j)
    ensures HitsLeft(r, i, j) == HitsLeft(s, i, j)
    decreases |s.targets| - j
  {
    if j == |s.targets| {
    } else {
      HitsLeftSame(s, r, i, j + 1);
    }
  }

  /** A client or a runner leaves the difference between queued replies and readers as it is. */
  lemma OtherKeepsReaders(cfg: Settings, c: Config, a: Action, i: nat, j: nat)
    requires NoNewReader(c, i) && Enabled(c, a) && Polite(a) && !a.BrokerStep? && j <= |c.s.targets|
    ensures var d := Moved(cfg, c, a);
            && NoNewReader(d, i) && |d.s.targets| == |c.s.targets|
            && |d.s.sources[i].output| - d.reading[i] == |c.s.sources[i].output| - c.reading[i]
            && |d.s.sources[i].output| <= |c.s.sources[i].output|
            && HitsLeft(d.s, i, j) == HitsLeft(c.s, i, j)
  {
    var d := Moved(cfg, c, a);
    SizedStep(cfg, c, a);
    OthersKeepFields(cfg, c, a);
    assert SameFields(c.s.sources[i], d.s.sources[i]);
    forall h | j <= h < |c.s.targets|
      ensures d.s.targets[h].slotType == c.s.targets[h].slotType && d.s.targets[h].state == c.s.targets[h].state
    {
      assert SameFields(c.s.targets[h], d.s.targets[h]);
    }
    HitsLeftSame(c.s, d.s, i, j);
  }

  lemma TestCounts(c: Config, i: nat, j: nat)
    requires NoNewReader(c, i) && j < |c.s.targets|
    ensures var d := After(c, TestTarget(i, j));
            && NoNewReader(d, i) && d.reading == c.reading && |d.s.targets| == |c.s.targets|
            && |d.s.sources[i].output| == |c.s.sources[i].output| + Bit(Matches(c.s.targets[j], c.s.sources[i]))
            && HitsLeft(d.s, i, j + 1) == HitsLeft(c.s, i, j + 1)
  {
    var d := After(c, TestTarget(i, j));
    assert SameTests(c.s, d.s, i, j + 1);
    HitsLeftSame(c.s, d.s, i, j + 1);
  }

  /** The rest of the visit, from target j on, can be brought to its end. */
  ghost predicate CanEnd(cfg: Settings, cap: nat, c: Config, i: nat, j: nat)
    requires i < |c.s.sources| && j <= |c.s.targets|
  {
    exists moves, d :: PoliteMoves(moves) && Weaves(cfg, cap, c, Tests(i, j, |c.s.targets|), moves, d)
  }

  lemma {:induction false} EndsOnlyIf(cfg: Settings, cap: nat, c: Config, i: nat, j: nat, moves: seq<Option<Action>>, d: Config)
    requires NoNewReader(c, i) && j <= |c.s.targets| && |c.s.sources[i].output| <= cap
    requires PoliteMoves(moves) && Weaves(cfg, cap, c, Tests(i, j, |c.s.targets|), moves, d)
    ensures |c.s.sources[i].output| + HitsLeft(c.s, i, j) <= cap + c.reading[i]
    decreases |moves|
  {
    if moves == [] {
    } else {
      match moves[0]
      case None =>
        TestCounts(c, i, j);
        assert Tests(i, j, |c.s.targets|)[1..] == Tests(i, j + 1, |c.s.targets|);
        EndsOnlyIf(cfg, cap, After(c, TestTarget(i, j)), i, j + 1, moves[1..], d);
      case Some(a) =>
        OtherKeepsReaders(cfg, c, a, i, j);
        EndsOnlyIf(cfg, cap, Moved(cfg, c, a), i, j, moves[1..], d);
    }
  }

  lemma EndsAfterTest(cfg: Settings, cap: nat, c: Config, i: nat, j: nat)
    requires i < |c.s.sources| && j < |c.s.targets| && HasRoom(c.s, TestTarget(i, j), cap)
    requires CanEnd(cfg, cap, After(c, TestTarget(i, j)), i, j + 1)
    ensures CanEnd(cfg, cap, c, i, j)
  {
    var e := After(c, TestTarget(i, j));
    var moves, d :| PoliteMoves(moves) && Weaves(cfg, cap, e, Tests(i, j + 1, |c.s.targets|), moves, d);
    assert Tests(i, j, |c.s.targets|)[1..] == Tests(i, j + 1, |c.s.targets|);
    assert ([None] + moves)[1..] == moves;
    assert PoliteMoves([None] + moves);
    assert Weaves(cfg, cap, c, Tests(i, j, |c.s.targets|), [None] + moves, d);
  }

  lemma EndsAfterRead(cfg: Settings, cap: nat, c: Config, i: nat, j: nat)
    requires i < |c.s.sources| && j <= |c.s.targets| && Enabled(c, ReadReply(i))
    requires CanEnd(cfg, cap, Moved(cfg, c, ReadReply(i)), i, j)
    ensures CanEnd(cfg, cap, c, i, j)
  {
    var e := Moved(cfg, c, ReadReply(i));
    var moves, d :| PoliteMoves(moves) && Weaves(cfg, cap, e, Tests(i, j, |c.s.targets|), moves, d);
    var all := [Some(ReadReply(i))] + moves;
    assert all[1..] == moves;
    assert PoliteMoves(all);
    assert Weaves(cfg, cap, c, Tests(i, j, |c.s.targets|), all, d);
  }

  lemma {:induction false} EndsIf(cfg: Settings, cap: nat, c: Config, i: nat, j: nat)
    requires NoNewReader(c, i) && j <= |c.s.targets| && |c.s.sources[i].output| <= cap && cap > 0
    requires |c.s.sources[i].output| + HitsLeft(c.s, i, j) <= cap + c.reading[i]
    ensures CanEnd(cfg, cap, c, i, j)
    decreases |c.s.targets| - j, |c.s.sources[i].output|
  {
    if j == |c.s.targets| {
      assert PoliteMoves([]) && Weaves(cfg, cap, c, Tests(i, j, |c.s.targets|), [], c);
    } else if HasRoom(c.s, TestTarget(i, j), cap) {
      TestCounts(c, i, j);
      EndsIf(cfg, cap, After(c, TestTarget(i, j)), i, j + 1);
      EndsAfterTest(cfg, cap, c, i, j);
    } else {
      OtherKeepsReaders(cfg, c, ReadReply(i), i, j);
      EndsIf(cfg, cap, Moved(cfg, c, ReadReply(i)), i, j);
      EndsAfterRead(cfg, cap, c, i, j);
    }
  }

  /** A visit to a waiter can be brought to its end exactly when what is queued for it and what it is
      about to get exceed the capacity by no more than there are clients to read; otherwise the broker
      stays at a send for ever, whatever clients that follow the protocol and runners do. */
  lemma VisitEndsIff(cfg: Settings, cap: nat, c: Config, i: nat)
    requires NoNewReader(c, i) && |c.s.sources[i].output| <= cap && cap > 0
    ensures CanEnd(cfg, cap, c, i, 0) <==> |c.s.sources[i].output| + |Hits(c.s, i, |c.s.targets|)| <= cap + c.reading[i]
  {
    HitsLeftAll(c.s, i, 0);
    if CanEnd(cfg, cap, c, i, 0) {
      var moves, d :| PoliteMoves(moves) && Weaves(cfg, cap, c, Tests(i, 0, |c.s.targets|), moves, d);
      EndsOnlyIf(cfg, cap, c, i, 0, moves, d);
    }
    if |c.s.sources[i].output| + |Hits(c.s, i, |c.s.targets|)| <= cap + c.reading[i] {
      EndsIf(cfg, cap, c, i, 0);
    }
  }

  /** Nobody holds the slot of a waiter, and it is not in the pool. */
  lemma WaiterHasNoNewReader(c: Config, i: nat)
    requires Placed(c) && i < |c.s.sources| && c.s.sources[i].state == Wait
    ensures NoNewReader(c, i)
  {
    assert PlacedAt(c, i);
  }

  /** The broker visits waiter i next, and the channel of its slot is not over capacity. */
  predicate Visits(c: Config, i: nat, cap: nat) {
    c.pc == AtMatch(i) && i < |c.s.sources| && c.s.sources[i].state == Wait && |c.s.sources[i].output| <= cap
  }

  /** So it is for every visit of a run of clients that follow the protocol, up to the first Release
      that puts a slot in two places. */
  lemma EveryVisitEndsIff(cfg: Settings, run: seq<Config>, acts: seq<Action>, k: nat, i: nat, cap: nat)
    requires IsRun(cfg, run, acts) && k < |run| && Visits(run[k], i, cap) && cap > 0
    requires forall h :: 0 <= h < k ==> Polite(acts[h]) && !StaleRelease(run[h], acts[h])
    ensures Sized(run[k])
    ensures CanEnd(cfg, cap, run[k], i, 0)
       <==> |run[k].s.sources[i].output| + |Hits(run[k].s, i, |run[k].s.targets|)| <= cap + run[k].reading[i]
  {
    PlacedAtStep(cfg, run, acts, k);
    WaiterHasNoNewReader(run[k], i);
    VisitEndsIff(cfg, cap, run[k], i);
  }

  /** As long as no waiter has met two targets, every visit to a waiter that meets one can be brought to
      its end: a full queue alone never stops the broker. */
  lemma OneHitVisitEnds(cfg: Settings, run: seq<Config>, acts: seq<Action>, k: nat, i: nat, cap: nat)
    requires IsRun(cfg, run, acts) && k < |run| && Visits(run[k], i, cap) && cap > 0
    requires forall h :: 0 <= h < k ==> Polite(acts[h]) && OneHit(run[h], acts[h])
    requires |Hits(run[k].s, i, |run[k].s.targets|)| <= 1
    ensures CanEnd(cfg, cap, run[k], i, 0)
  {
    ConservedAtStep(cfg, run, acts, k);
    assert ConservedAt(run[k], i);
    ConservedIsPlaced(run[k]);
    WaiterHasNoNewReader(run[k], i);
    VisitEndsIff(cfg, cap, run[k], i);
  }
}
