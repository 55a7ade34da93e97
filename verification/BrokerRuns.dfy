/** The broker's guarantees over whole runs: any interleaving of the broker's steps with clients
    and runners, of any length. */
module BrokerRuns {
  import opened Wrappers
  import opened BrokerModel
  import opened BrokerProtocol
  import opened BrokerInvariants
  import opened BrokerLinks
  import opened BrokerStranded
  import opened BrokerConservation

  // ------------------------------------------------------------------ unconditional

  predicate Always(c: Config) {
    Shape(c.s) && SharedY(c.s) && WorkConserving(c) && (StartsDone(c.pc) ==> Covered(c.s))
  }

  lemma InitAlways(c: Config)
    requires Init(c)
    ensures Always(c) && Core(c) && Links(c.s, true) && NoStranded(c.s)
  {
    forall j | 0 <= j < |c.s.targets|
      ensures InFlight(c.s.targets[j], c.busy[j]) && Greeted(c.s.targets[j], c.busy[j], c.announced[j])
      ensures c.s.targets[j].slotType == ""
    {
      if c.announced[j] {
        var address :| c.s.targets[j] == NewSlot([FreeMsg(address)]);
        assert [FreeMsg(address)][1..] == [];
      }
    }
  }

  lemma {:induction false} AlwaysAt(cfg: Settings, run: seq<Config>, acts: seq<Action>, k: nat)
    requires IsRun(cfg, run, acts) && k < |run|
    ensures Always(run[k])
  {
    if k == 0 {
      InitAlways(run[0]);
    } else {
      AlwaysAt(cfg, run, acts, k - 1);
      assert Follows(cfg, run, acts, k - 1);
      var c, a := run[k - 1], acts[k - 1];
      ShapeStep(cfg, c, a);
      SharedYStep(cfg, c, a);
      WorkConservingStep(cfg, c, a);
      CoveredStep(cfg, c, a);
    }
  }

  /** At the end of every pass no source waits for a type that a Free target carries, and no y-type
      source waits while a Free or Run target carries its type. */
  lemma PassEndsWorkConserving(cfg: Settings, run: seq<Config>, acts: seq<Action>, k: nat, i: nat, j: nat)
    requires IsRun(cfg, run, acts) && k < |run| && i < |run[k].s.sources| && j < |run[k].s.targets|
    requires run[k].pc == AtSweep(|run[k].s.targets|)
    requires run[k].s.sources[i].state == Wait && run[k].s.targets[j].slotType == run[k].s.sources[i].slotType
    ensures run[k].s.targets[j].state != Free
    ensures YType(run[k].s.sources[i].slotType) ==> run[k].s.targets[j].state != Run
  {
    AlwaysAt(cfg, run, acts, k);
    assert Settled(run[k].s, i);
  }

  /** When the start loops are done, either no target is Free or every unlinked waiting type is carried. */
  lemma PassCoversWaiters(cfg: Settings, run: seq<Config>, acts: seq<Action>, k: nat, i: nat, j: nat)
    requires IsRun(cfg, run, acts) && k < |run| && i < |run[k].s.sources| && j < |run[k].s.targets|
    requires run[k].pc == AtStartCopies || run[k].pc == AtFreeY(0)
    requires run[k].s.sources[i].state == Wait && run[k].s.sources[i].opposite == None
    requires run[k].s.targets[j].state == Free
    ensures exists h :: 0 <= h < |run[k].s.targets| && run[k].s.targets[h].slotType == run[k].s.sources[i].slotType
  {
    AlwaysAt(cfg, run, acts, k);
    assert Unserved(run[k].s.sources[i]);
    assert Carried(run[k].s, run[k].s.sources[i].slotType);
  }

  /** In every reachable configuration a y-type is carried by at most one target, so a y-type
      waiter is never linked twice. */
  lemma OneContainerPerY(cfg: Settings, run: seq<Config>, acts: seq<Action>, k: nat, i: nat, j: nat, h: nat)
    requires IsRun(cfg, run, acts) && k < |run| && i < j < |run[k].s.targets|
    requires YType(run[k].s.targets[i].slotType) && h < |run[k].s.sources|
    ensures run[k].s.targets[i].slotType != run[k].s.targets[j].slotType
    ensures YType(run[k].s.sources[h].slotType) ==> |Hits(run[k].s, h, |run[k].s.targets|)| <= 1
  {
    AlwaysAt(cfg, run, acts, k);
    SharedYOneHit(run[k].s, h);
  }

  // ------------------------------------------------------------------ exclusive links

  predicate AllSpare(cfg: Settings, run: seq<Config>, acts: seq<Action>, y: bool)
    requires |run| == |acts| + 1
  {
    forall k :: 0 <= k < |acts| ==> Spares(cfg, run[k], acts[k], y)
  }

  /** No runner's first message is read after it was told to start. */
  predicate AllTimely(run: seq<Config>, acts: seq<Action>)
    requires |run| == |acts| + 1
  {
    forall k :: 0 <= k < |acts| ==> !LateFree(run[k], acts[k])
  }

  lemma {:induction false} CoreAt(cfg: Settings, run: seq<Config>, acts: seq<Action>, k: nat)
    requires IsRun(cfg, run, acts) && k < |run|
    requires forall h :: 0 <= h < k ==> Spares(cfg, run[h], acts[h], false) && !LateFree(run[h], acts[h])
    ensures Core(run[k])
  {
    if k == 0 {
      InitAlways(run[0]);
    } else {
      CoreAt(cfg, run, acts, k - 1);
      assert Follows(cfg, run, acts, k - 1);
      CoreStep(cfg, run[k - 1], acts[k - 1]);
    }
  }

  lemma SweepBreaksLinks(cfg: Settings, c: Config, a: Action, y: bool)
    requires Enabled(c, a) && Links(c.s, y) && !Spares(cfg, c, a, y)
    ensures !Links(Next(cfg, c, a).s, y)
  {
    SweepKeepsLinksIff(c.s, c.pc.k, c.now, cfg, y);
  }

  /** When every runner is heard in time, Run x-type sources hold distinct running targets of their
      own types throughout a run exactly when no sweep of the run clears a target such a source is
      still linked to. */
  lemma ExclusiveIff(cfg: Settings, run: seq<Config>, acts: seq<Action>)
    requires IsRun(cfg, run, acts) && AllTimely(run, acts)
    ensures (forall k :: 0 <= k < |run| ==> Exclusive(run[k].s)) <==> AllSpare(cfg, run, acts, false)
  {
    if AllSpare(cfg, run, acts, false) {
      forall k | 0 <= k < |run|
        ensures Exclusive(run[k].s)
      {
        CoreAt(cfg, run, acts, k);
      }
    } else {
      var k :| 0 <= k < |acts| && !Spares(cfg, run[k], acts[k], false);
      assert Follows(cfg, run, acts, k);
      if Exclusive(run[k].s) {
        SweepBreaksLinks(cfg, run[k], acts[k], false);
        assert !Exclusive(run[k + 1].s);
      }
    }
  }

  lemma LateBreaksStarts(cfg: Settings, run: seq<Config>, acts: seq<Action>, k: nat)
    requires IsRun(cfg, run, acts) && AllSpare(cfg, run, acts, false) && k < |acts| && LateFree(run[k], acts[k])
    ensures exists h :: 0 <= h < |run| && !OneStart(run[h])
  {
    if h :| 0 <= h < k && LateFree(run[h], acts[h]) {
      LateBreaksStarts(cfg, run, acts, h);
    } else {
      CoreAt(cfg, run, acts, k);
      assert Follows(cfg, run, acts, k);
      OneStartStepIff(cfg, run[k], acts[k]);
      assert !OneStart(run[k + 1]);
    }
  }

  /** When the sweep spares linked targets, every runner has at most one start in flight throughout a
      run exactly when no runner's first message is read after it was told to start. */
  lemma OneStartIff(cfg: Settings, run: seq<Config>, acts: seq<Action>)
    requires IsRun(cfg, run, acts) && AllSpare(cfg, run, acts, false)
    ensures (forall k :: 0 <= k < |run| ==> OneStart(run[k])) <==> AllTimely(run, acts)
  {
    if AllTimely(run, acts) {
      forall k | 0 <= k < |run|
        ensures OneStart(run[k])
      {
        CoreAt(cfg, run, acts, k);
      }
    } else {
      var k :| 0 <= k < |acts| && LateFree(run[k], acts[k]);
      LateBreaksStarts(cfg, run, acts, k);
    }
  }

  lemma {:induction false} FirstBreak(cfg: Settings, run: seq<Config>, acts: seq<Action>, k: nat)
    requires IsRun(cfg, run, acts) && k < |acts|
    requires !Spares(cfg, run[k], acts[k], false) || LateFree(run[k], acts[k])
    ensures exists h :: 0 <= h < |run| && !(Exclusive(run[h].s) && OneStart(run[h]))
    decreases k
  {
    if h :| 0 <= h < k && (!Spares(cfg, run[h], acts[h], false) || LateFree(run[h], acts[h])) {
      FirstBreak(cfg, run, acts, h);
    } else {
      CoreAt(cfg, run, acts, k);
      assert Follows(cfg, run, acts, k);
      OneStartStepIff(cfg, run[k], acts[k]);
      if !Spares(cfg, run[k], acts[k], false) { SweepBreaksLinks(cfg, run[k], acts[k], false); }
      assert !(Exclusive(run[k + 1].s) && OneStart(run[k + 1]));
    }
  }

  /** Links are exclusive and at most one start per runner is in flight throughout a run exactly when
      no sweep of the run clears a linked target and no runner is heard too late. */
  lemma ExclusiveAndOneStartIff(cfg: Settings, run: seq<Config>, acts: seq<Action>)
    requires IsRun(cfg, run, acts)
    ensures (forall k :: 0 <= k < |run| ==> Exclusive(run[k].s) && OneStart(run[k]))
       <==> AllSpare(cfg, run, acts, false) && AllTimely(run, acts)
  {
    if AllSpare(cfg, run, acts, false) && AllTimely(run, acts) {
      forall k | 0 <= k < |run|
        ensures Exclusive(run[k].s) && OneStart(run[k])
      {
        CoreAt(cfg, run, acts, k);
      }
    } else {
      var k :| 0 <= k < |acts| && (!Spares(cfg, run[k], acts[k], false) || LateFree(run[k], acts[k]));
      FirstBreak(cfg, run, acts, k);
    }
  }

  /** In such a run queued Start messages, the busy runner and queued replies add up to one when the
      target is Starting and to nothing otherwise. */
  lemma OneStartInFlight(cfg: Settings, run: seq<Config>, acts: seq<Action>, k: nat, j: nat)
    requires IsRun(cfg, run, acts) && AllSpare(cfg, run, acts, false) && AllTimely(run, acts)
    requires k < |run| && j < |run[k].s.targets|
    ensures Sized(run[k])
    ensures var t := run[k].s.targets[j];
            |t.output| + |Answers(t)| + (if run[k].busy[j] then 1 else 0) == if t.state == Starting then 1 else 0
  {
    CoreAt(cfg, run, acts, k);
    assert InFlight(run[k].s.targets[j], run[k].busy[j]);
  }

  /** So a send to a runner finds its queue empty, and a runner's send finds at most its own first
      message there: the capacity of 3 is never reached. */
  lemma TargetQueuesStayShort(cfg: Settings, run: seq<Config>, acts: seq<Action>, k: nat, j: nat)
    requires IsRun(cfg, run, acts) && AllSpare(cfg, run, acts, false) && AllTimely(run, acts)
    requires k < |run| && j < |run[k].s.targets|
    ensures |run[k].s.targets[j].output| <= 1 && |run[k].s.targets[j].input| <= 2
    ensures run[k].s.targets[j].state == Free ==> run[k].s.targets[j].output == []
  {
    CoreAt(cfg, run, acts, k);
    assert InFlight(run[k].s.targets[j], run[k].busy[j]);
  }

  // ------------------------------------------------------------------ shared links

  lemma {:induction false} YLinksAt(cfg: Settings, run: seq<Config>, acts: seq<Action>, k: nat)
    requires IsRun(cfg, run, acts) && k < |run| && AllSpare(cfg, run, acts, false) && AllTimely(run, acts)
    requires forall h :: 0 <= h < k ==> Spares(cfg, run[h], acts[h], true)
    ensures Links(run[k].s, true)
  {
    if k == 0 {
      InitAlways(run[0]);
    } else {
      YLinksAt(cfg, run, acts, k - 1);
      CoreAt(cfg, run, acts, k - 1);
      assert Follows(cfg, run, acts, k - 1);
      LinksStep(cfg, run[k - 1], acts[k - 1], true);
    }
  }

  lemma YLinksIff(cfg: Settings, run: seq<Config>, acts: seq<Action>)
    requires IsRun(cfg, run, acts) && AllSpare(cfg, run, acts, false) && AllTimely(run, acts)
    ensures (forall k :: 0 <= k < |run| ==> Links(run[k].s, true)) <==> AllSpare(cfg, run, acts, true)
  {
    if AllSpare(cfg, run, acts, true) {
      forall k | 0 <= k < |run|
        ensures Links(run[k].s, true)
      {
        YLinksAt(cfg, run, acts, k);
      }
    } else {
      var k :| 0 <= k < |acts| && !Spares(cfg, run[k], acts[k], true);
      assert Follows(cfg, run, acts, k);
      if Links(run[k].s, true) {
        SweepBreaksLinks(cfg, run[k], acts[k], true);
        assert !Links(run[k + 1].s, true);
      }
    }
  }

  /** All Run sources of one y-type share one Run target. */
  lemma YSourcesShare(cfg: Settings, run: seq<Config>, acts: seq<Action>, k: nat, i: nat, h: nat)
    requires IsRun(cfg, run, acts) && AllSpare(cfg, run, acts, false) && AllSpare(cfg, run, acts, true) && AllTimely(run, acts)
    requires k < |run| && i < |run[k].s.sources| && h < |run[k].s.sources|
    requires run[k].s.sources[i].state == Run && run[k].s.sources[h].state == Run
    requires run[k].s.sources[i].slotType == run[k].s.sources[h].slotType && YType(run[k].s.sources[i].slotType)
    ensures run[k].s.sources[i].opposite == run[k].s.sources[h].opposite
    ensures run[k].s.sources[i].opposite.Some? && run[k].s.sources[i].opposite.value < |run[k].s.targets|
    ensures run[k].s.targets[run[k].s.sources[i].opposite.value].state == Run
  {
    AlwaysAt(cfg, run, acts, k);
    YLinksAt(cfg, run, acts, k);
    assert Linked(run[k].s, i) && Linked(run[k].s, h);
  }

  // ------------------------------------------------------------------ no stranded waiter

  lemma {:induction false} NoStrandedAt(cfg: Settings, run: seq<Config>, acts: seq<Action>, k: nat)
    requires IsRun(cfg, run, acts) && k < |run|
    requires forall h :: 0 <= h < k ==> !Strands(cfg, run[h], acts[h])
    ensures NoStranded(run[k].s)
  {
    if k == 0 {
      InitAlways(run[0]);
    } else {
      NoStrandedAt(cfg, run, acts, k - 1);
      AlwaysAt(cfg, run, acts, k - 1);
      assert Follows(cfg, run, acts, k - 1);
      NoStrandedStepIff(cfg, run[k - 1], acts[k - 1]);
    }
  }

  /** Every promised waiter keeps a target of its type throughout a run exactly when the run has no
      sweep, no Release with kill and no first message of a runner for a target that some waiter was
      promised. */
  lemma NoStrandedIff(cfg: Settings, run: seq<Config>, acts: seq<Action>)
    requires IsRun(cfg, run, acts)
    ensures (forall k :: 0 <= k < |run| ==> NoStranded(run[k].s))
       <==> (forall k :: 0 <= k < |acts| ==> !Strands(cfg, run[k], acts[k]))
  {
    if forall k :: 0 <= k < |acts| ==> !Strands(cfg, run[k], acts[k]) {
      forall k | 0 <= k < |run|
        ensures NoStranded(run[k].s)
      {
        NoStrandedAt(cfg, run, acts, k);
      }
    } else {
      var k :| 0 <= k < |acts| && Strands(cfg, run[k], acts[k]);
      assert Follows(cfg, run, acts, k);
      AlwaysAt(cfg, run, acts, k);
      if NoStranded(run[k].s) {
        NoStrandedStepIff(cfg, run[k], acts[k]);
        assert !NoStranded(run[k + 1].s);
      }
    }
  }

  // ------------------------------------------------------------------ conservation

  lemma {:induction false} ConservedAtStep(cfg: Settings, run: seq<Config>, acts: seq<Action>, k: nat)
    requires IsRun(cfg, run, acts) && k < |run|
    requires forall h :: 0 <= h < k ==> Polite(acts[h]) && OneHit(run[h], acts[h])
    ensures Conserved(run[k])
  {
    if k == 0 {
      ConservedInit(run[0]);
    } else {
      ConservedAtStep(cfg, run, acts, k - 1);
      AlwaysAt(cfg, run, acts, k - 1);
      assert Follows(cfg, run, acts, k - 1);
      ConservedStep(cfg, run[k - 1], acts[k - 1]);
    }
  }

  /** With clients that follow the protocol, grants and readers of every source slot are in balance
      throughout a run exactly when no waiter of the run meets two matching targets at once. */
  lemma ConservationIff(cfg: Settings, run: seq<Config>, acts: seq<Action>)
    requires IsRun(cfg, run, acts) && forall k :: 0 <= k < |acts| ==> Polite(acts[k])
    ensures (forall k :: 0 <= k < |run| ==> Conserved(run[k]))
       <==> (forall k :: 0 <= k < |acts| ==> OneHit(run[k], acts[k]))
  {
    if forall k :: 0 <= k < |acts| ==> OneHit(run[k], acts[k]) {
      forall k | 0 <= k < |run|
        ensures Conserved(run[k])
      {
        ConservedAtStep(cfg, run, acts, k);
      }
    } else {
      var k :| 0 <= k < |acts| && !OneHit(run[k], acts[k]);
      assert Follows(cfg, run, acts, k);
      AlwaysAt(cfg, run, acts, k);
      if Conserved(run[k]) {
        ConservedStep(cfg, run[k], acts[k]);
        assert !Conserved(run[k + 1]);
      }
    }
  }

  // ------------------------------------------------------------------ every pass ends

  lemma {:induction false} FreeCountBound(s: State, k: nat)
    requires k <= |s.targets|
    ensures FreeCount(s, k) <= k
  {
    if k == 0 {
    } else {
      FreeCountBound(s, k - 1);
    }
  }

  /** Broker steps left in this pass, at most. */
  function StepsLeft(c: Config): int {
    var n, m := |c.s.sources|, |c.s.targets|;
    match c.pc
    case AtSources(k) => (n - k) + (m + 1) + (n + 1) + (m + 3) + 2 * (m + 1)
    case AtTargets(k) => (m - k) + (n + 1) + (m + 3) + 2 * (m + 1)
    case AtMatch(k) => (n - k) + (m + 3) + 2 * (m + 1)
    case AtStartNew => FreeCount(c.s, m) + 2 + 2 * (m + 1)
    case AtStartCopies => FreeCount(c.s, m) + 1 + 2 * (m + 1)
    case AtFreeY(k) => (m - k) + (m + 1)
    case AtSweep(k) => m - k
  }

  lemma BrokerUsesStep(cfg: Settings, c: Config, a: Action)
    requires Enabled(c, a) && a.BrokerStep? && c.pc != AtSweep(|c.s.targets|)
    ensures StepsLeft(Next(cfg, c, a)) < StepsLeft(c)
  {
    FreeCountBound(c.s, |c.s.targets|);
    match c.pc
    case AtSources(k) => if k < |c.s.sources| { SourceCounts(c.s, k, c.now); }
    case AtTargets(k) =>
    case AtMatch(k) => if k == |c.s.sources| { FreeCountBound(c.s, |c.s.targets|); }
    case AtStartNew =>
      if CanStartNew(c.s) {
        StartUsesFree(c.s, OldestFree(c.s, |c.s.targets|).value, StartSource(c.s, a.pick), true, c.now, |c.s.targets|);
      }
    case AtStartCopies =>
      if CanStartCopy(c.s, c.now, cfg) {
        StartUsesFree(c.s, OldestRunner(c.s, c.now, |c.s.targets|).value, OldestWaiter(c.s, c.now, |c.s.sources|).value, false, c.now, |c.s.targets|);
      }
    case AtFreeY(k) =>
    case AtSweep(k) =>
  }

  lemma OthersUseNone(cfg: Settings, c: Config, a: Action)
    requires Enabled(c, a) && !a.BrokerStep?
    ensures StepsLeft(Next(cfg, c, a)) == StepsLeft(c)
  {
    OthersKeepFields(cfg, c, a);
    SameFreeCount(c.s, Next(cfg, c, a).s, |c.s.targets|);
  }

  /** Every broker step inside a pass uses up one of the steps left, so both start loops and the
      whole pass end, whatever clients and runners do meanwhile. */
  lemma PassEnds(cfg: Settings, c: Config, a: Action)
    requires Enabled(c, a)
    ensures StepsLeft(c) >= 0
    ensures a.BrokerStep? && c.pc != AtSweep(|c.s.targets|) ==> StepsLeft(Next(cfg, c, a)) < StepsLeft(c)
    ensures !a.BrokerStep? ==> StepsLeft(Next(cfg, c, a)) == StepsLeft(c)
  {
    FreeCountBound(c.s, |c.s.targets|);
    if !a.BrokerStep? {
      OthersUseNone(cfg, c, a);
    } else if c.pc != AtSweep(|c.s.targets|) {
      BrokerUsesStep(cfg, c, a);
    }
  }

  lemma SourceCounts(s: State, i: nat, now: int)
    requires i < |s.sources|
    ensures |ReadSource(s, i, now).sources| == |s.sources| && |ReadSource(s, i, now).targets| == |s.targets|
  {
  }

  lemma {:induction false} SameFreeCount(s: State, r: State, k: nat)
    requires k <= |s.targets| == |r.targets|
    requires forall j :: 0 <= j < |s.targets| ==> SameFields(s.targets[j], r.targets[j])
    ensures FreeCount(r, k) == FreeCount(s, k)
  {
    if k == 0 {
    } else {
      SameFreeCount(s, r, k - 1);
      assert SameFields(s.targets[k - 1], r.targets[k - 1]);
    }
  }

  /** The broker is never stuck: some most requested type exists whenever its loop needs one. */
  lemma BrokerNeverStuck(c: Config, clock: int)
    requires Sized(c)
    ensures exists pick :: Enabled(c, BrokerStep(pick, clock))
  {
    if c.pc == AtStartNew && CanStartNew(c.s) {
      MostRequestedExists(c.s);
      var pick :| MostRequested(c.s, pick);
      assert Enabled(c, BrokerStep(pick, clock));
    } else {
      assert Enabled(c, BrokerStep("", clock));
    }
  }
}
