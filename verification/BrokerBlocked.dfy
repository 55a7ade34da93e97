/** A run that ends the broker: as many clients and runners as fill a channel and two more.  Their
    containers come up together, the first client is granted all of them, reads one reply, and the
    broker waits for room in the channel of its slot for ever. */
module BrokerBlocked {
  import opened Wrappers
  import opened BrokerModel
  import opened BrokerProtocol
  import opened BrokerCounterexamples
  import opened BrokerDoubleGrant
  import opened BrokerDisplaced
  import opened BrokerReplies
  import opened BrokerRoom
  import opened BrokerVisit
  import P = BrokerPass

  /** No runner is at work, no client holds a slot or works on a container, and the first k wait. */
  predicate Calm(c: Config, n: nat, k: nat) {
    && |c.s.sources| == |c.s.targets| == n && Sized(c) && c.pc == AtSources(0)
    && (forall i :: 0 <= i < n ==> c.held[i] == 0 && c.reading[i] == (if i < k then 1 else 0))
    && (forall j :: 0 <= j < n ==> c.announced[j] && !c.busy[j])
  }

  // ------------------------------------------------------------------ all clients ask

  predicate Asked(c: Config, n: nat, k: nat) {
    && Calm(c, n, k) && c.now == 0 && k <= n
    && |c.s.freeSources| == n - k && (forall a :: 0 <= a < n - k ==> c.s.freeSources[a] == k + a)
    && (forall i :: 0 <= i < n ==> c.s.sources[i] == if i < k then ASKING else NewSlot([]))
  }

  ghost predicate AllFresh(s: State) {
    forall j :: 0 <= j < |s.targets| ==> FreshRunner(s.targets[j])
  }

  lemma FreshFits(c: Config, cap: nat)
    requires cap > 0 && AllFresh(c.s) && |c.s.freeSources| <= |c.s.sources|
    requires forall i :: 0 <= i < |c.s.sources| ==> |c.s.sources[i].input| <= 1 && c.s.sources[i].output == []
    ensures Room(c, cap)
  {
    forall j | 0 <= j < |c.s.targets|
      ensures |c.s.targets[j].input| <= cap && |c.s.targets[j].output| <= cap
    {
      assert FreshRunner(c.s.targets[j]);
    }
  }

  lemma OneGets(cap: nat, c: Config, n: nat, k: nat) returns (e: Config)
    requires cap > 0 && Asked(c, n, k) && AllFresh(c.s) && k < n
    ensures LeadsWithin(PATIENT, cap, c, e) && e == Next(PATIENT, c, GetSlot) && e.held[k] == 1 && AllFresh(e.s) && Room(e, cap)
  {
    assert c.s.freeSources[0] == k;
    e := Next(PATIENT, c, GetSlot);
    FreshFits(c, cap);
    FreshFits(e, cap);
    WithinByStep(PATIENT, cap, c, GetSlot);
  }

  lemma OneAsks(cap: nat, c: Config, n: nat, k: nat) returns (d: Config)
    requires cap > 0 && Asked(c, n, k) && AllFresh(c.s) && k < n
    ensures LeadsWithin(PATIENT, cap, c, d) && Asked(d, n, k + 1) && AllFresh(d.s)
  {
    var e := OneGets(cap, c, n, k);
    var a := SendAcquire(k, "x:a", NoInfo);
    assert [] + [ASK] == [ASK];
    d := Next(PATIENT, e, a);
    FreshFits(d, cap);
    WithinByStep(PATIENT, cap, e, a);
    WithinOn(PATIENT, cap, c, e, d);
  }

  lemma {:induction false} AllAsk(cap: nat, c: Config, n: nat, k: nat) returns (d: Config)
    requires cap > 0 && Asked(c, n, 0) && AllFresh(c.s) && k <= n
    ensures LeadsWithin(PATIENT, cap, c, d) && Asked(d, n, k) && AllFresh(d.s)
  {
    if k == 0 {
      d := c;
      WithinStay(PATIENT, cap, c);
    } else {
      var e := AllAsk(cap, c, n, k - 1);
      d := OneAsks(cap, e, n, k - 1);
      WithinOn(PATIENT, cap, c, e, d);
    }
  }

  // ------------------------------------------------------------------ the first pass: one container is started

  predicate IdleTarget(slot: Slot) {
    slot == Target(slot.refInfo, Free, 0, "", None, [], [])
  }

  /** Target j has been told to start, the first one for the first client, the others as copies. */
  predicate ToldTarget(slot: Slot, j: nat) {
    slot == Target(slot.refInfo, Starting, if j == 0 then 0 else 1, "x:a", if j == 0 then Some(0) else None, [], [GO])
  }

  function Promise(j: nat): Slot {
    Source(Wait, 0, "x:a", Some(j), [], [])
  }

  /** The first k clients have been promised a target each. */
  predicate Promised(s: State, n: nat, k: nat) {
    && |s.sources| == |s.targets| == n && s.freeSources == []
    && (forall i :: 0 <= i < n ==> s.sources[i] == if i < k then Promise(i) else WAITING)
    && (forall j :: 0 <= j < n ==> if j < k then ToldTarget(s.targets[j], j) else IdleTarget(s.targets[j]))
  }

  lemma {:induction false} AsksAreRead(s: State, k: nat)
    requires k <= |s.sources| && forall i :: 0 <= i < |s.sources| ==> s.sources[i] == ASKING
    ensures var r := P.ReadSources(s, 0, k);
            && r.targets == s.targets && r.freeSources == s.freeSources
            && forall i :: 0 <= i < |s.sources| ==> r.sources[i] == if i < k then WAITING else ASKING
  {
    if k == 0 {
    } else {
      AsksAreRead(s, k - 1);
      assert [ASK][1..] == [];
    }
  }

  lemma {:induction false} RunnersAreHeard(s: State, k: nat)
    requires k <= |s.targets| && AllFresh(s)
    ensures var r := P.ReadTargets(s, 0, k);
            && r.sources == s.sources && r.freeSources == s.freeSources
            && forall j :: 0 <= j < |s.targets| ==> if j < k then IdleTarget(r.targets[j]) else r.targets[j] == s.targets[j]
  {
    if k == 0 {
    } else {
      RunnersAreHeard(s, k - 1);
      var address :| s.targets[k - 1] == NewSlot([FreeMsg(address)]);
      assert [FreeMsg(address)][1..] == [];
    }
  }

  lemma FirstIsMatched(c: Config, n: nat)
    requires Asked(c, n, n) && AllFresh(c.s)
    ensures Promised(P.Matched(c.s, 0), n, 0)
  {
    AsksAreRead(c.s, n);
    var r := P.ReadSources(c.s, 0, n);
    RunnersAreHeard(r, n);
    QuietMatch(P.ReadTargets(r, 0, n), 0, n);
  }

  lemma FirstIsStarted(m: State, n: nat)
    requires Promised(m, n, 0) && n > 0
    ensures OldestFree(m, |m.targets|).Some? && WaitOnly(m, "x:a") && Promised(StartNew(m, "x:a", 0), n, 1)
  {
    assert LongestFree(m, 0);
    OldestFreeIff(m, 0);
    WaitCounted(m, "x:a", n);
    assert Unserved(m.sources[0]);
    assert WaitOnly(m, "x:a") && StartSource(m, "x:a") == 0 by { assert WaitsFor(m.sources[0], "x:a"); }
    assert [] + [GO] == [GO];
  }

  lemma Promises(s: State, n: nat, k: nat)
    requires Promised(s, n, k)
    ensures XOnly(s) && OnlyAsked(s, "x:a") && NothingMatches(s)
    ensures 0 < k <= n ==> Carried(s, "x:a")
  {
    if 0 < k <= n { assert s.targets[0].slotType == "x:a"; }
  }

  lemma FirstPassStarts(c: Config, n: nat) returns (r: State)
    requires Asked(c, n, n) && AllFresh(c.s) && n > 0
    ensures Promised(r, n, 1) && P.Pass(c.s, 0, PATIENT, ["x:a"], r)
  {
    var m := P.Matched(c.s, 0);
    FirstIsMatched(c, n);
    FirstIsStarted(m, n);
    r := StartNew(m, "x:a", 0);
    Promises(m, n, 0);
    Promises(r, n, 1);
    CarriedIsNotWaitedOnly(r, "x:a");
    OldestWaiterIsOldest(r, 0, n);
    StartOnlyPass(c.s, 0, PATIENT, "x:a", m, r);
  }

  // ------------------------------------------------------------------ the second pass: copies are started

  lemma CopyIsPossible(s: State, n: nat, k: nat)
    requires Promised(s, n, k) && 0 < k < n
    ensures OldestWaiter(s, 1, |s.sources|) == Some(k) && OldestRunner(s, 1, |s.targets|) == Some(k)
    ensures CanStartCopy(s, 1, PATIENT)
  {
    OldestWaiterIsOldest(s, 1, n);
    assert CopyWaiter(s.sources[k], 1);
    assert LongestToWait(s, k);
    OldestWaiterIff(s, 1, k);
    assert LongestFree(s, k);
    OldestRunnerIff(s, 1, k);
  }

  lemma OneCopy(s: State, n: nat, k: nat)
    requires Promised(s, n, k) && 0 < k < n
    ensures CanStartCopy(s, 1, PATIENT) && Promised(StartCopy(s, 1, PATIENT), n, k + 1)
  {
    CopyIsPossible(s, n, k);
    assert [] + [GO] == [GO];
  }

  lemma {:induction false} Copies(s: State, n: nat, k: nat)
    requires Promised(s, n, k) && 0 < k <= n
    ensures Promised(P.StartCopies(s, 1, PATIENT), n, n)
    decreases n - k
  {
    P.CopyOnTheWay(s, 1, PATIENT);
    if k == n {
      NobodyWaits(s, 1, PATIENT);
    } else {
      OneCopy(s, n, k);
      Copies(StartCopy(s, 1, PATIENT), n, k + 1);
    }
  }

  lemma SecondPassStarts(s: State, n: nat) returns (r: State)
    requires Promised(s, n, 1) && n > 0
    ensures Promised(r, n, n) && P.Pass(s, 1, PATIENT, [], r)
  {
    Promises(s, n, 1);
    QuietSources(s, 1, n);
    QuietTargets(s, 1, n);
    QuietMatch(s, 1, n);
    CarriedIsNotWaitedOnly(s, "x:a");
    assert P.StartRounds(s, [], 1, s);
    Copies(s, n, 1);
    r := P.StartCopies(s, 1, PATIENT);
    Promises(r, n, n);
    QuietFreeUnused(r, 1, n);
    QuietSweep(r, 1, PATIENT, n);
  }

  // ------------------------------------------------------------------ all containers come up

  /** The first k runners have answered. */
  predicate Answering(c: Config, n: nat, k: nat) {
    && Calm(c, n, n) && c.now == 2 && k <= n && c.s.freeSources == []
    && (forall i :: 0 <= i < n ==> c.s.sources[i] == Promise(i))
    && (forall j :: 0 <= j < n ==>
          var t := c.s.targets[j];
          if j < k then t.input == [StartedMsg] && t.output == [] && t.slotType == "x:a" else ToldTarget(t, j))
  }

  lemma OneAnswers(cap: nat, c: Config, n: nat, k: nat) returns (d: Config)
    requires cap > 0 && Answering(c, n, k) && k < n
    ensures LeadsWithin(PATIENT, cap, c, d) && Answering(d, n, k + 1)
  {
    var up := c.s.targets[k].(input := [StartedMsg], output := []);
    d := c.(s := c.s.(targets := c.s.targets[k := up]));
    RunnerStartsWithin(PATIENT, cap, c, k, d);
  }

  lemma {:induction false} AllAnswer(cap: nat, c: Config, n: nat, k: nat) returns (d: Config)
    requires cap > 0 && Answering(c, n, 0) && k <= n
    ensures LeadsWithin(PATIENT, cap, c, d) && Answering(d, n, k)
  {
    if k == 0 {
      d := c;
      WithinStay(PATIENT, cap, c);
    } else {
      var e := AllAnswer(cap, c, n, k - 1);
      d := OneAnswers(cap, e, n, k - 1);
      WithinOn(PATIENT, cap, c, e, d);
    }
  }

  predicate UpTarget(slot: Slot) {
    slot.state == Free && slot.slotType == "x:a" && slot.output == []
  }

  lemma {:induction false} AnswersAreRead(s: State, k: nat)
    requires k <= |s.targets|
    requires forall j :: 0 <= j < |s.targets| ==>
               s.targets[j].input == [StartedMsg] && s.targets[j].output == [] && s.targets[j].slotType == "x:a"
    ensures var r := P.ReadTargets(s, 2, k);
            && r.sources == s.sources && r.freeSources == s.freeSources
            && forall j :: 0 <= j < |s.targets| ==> if j < k then UpTarget(r.targets[j]) else r.targets[j] == s.targets[j]
  {
    if k == 0 {
    } else {
      AnswersAreRead(s, k - 1);
    }
  }

  lemma {:induction false} AllHit(s: State, i: nat, k: nat)
    requires i < |s.sources| && k <= |s.targets|
    requires forall j :: 0 <= j < k ==> Matches(s.targets[j], s.sources[i])
    ensures |Hits(s, i, k)| == k
  {
    if k == 0 {
    } else {
      AllHit(s, i, k - 1);
    }
  }

  /** The broker is about to visit the first client, and all targets are up for it. */
  lemma AllComeUp(cap: nat, c: Config, n: nat) returns (d: Config)
    requires cap > 0 && Answering(c, n, n) && n > 0
    ensures LeadsWithin(PATIENT, cap, c, d)
    ensures d.pc == AtMatch(0) && NoNewReader(d, 0) && d.reading[0] == 1
    ensures d.s.sources[0] == Promise(0) && |Hits(d.s, 0, |d.s.targets|)| == n
  {
    QuietSources(c.s, 2, n);
    AnswersAreRead(c.s, n);
    var r := P.ReadTargets(c.s, 2, n);
    d := c.(s := r, pc := AtMatch(0));
    WithinByReading(PATIENT, cap, c, r);
    AllHit(r, 0, n);
  }

  // ------------------------------------------------------------------ the run

  lemma FirstPassLeads(cap: nat, c: Config, n: nat) returns (d: Config)
    requires cap > 0 && Asked(c, n, n) && AllFresh(c.s) && n > 0
    ensures LeadsWithin(PATIENT, cap, c, d) && Calm(d, n, n) && d.now == 1 && Promised(d.s, n, 1)
  {
    var r := FirstPassStarts(c, n);
    FreshFits(c, cap);
    d := c.(s := r, now := 1);
    WithinByPass(PATIENT, cap, c, ["x:a"], r, 1);
  }

  lemma SecondPassLeads(cap: nat, c: Config, n: nat) returns (d: Config)
    requires cap > 0 && Calm(c, n, n) && c.now == 1 && Promised(c.s, n, 1) && n > 0
    ensures LeadsWithin(PATIENT, cap, c, d) && Answering(d, n, 0)
  {
    var r := SecondPassStarts(c.s, n);
    d := c.(s := r, now := 2);
    PromisedFits(c, cap, n, 1);
    PromisedFits(d, cap, n, n);
    WithinByPass(PATIENT, cap, c, [], r, 2);
  }

  lemma PromisedFits(c: Config, cap: nat, n: nat, k: nat)
    requires cap > 0 && Promised(c.s, n, k)
    ensures Room(c, cap)
  {
  }

  lemma InitIsAsked(c: Config, cap: nat)
    requires Init(c) && c.now == 0 && cap > 0 && |c.s.sources| == |c.s.targets|
    requires forall j :: 0 <= j < |c.announced| ==> c.announced[j]
    ensures Asked(c, |c.s.sources|, 0) && AllFresh(c.s) && Room(c, cap)
  {
    FreshFits(c, cap);
  }

  lemma LeadsToVisit(cap: nat, c: Config, n: nat) returns (d: Config)
    requires cap > 0 && Asked(c, n, 0) && AllFresh(c.s) && n > 0
    ensures LeadsWithin(PATIENT, cap, c, d)
    ensures d.pc == AtMatch(0) && NoNewReader(d, 0) && d.reading[0] == 1
    ensures d.s.sources[0] == Promise(0) && |Hits(d.s, 0, |d.s.targets|)| == n
  {
    var c1 := AllAsk(cap, c, n, n);
    var c2 := FirstPassLeads(cap, c1, n);
    WithinOn(PATIENT, cap, c, c1, c2);
    var c3 := SecondPassLeads(cap, c2, n);
    WithinOn(PATIENT, cap, c, c2, c3);
    var c4 := AllAnswer(cap, c3, n, n);
    WithinOn(PATIENT, cap, c, c3, c4);
    d := AllComeUp(cap, c4, n);
    WithinOn(PATIENT, cap, c, c4, d);
  }

  /** With two more slots and runners than a channel has room for, the broker can come, in a run of
      clients and runners that follow the protocol and with room for every message up to there, to a
      visit that nothing they can do brings to its end. */
  lemma VisitBlocksForEver(c: Config, cap: nat) returns (run: seq<Config>, acts: seq<Action>)
    requires Init(c) && c.now == 0 && cap > 0 && |c.s.sources| == |c.s.targets| == cap + 2
    requires forall j :: 0 <= j < |c.announced| ==> c.announced[j]
    ensures IsRun(PATIENT, run, acts) && AllPolite(acts) && AllRoom(run, cap) && run[0] == c
    ensures var d := run[|acts|];
            d.pc == AtMatch(0) && d.s.sources != [] && d.s.sources[0].state == Wait && !CanEnd(PATIENT, cap, d, 0, 0)
  {
    InitIsAsked(c, cap);
    var d := LeadsToVisit(cap, c, cap + 2);
    VisitEndsIff(PATIENT, cap, d, 0);
    run, acts := WithinIsRun(PATIENT, cap, c, d);
  }
}
