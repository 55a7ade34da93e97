/** Runs that start where NewBroker leaves the broker and in which a guarantee fails: the conditions
    of BrokerRuns are needed. */
module BrokerCounterexamples {
  import opened Wrappers
  import opened BrokerModel
  import opened BrokerProtocol
  import opened BrokerLinks
  import opened BrokerConservation
  import opened BrokerRefinement
  import P = BrokerPass

  /** A path of steps is a run when it starts at the start. */
  lemma PathFollows(cfg: Settings, run: seq<Config>, acts: seq<Action>)
    requires Path(StepOf(cfg), run, acts)
    ensures forall k :: 0 <= k < |acts| ==> Follows(cfg, run, acts, k)
  {
    forall k | 0 <= k < |acts|
      ensures Follows(cfg, run, acts, k)
    {
      assert PathAt(StepOf(cfg), run, acts, k);
    }
  }

  // ------------------------------------------------------------------ phases that do nothing

  lemma {:induction false} QuietSources(s: State, now: int, k: nat)
    requires k <= |s.sources| && forall i :: 0 <= i < k ==> s.sources[i].input == []
    ensures P.ReadSources(s, now, k) == s
  {
    if k == 0 {
    } else {
      QuietSources(s, now, k - 1);
    }
  }

  lemma {:induction false} QuietTargets(s: State, now: int, k: nat)
    requires k <= |s.targets| && forall j :: 0 <= j < k ==> s.targets[j].input == []
    ensures P.ReadTargets(s, now, k) == s
  {
    if k == 0 {
    } else {
      QuietTargets(s, now, k - 1);
    }
  }

  lemma {:induction false} NoMatch(s: State, i: nat, now: int, k: nat)
    requires i < |s.sources| && k <= |s.targets| && forall j :: 0 <= j < k ==> !Matches(s.targets[j], s.sources[i])
    ensures MatchUpTo(s, i, now, k) == s
  {
    if k == 0 {
    } else {
      NoMatch(s, i, now, k - 1);
    }
  }

  predicate NothingMatches(s: State) {
    forall i, j :: 0 <= i < |s.sources| && 0 <= j < |s.targets| && s.sources[i].state == Wait ==>
      !Matches(s.targets[j], s.sources[i])
  }

  lemma {:induction false} QuietMatch(s: State, now: int, k: nat)
    requires k <= |s.sources| && NothingMatches(s)
    ensures P.MatchSources(s, now, k) == s
  {
    if k == 0 {
    } else {
      QuietMatch(s, now, k - 1);
      if s.sources[k - 1].state == Wait { NoMatch(s, k - 1, now, |s.targets|); }
    }
  }

  predicate XOnly(s: State) {
    forall j :: 0 <= j < |s.targets| ==> !YType(s.targets[j].slotType)
  }

  lemma {:induction false} QuietFreeUnused(s: State, now: int, k: nat)
    requires k <= |s.targets| && XOnly(s)
    ensures P.FreeUnused(s, now, k) == s
  {
    if k == 0 {
    } else {
      QuietFreeUnused(s, now, k - 1);
    }
  }

  lemma {:induction false} QuietSweep(s: State, now: int, cfg: Settings, k: nat)
    requires k <= |s.targets| && forall j :: 0 <= j < k ==> !TimedOut(s.targets[j], now, cfg)
    ensures P.SweepTargets(s, now, cfg, k) == s
  {
    if k == 0 {
    } else {
      QuietSweep(s, now, cfg, k - 1);
    }
  }

  /** A pass in which nothing is started and nothing cleared. */
  lemma IdlePass(s: State, now: int, cfg: Settings, m: State)
    requires P.Matched(s, now) == m && XOnly(m) && !CanStartNew(m) && !CanStartCopy(m, now, cfg)
    requires forall j :: 0 <= j < |m.targets| ==> !TimedOut(m.targets[j], now, cfg)
    ensures P.Pass(s, now, cfg, [], m)
  {
    P.CopyOnTheWay(m, now, cfg);
    QuietFreeUnused(m, now, |m.targets|);
    QuietSweep(m, now, cfg, |m.targets|);
    assert P.StartRounds(m, [], now, m);
  }

  /** A pass after whose matching no target is Free. */
  lemma MatchOnlyPass(s: State, now: int, cfg: Settings, m: State)
    requires P.Matched(s, now) == m && XOnly(m)
    requires forall j :: 0 <= j < |m.targets| ==> m.targets[j].state != Free && !TimedOut(m.targets[j], now, cfg)
    ensures P.Pass(s, now, cfg, [], m)
  {
    assert OldestFree(m, |m.targets|) == None && OldestRunner(m, now, |m.targets|) == None;
    IdlePass(s, now, cfg, m);
  }

  /** Without an unlinked waiter nothing is started. */
  lemma NobodyWaits(s: State, now: int, cfg: Settings)
    requires forall i :: 0 <= i < |s.sources| ==> !Unserved(s.sources[i])
    ensures !CanStartNew(s) && !CanStartCopy(s, now, cfg)
  {
    forall u
      ensures !WaitOnly(s, u)
    {
      WaitCounted(s, u, |s.sources|);
    }
    OldestWaiterIsOldest(s, now, |s.sources|);
  }

  // ------------------------------------------------------------------ slots of the examples

  const ASK := AcquireMsg("x:a", NoInfo)
  const GO := StartMsg(NoInfo)

  function Source(state: SlotState, since: int, slotType: string, opposite: Option<nat>, input: seq<Message>, output: seq<Message>): Slot {
    Slot(input, output, state, since, slotType, NoInfo, "", opposite)
  }

  function Target(address: string, state: SlotState, since: int, slotType: string, opposite: Option<nat>,
                  input: seq<Message>, output: seq<Message>): Slot
  {
    Slot(input, output, state, since, slotType, NoInfo, address, opposite)
  }

  /** No unlinked waiter asks for any other type. */
  predicate OnlyAsked(s: State, t: string) {
    forall i :: 0 <= i < |s.sources| && Unserved(s.sources[i]) ==> s.sources[i].slotType == t
  }

  lemma OnlyAskedType(s: State, t: string)
    requires OnlyAsked(s, t) && WaitOnly(s, t)
    ensures MostRequested(s, t)
  {
    forall u | WaitOnly(s, u)
      ensures u == t
    {
      WaitCounted(s, u, |s.sources|);
    }
  }

  /** A pass that starts one container and does nothing after it. */
  lemma StartOnlyPass(s: State, now: int, cfg: Settings, t: string, m: State, r: State)
    requires P.Matched(s, now) == m && OldestFree(m, |m.targets|).Some? && WaitOnly(m, t)
    requires OnlyAsked(m, t)
    requires StartNew(m, t, now) == r && !CanStartNew(r) && !CanStartCopy(r, now, cfg) && XOnly(r)
    requires forall j :: 0 <= j < |r.targets| ==> !TimedOut(r.targets[j], now, cfg)
    ensures P.Pass(s, now, cfg, [t], r)
  {
    OnlyAskedType(m, t);
    assert CanStartNew(m);
    assert [t][1..] == [];
    assert P.StartRounds(r, [], now, r) && P.StartRounds(m, [t], now, r);
    QuietFreeUnused(r, now, |r.targets|);
    QuietSweep(r, now, cfg, |r.targets|);
  }

  lemma CarriedIsNotWaitedOnly(s: State, t: string)
    requires OnlyAsked(s, t) && Carried(s, t)
    ensures !CanStartNew(s)
  {
    forall u
      ensures !WaitOnly(s, u)
    {
      WaitCounted(s, u, |s.sources|);
    }
  }

  // ------------------------------------------------------------------ the sweep

  const NO_WAIT := Settings(1, 1)

  const ASKED := State([Source(Free, 0, "", None, [ASK], [])], [NewSlot([FreeMsg("w")])], [])
  const BEGUN := State([Source(Wait, 0, "x:a", Some(0), [], [])], [Target("w", Starting, 0, "x:a", Some(0), [], [GO])], [])
  const READY := State([Source(Wait, 0, "x:a", Some(0), [], [])], [Target("w", Starting, 0, "x:a", Some(0), [StartedMsg], [])], [])
  const RUNNING := State([Source(Run, 1, "x:a", Some(0), [], [AcquiredMsg("w")])], [Target("w", Run, 1, "x:a", Some(0), [], [])], [])
  const SWEPT := State([Source(Run, 1, "x:a", Some(0), [], [AcquiredMsg("w")])], [Target("w", Free, 7, "", Some(0), [], [])], [])

  lemma PassStarts()
    ensures P.Pass(ASKED, 0, NO_WAIT, ["x:a"], BEGUN)
  {
    var s := State([Source(Wait, 0, "x:a", None, [], [])], [NewSlot([FreeMsg("w")])], []);
    var m := State([Source(Wait, 0, "x:a", None, [], [])], [Target("w", Free, 0, "", None, [], [])], []);
    assert ReadSource(ASKED, 0, 0).sources == s.sources by { assert ASKED.sources[0].input[1..] == []; }
    assert P.ReadSources(ASKED, 0, 0) == ASKED && P.ReadSources(ASKED, 0, 1) == s;
    assert ReadTarget(s, 0, 0).targets == m.targets by { assert s.targets[0].input[1..] == []; }
    assert P.ReadTargets(s, 0, 0) == s && P.ReadTargets(s, 0, 1) == m;
    QuietMatch(m, 0, 1);
    assert WaitCount(m, "x:a", 0) == 0 && WaitCount(m, "x:a", 1) == 1;
    assert OldestFree(m, 1) == Some(0) && OldestFree(BEGUN, 1) == None;
    assert StartNew(m, "x:a", 0).targets == BEGUN.targets by { assert m.targets[0].output + [GO] == [GO]; }
    assert StartNew(m, "x:a", 0).sources == BEGUN.sources;
    StartOnlyPass(ASKED, 0, NO_WAIT, "x:a", m, BEGUN);
  }

  lemma PassMatches()
    ensures P.Pass(READY, 1, NO_WAIT, [], RUNNING)
  {
    var s := State([Source(Wait, 0, "x:a", Some(0), [], [])], [Target("w", Free, 1, "x:a", Some(0), [], [])], []);
    QuietSources(READY, 1, 1);
    assert ReadTarget(READY, 0, 1).targets == s.targets by { assert READY.targets[0].input[1..] == []; }
    assert P.ReadTargets(READY, 1, 0) == READY && P.ReadTargets(READY, 1, 1) == s;
    assert Link(s, 0, 0, 1).sources == RUNNING.sources by { assert s.sources[0].output + [AcquiredMsg("w")] == [AcquiredMsg("w")]; }
    assert Link(s, 0, 0, 1).targets == RUNNING.targets;
    assert MatchUpTo(s, 0, 1, 0) == s && MatchUpTo(s, 0, 1, 1) == RUNNING;
    assert P.MatchSources(s, 1, 0) == s && P.MatchSources(s, 1, 1) == RUNNING;
    MatchOnlyPass(READY, 1, NO_WAIT, RUNNING);
  }

  lemma PassSweeps()
    ensures P.Pass(RUNNING, 3, NO_WAIT, [], SWEPT)
  {
    QuietSources(RUNNING, 3, 1);
    QuietTargets(RUNNING, 3, 1);
    QuietMatch(RUNNING, 3, 1);
    assert OldestFree(RUNNING, 1) == None && OldestRunner(RUNNING, 3, 1) == None;
    assert P.StartRounds(RUNNING, [], 3, RUNNING);
    assert P.StartCopies(RUNNING, 3, NO_WAIT) == RUNNING;
    QuietFreeUnused(RUNNING, 3, 1);
    assert Sweep(RUNNING, 0, 3, NO_WAIT).targets == SWEPT.targets;
    assert P.SweepTargets(RUNNING, 3, NO_WAIT, 0) == RUNNING && P.SweepTargets(RUNNING, 3, NO_WAIT, 1) == SWEPT;
    assert P.Cleared(RUNNING, 3, NO_WAIT) == SWEPT;
  }

  predicate AllPolite(acts: seq<Action>) {
    forall k :: 0 <= k < |acts| ==> Polite(acts[k])
  }

  ghost predicate Leads(cfg: Settings, c: Config, d: Config) {
    exists acts :: Steps(cfg, c, acts, d) && AllPolite(acts)
  }

  lemma LeadsByStep(cfg: Settings, c: Config, a: Action)
    requires Enabled(c, a) && Polite(a)
    ensures Leads(cfg, c, Next(cfg, c, a))
  {
    OneStep(cfg, c, a);
    assert AllPolite([a]);
  }

  lemma LeadsByPass(cfg: Settings, c: Config, picks: seq<string>, r: State, clock: int)
    requires Sized(c) && c.pc == AtSources(0) && P.Pass(c.s, c.now, cfg, picks, r)
    ensures Leads(cfg, c, c.(s := r, now := clock))
  {
    var acts := PassIsRun(cfg, c, picks, r, clock);
    assert AllPolite(acts);
  }

  lemma LeadsOn(cfg: Settings, c: Config, d: Config, e: Config)
    requires Leads(cfg, c, d) && Leads(cfg, d, e)
    ensures Leads(cfg, c, e)
  {
    var first: seq<Action> :| Steps(cfg, c, first, d) && AllPolite(first);
    var second: seq<Action> :| Steps(cfg, d, second, e) && AllPolite(second);
    StepsConcat(cfg, c, first, d, second, e);
    assert AllPolite(first + second);
  }

  lemma LeadsIsRun(cfg: Settings, c: Config, d: Config) returns (run: seq<Config>, acts: seq<Action>)
    requires Init(c) && Leads(cfg, c, d)
    ensures IsRun(cfg, run, acts) && AllPolite(acts) && run[|acts|] == d
  {
    acts :| Steps(cfg, c, acts, d) && AllPolite(acts);
    run := ChainIsPath(StepOf(cfg), c, acts, d);
    PathFollows(cfg, run, acts);
  }

  /** Runner j takes its Start message and answers it. */
  lemma RunnerStarts(cfg: Settings, c: Config, j: nat, d: Config)
    requires Sized(c) && j < |c.s.targets| && c.announced[j] && !c.busy[j] && c.s.targets[j].input == []
    requires |c.s.targets[j].output| == 1 && c.s.targets[j].output[0].StartMsg?
    requires d == c.(s := c.s.(targets := c.s.targets[j := c.s.targets[j].(input := [StartedMsg], output := [])]))
    ensures Leads(cfg, c, d)
  {
    var taken := c.s.targets[j].(output := []);
    var e := c.(s := c.s.(targets := c.s.targets[j := taken]), busy := c.busy[j := true]);
    assert c.s.targets[j].output[1..] == [];
    LeadsByStep(cfg, c, TakeStart(j));
    assert Next(cfg, c, TakeStart(j)) == e;
    assert [] + [StartedMsg] == [StartedMsg];
    LeadsByStep(cfg, e, Answer(j, None));
    assert e.busy[j := false] == c.busy;
    assert Next(cfg, e, Answer(j, None)).s.targets == d.s.targets;
    assert Next(cfg, e, Answer(j, None)) == d;
    LeadsOn(cfg, c, e, d);
  }

  /** One client and one runner. */
  function One(s: State, now: int, busy: bool, held: nat, reading: nat): Config {
    Config(s, AtSources(0), now, [busy], [true], [held], [reading], [0])
  }

  const FRESH := State([NewSlot([])], [NewSlot([FreeMsg("w")])], [0])

  lemma ClientAsks()
    ensures Init(One(FRESH, 0, false, 0, 0))
    ensures Leads(NO_WAIT, One(FRESH, 0, false, 0, 0), One(ASKED, 0, false, 0, 1))
  {
    var c := One(FRESH, 0, false, 0, 0);
    assert FreshRunner(c.s.targets[0]);
    var d := One(FRESH.(freeSources := []), 0, false, 1, 0);
    assert [0][1..] == [];
    LeadsByStep(NO_WAIT, c, GetSlot);
    assert Next(NO_WAIT, c, GetSlot) == d;
    var a := SendAcquire(0, "x:a", NoInfo);
    LeadsByStep(NO_WAIT, d, a);
    assert [] + [ASK] == [ASK];
    assert Next(NO_WAIT, d, a).s.sources == ASKED.sources;
    assert Next(NO_WAIT, d, a) == One(ASKED, 0, false, 0, 1);
    LeadsOn(NO_WAIT, c, d, One(ASKED, 0, false, 0, 1));
  }

  lemma RunnerAnswers()
    ensures Leads(NO_WAIT, One(BEGUN, 1, false, 0, 1), One(READY, 1, false, 0, 1))
  {
    RunnerStarts(NO_WAIT, One(BEGUN, 1, false, 0, 1), 0, One(READY, 1, false, 0, 1));
  }

  /** One client, one runner, and a client that works longer than the release timeout: the sweep
      takes the container away while the client's slot still runs on it. */
  lemma SweepTakesContainer() returns (run: seq<Config>, acts: seq<Action>)
    ensures IsRun(NO_WAIT, run, acts) && AllPolite(acts) && !Exclusive(run[|acts|].s)
  {
    var c := One(FRESH, 0, false, 0, 0);
    ClientAsks();
    PassStarts();
    LeadsByPass(NO_WAIT, One(ASKED, 0, false, 0, 1), ["x:a"], BEGUN, 1);
    LeadsOn(NO_WAIT, c, One(ASKED, 0, false, 0, 1), One(BEGUN, 1, false, 0, 1));
    RunnerAnswers();
    LeadsOn(NO_WAIT, c, One(BEGUN, 1, false, 0, 1), One(READY, 1, false, 0, 1));
    PassMatches();
    LeadsByPass(NO_WAIT, One(READY, 1, false, 0, 1), [], RUNNING, 3);
    LeadsOn(NO_WAIT, c, One(READY, 1, false, 0, 1), One(RUNNING, 3, false, 0, 1));
    PassSweeps();
    LeadsByPass(NO_WAIT, One(RUNNING, 3, false, 0, 1), [], SWEPT, 4);
    LeadsOn(NO_WAIT, c, One(RUNNING, 3, false, 0, 1), One(SWEPT, 4, false, 0, 1));
    run, acts := LeadsIsRun(NO_WAIT, c, One(SWEPT, 4, false, 0, 1));
    assert Runs(SWEPT.sources[0], false) && !Linked(SWEPT, 0);
  }
}
