/** What becomes of a stranded waiter: the broker has forgotten it, and nothing but a new request for
    the same type brings it back. */
module BrokerStarvation {
  import opened Wrappers
  import opened BrokerModel
  import opened BrokerProtocol
  import opened BrokerStranded
  import opened BrokerCounterexamples
  import P = BrokerPass

  /** The slot has no unlinked waiter for t in it and is not about to become one. */
  predicate Bystander(slot: Slot, t: string) {
    && (WaitsFor(slot, t) ==> slot.opposite.Some?)
    && forall a :: 0 <= a < |slot.input| ==> slot.input[a].AcquireMsg? ==> slot.input[a].slotType != t
  }

  /** No target carries t, no unlinked source waits for it and no request for it is queued. */
  predicate Forgotten(s: State, t: string) {
    && t != ""
    && (forall j :: 0 <= j < |s.targets| ==> s.targets[j].slotType != t)
    && (forall i :: 0 <= i < |s.sources| ==> Bystander(s.sources[i], t))
  }

  /** Slot i waits for t; its client has read every reply and waits for the next one. */
  predicate Stuck(s: State, i: nat, t: string) {
    && i < |s.sources| && WaitsFor(s.sources[i], t)
    && s.sources[i].input == [] && s.sources[i].output == []
  }

  /** A request for t, or any message to slot i. */
  predicate Helps(a: Action, i: nat, t: string) {
    match a
    case SendAcquire(h, slotType, _) => h == i || slotType == t
    case SendRelease(h) => h == i
    case AnySend(h, m) => h == i || (m.AcquireMsg? && m.slotType == t)
    case _ => false
  }

  lemma ForgottenReadSource(s: State, k: nat, now: int, i: nat, t: string)
    requires Forgotten(s, t) && Stuck(s, i, t) && k < |s.sources|
    ensures Forgotten(ReadSource(s, k, now), t) && ReadSource(s, k, now).sources[i] == s.sources[i]
  {
    assert Bystander(s.sources[k], t);
    var r := ReadSource(s, k, now);
    forall h | 0 <= h < |r.sources|
      ensures Bystander(r.sources[h], t)
    {
      if h != k { assert r.sources[h] == s.sources[h]; }
    }
  }

  lemma ForgottenReadTarget(s: State, j: nat, now: int, i: nat, t: string)
    requires Forgotten(s, t) && Stuck(s, i, t) && j < |s.targets|
    ensures Forgotten(ReadTarget(s, j, now), t) && ReadTarget(s, j, now).sources[i] == s.sources[i]
  {
    if s.targets[j].input != [] && s.targets[j].input[0].ErrorMsg? {
      var p := WithTarget(s, j, s.targets[j].(input := s.targets[j].input[1..]));
      FailWaitersEffect(p, s.targets[j].slotType, s.targets[j].input[0].text, |s.sources|);
    }
    var r := ReadTarget(s, j, now);
    forall h | 0 <= h < |r.sources|
      ensures Bystander(r.sources[h], t)
    {
      assert Bystander(s.sources[h], t);
    }
  }

  lemma ForgottenMatch(s: State, k: nat, now: int, i: nat, t: string)
    requires Forgotten(s, t) && Stuck(s, i, t) && k < |s.sources|
    ensures Forgotten(MatchSource(s, k, now), t) && MatchSource(s, k, now).sources[i] == s.sources[i]
  {
    var m := |s.targets|;
    MatchTouches(s, k, now, m);
    MatchServes(s, k, now, m);
    NoMatch(s, i, now, m);
    var r := MatchSource(s, k, now);
    forall h | 0 <= h < |r.sources|
      ensures Bystander(r.sources[h], t)
    {
      assert Bystander(s.sources[h], t);
    }
  }

  lemma ForgottenStart(s: State, j: nat, k: nat, backLink: bool, now: int, i: nat, t: string)
    requires Forgotten(s, t) && Stuck(s, i, t) && j < |s.targets| && k < |s.sources| && s.sources[k].slotType != t
    ensures Forgotten(StartTarget(s, j, k, backLink, now), t) && StartTarget(s, j, k, backLink, now).sources[i] == s.sources[i]
  {
    var r := StartTarget(s, j, k, backLink, now);
    forall h | 0 <= h < |r.sources|
      ensures Bystander(r.sources[h], t)
    {
      assert Bystander(s.sources[h], t);
    }
  }

  /** No start is made for t: the first loop counts unlinked waiters only, and so does the second. */
  lemma NoStartFor(s: State, t: string)
    requires Forgotten(s, t)
    ensures !WaitOnly(s, t)
    ensures forall i :: 0 <= i < |s.sources| && Unserved(s.sources[i]) ==> s.sources[i].slotType != t
  {
    WaitCounted(s, t, |s.sources|);
    forall i | 0 <= i < |s.sources| && Unserved(s.sources[i])
      ensures s.sources[i].slotType != t
    {
      assert Bystander(s.sources[i], t);
    }
  }

  lemma ForgottenBroker(cfg: Settings, c: Config, a: Action, i: nat, t: string)
    requires Enabled(c, a) && a.BrokerStep? && Forgotten(c.s, t) && Stuck(c.s, i, t)
    ensures Forgotten(Next(cfg, c, a).s, t) && |Next(cfg, c, a).s.sources| == |c.s.sources|
    ensures Next(cfg, c, a).s.sources[i] == c.s.sources[i]
  {
    NoStartFor(c.s, t);
    match c.pc {
      case AtSources(k) => if k < |c.s.sources| { ForgottenReadSource(c.s, k, c.now, i, t); }
      case AtTargets(k) => if k < |c.s.targets| { ForgottenReadTarget(c.s, k, c.now, i, t); }
      case AtMatch(k) => if k < |c.s.sources| { ForgottenMatch(c.s, k, c.now, i, t); }
      case AtStartNew =>
        if CanStartNew(c.s) {
          ForgottenStart(c.s, OldestFree(c.s, |c.s.targets|).value, StartSource(c.s, a.pick), true, c.now, i, t);
        }
      case AtStartCopies =>
        if CanStartCopy(c.s, c.now, cfg) {
          ForgottenStart(c.s, OldestRunner(c.s, c.now, |c.s.targets|).value, OldestWaiter(c.s, c.now, |c.s.sources|).value, false, c.now, i, t);
        }
      case AtFreeY(k) =>
      case AtSweep(k) =>
    }
  }

  lemma ForgottenOthers(cfg: Settings, c: Config, a: Action, i: nat, t: string)
    requires Enabled(c, a) && !a.BrokerStep? && Forgotten(c.s, t) && Stuck(c.s, i, t) && !Helps(a, i, t)
    ensures Forgotten(Next(cfg, c, a).s, t) && |Next(cfg, c, a).s.sources| == |c.s.sources|
    ensures Next(cfg, c, a).s.sources[i] == c.s.sources[i]
  {
    var d := Next(cfg, c, a);
    OthersKeepFields(cfg, c, a);
    forall h | 0 <= h < |d.s.sources|
      ensures Bystander(d.s.sources[h], t)
    {
      assert Bystander(c.s.sources[h], t);
    }
    forall j | 0 <= j < |d.s.targets|
      ensures d.s.targets[j].slotType != t
    {
      assert SameFields(c.s.targets[j], d.s.targets[j]);
    }
  }

  /** A forgotten waiter waits for ever: in any run, from any point at which it is stuck and its type
      forgotten, its slot never changes again unless someone asks for the type anew. */
  lemma {:induction false} ForgottenForEver(cfg: Settings, run: seq<Config>, acts: seq<Action>, k: nat, m: nat, i: nat, t: string)
    requires IsRun(cfg, run, acts) && k <= m < |run|
    requires Forgotten(run[k].s, t) && Stuck(run[k].s, i, t)
    requires forall n :: k <= n < m ==> !Helps(acts[n], i, t)
    ensures Forgotten(run[m].s, t) && Stuck(run[m].s, i, t)
    ensures run[m].s.sources[i] == run[k].s.sources[i]
    decreases m
  {
    if m == k {
    } else {
      ForgottenForEver(cfg, run, acts, k, m - 1, i, t);
      assert Follows(cfg, run, acts, m - 1);
      var c, a := run[m - 1], acts[m - 1];
      if a.BrokerStep? {
        ForgottenBroker(cfg, c, a, i, t);
      } else {
        ForgottenOthers(cfg, c, a, i, t);
      }
    }
  }

  // ------------------------------------------------------------------ a run that strands a waiter

  const QUIET := Source(Free, 0, "", None, [], [])
  const EARLY := Source(Wait, 0, "x:a", Some(0), [], [])
  const LATE := Source(Run, 1, "x:a", Some(0), [], [AcquiredMsg("w")])

  function Runner(state: SlotState, since: int, slotType: string, input: seq<Message>, output: seq<Message>): Slot {
    Target("w", state, since, slotType, Some(1), input, output)
  }

  const FRESH_2_1 := State([NewSlot([]), NewSlot([])], [NewSlot([FreeMsg("w")])], [0, 1])
  const EARLY_ASKS := State([QUIET, Source(Free, 0, "", None, [ASK], [])], FRESH_2_1.targets, [])
  const EARLY_PROMISED := State([QUIET, EARLY], [Runner(Starting, 0, "x:a", [], [GO])], [])
  const LATE_ASKS := State([Source(Free, 0, "", None, [ASK], []), EARLY], [Runner(Starting, 0, "x:a", [StartedMsg], [])], [])
  const LATE_SERVED := State([LATE, EARLY], [Runner(Run, 1, "x:a", [], [])], [])
  const EARLY_FORGOTTEN := State([LATE, EARLY], [Runner(Free, 7, "", [], [])], [])

  /** The client that asks first has the later slot and is promised the container. */
  lemma EarlyPass()
    ensures P.Pass(EARLY_ASKS, 0, NO_WAIT, ["x:a"], EARLY_PROMISED)
  {
    var s := EARLY_ASKS.(sources := [QUIET, Source(Wait, 0, "x:a", None, [], [])]);
    var m := s.(targets := [Target("w", Free, 0, "", None, [], [])]);
    assert [ASK][1..] == [] && s.targets[0].input[1..] == [];
    assert ReadSource(EARLY_ASKS, 0, 0) == EARLY_ASKS;
    assert ReadSource(EARLY_ASKS, 1, 0).sources == s.sources;
    assert P.ReadSources(EARLY_ASKS, 0, 0) == EARLY_ASKS && P.ReadSources(EARLY_ASKS, 0, 1) == EARLY_ASKS && P.ReadSources(EARLY_ASKS, 0, 2) == s;
    assert ReadTarget(s, 0, 0).targets == m.targets;
    assert P.ReadTargets(s, 0, 0) == s && P.ReadTargets(s, 0, 1) == m;
    QuietMatch(m, 0, 2);
    assert WaitCount(m, "x:a", 2) > 0 by { WaitCounted(m, "x:a", 2); assert Unserved(m.sources[1]); }
    assert OldestFree(m, 1) == Some(0) && OldestFree(EARLY_PROMISED, 1) == None;
    assert FirstWaiter(m, "x:a", 1) == None && FirstWaiter(m, "x:a", 2) == Some(1);
    assert [] + [GO] == [GO];
    assert StartNew(m, "x:a", 0).targets == EARLY_PROMISED.targets;
    assert StartNew(m, "x:a", 0).sources == EARLY_PROMISED.sources;
    StartOnlyPass(EARLY_ASKS, 0, NO_WAIT, "x:a", m, EARLY_PROMISED);
  }

  /** The client that asks later has the earlier slot and is served first. */
  lemma LatePass()
    ensures P.Pass(LATE_ASKS, 1, NO_WAIT, [], LATE_SERVED)
  {
    var s := LATE_ASKS.(sources := [Source(Wait, 1, "x:a", None, [], []), EARLY]);
    var f := s.(targets := [Runner(Free, 1, "x:a", [], [])]);
    assert [ASK][1..] == [] && [StartedMsg][1..] == [];
    assert ReadSource(LATE_ASKS, 0, 1).sources == s.sources;
    assert ReadSource(s, 1, 1) == s;
    assert P.ReadSources(LATE_ASKS, 1, 0) == LATE_ASKS && P.ReadSources(LATE_ASKS, 1, 1) == s && P.ReadSources(LATE_ASKS, 1, 2) == s;
    assert ReadTarget(s, 0, 1).targets == f.targets;
    assert P.ReadTargets(s, 1, 0) == s && P.ReadTargets(s, 1, 1) == f;
    assert [] + [AcquiredMsg("w")] == [AcquiredMsg("w")];
    assert Link(f, 0, 0, 1).sources == LATE_SERVED.sources;
    assert Link(f, 0, 0, 1).targets == LATE_SERVED.targets;
    assert MatchUpTo(f, 0, 1, 0) == f && MatchUpTo(f, 0, 1, 1) == LATE_SERVED;
    NoMatch(LATE_SERVED, 1, 1, 1);
    assert P.MatchSources(f, 1, 0) == f && P.MatchSources(f, 1, 1) == LATE_SERVED && P.MatchSources(f, 1, 2) == LATE_SERVED;
    MatchOnlyPass(LATE_ASKS, 1, NO_WAIT, LATE_SERVED);
  }

  lemma SweepPass()
    ensures P.Pass(LATE_SERVED, 3, NO_WAIT, [], EARLY_FORGOTTEN)
  {
    QuietSources(LATE_SERVED, 3, 2);
    QuietTargets(LATE_SERVED, 3, 1);
    QuietMatch(LATE_SERVED, 3, 2);
    assert OldestFree(LATE_SERVED, 1) == None && OldestRunner(LATE_SERVED, 3, 1) == None;
    assert P.StartRounds(LATE_SERVED, [], 3, LATE_SERVED);
    assert P.StartCopies(LATE_SERVED, 3, NO_WAIT) == LATE_SERVED;
    QuietFreeUnused(LATE_SERVED, 3, 1);
    assert Sweep(LATE_SERVED, 0, 3, NO_WAIT).targets == EARLY_FORGOTTEN.targets;
    assert P.SweepTargets(LATE_SERVED, 3, NO_WAIT, 0) == LATE_SERVED && P.SweepTargets(LATE_SERVED, 3, NO_WAIT, 1) == EARLY_FORGOTTEN;
    assert P.Matched(LATE_SERVED, 3) == LATE_SERVED;
    assert P.Cleared(LATE_SERVED, 3, NO_WAIT) == EARLY_FORGOTTEN;
  }

  function At(s: State, now: int, busy: bool, held: seq<nat>, reading: seq<nat>): Config {
    Config(s, AtSources(0), now, [busy], [true], held, reading, [0, 0])
  }

  lemma BothGet(c: Config)
    requires c == At(FRESH_2_1, 0, false, [0, 0], [0, 0])
    ensures Leads(NO_WAIT, c, At(FRESH_2_1.(freeSources := []), 0, false, [1, 1], [0, 0]))
  {
    var d := At(FRESH_2_1.(freeSources := [1]), 0, false, [1, 0], [0, 0]);
    assert [0, 1][1..] == [1] && [1][1..] == [];
    LeadsByStep(NO_WAIT, c, GetSlot);
    assert Next(NO_WAIT, c, GetSlot) == d;
    var e := At(FRESH_2_1.(freeSources := []), 0, false, [1, 1], [0, 0]);
    LeadsByStep(NO_WAIT, d, GetSlot);
    assert Next(NO_WAIT, d, GetSlot) == e;
    LeadsOn(NO_WAIT, c, d, e);
  }

  lemma EarlyClientAsks()
    ensures Init(At(FRESH_2_1, 0, false, [0, 0], [0, 0]))
    ensures Leads(NO_WAIT, At(FRESH_2_1, 0, false, [0, 0], [0, 0]), At(EARLY_ASKS, 0, false, [1, 0], [0, 1]))
  {
    var c := At(FRESH_2_1, 0, false, [0, 0], [0, 0]);
    assert FreshRunner(c.s.targets[0]);
    var e := At(FRESH_2_1.(freeSources := []), 0, false, [1, 1], [0, 0]);
    BothGet(c);
    EarlySends(e);
    LeadsOn(NO_WAIT, c, e, At(EARLY_ASKS, 0, false, [1, 0], [0, 1]));
  }

  lemma EarlySends(c: Config)
    requires c == At(FRESH_2_1.(freeSources := []), 0, false, [1, 1], [0, 0])
    ensures Leads(NO_WAIT, c, At(EARLY_ASKS, 0, false, [1, 0], [0, 1]))
  {
    var a := SendAcquire(1, "x:a", NoInfo);
    LeadsByStep(NO_WAIT, c, a);
    assert [] + [ASK] == [ASK];
    assert Next(NO_WAIT, c, a).s.sources == EARLY_ASKS.sources;
    assert Next(NO_WAIT, c, a) == At(EARLY_ASKS, 0, false, [1, 0], [0, 1]);
  }

  /** The runner answers, and the later client asks. */
  lemma LateClientAsks()
    ensures Leads(NO_WAIT, At(EARLY_PROMISED, 1, false, [1, 0], [0, 1]), At(LATE_ASKS, 1, false, [0, 0], [1, 1]))
  {
    var c := At(EARLY_PROMISED, 1, false, [1, 0], [0, 1]);
    var d := At(EARLY_PROMISED.(targets := LATE_ASKS.targets), 1, false, [1, 0], [0, 1]);
    RunnerStarts(NO_WAIT, c, 0, d);
    var a := SendAcquire(0, "x:a", NoInfo);
    LeadsByStep(NO_WAIT, d, a);
    assert [] + [ASK] == [ASK];
    assert Next(NO_WAIT, d, a).s.sources == LATE_ASKS.sources;
    assert Next(NO_WAIT, d, a) == At(LATE_ASKS, 1, false, [0, 0], [1, 1]);
    LeadsOn(NO_WAIT, c, d, At(LATE_ASKS, 1, false, [0, 0], [1, 1]));
  }

  lemma LateIsServed()
    ensures Leads(NO_WAIT, At(EARLY_PROMISED, 1, false, [1, 0], [0, 1]), At(EARLY_FORGOTTEN, 4, false, [0, 0], [1, 1]))
  {
    var c2, c3 := At(EARLY_PROMISED, 1, false, [1, 0], [0, 1]), At(LATE_ASKS, 1, false, [0, 0], [1, 1]);
    var c4, c5 := At(LATE_SERVED, 3, false, [0, 0], [1, 1]), At(EARLY_FORGOTTEN, 4, false, [0, 0], [1, 1]);
    LateClientAsks();
    LatePass();
    LeadsByPass(NO_WAIT, c3, [], LATE_SERVED, 3);
    LeadsOn(NO_WAIT, c2, c3, c4);
    SweepPass();
    LeadsByPass(NO_WAIT, c4, [], EARLY_FORGOTTEN, 4);
    LeadsOn(NO_WAIT, c2, c4, c5);
  }

  lemma EarlyIsPromised()
    ensures Leads(NO_WAIT, At(FRESH_2_1, 0, false, [0, 0], [0, 0]), At(EARLY_PROMISED, 1, false, [1, 0], [0, 1]))
  {
    var c1 := At(EARLY_ASKS, 0, false, [1, 0], [0, 1]);
    EarlyClientAsks();
    EarlyPass();
    LeadsByPass(NO_WAIT, c1, ["x:a"], EARLY_PROMISED, 1);
    LeadsOn(NO_WAIT, At(FRESH_2_1, 0, false, [0, 0], [0, 0]), c1, At(EARLY_PROMISED, 1, false, [1, 0], [0, 1]));
  }

  lemma EarlyIsForgotten()
    ensures Forgotten(EARLY_FORGOTTEN, "x:a") && Stuck(EARLY_FORGOTTEN, 1, "x:a") && !NoStranded(EARLY_FORGOTTEN)
  {
    assert EARLY_FORGOTTEN.sources[1].opposite == Some(0) && EARLY_FORGOTTEN.targets[0].slotType == "";
  }

  /** Two clients and one runner that follow the protocol: the promised container goes to a client
      with an earlier slot, the sweep clears its type, and the promised waiter is forgotten. */
  lemma WaiterIsForgotten() returns (run: seq<Config>, acts: seq<Action>)
    ensures IsRun(NO_WAIT, run, acts) && AllPolite(acts)
    ensures Forgotten(run[|acts|].s, "x:a") && Stuck(run[|acts|].s, 1, "x:a") && !NoStranded(run[|acts|].s)
  {
    var c0, c5 := At(FRESH_2_1, 0, false, [0, 0], [0, 0]), At(EARLY_FORGOTTEN, 4, false, [0, 0], [1, 1]);
    EarlyClientAsks();
    EarlyIsPromised();
    LateIsServed();
    LeadsOn(NO_WAIT, c0, At(EARLY_PROMISED, 1, false, [1, 0], [0, 1]), c5);
    run, acts := LeadsIsRun(NO_WAIT, c0, c5);
    EarlyIsForgotten();
  }
}
