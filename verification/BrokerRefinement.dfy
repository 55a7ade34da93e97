/** A pass of the broker class is a run of the transition system in which only the broker moves. */
module BrokerRefinement {
  import opened BrokerModel
  import opened BrokerProtocol
  import P = BrokerPass

  /** Taking the given actions one after the other leads from c to d. */
  ghost predicate Chain<C(!new), A>(step: (C, A, C) -> bool, c: C, acts: seq<A>, d: C)
    decreases |acts|
  {
    if acts == [] then c == d
    else exists e :: step(c, acts[0], e) && Chain(step, e, acts[1..], d)
  }

  lemma {:induction false} ChainConcat<C(!new), A>(step: (C, A, C) -> bool, c: C, first: seq<A>, d: C, second: seq<A>, e: C)
    requires Chain(step, c, first, d) && Chain(step, d, second, e)
    ensures Chain(step, c, first + second, e)
    decreases |first|
  {
    if first == [] {
      assert [] + second == second;
    } else {
      var all := first + second;
      assert all != [] && all[0] == first[0] && all[1..] == first[1..] + second;
      var p :| step(c, first[0], p) && Chain(step, p, first[1..], d);
      ChainConcat(step, p, first[1..], d, second, e);
    }
  }

  ghost predicate PathAt<C(!new), A>(step: (C, A, C) -> bool, run: seq<C>, acts: seq<A>, k: nat)
    requires k < |acts| && |run| == |acts| + 1
  {
    step(run[k], acts[k], run[k + 1])
  }

  /** Every action leads from one element of the run to the next. */
  ghost predicate Path<C(!new), A>(step: (C, A, C) -> bool, run: seq<C>, acts: seq<A>) {
    |run| == |acts| + 1 && forall k :: 0 <= k < |acts| ==> PathAt(step, run, acts, k)
  }

  lemma PathCons<C(!new), A>(step: (C, A, C) -> bool, c: C, a: A, run: seq<C>, acts: seq<A>)
    requires Path(step, run, acts) && step(c, a, run[0])
    ensures Path(step, [c] + run, [a] + acts)
  {
    forall k | 0 <= k < |acts| + 1
      ensures PathAt(step, [c] + run, [a] + acts, k)
    {
      if k > 0 { assert PathAt(step, run, acts, k - 1); }
    }
  }

  lemma {:induction false} ChainIsPath<C(!new), A>(step: (C, A, C) -> bool, c: C, acts: seq<A>, d: C) returns (run: seq<C>)
    requires Chain(step, c, acts, d)
    ensures Path(step, run, acts) && run[0] == c && run[|acts|] == d
    decreases |acts|
  {
    if acts == [] {
      run := [c];
    } else {
      var e :| step(c, acts[0], e) && Chain(step, e, acts[1..], d);
      var rest := ChainIsPath(step, e, acts[1..], d);
      PathCons(step, c, acts[0], rest, acts[1..]);
      assert acts == [acts[0]] + acts[1..];
      run := [c] + rest;
    }
  }

  /** Two paths, the second from where the first ends, are one. */
  lemma PathsJoin<C(!new), A>(step: (C, A, C) -> bool, before: seq<C>, first: seq<A>, after: seq<C>, second: seq<A>)
      returns (run: seq<C>)
    requires Path(step, before, first) && Path(step, after, second) && before[|first|] == after[0]
    ensures Path(step, run, first + second)
    ensures run[0] == before[0] && run[|first|] == after[0] && run[|first + second|] == after[|second|]
  {
    run := before + after[1..];
    forall k | 0 <= k < |first + second|
      ensures PathAt(step, run, first + second, k)
    {
      if k < |first| {
        assert PathAt(step, before, first, k);
      } else {
        assert PathAt(step, after, second, k - |first|);
      }
    }
  }

  ghost function StepOf(cfg: Settings): (Config, Action, Config) -> bool {
    (c: Config, a: Action, d: Config) => Enabled(c, a) && d == Next(cfg, c, a)
  }

  ghost predicate Steps(cfg: Settings, c: Config, acts: seq<Action>, d: Config) {
    Chain(StepOf(cfg), c, acts, d)
  }

  lemma StepsConcat(cfg: Settings, c: Config, first: seq<Action>, d: Config, second: seq<Action>, e: Config)
    requires Steps(cfg, c, first, d) && Steps(cfg, d, second, e)
    ensures Steps(cfg, c, first + second, e)
  {
    ChainConcat(StepOf(cfg), c, first, d, second, e);
  }

  lemma OneStep(cfg: Settings, c: Config, a: Action)
    requires Enabled(c, a)
    ensures Steps(cfg, c, [a], Next(cfg, c, a))
  {
    var d := Next(cfg, c, a);
    assert [a][1..] == [];
    assert StepOf(cfg)(c, a, d) && Chain(StepOf(cfg), d, [], d);
  }

  lemma OneMoreStep(cfg: Settings, c: Config, acts: seq<Action>, d: Config, a: Action)
    requires Steps(cfg, c, acts, d) && Enabled(d, a)
    ensures Steps(cfg, c, acts + [a], Next(cfg, d, a))
  {
    OneStep(cfg, d, a);
    StepsConcat(cfg, c, acts, d, [a], Next(cfg, d, a));
  }

  predicate OnlyBroker(acts: seq<Action>) {
    forall k :: 0 <= k < |acts| ==> acts[k].BrokerStep?
  }

  const SILENT := BrokerStep("", 0)

  lemma {:induction false} SourcesSteps(cfg: Settings, c: Config, k: nat) returns (acts: seq<Action>)
    requires Sized(c) && c.pc == AtSources(0) && k <= |c.s.sources|
    ensures OnlyBroker(acts) && Steps(cfg, c, acts, c.(s := P.ReadSources(c.s, c.now, k), pc := AtSources(k)))
  {
    acts := [];
    if k == 0 {
    } else {
      acts := SourcesSteps(cfg, c, k - 1);
      OneMoreStep(cfg, c, acts, c.(s := P.ReadSources(c.s, c.now, k - 1), pc := AtSources(k - 1)), SILENT);
      acts := acts + [SILENT];
    }
  }

  lemma {:induction false} TargetsSteps(cfg: Settings, c: Config, k: nat) returns (acts: seq<Action>)
    requires Sized(c) && c.pc == AtTargets(0) && k <= |c.s.targets|
    ensures OnlyBroker(acts) && Steps(cfg, c, acts, c.(s := P.ReadTargets(c.s, c.now, k), pc := AtTargets(k)))
  {
    acts := [];
    if k == 0 {
    } else {
      acts := TargetsSteps(cfg, c, k - 1);
      OneMoreStep(cfg, c, acts, c.(s := P.ReadTargets(c.s, c.now, k - 1), pc := AtTargets(k - 1)), SILENT);
      acts := acts + [SILENT];
    }
  }

  lemma {:induction false} MatchSteps(cfg: Settings, c: Config, k: nat) returns (acts: seq<Action>)
    requires Sized(c) && c.pc == AtMatch(0) && k <= |c.s.sources|
    ensures OnlyBroker(acts) && Steps(cfg, c, acts, c.(s := P.MatchSources(c.s, c.now, k), pc := AtMatch(k)))
  {
    acts := [];
    if k == 0 {
    } else {
      acts := MatchSteps(cfg, c, k - 1);
      OneMoreStep(cfg, c, acts, c.(s := P.MatchSources(c.s, c.now, k - 1), pc := AtMatch(k - 1)), SILENT);
      acts := acts + [SILENT];
    }
  }

  lemma StartStep(cfg: Settings, c: Config, pick: string)
    requires Sized(c) && c.pc == AtStartNew && CanStartNew(c.s) && MostRequested(c.s, pick)
    ensures var d := c.(s := StartNew(c.s, pick, c.now));
            Sized(d) && Steps(cfg, c, [BrokerStep(pick, 0)], d)
  {
    OneStep(cfg, c, BrokerStep(pick, 0));
  }

  lemma {:induction false} StartSteps(cfg: Settings, c: Config, picks: seq<string>, m: State) returns (acts: seq<Action>)
    requires Sized(c) && c.pc == AtStartNew && P.StartRounds(c.s, picks, c.now, m)
    ensures OnlyBroker(acts) && Steps(cfg, c, acts, c.(s := m))
    decreases |picks|
  {
    acts := [];
    if picks == [] {
      assert c.(s := m) == c;
    } else {
      var d := c.(s := StartNew(c.s, picks[0], c.now));
      StartStep(cfg, c, picks[0]);
      var more := StartSteps(cfg, d, picks[1..], m);
      StepsConcat(cfg, c, [BrokerStep(picks[0], 0)], d, more, c.(s := m));
      acts := [BrokerStep(picks[0], 0)] + more;
    }
  }

  lemma {:induction false} CopySteps(cfg: Settings, c: Config) returns (acts: seq<Action>)
    requires Sized(c) && c.pc == AtStartCopies
    ensures OnlyBroker(acts) && Steps(cfg, c, acts, c.(s := P.StartCopies(c.s, c.now, cfg), pc := AtFreeY(0)))
    decreases FreeCount(c.s, |c.s.targets|)
  {
    if CanStartCopy(c.s, c.now, cfg) {
      P.CopyUsesFree(c.s, c.now, cfg);
      var d := c.(s := StartCopy(c.s, c.now, cfg));
      acts := CopySteps(cfg, d);
      OneStep(cfg, c, SILENT);
      StepsConcat(cfg, c, [SILENT], d, acts, c.(s := P.StartCopies(c.s, c.now, cfg), pc := AtFreeY(0)));
      acts := [SILENT] + acts;
    } else {
      OneStep(cfg, c, SILENT);
      acts := [SILENT];
    }
  }

  lemma {:induction false} FreeYSteps(cfg: Settings, c: Config, k: nat) returns (acts: seq<Action>)
    requires Sized(c) && c.pc == AtFreeY(0) && k <= |c.s.targets|
    ensures OnlyBroker(acts) && Steps(cfg, c, acts, c.(s := P.FreeUnused(c.s, c.now, k), pc := AtFreeY(k)))
  {
    acts := [];
    if k == 0 {
    } else {
      acts := FreeYSteps(cfg, c, k - 1);
      OneMoreStep(cfg, c, acts, c.(s := P.FreeUnused(c.s, c.now, k - 1), pc := AtFreeY(k - 1)), SILENT);
      acts := acts + [SILENT];
    }
  }

  lemma {:induction false} SweepSteps(cfg: Settings, c: Config, k: nat) returns (acts: seq<Action>)
    requires Sized(c) && c.pc == AtSweep(0) && k <= |c.s.targets|
    ensures OnlyBroker(acts) && Steps(cfg, c, acts, c.(s := P.SweepTargets(c.s, c.now, cfg, k), pc := AtSweep(k)))
  {
    acts := [];
    if k == 0 {
    } else {
      acts := SweepSteps(cfg, c, k - 1);
      OneMoreStep(cfg, c, acts, c.(s := P.SweepTargets(c.s, c.now, cfg, k - 1), pc := AtSweep(k - 1)), SILENT);
      acts := acts + [SILENT];
    }
  }

  /** The first two phases, up to the start of the matching loop. */
  lemma ReadSteps(cfg: Settings, c: Config) returns (acts: seq<Action>)
    requires Sized(c) && c.pc == AtSources(0)
    ensures var r := P.ReadTargets(P.ReadSources(c.s, c.now, |c.s.sources|), c.now, |c.s.targets|);
            OnlyBroker(acts) && Steps(cfg, c, acts, c.(s := r, pc := AtMatch(0)))
  {
    var n, m := |c.s.sources|, |c.s.targets|;
    acts := SourcesSteps(cfg, c, n);
    var c1 := c.(s := P.ReadSources(c.s, c.now, n), pc := AtSources(n));
    OneMoreStep(cfg, c, acts, c1, SILENT);
    acts := acts + [SILENT];
    var d1 := c1.(pc := AtTargets(0));
    var more := TargetsSteps(cfg, d1, m);
    var c2 := d1.(s := P.ReadTargets(d1.s, c.now, m), pc := AtTargets(m));
    StepsConcat(cfg, c, acts, d1, more, c2);
    acts := acts + more;
    OneMoreStep(cfg, c, acts, c2, SILENT);
    acts := acts + [SILENT];
  }

  /** The first three phases, up to the start of the first start loop. */
  lemma MatchedSteps(cfg: Settings, c: Config) returns (acts: seq<Action>)
    requires Sized(c) && c.pc == AtSources(0)
    ensures OnlyBroker(acts) && Steps(cfg, c, acts, c.(s := P.Matched(c.s, c.now), pc := AtStartNew))
  {
    var n := |c.s.sources|;
    acts := ReadSteps(cfg, c);
    var d2 := c.(s := P.ReadTargets(P.ReadSources(c.s, c.now, n), c.now, |c.s.targets|), pc := AtMatch(0));
    var more := MatchSteps(cfg, d2, n);
    var c3 := d2.(s := P.MatchSources(d2.s, c.now, n), pc := AtMatch(n));
    StepsConcat(cfg, c, acts, d2, more, c3);
    acts := acts + more;
    OneMoreStep(cfg, c, acts, c3, SILENT);
    acts := acts + [SILENT];
  }

  /** The last three phases, up to the start of the next pass. */
  lemma ClearedSteps(cfg: Settings, c: Config, clock: int) returns (acts: seq<Action>)
    requires Sized(c) && c.pc == AtStartCopies
    ensures OnlyBroker(acts) && Steps(cfg, c, acts, c.(s := P.Cleared(c.s, c.now, cfg), pc := AtSources(0), now := clock))
  {
    var m := |c.s.targets|;
    acts := CopySteps(cfg, c);
    var d1 := c.(s := P.StartCopies(c.s, c.now, cfg), pc := AtFreeY(0));
    var more := FreeYSteps(cfg, d1, m);
    var c2 := d1.(s := P.FreeUnused(d1.s, c.now, m), pc := AtFreeY(m));
    StepsConcat(cfg, c, acts, d1, more, c2);
    acts := acts + more;
    OneMoreStep(cfg, c, acts, c2, SILENT);
    acts := acts + [SILENT];
    var d2 := c2.(pc := AtSweep(0));
    more := SweepSteps(cfg, d2, m);
    var c3 := d2.(s := P.SweepTargets(d2.s, c.now, cfg, m), pc := AtSweep(m));
    StepsConcat(cfg, c, acts, d2, more, c3);
    acts := acts + more;
    OneMoreStep(cfg, c, acts, c3, BrokerStep("", clock));
    acts := acts + [BrokerStep("", clock)];
  }

  lemma StartsEnd(cfg: Settings, c: Config)
    requires Sized(c) && c.pc == AtStartNew && !CanStartNew(c.s)
    ensures Steps(cfg, c, [SILENT], c.(pc := AtStartCopies))
  {
    OneStep(cfg, c, SILENT);
  }

  /** From the first start loop to the end of the pass. */
  lemma RestSteps(cfg: Settings, c: Config, picks: seq<string>, m: State, clock: int) returns (acts: seq<Action>)
    requires Sized(c) && c.pc == AtStartNew && P.StartRounds(c.s, picks, c.now, m) && !CanStartNew(m)
    ensures OnlyBroker(acts) && Steps(cfg, c, acts, c.(s := P.Cleared(m, c.now, cfg), pc := AtSources(0), now := clock))
  {
    P.RoundsKeepSizes(c.s, picks, c.now, m);
    var starts := StartSteps(cfg, c, picks, m);
    var d, e := c.(s := m), c.(s := m, pc := AtStartCopies);
    StartsEnd(cfg, d);
    StepsConcat(cfg, c, starts, d, [SILENT], e);
    var more := ClearedSteps(cfg, e, clock);
    StepsConcat(cfg, c, starts + [SILENT], e, more, c.(s := P.Cleared(m, c.now, cfg), pc := AtSources(0), now := clock));
    acts := starts + [SILENT] + more;
  }

  /** Every pass that the broker class can make is a sequence of broker steps of the system. */
  lemma PassIsRun(cfg: Settings, c: Config, picks: seq<string>, r: State, clock: int) returns (acts: seq<Action>)
    requires Sized(c) && c.pc == AtSources(0) && P.Pass(c.s, c.now, cfg, picks, r)
    ensures OnlyBroker(acts) && Steps(cfg, c, acts, c.(s := r, pc := AtSources(0), now := clock))
  {
    var m: State :| P.StartRounds(P.Matched(c.s, c.now), picks, c.now, m) && !CanStartNew(m) && r == P.Cleared(m, c.now, cfg);
    acts := MatchedSteps(cfg, c);
    var d := c.(s := P.Matched(c.s, c.now), pc := AtStartNew);
    var more := RestSteps(cfg, d, picks, m, clock);
    StepsConcat(cfg, c, acts, d, more, c.(s := r, pc := AtSources(0), now := clock));
    acts := acts + more;
  }

  /** What NewBroker builds is where runs start, before any client has come; any of the runners may
      have announced themselves. */
  lemma NewBrokerIsInit(c: Config, n: nat, m: nat, addresses: seq<string>)
    requires Sized(c) && c.pc == AtSources(0) && |addresses| == m == |c.s.targets|
    requires c.s.sources == P.NewState(n, m).sources && c.s.freeSources == P.NewState(n, m).freeSources
    requires forall j :: 0 <= j < m ==>
               c.s.targets[j] == (if c.announced[j] then Push(P.NewState(n, m).targets[j], FreeMsg(addresses[j]))
                                  else P.NewState(n, m).targets[j])
    requires forall i :: 0 <= i < |c.s.sources| ==> c.held[i] == c.reading[i] == c.using[i] == 0
    requires forall j :: 0 <= j < m ==> !c.busy[j]
    ensures Init(c)
  {
    forall i | 0 <= i < |c.s.sources|
      ensures c.s.sources[i] == NewSlot([]) && c.s.freeSources[i] == i
    {
      assert P.NewState(n, m).sources[i] == P.EMPTY_SLOT && P.NewState(n, m).freeSources[i] == i;
    }
    forall j | 0 <= j < |c.s.targets|
      ensures if c.announced[j] then FreshRunner(c.s.targets[j]) else c.s.targets[j] == NewSlot([])
    {
      assert P.NewState(n, m).targets[j] == P.EMPTY_SLOT;
      assert [] + [FreeMsg(addresses[j])] == [FreeMsg(addresses[j])];
      if c.announced[j] {
        assert c.s.targets[j] == NewSlot([FreeMsg(addresses[j])]);
      }
    }
  }
}
