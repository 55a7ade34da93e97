/** The last two phases of a pass: containers of y-types that nobody uses are set free, and targets that
    have run longer than the release timeout are cleared. */
module BrokerCleared {
  import opened Wrappers
  import opened BrokerModel
  import opened BrokerProtocol
  import opened BrokerLinks
  import opened BrokerDisplaced

  // ------------------------------------------------------------------ one target

  /** A target is set free exactly when it runs a y-type that no running source has; nothing else of
      it changes but its time. */
  lemma FreeUnusedEffect(s: State, k: nat, now: int, j: nat)
    requires k < |s.targets| && j < |s.targets|
    ensures var r, t := FreeUnusedY(s, k, now), s.targets[j];
            && r.sources == s.sources && r.freeSources == s.freeSources && |r.targets| == |s.targets|
            && r.targets[j] ==
                 if j == k && t.state == Run && YType(t.slotType)
                    && !(exists i :: 0 <= i < |s.sources| && s.sources[i].state == Run && s.sources[i].slotType == t.slotType)
                 then t.(state := Free, since := now) else t
  {
  }

  /** A target is cleared exactly when it has run since before the release timeout. */
  lemma SweepEffect(s: State, k: nat, now: int, cfg: Settings, j: nat)
    requires k < |s.targets| && j < |s.targets|
    ensures var r, t := Sweep(s, k, now, cfg), s.targets[j];
            && r.sources == s.sources && r.freeSources == s.freeSources && |r.targets| == |s.targets|
            && r.targets[j] ==
                 if j == k && t.state == Run && now - t.since > cfg.releaseTimeout
                 then t.(state := Free, slotType := "", since := 7) else t
  {
  }

  // ------------------------------------------------------------------ over runs

  /** Some running source has the y-type that target j runs. */
  predicate Used(s: State, j: nat)
    requires j < |s.targets|
  {
    s.targets[j].state == Run && YType(s.targets[j].slotType) ==>
      exists i :: 0 <= i < |s.sources| && s.sources[i].state == Run && s.sources[i].slotType == s.targets[j].slotType
  }

  /** Target j does not run longer than the release timeout. */
  predicate Recent(s: State, j: nat, now: int, cfg: Settings)
    requires j < |s.targets|
  {
    s.targets[j].state == Run ==> now - s.targets[j].since <= cfg.releaseTimeout
  }

  function FreedBelow(c: Config): nat {
    match c.pc
    case AtFreeY(k) => k
    case AtSweep(_) => |c.s.targets|
    case _ => 0
  }

  function SweptBelow(c: Config): nat {
    if c.pc.AtSweep? then c.pc.k else 0
  }

  predicate Cleared(cfg: Settings, c: Config) {
    && Sized(c)
    && (forall j :: 0 <= j < FreedBelow(c) ==> Used(c.s, j))
    && (forall j :: 0 <= j < SweptBelow(c) ==> Recent(c.s, j, c.now, cfg))
  }

  lemma UsedSame(s: State, r: State, j: nat)
    requires j < |s.targets| == |r.targets| && |r.sources| == |s.sources| && Used(s, j)
    requires forall i :: 0 <= i < |s.sources| ==>
               r.sources[i].state == s.sources[i].state && r.sources[i].slotType == s.sources[i].slotType
    requires r.targets[j].slotType == s.targets[j].slotType && r.targets[j].state == s.targets[j].state
    ensures Used(r, j)
  {
    if r.targets[j].state == Run && YType(r.targets[j].slotType) {
      var i :| 0 <= i < |s.sources| && s.sources[i].state == Run && s.sources[i].slotType == s.targets[j].slotType;
      assert r.sources[i].state == Run && r.sources[i].slotType == r.targets[j].slotType;
    }
  }

  lemma ClearedOthers(cfg: Settings, c: Config, a: Action)
    requires Cleared(cfg, c) && Enabled(c, a) && !a.BrokerStep?
    ensures Cleared(cfg, Next(cfg, c, a))
  {
    var d := Next(cfg, c, a);
    SizedStep(cfg, c, a);
    OthersKeepFields(cfg, c, a);
    OthersKeepClock(cfg, c, a);
    assert forall i :: 0 <= i < |c.s.sources| ==> SameFields(c.s.sources[i], d.s.sources[i]);
    forall j | 0 <= j < FreedBelow(d)
      ensures Used(d.s, j)
    {
      assert SameFields(c.s.targets[j], d.s.targets[j]);
      UsedSame(c.s, d.s, j);
    }
    forall j | 0 <= j < SweptBelow(d)
      ensures Recent(d.s, j, d.now, cfg)
    {
      assert SameFields(c.s.targets[j], d.s.targets[j]) && Recent(c.s, j, c.now, cfg);
    }
  }

  lemma OthersKeepClock(cfg: Settings, c: Config, a: Action)
    requires Enabled(c, a) && !a.BrokerStep?
    ensures Next(cfg, c, a).now == c.now
  {
  }

  lemma ClearedFreeing(cfg: Settings, c: Config, a: Action)
    requires Cleared(cfg, c) && Enabled(c, a) && a.BrokerStep? && c.pc.AtFreeY? && c.pc.k < |c.s.targets|
    ensures Cleared(cfg, Next(cfg, c, a))
  {
    var d, k := Next(cfg, c, a), c.pc.k;
    SizedStep(cfg, c, a);
    forall j | 0 <= j < k + 1
      ensures Used(d.s, j)
    {
      FreeUnusedEffect(c.s, k, c.now, j);
      if j < k { UsedSame(c.s, d.s, j); }
    }
  }

  lemma ClearedSweeping(cfg: Settings, c: Config, a: Action)
    requires Cleared(cfg, c) && Enabled(c, a) && a.BrokerStep? && c.pc.AtSweep? && c.pc.k < |c.s.targets|
    ensures Cleared(cfg, Next(cfg, c, a))
  {
    var d, k := Next(cfg, c, a), c.pc.k;
    SizedStep(cfg, c, a);
    forall j | 0 <= j < |d.s.targets|
      ensures Used(d.s, j) && (j < k + 1 ==> Recent(d.s, j, d.now, cfg))
    {
      SweepEffect(c.s, k, c.now, cfg, j);
      assert Used(c.s, j);
      if d.s.targets[j].state == Run { UsedSame(c.s, d.s, j); }
      if j < k { assert Recent(c.s, j, c.now, cfg); }
    }
  }

  lemma ClearedStep(cfg: Settings, c: Config, a: Action)
    requires Cleared(cfg, c) && Enabled(c, a)
    ensures Cleared(cfg, Next(cfg, c, a))
  {
    if !a.BrokerStep? {
      ClearedOthers(cfg, c, a);
    } else if c.pc.AtFreeY? && c.pc.k < |c.s.targets| {
      ClearedFreeing(cfg, c, a);
    } else if c.pc.AtSweep? && c.pc.k < |c.s.targets| {
      ClearedSweeping(cfg, c, a);
    } else {
      SizedStep(cfg, c, a);
      ClearedBetween(cfg, c, a);
    }
  }

  lemma ClearedBetween(cfg: Settings, c: Config, a: Action)
    requires Cleared(cfg, c) && Enabled(c, a) && a.BrokerStep? && Sized(Next(cfg, c, a))
    requires !(c.pc.AtFreeY? && c.pc.k < |c.s.targets|) && !(c.pc.AtSweep? && c.pc.k < |c.s.targets|)
    ensures Cleared(cfg, Next(cfg, c, a))
  {
    assert c.pc.AtFreeY? ==> Next(cfg, c, a).s == c.s && FreedBelow(c) == |c.s.targets|;
  }

  lemma {:induction false} ClearedAt(cfg: Settings, run: seq<Config>, acts: seq<Action>, k: nat)
    requires IsRun(cfg, run, acts) && k < |run|
    ensures Cleared(cfg, run[k])
  {
    if k == 0 {
    } else {
      ClearedAt(cfg, run, acts, k - 1);
      assert Follows(cfg, run, acts, k - 1);
      ClearedStep(cfg, run[k - 1], acts[k - 1]);
    }
  }

  /** Over any run: once phase six has passed a target that runs a y-type, and through the sweep, some
      running source has that type. */
  lemma UnusedAreFreed(cfg: Settings, run: seq<Config>, acts: seq<Action>, k: nat, j: nat)
    requires IsRun(cfg, run, acts) && k < |run| && j < |run[k].s.targets|
    requires (run[k].pc.AtFreeY? && j < run[k].pc.k) || run[k].pc.AtSweep?
    requires run[k].s.targets[j].state == Run && YType(run[k].s.targets[j].slotType)
    ensures exists i :: 0 <= i < |run[k].s.sources|
              && run[k].s.sources[i].state == Run && run[k].s.sources[i].slotType == run[k].s.targets[j].slotType
  {
    ClearedAt(cfg, run, acts, k);
    assert Used(run[k].s, j);
  }

  /** Over any run: once the sweep has passed a target, it does not run since before the release
      timeout. */
  lemma TimedOutAreCleared(cfg: Settings, run: seq<Config>, acts: seq<Action>, k: nat, j: nat)
    requires IsRun(cfg, run, acts) && k < |run| && run[k].pc.AtSweep? && j < run[k].pc.k
    ensures j < |run[k].s.targets|
    ensures run[k].s.targets[j].state == Run ==> run[k].now - run[k].s.targets[j].since <= cfg.releaseTimeout
  {
    ClearedAt(cfg, run, acts, k);
    assert Recent(run[k].s, j, run[k].now, cfg);
  }

  // ------------------------------------------------------------------ how long waiters of the second loop have waited

  /** Go's quotient: the remainder is smaller than the divisor and has the sign of the dividend. */
  lemma TruncDivBounds(a: int, b: int)
    requires b > 0
    ensures var rest := a - b * TruncDiv(a, b);
            -b < rest < b && (a >= 0 ==> rest >= 0) && (a <= 0 ==> rest <= 0)
  {
    if a < 0 {
      assert -a == b * ((-a) / b) + (-a) % b;
    }
  }

  /** A slot has waited long enough when its time is more than the whole seconds of four sleeps ago. */
  lemma WaitedIff(since: int, now: int, cfg: Settings, seconds: int)
    requires cfg.loopSleep >= 0 && 1000 * seconds <= 4 * cfg.loopSleep < 1000 * (seconds + 1)
    ensures Waited(since, now, cfg) <==> now - since > seconds
  {
    TruncDivBounds(4 * cfg.loopSleep, 1000);
  }

  // ------------------------------------------------------------------ how many wait

  function Waiting(s: State, t: string, k: nat): set<nat>
    requires k <= |s.sources|
  {
    set i: nat | i < k && s.sources[i].state == Wait && s.sources[i].opposite == None && s.sources[i].slotType == t
  }

  lemma {:induction false} WaitCountIs(s: State, t: string, k: nat)
    requires k <= |s.sources|
    ensures WaitCount(s, t, k) == |Waiting(s, t, k)|
  {
    if k == 0 {
      assert Waiting(s, t, 0) == {};
    } else {
      WaitCountIs(s, t, k - 1);
      var last := s.sources[k - 1];
      if Unserved(last) && last.slotType == t {
        assert Waiting(s, t, k) == Waiting(s, t, k - 1) + {k - 1};
      } else {
        assert Waiting(s, t, k) == Waiting(s, t, k - 1);
      }
    }
  }

  /** The type that a start settles on has as many unlinked waiters as any other that no target
      carries. */
  lemma MostWait(s: State, t: string, u: string)
    requires MostRequested(s, t) && !Carried(s, u)
    ensures |Waiting(s, u, |s.sources|)| <= |Waiting(s, t, |s.sources|)|
  {
    WaitCountIs(s, t, |s.sources|);
    WaitCountIs(s, u, |s.sources|);
    assert WaitCount(s, u, |s.sources|) > 0 ==> WaitOnly(s, u);
  }
}
