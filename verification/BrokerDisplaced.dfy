/** How long a container that nobody is linked to stays up.  Nothing holds the target of a job on
    port 3 once it is up: the job runs on until its runner is told to start another container. */
module BrokerDisplaced {
  import opened Wrappers
  import opened BrokerModel
  import opened BrokerProtocol
  import opened BrokerInvariants
  import opened BrokerLinks
  import opened BrokerRuns

  /** Target j is Free and no other Free target has been so for longer; of equals the first counts. */
  predicate LongestFree(s: State, j: nat) {
    && j < |s.targets| && s.targets[j].state == Free
    && forall h :: 0 <= h < |s.targets| && s.targets[h].state == Free ==>
         s.targets[j].since <= s.targets[h].since && (h < j ==> s.targets[j].since < s.targets[h].since)
  }

  /** Some waiter has been promised nothing, and no target carries its type. */
  predicate NewIsDue(s: State) {
    exists i :: 0 <= i < |s.sources| && Unserved(s.sources[i]) && !Carried(s, s.sources[i].slotType)
  }

  /** The clock was at an earlier second then, and four sleeps of the broker lie between. */
  predicate Waited(since: int, now: int, cfg: Settings) {
    since < now && since < now - TruncDiv(4 * cfg.loopSleep, 1000)
  }

  /** Some x-type waiter that has been promised nothing has waited long enough for a copy. */
  predicate CopyIsDue(s: State, now: int, cfg: Settings) {
    exists i :: 0 <= i < |s.sources| && Unserved(s.sources[i]) && !YType(s.sources[i].slotType) && Waited(s.sources[i].since, now, cfg)
  }

  /** A start round is due, and target j is the one that has been Free longest. */
  predicate Displaces(cfg: Settings, c: Config, a: Action, j: nat) {
    && a.BrokerStep? && LongestFree(c.s, j)
    && ((c.pc == AtStartNew && NewIsDue(c.s))
        || (c.pc == AtStartCopies && CopyIsDue(c.s, c.now, cfg) && Waited(c.s.targets[j].since, c.now, cfg)))
  }

  // ------------------------------------------------------------------ which target a start takes

  lemma OldestFreeIff(s: State, j: nat)
    requires j < |s.targets|
    ensures OldestFree(s, |s.targets|) == Some(j) <==> LongestFree(s, j)
  {
    var r := OldestFree(s, |s.targets|);
    assert r.Some? ==> LongestFree(s, r.value);
  }

  lemma {:induction false} OldestRunnerIsFirst(s: State, now: int, k: nat)
    requires k <= |s.targets|
    ensures var r := OldestRunner(s, now, k);
            r.Some? ==> forall h :: 0 <= h < r.value && s.targets[h].state == Free ==> s.targets[r.value].since < s.targets[h].since
  {
    if k == 0 {
    } else {
      OldestRunnerIsFirst(s, now, k - 1);
      OldestRunnerIsOldest(s, now, k - 1);
    }
  }

  lemma OldestRunnerIff(s: State, now: int, j: nat)
    requires j < |s.targets|
    ensures OldestRunner(s, now, |s.targets|) == Some(j) <==> LongestFree(s, j) && s.targets[j].since < now
  {
    var r := OldestRunner(s, now, |s.targets|);
    OldestRunnerIsOldest(s, now, |s.targets|);
    OldestRunnerIsFirst(s, now, |s.targets|);
    assert r.Some? ==> LongestFree(s, r.value);
  }

  // ------------------------------------------------------------------ when a start is due

  lemma NewIsDueIff(s: State)
    ensures NewIsDue(s) <==> exists t :: WaitOnly(s, t)
  {
    if t :| WaitOnly(s, t) {
      WaitCounted(s, t, |s.sources|);
    }
    if i :| 0 <= i < |s.sources| && Unserved(s.sources[i]) && !Carried(s, s.sources[i].slotType) {
      WaitCounted(s, s.sources[i].slotType, |s.sources|);
      assert WaitOnly(s, s.sources[i].slotType);
    }
  }

  lemma CanStartNewIff(s: State, j: nat)
    requires j < |s.targets|
    ensures CanStartNew(s) && OldestFree(s, |s.targets|) == Some(j) <==> NewIsDue(s) && LongestFree(s, j)
  {
    NewIsDueIff(s);
    OldestFreeIff(s, j);
  }

  lemma CopyIsDueIff(s: State, now: int, cfg: Settings)
    ensures CopyIsDue(s, now, cfg)
       <==> var w := OldestWaiter(s, now, |s.sources|); w.Some? && Waited(s.sources[w.value].since, now, cfg)
  {
    OldestWaiterIsOldest(s, now, |s.sources|);
    if i :| 0 <= i < |s.sources| && Unserved(s.sources[i]) && !YType(s.sources[i].slotType) && Waited(s.sources[i].since, now, cfg) {
      assert CopyWaiter(s.sources[i], now);
    }
  }

  lemma CanStartCopyIff(s: State, now: int, cfg: Settings, j: nat)
    requires j < |s.targets|
    ensures CanStartCopy(s, now, cfg) && OldestRunner(s, now, |s.targets|) == Some(j)
       <==> CopyIsDue(s, now, cfg) && LongestFree(s, j) && Waited(s.targets[j].since, now, cfg)
  {
    CopyIsDueIff(s, now, cfg);
    OldestRunnerIff(s, now, j);
  }

  // ------------------------------------------------------------------ one step

  /** What a start makes of every target. */
  lemma StartTargets(s: State, o: nat, i: nat, backLink: bool, now: int, j: nat)
    requires i < |s.sources| && o < |s.targets| && j < |s.targets|
    ensures var r := StartTarget(s, o, i, backLink, now).targets;
            && |r| == |s.targets|
            && (j != o ==> r[j] == s.targets[j])
            && (j == o ==> r[j].output == s.targets[j].output + [StartMsg(s.sources[i].runInfo)]
                           && r[j].slotType == s.sources[i].slotType
                           && r[j].state == Starting && r[j].since == now
                           && r[j].opposite == (if backLink then Some(i) else s.targets[j].opposite))
  {
  }

  predicate MoreToRead(before: Slot, after: Slot) {
    |after.output| > |before.output|
  }

  lemma SendsNothing(cfg: Settings, c: Config, a: Action, j: nat)
    requires Enabled(c, a) && j < |c.s.targets|
    requires a.BrokerStep? ==> !(c.pc == AtStartNew && CanStartNew(c.s)) && !(c.pc == AtStartCopies && CanStartCopy(c.s, c.now, cfg))
    ensures var d := Next(cfg, c, a); |d.s.targets| == |c.s.targets| && !MoreToRead(c.s.targets[j], d.s.targets[j])
  {
    if a.BrokerStep? && c.pc.AtMatch? && c.pc.k < |c.s.sources| {
      MatchTouches(c.s, c.pc.k, c.now, |c.s.targets|);
    }
  }

  /** A step of the system sends something to runner j exactly when it displaces what its target
      carries; it sends one Start then. */
  lemma DisplacesIff(cfg: Settings, c: Config, a: Action, j: nat)
    requires Enabled(c, a) && j < |c.s.targets|
    ensures |Next(cfg, c, a).s.targets| == |c.s.targets|
    ensures MoreToRead(c.s.targets[j], Next(cfg, c, a).s.targets[j]) <==> Displaces(cfg, c, a, j)
    ensures Displaces(cfg, c, a, j) ==>
              exists info :: Next(cfg, c, a).s.targets[j].output == c.s.targets[j].output + [StartMsg(info)]
  {
    if a.BrokerStep? && c.pc == AtStartNew && CanStartNew(c.s) {
      CanStartNewIff(c.s, j);
      NewIsDueIff(c.s);
      StartTargets(c.s, OldestFree(c.s, |c.s.targets|).value, StartSource(c.s, a.pick), true, c.now, j);
    } else if a.BrokerStep? && c.pc == AtStartCopies && CanStartCopy(c.s, c.now, cfg) {
      CanStartCopyIff(c.s, c.now, cfg, j);
      StartTargets(c.s, OldestRunner(c.s, c.now, |c.s.targets|).value, OldestWaiter(c.s, c.now, |c.s.sources|).value, false, c.now, j);
    } else {
      SendsNothing(cfg, c, a, j);
      if Displaces(cfg, c, a, j) {
        CanStartNewIff(c.s, j);
        CanStartCopyIff(c.s, c.now, cfg, j);
        assert false;
      }
    }
  }

  /** The first start loop takes a container away exactly from the target that has been Free longest:
      the type it starts is one that no target carries. */
  lemma StartNewReplacesIff(s: State, t: string, now: int, j: nat)
    requires OldestFree(s, |s.targets|).Some? && WaitOnly(s, t) && j < |s.targets|
    ensures StartNew(s, t, now).targets[j].slotType != s.targets[j].slotType <==> LongestFree(s, j)
  {
    OldestFreeIff(s, j);
    StartTargets(s, OldestFree(s, |s.targets|).value, StartSource(s, t), true, now, j);
    assert s.targets[j].slotType != t;
  }

  /** So does the second start loop: after the matching phase the type of a Free target is never that
      of a waiter. */
  lemma StartCopyReplacesIff(s: State, now: int, cfg: Settings, j: nat)
    requires CanStartCopy(s, now, cfg) && SettledUpTo(s, |s.sources|) && j < |s.targets|
    ensures StartCopy(s, now, cfg).targets[j].slotType != s.targets[j].slotType <==> LongestFree(s, j)
  {
    OldestRunnerIff(s, now, j);
    var o := OldestRunner(s, now, |s.targets|).value;
    OldestRunnerIff(s, now, o);
    assert LongestFree(s, j) ==> j == o;
    StartTargets(s, o, OldestWaiter(s, now, |s.sources|).value, false, now, j);
    assert Settled(s, OldestWaiter(s, now, |s.sources|).value);
  }

  /** What target j carries is lost then: in every reachable configuration the new type is another. */
  lemma DisplacedIsReplaced(cfg: Settings, c: Config, a: Action, j: nat)
    requires Always(c) && Enabled(c, a) && Displaces(cfg, c, a, j)
    ensures var d := Next(cfg, c, a);
            && |d.s.targets| == |c.s.targets| && d.s.targets[j].state == Starting
            && d.s.targets[j].slotType != c.s.targets[j].slotType
  {
    if c.pc == AtStartNew {
      CanStartNewIff(c.s, j);
      StartNewReplacesIff(c.s, a.pick, c.now, j);
      StartTargets(c.s, j, StartSource(c.s, a.pick), true, c.now, j);
    } else {
      CanStartCopyIff(c.s, c.now, cfg, j);
      StartCopyReplacesIff(c.s, c.now, cfg, j);
      StartTargets(c.s, j, OldestWaiter(c.s, c.now, |c.s.sources|).value, false, c.now, j);
    }
  }

  // ------------------------------------------------------------------ the release duration of a run

  /** This step reads from runner j that its container is up. */
  predicate ComesUp(c: Config, a: Action, j: nat) {
    a.BrokerStep? && c.pc == AtTargets(j) && j < |c.s.targets| && c.s.targets[j].input != [] && c.s.targets[j].input[0].StartedMsg?
  }

  /** Runner j has nothing to read and nothing to start: the container it started last is left alone. */
  predicate LeftAlone(c: Config, j: nat) {
    Sized(c) && j < |c.s.targets| && c.s.targets[j].output == [] && !c.busy[j]
  }

  /** Step h is taken after point k, and up to it the clock has stayed within the release timeout. */
  predicate WithinRelease(cfg: Settings, run: seq<Config>, k: nat, h: nat) {
    k <= h < |run| - 1 && forall g :: k <= g <= h ==> run[g].now <= run[k].now + cfg.releaseTimeout
  }

  /** Step h sends something to runner j. */
  predicate SendsTo(run: seq<Config>, h: nat, j: nat) {
    && h + 1 < |run| && j < |run[h].s.targets| && j < |run[h + 1].s.targets|
    && MoreToRead(run[h].s.targets[j], run[h + 1].s.targets[j])
  }

  /** Step h leaves runner j without anything to do. */
  predicate LeavesAlone(run: seq<Config>, h: nat, j: nat) {
    h + 1 < |run| && LeftAlone(run[h + 1], j)
  }

  lemma {:induction false} TargetsStay(cfg: Settings, run: seq<Config>, acts: seq<Action>, k: nat)
    requires IsRun(cfg, run, acts) && k < |run|
    ensures |run[k].s.targets| == |run[0].s.targets| && Sized(run[k])
  {
    if k == 0 {
    } else {
      TargetsStay(cfg, run, acts, k - 1);
      assert Follows(cfg, run, acts, k - 1);
      NextSizes(cfg, run[k - 1], acts[k - 1]);
      SizedStep(cfg, run[k - 1], acts[k - 1]);
    }
  }

  lemma LeftAloneStep(cfg: Settings, c: Config, a: Action, j: nat)
    requires Enabled(c, a) && LeftAlone(c, j)
    ensures LeftAlone(Next(cfg, c, a), j) <==> !Displaces(cfg, c, a, j)
  {
    SizedStep(cfg, c, a);
    DisplacesIff(cfg, c, a, j);
    BusyStep(cfg, c, a, j);
  }

  lemma BusyStep(cfg: Settings, c: Config, a: Action, j: nat)
    requires Enabled(c, a) && LeftAlone(c, j)
    ensures j < |Next(cfg, c, a).busy| && !Next(cfg, c, a).busy[j]
  {
  }

  lemma ComesUpLeftAlone(cfg: Settings, c: Config, a: Action, j: nat)
    requires Enabled(c, a) && ComesUp(c, a, j) && OneStart(c)
    ensures LeftAlone(Next(cfg, c, a), j)
  {
    SizedStep(cfg, c, a);
    assert InFlight(c.s.targets[j], c.busy[j]);
    MessageRead(c.s, j, c.now);
  }

  lemma {:induction false} LeftAloneAt(cfg: Settings, run: seq<Config>, acts: seq<Action>, k: nat, h: nat, j: nat)
    requires IsRun(cfg, run, acts) && k <= h < |run| && LeftAlone(run[k], j)
    requires forall g :: k <= g < h ==> !Displaces(cfg, run[g], acts[g], j)
    ensures LeftAlone(run[h], j)
    decreases h
  {
    if h == k {
    } else {
      LeftAloneAt(cfg, run, acts, k, h - 1, j);
      assert Follows(cfg, run, acts, h - 1);
      LeftAloneStep(cfg, run[h - 1], acts[h - 1], j);
    }
  }

  /** No step within the release timeout of point k displaces what target j carries. */
  ghost predicate Spared(cfg: Settings, run: seq<Config>, acts: seq<Action>, k: nat, j: nat)
    requires |run| == |acts| + 1
  {
    forall h: nat :: WithinRelease(cfg, run, k, h) ==> !Displaces(cfg, run[h], acts[h], j)
  }

  /** From the moment the broker has read that a container is up until the release timeout later, its
      runner is sent nothing exactly when no step of that time displaces it. */
  lemma UndisturbedIff(cfg: Settings, run: seq<Config>, acts: seq<Action>, k: nat, j: nat)
    requires IsRun(cfg, run, acts) && k < |acts| && ComesUp(run[k], acts[k], j)
    ensures (forall h: nat :: WithinRelease(cfg, run, k + 1, h) ==> !SendsTo(run, h, j)) <==> Spared(cfg, run, acts, k + 1, j)
  {
    TargetsStay(cfg, run, acts, k);
    forall h | k <= h < |acts|
      ensures SendsTo(run, h, j) <==> Displaces(cfg, run[h], acts[h], j)
    {
      TargetsStay(cfg, run, acts, h);
      assert Follows(cfg, run, acts, h);
      DisplacesIff(cfg, run[h], acts[h], j);
    }
  }

  lemma StaysAlone(cfg: Settings, run: seq<Config>, acts: seq<Action>, k: nat, h: nat, j: nat)
    requires IsRun(cfg, run, acts) && WithinRelease(cfg, run, k, h) && LeftAlone(run[k], j) && Spared(cfg, run, acts, k, j)
    ensures LeavesAlone(run, h, j)
  {
    forall g | k <= g < h + 1
      ensures !Displaces(cfg, run[g], acts[g], j)
    {
      assert WithinRelease(cfg, run, k, g);
    }
    LeftAloneAt(cfg, run, acts, k, h + 1, j);
  }

  lemma DisplacedNotAlone(cfg: Settings, run: seq<Config>, acts: seq<Action>, h: nat, j: nat)
    requires IsRun(cfg, run, acts) && h < |acts| && Displaces(cfg, run[h], acts[h], j)
    ensures !LeavesAlone(run, h, j)
  {
    assert Follows(cfg, run, acts, h);
    DisplacesIff(cfg, run[h], acts[h], j);
  }

  /** With one start in flight per runner, that runner has nothing to read and nothing to start all
      that time on the same condition. */
  lemma JobRunsOnIff(cfg: Settings, run: seq<Config>, acts: seq<Action>, k: nat, j: nat)
    requires IsRun(cfg, run, acts) && k < |acts| && ComesUp(run[k], acts[k], j) && OneStart(run[k])
    ensures (forall h: nat :: WithinRelease(cfg, run, k + 1, h) ==> LeavesAlone(run, h, j)) <==> Spared(cfg, run, acts, k + 1, j)
  {
    assert LeftAlone(run[k + 1], j) by {
      assert Follows(cfg, run, acts, k);
      ComesUpLeftAlone(cfg, run[k], acts[k], j);
    }
    if Spared(cfg, run, acts, k + 1, j) {
      forall h: nat | WithinRelease(cfg, run, k + 1, h)
        ensures LeavesAlone(run, h, j)
      {
        StaysAlone(cfg, run, acts, k + 1, h, j);
      }
    } else {
      var h: nat :| WithinRelease(cfg, run, k + 1, h) && Displaces(cfg, run[h], acts[h], j);
      DisplacedNotAlone(cfg, run, acts, h, j);
    }
  }
}
