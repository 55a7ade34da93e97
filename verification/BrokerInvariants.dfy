/** What holds in every reachable configuration, whatever clients do and whenever the sweep
    fires: well-formed links, one shared container per y-type, work conservation at the end of a
    pass and coverage after the start loops. */
module BrokerInvariants {
  import opened Wrappers
  import opened BrokerModel
  import opened BrokerProtocol

  // ------------------------------------------------------------------ shape

  /** A Run source has a link, so releasing it never dereferences nil; a waiter asks for something. */
  predicate SourceOk(source: Slot, targetCount: nat) {
    && (source.opposite.Some? ==> source.opposite.value < targetCount)
    && (source.state == Run ==> source.opposite.Some?)
    && (source.state == Wait ==> source.slotType != "")
    && forall a :: 0 <= a < |source.input| ==> source.input[a].AcquireMsg? ==> source.input[a].slotType != ""
  }

  predicate Shape(s: State) {
    && (forall i :: 0 <= i < |s.sources| ==> SourceOk(s.sources[i], |s.targets|))
    && (forall a :: 0 <= a < |s.freeSources| ==> s.freeSources[a] < |s.sources|)
  }

  lemma ShapeReadSource(s: State, i: nat, now: int)
    requires Shape(s) && i < |s.sources|
    ensures Shape(ReadSource(s, i, now))
  {
    var r := ReadSource(s, i, now);
    assert SourceOk(s.sources[i], |s.targets|);
    forall h | 0 <= h < |r.sources|
      ensures SourceOk(r.sources[h], |r.targets|)
    {
      if h != i { assert r.sources[h] == s.sources[h]; }
    }
  }

  lemma ShapeMatch(s: State, i: nat, now: int)
    requires Shape(s) && i < |s.sources|
    ensures Shape(MatchSource(s, i, now))
  {
    MatchServes(s, i, now, |s.targets|);
    MatchTouches(s, i, now, |s.targets|);
    assert SourceOk(s.sources[i], |s.targets|);
  }

  lemma ShapeStart(s: State, j: nat, i: nat, backLink: bool, now: int)
    requires Shape(s) && i < |s.sources| && j < |s.targets|
    ensures Shape(StartTarget(s, j, i, backLink, now))
  {
    var r := StartTarget(s, j, i, backLink, now);
    assert SourceOk(s.sources[i], |s.targets|);
    forall h | 0 <= h < |r.sources|
      ensures SourceOk(r.sources[h], |r.targets|)
    {
      if h != i { assert r.sources[h] == s.sources[h]; }
    }
  }

  /** What an Error message at the head of target j's queue does on the source side. */
  lemma ErrorEffect(s: State, j: nat)
    requires j < |s.targets|
    ensures s.targets[j].input != [] && s.targets[j].input[0].ErrorMsg? ==>
              var t := s.targets[j];
              var p := WithTarget(s, j, t.(input := t.input[1..]));
              var r := FailWaiters(p, t.slotType, t.input[0].text, |s.sources|);
              && (forall i :: 0 <= i < |s.sources| ==>
                    r.sources[i] == if WaitsFor(s.sources[i], t.slotType) then Failed(s.sources[i], t.input[0].text) else s.sources[i])
              && |r.freeSources| >= |s.freeSources| && r.freeSources[..|s.freeSources|] == s.freeSources
              && (forall a :: |s.freeSources| <= a < |r.freeSources| ==> r.freeSources[a] < |s.sources|)
  {
    var t := s.targets[j];
    if t.input != [] && t.input[0].ErrorMsg? {
      FailWaitersEffect(WithTarget(s, j, t.(input := t.input[1..])), t.slotType, t.input[0].text, |s.sources|);
    }
  }

  lemma ShapeReadTarget(s: State, j: nat, now: int)
    requires Shape(s) && j < |s.targets|
    ensures Shape(ReadTarget(s, j, now))
  {
    var r := ReadTarget(s, j, now);
    ErrorEffect(s, j);
    forall h | 0 <= h < |r.sources|
      ensures SourceOk(r.sources[h], |r.targets|)
    {
      assert SourceOk(s.sources[h], |s.targets|);
    }
  }

  lemma ShapeStep(cfg: Settings, c: Config, a: Action)
    requires Shape(c.s) && Enabled(c, a)
    ensures Shape(Next(cfg, c, a).s)
  {
    var d := Next(cfg, c, a);
    if a.BrokerStep? {
      match c.pc
      case AtSources(k) => if k < |c.s.sources| { ShapeReadSource(c.s, k, c.now); }
      case AtTargets(k) => if k < |c.s.targets| { ShapeReadTarget(c.s, k, c.now); }
      case AtMatch(k) => if k < |c.s.sources| { ShapeMatch(c.s, k, c.now); }
      case AtStartNew =>
        if CanStartNew(c.s) {
          ShapeStart(c.s, OldestFree(c.s, |c.s.targets|).value, StartSource(c.s, a.pick), true, c.now);
        }
      case AtStartCopies =>
        if CanStartCopy(c.s, c.now, cfg) {
          ShapeStart(c.s, OldestRunner(c.s, c.now, |c.s.targets|).value, OldestWaiter(c.s, c.now, |c.s.sources|).value, false, c.now);
        }
      case AtFreeY(k) =>
      case AtSweep(k) =>
    } else {
      OthersKeepFields(cfg, c, a);
      forall i | 0 <= i < |c.s.sources|
        ensures SourceOk(d.s.sources[i], |d.s.targets|)
      {
        assert SourceOk(c.s.sources[i], |c.s.targets|);
      }
    }
  }

  // ------------------------------------------------------------------ what each phase does to targets

  /** Reading a source message may free its link target; nothing else changes on the target side. */
  lemma ReadSourceTargets(s: State, i: nat, now: int, j: nat)
    requires i < |s.sources| && j < |s.targets|
    ensures var r := ReadSource(s, i, now);
            && |r.targets| == |s.targets| && |r.sources| == |s.sources|
            && (forall h :: 0 <= h < |s.sources| && h != i ==> r.sources[h] == s.sources[h])
            && r.targets[j] in [s.targets[j],
                                s.targets[j].(state := Free, since := now),
                                s.targets[j].(state := Free, slotType := "", since := 3)]
  {
  }

  // ------------------------------------------------------------------ one container per y-type

  predicate SharedY(s: State) {
    forall j, k :: 0 <= j < k < |s.targets| && YType(s.targets[j].slotType) ==>
      s.targets[j].slotType != s.targets[k].slotType
  }

  /** Targets keep their types or lose them. */
  predicate NoNewTypes(s: State, r: State) {
    |r.targets| == |s.targets|
    && forall j :: 0 <= j < |s.targets| ==> r.targets[j].slotType in [s.targets[j].slotType, ""]
  }

  lemma NoNewTypesStep(cfg: Settings, c: Config, a: Action)
    requires Enabled(c, a) && a.BrokerStep? && !c.pc.AtStartNew? && !c.pc.AtStartCopies?
    ensures NoNewTypes(c.s, Next(cfg, c, a).s)
  {
    match c.pc
    case AtSources(k) =>
      if k < |c.s.sources| {
        forall j | 0 <= j < |c.s.targets|
          ensures ReadSource(c.s, k, c.now).targets[j].slotType in [c.s.targets[j].slotType, ""]
        {
          ReadSourceTargets(c.s, k, c.now, j);
        }
      }
    case AtTargets(k) =>
    case AtMatch(k) => if k < |c.s.sources| { MatchTouches(c.s, k, c.now, |c.s.targets|); }
    case AtFreeY(k) =>
    case AtSweep(k) =>
  }

  lemma SharedYStart(s: State, j: nat, i: nat, backLink: bool, now: int)
    requires SharedY(s) && i < |s.sources| && j < |s.targets|
    requires YType(s.sources[i].slotType) ==> !Carried(s, s.sources[i].slotType)
    ensures SharedY(StartTarget(s, j, i, backLink, now))
  {
    var r := StartTarget(s, j, i, backLink, now);
    assert forall k :: 0 <= k < |s.targets| && k != j ==> r.targets[k] == s.targets[k];
  }

  lemma SharedYStep(cfg: Settings, c: Config, a: Action)
    requires SharedY(c.s) && Enabled(c, a)
    ensures SharedY(Next(cfg, c, a).s)
  {
    if !a.BrokerStep? {
      OthersKeepFields(cfg, c, a);
      assert forall j :: 0 <= j < |c.s.targets| ==> SameFields(c.s.targets[j], Next(cfg, c, a).s.targets[j]);
    } else if c.pc.AtStartNew? {
      if CanStartNew(c.s) {
        SharedYStart(c.s, OldestFree(c.s, |c.s.targets|).value, StartSource(c.s, a.pick), true, c.now);
      }
    } else if c.pc.AtStartCopies? {
      if CanStartCopy(c.s, c.now, cfg) {
        SharedYStart(c.s, OldestRunner(c.s, c.now, |c.s.targets|).value, OldestWaiter(c.s, c.now, |c.s.sources|).value, false, c.now);
      }
    } else {
      NoNewTypesStep(cfg, c, a);
    }
  }

  /** Hence a y-type waiter is linked at most once and gets at most one reply. */
  lemma SharedYOneHit(s: State, i: nat)
    requires i < |s.sources|
    ensures SharedY(s) && YType(s.sources[i].slotType) ==> |Hits(s, i, |s.targets|)| <= 1
  {
    var hits := Hits(s, i, |s.targets|);
    if |hits| > 1 {
      assert Matches(s.targets[hits[0]], s.sources[i]) && Matches(s.targets[hits[1]], s.sources[i]);
      assert hits[0] < hits[1];
    }
  }

  // ------------------------------------------------------------------ work conservation

  /** Source i does not wait, or no target is there for it. */
  predicate Settled(s: State, i: nat)
    requires i < |s.sources|
  {
    s.sources[i].state == Wait ==> forall j :: 0 <= j < |s.targets| ==> !Matches(s.targets[j], s.sources[i])
  }

  predicate SettledUpTo(s: State, k: nat)
    requires k <= |s.sources|
  {
    forall i :: 0 <= i < k ==> Settled(s, i)
  }

  /** How much of the matching phase has been done in this pass. */
  function MatchedBelow(c: Config): nat {
    match c.pc
    case AtSources(_) => 0
    case AtTargets(_) => 0
    case AtMatch(k) => k
    case _ => |c.s.sources|
  }

  predicate WorkConserving(c: Config) {
    Sized(c) && SettledUpTo(c.s, MatchedBelow(c))
  }

  lemma SettledMatch(s: State, i: nat, now: int)
    requires i < |s.sources| && SettledUpTo(s, i)
    ensures SettledUpTo(MatchSource(s, i, now), i + 1)
  {
    var r := MatchSource(s, i, now);
    if s.sources[i].state == Wait {
      MatchServes(s, i, now, |s.targets|);
      MatchTouches(s, i, now, |s.targets|);
    }
    forall h | 0 <= h < i + 1
      ensures Settled(r, h)
    {
      if h < i { assert Settled(s, h); }
    }
  }

  lemma SettledStart(s: State, j: nat, i: nat, backLink: bool, now: int)
    requires SettledUpTo(s, |s.sources|) && i < |s.sources| && j < |s.targets|
    ensures SettledUpTo(StartTarget(s, j, i, backLink, now), |s.sources|)
  {
    var r := StartTarget(s, j, i, backLink, now);
    forall h | 0 <= h < |s.sources|
      ensures Settled(r, h)
    {
      assert Settled(s, h);
    }
  }

  lemma SettledClear(s: State, r: State, j: nat)
    requires Shape(s) && SettledUpTo(s, |s.sources|) && j < |s.targets|
    requires r.sources == s.sources && |r.targets| == |s.targets|
    requires forall k :: 0 <= k < |s.targets| && k != j ==> r.targets[k] == s.targets[k]
    requires s.targets[j].state == Run
    requires r.targets[j].slotType == "" || (r.targets[j].slotType == s.targets[j].slotType && YType(s.targets[j].slotType))
    ensures SettledUpTo(r, |r.sources|)
  {
    forall h | 0 <= h < |r.sources|
      ensures Settled(r, h)
    {
      assert Settled(s, h) && SourceOk(s.sources[h], |s.targets|);
    }
  }

  lemma WorkConservingStep(cfg: Settings, c: Config, a: Action)
    requires Shape(c.s) && WorkConserving(c) && Enabled(c, a)
    ensures WorkConserving(Next(cfg, c, a))
  {
    var d := Next(cfg, c, a);
    SizedStep(cfg, c, a);
    if !a.BrokerStep? {
      OthersKeepFields(cfg, c, a);
      forall i | 0 <= i < MatchedBelow(d)
        ensures Settled(d.s, i)
      {
        assert Settled(c.s, i) && SameFields(c.s.sources[i], d.s.sources[i]);
        assert forall j :: 0 <= j < |c.s.targets| ==> SameFields(c.s.targets[j], d.s.targets[j]);
      }
    } else {
      match c.pc
      case AtSources(k) =>
      case AtTargets(k) =>
      case AtMatch(k) => if k < |c.s.sources| { SettledMatch(c.s, k, c.now); }
      case AtStartNew =>
        if CanStartNew(c.s) {
          SettledStart(c.s, OldestFree(c.s, |c.s.targets|).value, StartSource(c.s, a.pick), true, c.now);
        }
      case AtStartCopies =>
        if CanStartCopy(c.s, c.now, cfg) {
          SettledStart(c.s, OldestRunner(c.s, c.now, |c.s.targets|).value, OldestWaiter(c.s, c.now, |c.s.sources|).value, false, c.now);
        }
      case AtFreeY(k) => if k < |c.s.targets| && d.s != c.s { SettledClear(c.s, d.s, k); }
      case AtSweep(k) => if k < |c.s.targets| && d.s != c.s { SettledClear(c.s, d.s, k); }
    }
  }

  // ------------------------------------------------------------------ coverage of the start loops

  /** No target is Free, or every type an unlinked source waits for is carried by some target. */
  predicate Covered(s: State) {
    (forall j :: 0 <= j < |s.targets| ==> s.targets[j].state != Free)
    || (forall i :: 0 <= i < |s.sources| && Unserved(s.sources[i]) ==> Carried(s, s.sources[i].slotType))
  }

  predicate StartsDone(pc: Phase) {
    pc == AtStartCopies || pc == AtFreeY(0)
  }

  lemma CoveredOnExit(s: State)
    requires !CanStartNew(s)
    ensures Covered(s)
  {
    forall i | OldestFree(s, |s.targets|).Some? && 0 <= i < |s.sources| && Unserved(s.sources[i])
      ensures Carried(s, s.sources[i].slotType)
    {
      WaitCounted(s, s.sources[i].slotType, |s.sources|);
      assert !WaitOnly(s, s.sources[i].slotType);
    }
  }

  /** Starting another copy takes a Free target no waiter asks for, so it uncovers nothing. */
  lemma CoveredCopy(s: State, now: int, cfg: Settings)
    requires Covered(s) && SettledUpTo(s, |s.sources|) && CanStartCopy(s, now, cfg)
    ensures Covered(StartCopy(s, now, cfg))
  {
    var r := StartCopy(s, now, cfg);
    var j := OldestRunner(s, now, |s.targets|).value;
    forall i | 0 <= i < |r.sources| && Unserved(r.sources[i])
      ensures Carried(r, r.sources[i].slotType)
    {
      assert Settled(s, i) && Unserved(s.sources[i]) && r.sources[i].slotType == s.sources[i].slotType;
      assert Carried(s, s.sources[i].slotType);
      var k :| 0 <= k < |s.targets| && s.targets[k].slotType == s.sources[i].slotType;
      assert k != j;
      assert r.targets[k].slotType == s.sources[i].slotType;
    }
  }

  lemma CoveredStep(cfg: Settings, c: Config, a: Action)
    requires WorkConserving(c) && Enabled(c, a)
    requires StartsDone(c.pc) ==> Covered(c.s)
    ensures StartsDone(Next(cfg, c, a).pc) ==> Covered(Next(cfg, c, a).s)
  {
    var d := Next(cfg, c, a);
    if StartsDone(d.pc) {
      if !a.BrokerStep? {
        OthersKeepFields(cfg, c, a);
        CoveredSameFields(c.s, d.s);
      } else if c.pc.AtStartNew? {
        CoveredOnExit(c.s);
      } else if c.pc.AtStartCopies? && CanStartCopy(c.s, c.now, cfg) {
        CoveredCopy(c.s, c.now, cfg);
      }
    }
  }

  lemma CoveredSameFields(s: State, r: State)
    requires Covered(s) && |r.sources| == |s.sources| && |r.targets| == |s.targets|
    requires forall i :: 0 <= i < |s.sources| ==> SameFields(s.sources[i], r.sources[i])
    requires forall j :: 0 <= j < |s.targets| ==> SameFields(s.targets[j], r.targets[j])
    ensures Covered(r)
  {
    forall i | 0 <= i < |r.sources| && Unserved(r.sources[i]) && Carried(s, s.sources[i].slotType)
      ensures Carried(r, r.sources[i].slotType)
    {
      assert SameFields(s.sources[i], r.sources[i]);
      var k :| 0 <= k < |s.targets| && s.targets[k].slotType == s.sources[i].slotType;
      assert SameFields(s.targets[k], r.targets[k]);
    }
    assert forall i :: 0 <= i < |s.sources| ==> SameFields(s.sources[i], r.sources[i]);
  }

  // ------------------------------------------------------------------ progress of the start loops

  /** A start takes exactly one target out of the Free ones, so both start loops terminate. */
  lemma {:induction false} StartUsesFree(s: State, j: nat, i: nat, backLink: bool, now: int, k: nat)
    requires i < |s.sources| && j < |s.targets| && s.targets[j].state == Free && k <= |s.targets|
    ensures FreeCount(StartTarget(s, j, i, backLink, now), k) == FreeCount(s, k) - if j < k then 1 else 0
  {
    if k == 0 {
    } else {
      StartUsesFree(s, j, i, backLink, now, k - 1);
      assert k - 1 != j ==> StartTarget(s, j, i, backLink, now).targets[k - 1] == s.targets[k - 1];
    }
  }

  /** The best candidate among the types of the first k sources. */
  lemma {:induction false} BestAmong(s: State, k: nat) returns (best: Option<string>)
    requires k <= |s.sources|
    ensures best.Some? ==> WaitOnly(s, best.value)
    ensures forall i :: 0 <= i < k && WaitOnly(s, s.sources[i].slotType) ==>
              best.Some? && WaitCount(s, s.sources[i].slotType, |s.sources|) <= WaitCount(s, best.value, |s.sources|)
  {
    best := None;
    if k == 0 {
    } else {
      best := BestAmong(s, k - 1);
      var t := s.sources[k - 1].slotType;
      if WaitOnly(s, t) && (best == None || WaitCount(s, t, |s.sources|) > WaitCount(s, best.value, |s.sources|)) {
        best := Some(t);
      }
    }
  }

  /** The first start loop always finds a most requested type to go on with. */
  lemma MostRequestedExists(s: State)
    requires exists t :: WaitOnly(s, t)
    ensures exists t :: MostRequested(s, t)
  {
    var best := BestAmong(s, |s.sources|);
    forall u | WaitOnly(s, u)
      ensures best.Some? && WaitCount(s, u, |s.sources|) <= WaitCount(s, best.value, |s.sources|)
    {
      WaitCounted(s, u, |s.sources|);
      var i :| 0 <= i < |s.sources| && Unserved(s.sources[i]) && s.sources[i].slotType == u;
      assert WaitOnly(s, s.sources[i].slotType);
    }
    assert MostRequested(s, best.value);
  }
}
