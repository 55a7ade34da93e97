/** A waiter that has been promised a target keeps a target of its type, or is released. */
module BrokerStranded {
  import opened Wrappers
  import opened BrokerModel
  import opened BrokerProtocol
  import opened BrokerInvariants

  predicate Promised(slot: Slot, j: nat) {
    slot.state == Wait && slot.opposite == Some(j)
  }

  predicate NoStranded(s: State) {
    forall i :: 0 <= i < |s.sources| && s.sources[i].state == Wait && s.sources[i].opposite.Some? ==>
      s.sources[i].opposite.value < |s.targets|
      && s.targets[s.sources[i].opposite.value].slotType == s.sources[i].slotType
  }

  predicate SomeonePromised(s: State, j: nat) {
    exists i :: 0 <= i < |s.sources| && Promised(s.sources[i], j)
  }

  /** The three branches that clear a type someone was promised: the sweep, a Release with kill, and a
      runner's first message. */
  predicate Strands(cfg: Settings, c: Config, a: Action) {
    a.BrokerStep? &&
    match c.pc
    case AtSweep(k) =>
      k < |c.s.targets| && TimedOut(c.s.targets[k], c.now, cfg) && SomeonePromised(c.s, k)
    case AtSources(k) =>
      k < |c.s.sources| && (var slot := c.s.sources[k];
        slot.input != [] && slot.input[0] == ReleaseMsg(true) && slot.state == Run && !YType(slot.slotType)
        && slot.opposite.Some? && SomeonePromised(c.s, slot.opposite.value))
    case AtTargets(k) =>
      k < |c.s.targets| && c.s.targets[k].input != [] && c.s.targets[k].input[0].FreeMsg? && SomeonePromised(c.s, k)
    case _ => false
  }

  lemma StrandedReadSource(cfg: Settings, c: Config, a: Action)
    requires Enabled(c, a) && a.BrokerStep? && c.pc.AtSources? && c.pc.k < |c.s.sources|
    requires Shape(c.s) && NoStranded(c.s)
    ensures NoStranded(ReadSource(c.s, c.pc.k, c.now)) <==> !Strands(cfg, c, a)
  {
    var k := c.pc.k;
    var r := ReadSource(c.s, k, c.now);
    var slot := c.s.sources[k];
    assert SourceOk(slot, |c.s.targets|);
    if Strands(cfg, c, a) {
      var i :| 0 <= i < |c.s.sources| && Promised(c.s.sources[i], slot.opposite.value);
      assert SourceOk(c.s.sources[i], |c.s.targets|) && r.sources[i] == c.s.sources[i];
    } else {
      forall i | 0 <= i < |r.sources| && r.sources[i].state == Wait && r.sources[i].opposite.Some?
        ensures r.sources[i].opposite.value < |r.targets|
        ensures r.targets[r.sources[i].opposite.value].slotType == r.sources[i].slotType
      {
        assert r.sources[i].opposite == c.s.sources[i].opposite;
        var j := r.sources[i].opposite.value;
        assert Promised(c.s.sources[i], j);
      }
    }
  }

  lemma StrandedReadTarget(cfg: Settings, c: Config, a: Action)
    requires Enabled(c, a) && a.BrokerStep? && c.pc.AtTargets? && c.pc.k < |c.s.targets|
    requires Shape(c.s) && NoStranded(c.s)
    ensures NoStranded(ReadTarget(c.s, c.pc.k, c.now)) <==> !Strands(cfg, c, a)
  {
    var k := c.pc.k;
    var r := ReadTarget(c.s, k, c.now);
    ErrorEffect(c.s, k);
    if Strands(cfg, c, a) {
      var i :| 0 <= i < |c.s.sources| && Promised(c.s.sources[i], k);
      assert SourceOk(c.s.sources[i], |c.s.targets|) && r.sources[i] == c.s.sources[i];
    } else {
      forall i | 0 <= i < |r.sources| && r.sources[i].state == Wait && r.sources[i].opposite.Some?
        ensures r.sources[i].opposite.value < |r.targets|
        ensures r.targets[r.sources[i].opposite.value].slotType == r.sources[i].slotType
      {
        assert SourceOk(c.s.sources[i], |c.s.targets|);
        assert r.sources[i] == c.s.sources[i];
        assert Promised(c.s.sources[i], r.sources[i].opposite.value);
      }
    }
  }

  lemma StrandedMatch(s: State, k: nat, now: int)
    requires NoStranded(s) && k < |s.sources|
    ensures NoStranded(MatchSource(s, k, now))
  {
    MatchServes(s, k, now, |s.targets|);
    MatchTouches(s, k, now, |s.targets|);
  }

  /** A target that is retyped was Free, and no waiter asks for the type of a Free target. */
  lemma StrandedStart(s: State, j: nat, i: nat, backLink: bool, now: int)
    requires NoStranded(s) && SettledUpTo(s, |s.sources|)
    requires i < |s.sources| && j < |s.targets| && s.targets[j].state == Free && s.sources[i].state == Wait
    ensures NoStranded(StartTarget(s, j, i, backLink, now))
  {
    var r := StartTarget(s, j, i, backLink, now);
    forall h | 0 <= h < |r.sources| && r.sources[h].state == Wait && r.sources[h].opposite.Some?
      ensures r.sources[h].opposite.value < |r.targets|
      ensures r.targets[r.sources[h].opposite.value].slotType == r.sources[h].slotType
    {
      assert Settled(s, h);
      if h != i { assert r.sources[h] == s.sources[h]; }
    }
  }

  lemma StrandedSweep(cfg: Settings, c: Config, a: Action)
    requires Enabled(c, a) && a.BrokerStep? && c.pc.AtSweep? && c.pc.k < |c.s.targets|
    requires Shape(c.s) && NoStranded(c.s)
    ensures NoStranded(Sweep(c.s, c.pc.k, c.now, cfg)) <==> !Strands(cfg, c, a)
  {
    var k := c.pc.k;
    var r := Sweep(c.s, k, c.now, cfg);
    if Strands(cfg, c, a) {
      var i :| 0 <= i < |c.s.sources| && Promised(c.s.sources[i], k);
      assert SourceOk(c.s.sources[i], |c.s.targets|);
    } else {
      forall i | 0 <= i < |r.sources| && r.sources[i].state == Wait && r.sources[i].opposite.Some?
        ensures r.sources[i].opposite.value < |r.targets|
        ensures r.targets[r.sources[i].opposite.value].slotType == r.sources[i].slotType
      {
        assert Promised(c.s.sources[i], r.sources[i].opposite.value);
      }
    }
  }

  lemma StrandedOthers(cfg: Settings, c: Config, a: Action)
    requires NoStranded(c.s) && Enabled(c, a) && !a.BrokerStep?
    ensures NoStranded(Next(cfg, c, a).s)
  {
    var d := Next(cfg, c, a);
    OthersKeepFields(cfg, c, a);
    forall i | 0 <= i < |d.s.sources| && d.s.sources[i].state == Wait && d.s.sources[i].opposite.Some?
      ensures d.s.sources[i].opposite.value < |d.s.targets|
      ensures d.s.targets[d.s.sources[i].opposite.value].slotType == d.s.sources[i].slotType
    {
      assert SameFields(c.s.sources[i], d.s.sources[i]);
      var j := c.s.sources[i].opposite.value;
      assert SameFields(c.s.targets[j], d.s.targets[j]);
    }
  }

  /** A step keeps every promise exactly when it is not one of the three clearing branches. */
  lemma NoStrandedStepIff(cfg: Settings, c: Config, a: Action)
    requires Shape(c.s) && WorkConserving(c) && NoStranded(c.s) && Enabled(c, a)
    ensures NoStranded(Next(cfg, c, a).s) <==> !Strands(cfg, c, a)
  {
    if !a.BrokerStep? {
      StrandedOthers(cfg, c, a);
    } else {
      match c.pc
      case AtSources(k) => if k < |c.s.sources| { StrandedReadSource(cfg, c, a); }
      case AtTargets(k) => if k < |c.s.targets| { StrandedReadTarget(cfg, c, a); }
      case AtMatch(k) => if k < |c.s.sources| { StrandedMatch(c.s, k, c.now); }
      case AtStartNew =>
        if CanStartNew(c.s) {
          StrandedStart(c.s, OldestFree(c.s, |c.s.targets|).value, StartSource(c.s, a.pick), true, c.now);
        }
      case AtStartCopies =>
        if CanStartCopy(c.s, c.now, cfg) {
          StrandedStart(c.s, OldestRunner(c.s, c.now, |c.s.targets|).value, OldestWaiter(c.s, c.now, |c.s.sources|).value, false, c.now);
        }
      case AtFreeY(k) =>
      case AtSweep(k) => if k < |c.s.targets| { StrandedSweep(cfg, c, a); }
    }
  }
}
