/** Who runs on which target: exclusive x-type links, shared y-type links, and at most one start
    in flight per runner.  Links and starts need each other: a Release may free only a target
    that is running, and a Started reply may come only from a target that is starting. */
module BrokerLinks {
  import opened Wrappers
  import opened BrokerModel
  import opened BrokerProtocol
  import opened BrokerInvariants

  predicate Runs(slot: Slot, y: bool) {
    slot.state == Run && YType(slot.slotType) == y
  }

  /** Source i is linked to a Run target of its own type. */
  predicate Linked(s: State, i: nat)
    requires i < |s.sources|
  {
    match s.sources[i].opposite
    case Some(j) => j < |s.targets| && s.targets[j].state == Run && s.targets[j].slotType == s.sources[i].slotType
    case None => false
  }

  /** Every Run source of the given kind (y-type or x-type) is linked. */
  predicate Links(s: State, y: bool) {
    forall i :: 0 <= i < |s.sources| && Runs(s.sources[i], y) ==> Linked(s, i)
  }

  predicate Distinct(s: State) {
    forall i, h :: 0 <= i < h < |s.sources| && Runs(s.sources[i], false) && Runs(s.sources[h], false) ==>
      s.sources[i].opposite != s.sources[h].opposite
  }

  /** Distinct Run x-type sources hold distinct Run targets of their own types. */
  predicate Exclusive(s: State) {
    Links(s, false) && Distinct(s)
  }

  predicate IsReply(m: Message) {
    m.StartedMsg? || m.ErrorMsg?
  }

  /** The runner's first message is queued. */
  predicate Pending(target: Slot) {
    target.input != [] && target.input[0].FreeMsg?
  }

  /** The queued messages but for the runner's first one. */
  function Answers(target: Slot): seq<Message> {
    if Pending(target) then target.input[1..] else target.input
  }

  /** Queued Start messages, the busy runner and queued replies add up to one when the target is
      Starting and to nothing otherwise. */
  predicate InFlight(target: Slot, busy: bool) {
    && (forall a :: 0 <= a < |target.output| ==> target.output[a].StartMsg?)
    && (forall a :: 0 <= a < |Answers(target)| ==> IsReply(Answers(target)[a]))
    && |target.output| + |Answers(target)| + (if busy then 1 else 0) == if target.state == Starting then 1 else 0
  }

  /** Until its runner's first message is read a target is as NewBroker left it, or has been started
      without its runner. */
  predicate Greeted(target: Slot, busy: bool, announced: bool) {
    && (Pending(target) || !announced ==> target.state == Starting || (target.state == Free && target.slotType == ""))
    && (!announced ==> target.input == [] && !busy)
  }

  predicate OneStart(c: Config) {
    Sized(c) && forall j :: 0 <= j < |c.s.targets| ==> InFlight(c.s.targets[j], c.busy[j])
  }

  predicate Greets(c: Config) {
    Sized(c) && forall j :: 0 <= j < |c.s.targets| ==> Greeted(c.s.targets[j], c.busy[j], c.announced[j])
  }

  predicate Core(c: Config) {
    Shape(c.s) && Exclusive(c.s) && OneStart(c) && Greets(c)
  }

  /** This step reads the first message of a runner that was told to start before it had spoken. */
  predicate LateFree(c: Config, a: Action) {
    a.BrokerStep? && c.pc.AtTargets? && c.pc.k < |c.s.targets| && Pending(c.s.targets[c.pc.k]) && c.s.targets[c.pc.k].state != Free
  }

  /** The sweep of target k clears nothing that a Run source of this kind is linked to. */
  predicate SweepSpares(s: State, k: nat, now: int, cfg: Settings, y: bool)
    requires k < |s.targets|
  {
    TimedOut(s.targets[k], now, cfg) ==>
      forall i :: 0 <= i < |s.sources| && Runs(s.sources[i], y) ==> s.sources[i].opposite != Some(k)
  }

  predicate Spares(cfg: Settings, c: Config, a: Action, y: bool) {
    a.BrokerStep? && c.pc.AtSweep? && c.pc.k < |c.s.targets| ==> SweepSpares(c.s, c.pc.k, c.now, cfg, y)
  }

  // ------------------------------------------------------------------ links, step by step

  /** Only a linked Run target is freed by a Release, and by no one but its own source. */
  lemma ReleaseFreesOwnTarget(s: State, i: nat, now: int, j: nat)
    requires Exclusive(s) && i < |s.sources| && j < |s.targets|
    requires ReadSource(s, i, now).targets[j] != s.targets[j]
    ensures Runs(s.sources[i], false) && s.sources[i].opposite == Some(j) && s.targets[j].state == Run
    ensures s.targets[j].slotType == s.sources[i].slotType
    ensures forall h :: 0 <= h < |s.sources| && h != i && Runs(s.sources[h], false) ==> s.sources[h].opposite != Some(j)
  {
    assert Linked(s, i);
  }

  lemma ReadSourceNeverRuns(s: State, i: nat, now: int)
    requires Shape(s) && i < |s.sources|
    ensures |ReadSource(s, i, now).sources| == |s.sources|
    ensures var r := ReadSource(s, i, now).sources[i];
            r.state != Run || r == s.sources[i].(input := r.input)
  {
    assert SourceOk(s.sources[i], |s.targets|);
  }

  lemma LinksReadSource(s: State, i: nat, now: int, y: bool)
    requires Shape(s) && Exclusive(s) && Links(s, y) && i < |s.sources|
    ensures Links(ReadSource(s, i, now), y)
  {
    var r := ReadSource(s, i, now);
    ReadSourceNeverRuns(s, i, now);
    forall h | 0 <= h < |r.sources| && Runs(r.sources[h], y)
      ensures Linked(r, h)
    {
      assert Linked(s, h);
      var j := s.sources[h].opposite.value;
      ReadSourceTargets(s, i, now, j);
      if r.targets[j] != s.targets[j] {
        ReleaseFreesOwnTarget(s, i, now, j);
      }
    }
  }

  lemma DistinctReadSource(s: State, i: nat, now: int)
    requires Shape(s) && Distinct(s) && i < |s.sources|
    ensures Distinct(ReadSource(s, i, now))
  {
    ReadSourceNeverRuns(s, i, now);
    var r := ReadSource(s, i, now);
    assert forall h :: 0 <= h < |s.sources| && h != i ==> r.sources[h] == s.sources[h];
  }

  lemma LinksReadTarget(s: State, j: nat, now: int, y: bool)
    requires j < |s.targets| && Links(s, y)
    requires s.targets[j].input != [] ==> s.targets[j].state != Run
    ensures Links(ReadTarget(s, j, now), y)
    ensures Distinct(s) ==> Distinct(ReadTarget(s, j, now))
  {
    var r := ReadTarget(s, j, now);
    ErrorEffect(s, j);
    forall h | 0 <= h < |r.sources| && Runs(r.sources[h], y)
      ensures Linked(r, h)
    {
      assert Linked(s, h) && r.sources[h] == s.sources[h];
    }
    assert forall h :: 0 <= h < |s.sources| && r.sources[h].state == Run ==> r.sources[h] == s.sources[h];
  }

  lemma LinksMatch(s: State, i: nat, now: int, y: bool)
    requires i < |s.sources| && Links(s, y)
    ensures Links(MatchSource(s, i, now), y)
  {
    var r := MatchSource(s, i, now);
    MatchServes(s, i, now, |s.targets|);
    MatchTouches(s, i, now, |s.targets|);
    forall h | 0 <= h < |r.sources| && Runs(r.sources[h], y)
      ensures Linked(r, h)
    {
      if h != i || s.sources[i].state != Wait { assert Linked(s, h); }
    }
  }

  lemma DistinctMatch(s: State, i: nat, now: int)
    requires i < |s.sources| && Exclusive(s)
    ensures Distinct(MatchSource(s, i, now))
  {
    var r := MatchSource(s, i, now);
    MatchServes(s, i, now, |s.targets|);
    MatchTouches(s, i, now, |s.targets|);
    forall h | 0 <= h < |s.sources| && h != i && Runs(s.sources[h], false) && s.sources[i].state == Wait && Runs(r.sources[i], false)
      ensures r.sources[i].opposite != s.sources[h].opposite
    {
      assert Linked(s, h);
    }
    assert forall h :: 0 <= h < |s.sources| && h != i ==> r.sources[h] == s.sources[h];
  }

  lemma LinksStart(s: State, j: nat, i: nat, backLink: bool, now: int, y: bool)
    requires i < |s.sources| && j < |s.targets| && s.targets[j].state == Free && s.sources[i].state == Wait && Links(s, y)
    ensures Links(StartTarget(s, j, i, backLink, now), y)
    ensures Distinct(s) ==> Distinct(StartTarget(s, j, i, backLink, now))
  {
    var r := StartTarget(s, j, i, backLink, now);
    forall h | 0 <= h < |r.sources| && Runs(r.sources[h], y)
      ensures Linked(r, h)
    {
      assert h != i && Linked(s, h);
    }
    assert forall h :: 0 <= h < |s.sources| && h != i ==> r.sources[h] == s.sources[h];
  }

  lemma LinksFreeY(s: State, j: nat, now: int, y: bool)
    requires j < |s.targets| && Links(s, y)
    ensures Links(FreeUnusedY(s, j, now), y)
  {
    var r := FreeUnusedY(s, j, now);
    forall h | 0 <= h < |r.sources| && Runs(r.sources[h], y)
      ensures Linked(r, h)
    {
      assert Linked(s, h);
    }
  }

  /** The sweep keeps the links exactly when it spares the linked targets. */
  lemma SweepKeepsLinksIff(s: State, k: nat, now: int, cfg: Settings, y: bool)
    requires k < |s.targets| && Links(s, y)
    ensures Links(Sweep(s, k, now, cfg), y) <==> SweepSpares(s, k, now, cfg, y)
  {
    var r := Sweep(s, k, now, cfg);
    if SweepSpares(s, k, now, cfg, y) {
      forall h | 0 <= h < |r.sources| && Runs(r.sources[h], y)
        ensures Linked(r, h)
      {
        assert Linked(s, h);
      }
    } else {
      var i :| 0 <= i < |s.sources| && Runs(s.sources[i], y) && s.sources[i].opposite == Some(k);
      assert !Linked(r, i);
    }
  }

  lemma LinksOthers(cfg: Settings, c: Config, a: Action, y: bool)
    requires Enabled(c, a) && !a.BrokerStep? && Links(c.s, y)
    ensures Links(Next(cfg, c, a).s, y)
    ensures Distinct(c.s) ==> Distinct(Next(cfg, c, a).s)
  {
    var d := Next(cfg, c, a);
    OthersKeepFields(cfg, c, a);
    assert forall i :: 0 <= i < |c.s.sources| ==> SameFields(c.s.sources[i], d.s.sources[i]);
    forall h | 0 <= h < |d.s.sources| && Runs(d.s.sources[h], y)
      ensures Linked(d.s, h)
    {
      assert Linked(c.s, h);
      var j := c.s.sources[h].opposite.value;
      assert SameFields(c.s.targets[j], d.s.targets[j]);
    }
  }

  /** A target that has sent something is not running. */
  lemma SpeakingTargetIsIdle(c: Config, j: nat)
    requires OneStart(c) && Greets(c) && j < |c.s.targets| && c.s.targets[j].input != []
    ensures c.s.targets[j].state != Run
  {
    assert InFlight(c.s.targets[j], c.busy[j]) && Greeted(c.s.targets[j], c.busy[j], c.announced[j]);
  }

  lemma LinksStep(cfg: Settings, c: Config, a: Action, y: bool)
    requires Core(c) && Links(c.s, y) && Enabled(c, a) && Spares(cfg, c, a, y)
    ensures Links(Next(cfg, c, a).s, y)
  {
    if !a.BrokerStep? {
      LinksOthers(cfg, c, a, y);
    } else {
      match c.pc
      case AtSources(k) => if k < |c.s.sources| { LinksReadSource(c.s, k, c.now, y); }
      case AtTargets(k) =>
        if k < |c.s.targets| {
          if c.s.targets[k].input != [] { SpeakingTargetIsIdle(c, k); }
          LinksReadTarget(c.s, k, c.now, y);
        }
      case AtMatch(k) => if k < |c.s.sources| { LinksMatch(c.s, k, c.now, y); }
      case AtStartNew =>
        if CanStartNew(c.s) {
          LinksStart(c.s, OldestFree(c.s, |c.s.targets|).value, StartSource(c.s, a.pick), true, c.now, y);
        }
      case AtStartCopies =>
        if CanStartCopy(c.s, c.now, cfg) {
          LinksStart(c.s, OldestRunner(c.s, c.now, |c.s.targets|).value, OldestWaiter(c.s, c.now, |c.s.sources|).value, false, c.now, y);
        }
      case AtFreeY(k) => if k < |c.s.targets| { LinksFreeY(c.s, k, c.now, y); }
      case AtSweep(k) => if k < |c.s.targets| { SweepKeepsLinksIff(c.s, k, c.now, cfg, y); }
    }
  }

  lemma DistinctStep(cfg: Settings, c: Config, a: Action)
    requires Core(c) && Enabled(c, a)
    ensures Distinct(Next(cfg, c, a).s)
  {
    if !a.BrokerStep? {
      LinksOthers(cfg, c, a, false);
    } else {
      match c.pc
      case AtSources(k) => if k < |c.s.sources| { DistinctReadSource(c.s, k, c.now); }
      case AtTargets(k) =>
        if k < |c.s.targets| {
          if c.s.targets[k].input != [] { SpeakingTargetIsIdle(c, k); }
          LinksReadTarget(c.s, k, c.now, false);
        }
      case AtMatch(k) => if k < |c.s.sources| { DistinctMatch(c.s, k, c.now); }
      case AtStartNew =>
        if CanStartNew(c.s) {
          LinksStart(c.s, OldestFree(c.s, |c.s.targets|).value, StartSource(c.s, a.pick), true, c.now, false);
        }
      case AtStartCopies =>
        if CanStartCopy(c.s, c.now, cfg) {
          LinksStart(c.s, OldestRunner(c.s, c.now, |c.s.targets|).value, OldestWaiter(c.s, c.now, |c.s.sources|).value, false, c.now, false);
        }
      case AtFreeY(k) =>
      case AtSweep(k) =>
    }
  }

  // ------------------------------------------------------------------ starts in flight

  lemma StartsReadSource(c: Config, k: nat, j: nat)
    requires Core(c) && k < |c.s.sources| && j < |c.s.targets|
    ensures var r := ReadSource(c.s, k, c.now);
            |r.targets| == |c.s.targets| && InFlight(r.targets[j], c.busy[j]) && Greeted(r.targets[j], c.busy[j], c.announced[j])
  {
    ReadSourceTargets(c.s, k, c.now, j);
    assert InFlight(c.s.targets[j], c.busy[j]) && Greeted(c.s.targets[j], c.busy[j], c.announced[j]);
    if ReadSource(c.s, k, c.now).targets[j] != c.s.targets[j] {
      ReleaseFreesOwnTarget(c.s, k, c.now, j);
    }
  }

  /** Reading a runner's message keeps the count exactly when it is no late first message. */
  lemma StartsReadTarget(c: Config, k: nat)
    requires OneStart(c) && Greets(c) && k < |c.s.targets|
    ensures var t := c.s.targets[k];
            var r := ReadTarget(c.s, k, c.now);
            && |r.targets| == |c.s.targets| && (forall j :: 0 <= j < |r.targets| && j != k ==> r.targets[j] == c.s.targets[j])
            && Greeted(r.targets[k], c.busy[k], c.announced[k])
            && (InFlight(r.targets[k], c.busy[k]) <==> !(Pending(t) && t.state != Free))
  {
    var t := c.s.targets[k];
    assert InFlight(t, c.busy[k]) && Greeted(t, c.busy[k], c.announced[k]);
    if t.input != [] {
      MessageRead(c.s, k, c.now);
      if !Pending(t) { assert IsReply(Answers(t)[0]); }
    }
  }

  /** What reading a message makes of its target. */
  lemma MessageRead(s: State, k: nat, now: int)
    requires k < |s.targets| && s.targets[k].input != []
    ensures |ReadTarget(s, k, now).targets| == |s.targets|
    ensures var t, r := s.targets[k], ReadTarget(s, k, now).targets[k];
            && r.input == t.input[1..] && r.output == t.output
            && (t.input[0].FreeMsg? || IsReply(t.input[0]) ==> r.state == Free)
            && (t.input[0].FreeMsg? ==> r.slotType == "")
  {
  }

  lemma StartsAnnounce(cfg: Settings, c: Config, a: Action)
    requires OneStart(c) && Greets(c) && Enabled(c, a) && a.Announce?
    ensures InFlight(Next(cfg, c, a).s.targets[a.j], c.busy[a.j]) && Greeted(Next(cfg, c, a).s.targets[a.j], c.busy[a.j], true)
  {
    assert InFlight(c.s.targets[a.j], c.busy[a.j]) && Greeted(c.s.targets[a.j], c.busy[a.j], c.announced[a.j]);
    assert Push(c.s.targets[a.j], FreeMsg(a.address)).input == [FreeMsg(a.address)];
  }

  lemma StartsAnswer(t: Slot, m: Message)
    requires InFlight(t, true) && Greeted(t, true, true) && IsReply(m)
    ensures InFlight(Push(t, m), false) && Greeted(Push(t, m), false, true)
  {
    if Pending(t) {
      assert (t.input + [m])[1..] == t.input[1..] + [m];
    } else {
      assert Answers(Push(t, m)) == t.input + [m];
    }
  }

  lemma StartsOthers(cfg: Settings, c: Config, a: Action, j: nat)
    requires OneStart(c) && Greets(c) && Enabled(c, a) && !a.BrokerStep? && j < |c.s.targets|
    ensures var d := Next(cfg, c, a);
            && |d.s.targets| == |c.s.targets| == |d.busy| == |d.announced|
            && InFlight(d.s.targets[j], d.busy[j]) && Greeted(d.s.targets[j], d.busy[j], d.announced[j])
  {
    assert InFlight(c.s.targets[j], c.busy[j]) && Greeted(c.s.targets[j], c.busy[j], c.announced[j]);
    if a.Announce? {
      StartsAnnounce(cfg, c, a);
    } else if a.Answer? && a.j == j {
      StartsAnswer(c.s.targets[j], match a.error case None => StartedMsg case Some(text) => ErrorMsg(text));
    }
  }

  /** The broker tells a runner to start only when the runner has nothing to do. */
  lemma StartsStart(c: Config, k: nat, i: nat, backLink: bool, j: nat)
    requires OneStart(c) && Greets(c) && i < |c.s.sources| && k < |c.s.targets| && j < |c.s.targets|
    requires c.s.targets[k].state == Free
    ensures c.s.targets[k].output == []
    ensures var r := StartTarget(c.s, k, i, backLink, c.now).targets[j];
            InFlight(r, c.busy[j]) && Greeted(r, c.busy[j], c.announced[j])
  {
    assert InFlight(c.s.targets[k], c.busy[k]) && Greeted(c.s.targets[k], c.busy[k], c.announced[k]);
    assert InFlight(c.s.targets[j], c.busy[j]) && Greeted(c.s.targets[j], c.busy[j], c.announced[j]);
  }

  /** A target that is matched carries a type, so its runner has been heard. */
  lemma StartsMatch(c: Config, k: nat, j: nat)
    requires Core(c) && k < |c.s.sources| && j < |c.s.targets|
    ensures var r := MatchSource(c.s, k, c.now);
            |r.targets| == |c.s.targets| && InFlight(r.targets[j], c.busy[j]) && Greeted(r.targets[j], c.busy[j], c.announced[j])
  {
    MatchTouches(c.s, k, c.now, |c.s.targets|);
    assert SourceOk(c.s.sources[k], |c.s.targets|);
    assert InFlight(c.s.targets[j], c.busy[j]) && Greeted(c.s.targets[j], c.busy[j], c.announced[j]);
  }

  lemma StartsFreeY(c: Config, k: nat, j: nat)
    requires OneStart(c) && Greets(c) && k < |c.s.targets| && j < |c.s.targets|
    ensures var r := FreeUnusedY(c.s, k, c.now);
            |r.targets| == |c.s.targets| && InFlight(r.targets[j], c.busy[j]) && Greeted(r.targets[j], c.busy[j], c.announced[j])
  {
    assert InFlight(c.s.targets[j], c.busy[j]) && Greeted(c.s.targets[j], c.busy[j], c.announced[j]);
  }

  lemma StartsSweep(cfg: Settings, c: Config, k: nat, j: nat)
    requires OneStart(c) && Greets(c) && k < |c.s.targets| && j < |c.s.targets|
    ensures var r := Sweep(c.s, k, c.now, cfg);
            |r.targets| == |c.s.targets| && InFlight(r.targets[j], c.busy[j]) && Greeted(r.targets[j], c.busy[j], c.announced[j])
  {
    assert InFlight(c.s.targets[j], c.busy[j]) && Greeted(c.s.targets[j], c.busy[j], c.announced[j]);
  }

  lemma StartsLater(cfg: Settings, c: Config, a: Action, j: nat)
    requires Core(c) && Enabled(c, a) && a.BrokerStep? && !c.pc.AtSources? && !c.pc.AtTargets?
    requires j < |c.s.targets|
    ensures |Next(cfg, c, a).s.targets| == |c.s.targets|
    ensures InFlight(Next(cfg, c, a).s.targets[j], c.busy[j]) && Greeted(Next(cfg, c, a).s.targets[j], c.busy[j], c.announced[j])
  {
    assert InFlight(c.s.targets[j], c.busy[j]) && Greeted(c.s.targets[j], c.busy[j], c.announced[j]);
    match c.pc
    case AtMatch(k) => if k < |c.s.sources| { StartsMatch(c, k, j); }
    case AtStartNew =>
      if CanStartNew(c.s) {
        StartsStart(c, OldestFree(c.s, |c.s.targets|).value, StartSource(c.s, a.pick), true, j);
      }
    case AtStartCopies =>
      if CanStartCopy(c.s, c.now, cfg) {
        StartsStart(c, OldestRunner(c.s, c.now, |c.s.targets|).value, OldestWaiter(c.s, c.now, |c.s.sources|).value, false, j);
      }
    case AtFreeY(k) => if k < |c.s.targets| { StartsFreeY(c, k, j); }
    case AtSweep(k) => if k < |c.s.targets| { StartsSweep(cfg, c, k, j); }
  }

  /** What a step makes of one target that no message is read from. */
  lemma StartsAt(cfg: Settings, c: Config, a: Action, j: nat)
    requires Core(c) && Enabled(c, a) && j < |c.s.targets|
    requires !(a.BrokerStep? && c.pc.AtTargets? && c.pc.k < |c.s.targets|)
    ensures var d := Next(cfg, c, a);
            && |d.s.targets| == |c.s.targets| == |d.busy| == |d.announced|
            && InFlight(d.s.targets[j], d.busy[j]) && Greeted(d.s.targets[j], d.busy[j], d.announced[j])
  {
    if !a.BrokerStep? {
      StartsOthers(cfg, c, a, j);
    } else if c.pc.AtSources? && c.pc.k < |c.s.sources| {
      StartsReadSource(c, c.pc.k, j);
    } else if !c.pc.AtSources? && !c.pc.AtTargets? {
      StartsLater(cfg, c, a, j);
    } else {
      assert InFlight(c.s.targets[j], c.busy[j]) && Greeted(c.s.targets[j], c.busy[j], c.announced[j]);
    }
  }

  lemma StartsAtTargets(cfg: Settings, c: Config, a: Action)
    requires Core(c) && Enabled(c, a) && a.BrokerStep? && c.pc.AtTargets? && c.pc.k < |c.s.targets|
    ensures Greets(Next(cfg, c, a))
    ensures OneStart(Next(cfg, c, a)) <==> !LateFree(c, a)
  {
    var d, k := Next(cfg, c, a), c.pc.k;
    SizedStep(cfg, c, a);
    StartsReadTarget(c, k);
    forall j | 0 <= j < |d.s.targets|
      ensures Greeted(d.s.targets[j], d.busy[j], d.announced[j])
      ensures j != k ==> InFlight(d.s.targets[j], d.busy[j])
    {
      assert InFlight(c.s.targets[j], c.busy[j]) && Greeted(c.s.targets[j], c.busy[j], c.announced[j]);
    }
  }

  /** The starts in flight are counted right after a step exactly when it reads no late first
      message. */
  lemma OneStartStepIff(cfg: Settings, c: Config, a: Action)
    requires Core(c) && Enabled(c, a)
    ensures Greets(Next(cfg, c, a))
    ensures OneStart(Next(cfg, c, a)) <==> !LateFree(c, a)
  {
    var d := Next(cfg, c, a);
    if a.BrokerStep? && c.pc.AtTargets? && c.pc.k < |c.s.targets| {
      StartsAtTargets(cfg, c, a);
    } else {
      SizedStep(cfg, c, a);
      forall j | 0 <= j < |d.s.targets|
        ensures InFlight(d.s.targets[j], d.busy[j]) && Greeted(d.s.targets[j], d.busy[j], d.announced[j])
      {
        NextSizes(cfg, c, a);
        StartsAt(cfg, c, a, j);
      }
    }
  }

  lemma NextSizes(cfg: Settings, c: Config, a: Action)
    requires Enabled(c, a)
    ensures |Next(cfg, c, a).s.targets| == |c.s.targets|
  {
  }

  lemma CoreStep(cfg: Settings, c: Config, a: Action)
    requires Core(c) && Enabled(c, a) && Spares(cfg, c, a, false) && !LateFree(c, a)
    ensures Core(Next(cfg, c, a))
  {
    ShapeStep(cfg, c, a);
    LinksStep(cfg, c, a, false);
    DistinctStep(cfg, c, a);
    OneStartStepIff(cfg, c, a);
  }
}
