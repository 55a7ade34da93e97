/** Runs in which every queue stays within the capacity of its channel, so that no send in them has to
    wait: what the transition system does there the code can do. */
module BrokerRoom {
  import opened Wrappers
  import opened BrokerModel
  import opened BrokerProtocol
  import opened BrokerConservation
  import opened BrokerRefinement
  import opened BrokerCounterexamples
  import P = BrokerPass

  predicate InputsFit(c: Config, cap: nat) {
    && (forall i :: 0 <= i < |c.s.sources| ==> |c.s.sources[i].input| <= cap)
    && (forall j :: 0 <= j < |c.s.targets| ==> |c.s.targets[j].input| <= cap)
  }

  predicate OutputsFit(c: Config, cap: nat) {
    && (forall i :: 0 <= i < |c.s.sources| ==> |c.s.sources[i].output| <= cap)
    && (forall j :: 0 <= j < |c.s.targets| ==> |c.s.targets[j].output| <= cap)
    && |c.s.freeSources| <= |c.s.sources|
  }

  /** No queue of a slot holds more than its capacity, and the pool no more than there are slots. */
  predicate Room(c: Config, cap: nat) {
    InputsFit(c, cap) && OutputsFit(c, cap)
  }

  // ------------------------------------------------------------------ the broker alone

  /** Queues from the point of view of the broker: it takes from its inputs and adds to its outputs. */
  predicate OneWay(before: Slot, after: Slot) {
    |after.input| <= |before.input| && |before.output| <= |after.output|
  }

  predicate AllOneWay(s: State, r: State) {
    && |r.sources| == |s.sources| && |r.targets| == |s.targets| && |s.freeSources| <= |r.freeSources|
    && (forall i :: 0 <= i < |s.sources| ==> OneWay(s.sources[i], r.sources[i]))
    && (forall j :: 0 <= j < |s.targets| ==> OneWay(s.targets[j], r.targets[j]))
  }

  lemma ReadSourceOneWay(s: State, k: nat, now: int)
    requires k < |s.sources|
    ensures AllOneWay(s, ReadSource(s, k, now))
  {
  }

  lemma ReadTargetOneWay(s: State, k: nat, now: int)
    requires k < |s.targets|
    ensures AllOneWay(s, ReadTarget(s, k, now))
  {
    var t := s.targets[k];
    if t.input != [] && t.input[0].ErrorMsg? {
      var p := WithTarget(s, k, t.(input := t.input[1..]));
      FailWaitersEffect(p, t.slotType, t.input[0].text, |p.sources|);
    }
  }

  lemma MatchOneWay(s: State, k: nat, now: int)
    requires k < |s.sources|
    ensures AllOneWay(s, MatchSource(s, k, now))
  {
    if s.sources[k].state == Wait {
      MatchTouches(s, k, now, |s.targets|);
      MatchServes(s, k, now, |s.targets|);
    }
  }

  lemma StartOneWay(s: State, j: nat, i: nat, backLink: bool, now: int)
    requires i < |s.sources| && j < |s.targets|
    ensures AllOneWay(s, StartTarget(s, j, i, backLink, now))
  {
  }

  lemma BrokerOneWay(cfg: Settings, c: Config, a: Action)
    requires Enabled(c, a) && a.BrokerStep?
    ensures AllOneWay(c.s, Next(cfg, c, a).s)
  {
    match c.pc
    case AtSources(k) => if k < |c.s.sources| { ReadSourceOneWay(c.s, k, c.now); }
    case AtTargets(k) => if k < |c.s.targets| { ReadTargetOneWay(c.s, k, c.now); }
    case AtMatch(k) => if k < |c.s.sources| { MatchOneWay(c.s, k, c.now); }
    case AtStartNew =>
      if CanStartNew(c.s) {
        StartOneWay(c.s, OldestFree(c.s, |c.s.targets|).value, StartSource(c.s, a.pick), true, c.now);
      }
    case AtStartCopies =>
      if CanStartCopy(c.s, c.now, cfg) {
        StartOneWay(c.s, OldestRunner(c.s, c.now, |c.s.targets|).value, OldestWaiter(c.s, c.now, |c.s.sources|).value, false, c.now);
      }
    case AtFreeY(k) =>
    case AtSweep(k) =>
  }

  // ------------------------------------------------------------------ chains of steps with room

  /** A step of a client that follows the protocol, of a runner or of the broker, with room before it
      and after it. */
  ghost function RoomyStep(cfg: Settings, cap: nat): (Config, Action, Config) -> bool {
    (c: Config, a: Action, d: Config) => Enabled(c, a) && d == Next(cfg, c, a) && Polite(a) && Room(c, cap) && Room(d, cap)
  }

  ghost predicate LeadsWithin(cfg: Settings, cap: nat, c: Config, d: Config) {
    exists acts :: Chain(RoomyStep(cfg, cap), c, acts, d)
  }

  lemma WithinByStep(cfg: Settings, cap: nat, c: Config, a: Action)
    requires Enabled(c, a) && Polite(a) && Room(c, cap) && Room(Next(cfg, c, a), cap)
    ensures LeadsWithin(cfg, cap, c, Next(cfg, c, a))
  {
    var d := Next(cfg, c, a);
    assert [a][1..] == [];
    assert RoomyStep(cfg, cap)(c, a, d) && Chain(RoomyStep(cfg, cap), d, [], d);
    assert Chain(RoomyStep(cfg, cap), c, [a], d);
  }

  lemma WithinOn(cfg: Settings, cap: nat, c: Config, d: Config, e: Config)
    requires LeadsWithin(cfg, cap, c, d) && LeadsWithin(cfg, cap, d, e)
    ensures LeadsWithin(cfg, cap, c, e)
  {
    var first :| Chain(RoomyStep(cfg, cap), c, first, d);
    var second :| Chain(RoomyStep(cfg, cap), d, second, e);
    ChainConcat(RoomyStep(cfg, cap), c, first, d, second, e);
  }

  lemma WithinStay(cfg: Settings, cap: nat, c: Config)
    ensures LeadsWithin(cfg, cap, c, c)
  {
    assert Chain(RoomyStep(cfg, cap), c, [], c);
  }

  /** While only the broker moves, room for what it finds and for what it leaves is room all along. */
  lemma {:induction false} BrokerHasRoom(cfg: Settings, cap: nat, c: Config, acts: seq<Action>, d: Config)
    requires Steps(cfg, c, acts, d) && OnlyBroker(acts) && InputsFit(c, cap) && OutputsFit(d, cap)
    ensures Chain(RoomyStep(cfg, cap), c, acts, d) && OutputsFit(c, cap)
    decreases |acts|
  {
    if acts == [] {
      assert c == d;
    } else {
      var e :| StepOf(cfg)(c, acts[0], e) && Chain(StepOf(cfg), e, acts[1..], d);
      BrokerOneWay(cfg, c, acts[0]);
      FitsOneWay(c, e, cap);
      BrokerHasRoom(cfg, cap, e, acts[1..], d);
      FitsOneWay(c, e, cap);
      assert RoomyStep(cfg, cap)(c, acts[0], e);
    }
  }

  lemma FitsOneWay(c: Config, e: Config, cap: nat)
    requires AllOneWay(c.s, e.s)
    ensures InputsFit(c, cap) ==> InputsFit(e, cap)
    ensures OutputsFit(e, cap) ==> OutputsFit(c, cap)
  {
    if InputsFit(c, cap) {
      forall i | 0 <= i < |e.s.sources|
        ensures |e.s.sources[i].input| <= cap
      {
        assert OneWay(c.s.sources[i], e.s.sources[i]);
      }
      forall j | 0 <= j < |e.s.targets|
        ensures |e.s.targets[j].input| <= cap
      {
        assert OneWay(c.s.targets[j], e.s.targets[j]);
      }
    }
    if OutputsFit(e, cap) {
      forall i | 0 <= i < |c.s.sources|
        ensures |c.s.sources[i].output| <= cap
      {
        assert OneWay(c.s.sources[i], e.s.sources[i]);
      }
      forall j | 0 <= j < |c.s.targets|
        ensures |c.s.targets[j].output| <= cap
      {
        assert OneWay(c.s.targets[j], e.s.targets[j]);
      }
    }
  }

  lemma WithinByPass(cfg: Settings, cap: nat, c: Config, picks: seq<string>, r: State, clock: int)
    requires Sized(c) && c.pc == AtSources(0) && P.Pass(c.s, c.now, cfg, picks, r)
    requires Room(c, cap) && OutputsFit(c.(s := r, now := clock), cap)
    ensures LeadsWithin(cfg, cap, c, c.(s := r, now := clock))
  {
    var acts := PassIsRun(cfg, c, picks, r, clock);
    BrokerHasRoom(cfg, cap, c, acts, c.(s := r, now := clock));
  }

  /** The first three phases of a pass. */
  lemma WithinByMatching(cfg: Settings, cap: nat, c: Config)
    requires Sized(c) && c.pc == AtSources(0)
    requires Room(c, cap) && OutputsFit(c.(s := P.Matched(c.s, c.now), pc := AtStartNew), cap)
    ensures LeadsWithin(cfg, cap, c, c.(s := P.Matched(c.s, c.now), pc := AtStartNew))
  {
    var acts := MatchedSteps(cfg, c);
    BrokerHasRoom(cfg, cap, c, acts, c.(s := P.Matched(c.s, c.now), pc := AtStartNew));
  }

  /** The first two phases of a pass. */
  lemma WithinByReading(cfg: Settings, cap: nat, c: Config, r: State)
    requires Sized(c) && c.pc == AtSources(0)
    requires r == P.ReadTargets(P.ReadSources(c.s, c.now, |c.s.sources|), c.now, |c.s.targets|)
    requires Room(c, cap) && OutputsFit(c.(s := r, pc := AtMatch(0)), cap)
    ensures LeadsWithin(cfg, cap, c, c.(s := r, pc := AtMatch(0)))
  {
    var acts := ReadSteps(cfg, c);
    BrokerHasRoom(cfg, cap, c, acts, c.(s := r, pc := AtMatch(0)));
  }

  /** Runner j takes its Start message and answers it. */
  lemma RunnerStartsWithin(cfg: Settings, cap: nat, c: Config, j: nat, d: Config)
    requires Sized(c) && j < |c.s.targets| && c.announced[j] && !c.busy[j] && c.s.targets[j].input == []
    requires |c.s.targets[j].output| == 1 && c.s.targets[j].output[0].StartMsg?
    requires d == c.(s := c.s.(targets := c.s.targets[j := c.s.targets[j].(input := [StartedMsg], output := [])]))
    requires cap > 0 && Room(c, cap)
    ensures LeadsWithin(cfg, cap, c, d) && Room(d, cap)
  {
    var e := c.(s := c.s.(targets := c.s.targets[j := c.s.targets[j].(output := [])]), busy := c.busy[j := true]);
    assert c.s.targets[j].output[1..] == [];
    assert Next(cfg, c, TakeStart(j)) == e;
    WithinByStep(cfg, cap, c, TakeStart(j));
    assert [] + [StartedMsg] == [StartedMsg];
    assert e.busy[j := false] == c.busy;
    assert Next(cfg, e, Answer(j, None)).s.targets == d.s.targets;
    assert Next(cfg, e, Answer(j, None)) == d;
    WithinByStep(cfg, cap, e, Answer(j, None));
    WithinOn(cfg, cap, c, e, d);
  }

  // ------------------------------------------------------------------ runs

  predicate AllRoom(run: seq<Config>, cap: nat) {
    forall k :: 0 <= k < |run| ==> Room(run[k], cap)
  }

  lemma RoomyFollows(cfg: Settings, cap: nat, run: seq<Config>, acts: seq<Action>, k: nat)
    requires k < |acts| && |run| == |acts| + 1 && PathAt(RoomyStep(cfg, cap), run, acts, k)
    ensures Follows(cfg, run, acts, k) && Polite(acts[k]) && Room(run[k + 1], cap)
  {
  }

  lemma PathIsRun(cfg: Settings, cap: nat, run: seq<Config>, acts: seq<Action>)
    requires Path(RoomyStep(cfg, cap), run, acts) && Init(run[0]) && Room(run[0], cap)
    ensures IsRun(cfg, run, acts) && AllPolite(acts) && AllRoom(run, cap)
  {
    forall k | 0 <= k < |acts|
      ensures Follows(cfg, run, acts, k) && Polite(acts[k])
    {
      RoomyFollows(cfg, cap, run, acts, k);
    }
    forall k | 0 <= k < |run|
      ensures Room(run[k], cap)
    {
      if k > 0 { RoomyFollows(cfg, cap, run, acts, k - 1); }
    }
  }

  lemma WithinIsRun(cfg: Settings, cap: nat, c: Config, d: Config) returns (run: seq<Config>, acts: seq<Action>)
    requires Init(c) && Room(c, cap) && LeadsWithin(cfg, cap, c, d)
    ensures IsRun(cfg, run, acts) && AllPolite(acts) && AllRoom(run, cap) && run[0] == c && run[|acts|] == d
  {
    acts :| Chain(RoomyStep(cfg, cap), c, acts, d);
    run := ChainIsPath(RoomyStep(cfg, cap), c, acts, d);
    PathIsRun(cfg, cap, run, acts);
  }

  /** The run that leads from c over d to e. */
  lemma WithinIsRunOver(cfg: Settings, cap: nat, c: Config, d: Config, e: Config)
      returns (run: seq<Config>, acts: seq<Action>, k: nat)
    requires Init(c) && Room(c, cap) && LeadsWithin(cfg, cap, c, d) && LeadsWithin(cfg, cap, d, e)
    ensures IsRun(cfg, run, acts) && AllPolite(acts) && AllRoom(run, cap) && k < |run| && run[k] == d && run[|acts|] == e
  {
    var first :| Chain(RoomyStep(cfg, cap), c, first, d);
    var second :| Chain(RoomyStep(cfg, cap), d, second, e);
    var before := ChainIsPath(RoomyStep(cfg, cap), c, first, d);
    var after := ChainIsPath(RoomyStep(cfg, cap), d, second, e);
    run := PathsJoin(RoomyStep(cfg, cap), before, first, after, second);
    acts, k := first + second, |first|;
    PathIsRun(cfg, cap, run, acts);
  }
}
