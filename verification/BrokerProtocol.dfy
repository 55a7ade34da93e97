/** The broker, its clients and its runners as one transition system.  The broker's pass is cut into
    the steps it takes between two looks at what others sent it, so that clients and runners may act
    anywhere inside a pass.  A step may send to several queues; BrokerPieces shows that nothing more
    can happen when others act between those sends. */
module BrokerProtocol {
  import opened Wrappers
  import opened BrokerModel

  /** Where the broker is in its pass. */
  datatype Phase =
    | AtSources(k: nat)
    | AtTargets(k: nat)
    | AtMatch(k: nat)
    | AtStartNew
    | AtStartCopies
    | AtFreeY(k: nat)
    | AtSweep(k: nat)

  /** `busy` and `announced` tell of every runner whether it is starting a container and whether it
      has sent its first message.  `held`, `reading` and `using` count, for every source slot, the
      clients that hold it without having asked for anything, that wait for a reply on it, and that
      were told Acquired. */
  datatype Config = Config(
    s: State,
    pc: Phase,
    now: int,
    busy: seq<bool>,
    announced: seq<bool>,
    held: seq<nat>,
    reading: seq<nat>,
    using: seq<nat>)

  datatype Action =
    | BrokerStep(pick: string, clock: int)
    // a client of broker-resolver.go
    | GetSlot
    | SendAcquire(i: nat, slotType: string, info: RunInfo)
    | ReadReply(i: nat)
    | SendRelease(i: nat)
    // any other code that talks to a source slot
    | AnySend(i: nat, m: Message)
    | AnyRead(i: nat)
    // a runner
    | Announce(j: nat, address: string)
    | TakeStart(j: nat)
    | Answer(j: nat, error: Option<string>)

  function NewSlot(input: seq<Message>): Slot {
    Slot(input, [], Free, 0, "", NoInfo, "", None)
  }

  /** The slot of a runner that has announced itself with its address. */
  ghost predicate FreshRunner(slot: Slot) {
    exists address :: slot == NewSlot([FreeMsg(address)])
  }

  /** NewBroker.  The runners are started before the broker, but each on its own: the first message
      of some may be queued already and that of others not. */
  ghost predicate Init(c: Config) {
    && (forall i :: 0 <= i < |c.s.sources| ==> c.s.sources[i] == NewSlot([]))
    && |c.announced| == |c.s.targets|
    && (forall j :: 0 <= j < |c.s.targets| ==>
          if c.announced[j] then FreshRunner(c.s.targets[j]) else c.s.targets[j] == NewSlot([]))
    && |c.s.freeSources| == |c.held| == |c.reading| == |c.using| == |c.s.sources| && |c.busy| == |c.s.targets|
    && (forall i :: 0 <= i < |c.s.sources| ==> c.s.freeSources[i] == i)
    && (forall i :: 0 <= i < |c.s.sources| ==> c.held[i] == c.reading[i] == c.using[i] == 0)
    && (forall j :: 0 <= j < |c.s.targets| ==> !c.busy[j])
    && c.pc == AtSources(0)
  }

  /** The sizes every configuration keeps. */
  predicate Sized(c: Config) {
    && |c.busy| == |c.announced| == |c.s.targets|
    && |c.held| == |c.reading| == |c.using| == |c.s.sources|
    && match c.pc
       case AtSources(k) => k <= |c.s.sources|
       case AtMatch(k) => k <= |c.s.sources|
       case AtTargets(k) => k <= |c.s.targets|
       case AtFreeY(k) => k <= |c.s.targets|
       case AtSweep(k) => k <= |c.s.targets|
       case _ => true
  }

  ghost predicate Enabled(c: Config, a: Action) {
    Sized(c) &&
    match a
    case BrokerStep(pick, clock) => c.pc == AtStartNew && CanStartNew(c.s) ==> MostRequested(c.s, pick)
    case GetSlot => c.s.freeSources != [] && c.s.freeSources[0] < |c.s.sources|
    case SendAcquire(i, slotType, info) => i < |c.s.sources| && c.held[i] > 0 && slotType != ""
    case ReadReply(i) => i < |c.s.sources| && c.reading[i] > 0 && c.s.sources[i].output != []
    case SendRelease(i) => i < |c.s.sources| && c.using[i] > 0
    case AnySend(i, m) => i < |c.s.sources| && (m.AcquireMsg? ==> m.slotType != "")
    case AnyRead(i) => i < |c.s.sources| && c.s.sources[i].output != []
    case Announce(j, address) => j < |c.s.targets| && !c.announced[j]
    case TakeStart(j) => j < |c.s.targets| && c.announced[j] && !c.busy[j] && c.s.targets[j].output != []
    case Answer(j, error) => j < |c.s.targets| && c.busy[j]
  }

  ghost function Broker(cfg: Settings, c: Config, a: Action): Config
    requires Enabled(c, a) && a.BrokerStep?
  {
    var s := c.s;
    match c.pc
    case AtSources(k) =>
      if k < |s.sources| then c.(s := ReadSource(s, k, c.now), pc := AtSources(k + 1)) else c.(pc := AtTargets(0))
    case AtTargets(k) =>
      if k < |s.targets| then c.(s := ReadTarget(s, k, c.now), pc := AtTargets(k + 1)) else c.(pc := AtMatch(0))
    case AtMatch(k) =>
      if k < |s.sources| then c.(s := MatchSource(s, k, c.now), pc := AtMatch(k + 1)) else c.(pc := AtStartNew)
    case AtStartNew =>
      if CanStartNew(s) then c.(s := StartNew(s, a.pick, c.now)) else c.(pc := AtStartCopies)
    case AtStartCopies =>
      if CanStartCopy(s, c.now, cfg) then c.(s := StartCopy(s, c.now, cfg)) else c.(pc := AtFreeY(0))
    case AtFreeY(k) =>
      if k < |s.targets| then c.(s := FreeUnusedY(s, k, c.now), pc := AtFreeY(k + 1)) else c.(pc := AtSweep(0))
    case AtSweep(k) =>
      if k < |s.targets| then c.(s := Sweep(s, k, c.now, cfg), pc := AtSweep(k + 1))
      else c.(pc := AtSources(0), now := a.clock)
  }

  function Push(slot: Slot, m: Message): Slot {
    slot.(input := slot.input + [m])
  }

  function Pop(slot: Slot): Slot
    requires slot.output != []
  {
    slot.(output := slot.output[1..])
  }

  ghost function Next(cfg: Settings, c: Config, a: Action): Config
    requires Enabled(c, a)
  {
    match a
    case BrokerStep(pick, clock) => Broker(cfg, c, a)
    case GetSlot =>
      var i := c.s.freeSources[0];
      c.(s := c.s.(freeSources := c.s.freeSources[1..]), held := c.held[i := c.held[i] + 1])
    case SendAcquire(i, slotType, info) =>
      c.(s := WithSource(c.s, i, Push(c.s.sources[i], AcquireMsg(slotType, info))),
         held := c.held[i := c.held[i] - 1], reading := c.reading[i := c.reading[i] + 1])
    case ReadReply(i) =>
      var d := c.(s := WithSource(c.s, i, Pop(c.s.sources[i])), reading := c.reading[i := c.reading[i] - 1]);
      if c.s.sources[i].output[0].AcquiredMsg? then d.(using := c.using[i := c.using[i] + 1]) else d
    case SendRelease(i) =>
      c.(s := WithSource(c.s, i, Push(c.s.sources[i], ReleaseMsg(false))), using := c.using[i := c.using[i] - 1])
    case AnySend(i, m) => c.(s := WithSource(c.s, i, Push(c.s.sources[i], m)))
    case AnyRead(i) => c.(s := WithSource(c.s, i, Pop(c.s.sources[i])))
    case Announce(j, address) =>
      c.(s := WithTarget(c.s, j, Push(c.s.targets[j], FreeMsg(address))), announced := c.announced[j := true])
    case TakeStart(j) =>
      c.(s := WithTarget(c.s, j, Pop(c.s.targets[j])),
         busy := if c.s.targets[j].output[0].StartMsg? then c.busy[j := true] else c.busy)
    case Answer(j, error) =>
      var reply := match error case None => StartedMsg case Some(text) => ErrorMsg(text);
      c.(s := WithTarget(c.s, j, Push(c.s.targets[j], reply)), busy := c.busy[j := false])
  }

  ghost predicate IsRun(cfg: Settings, run: seq<Config>, acts: seq<Action>) {
    && |run| == |acts| + 1
    && Init(run[0])
    && forall k :: 0 <= k < |acts| ==> Follows(cfg, run, acts, k)
  }

  ghost predicate Follows(cfg: Settings, run: seq<Config>, acts: seq<Action>, k: nat)
    requires k < |acts| && |run| == |acts| + 1
  {
    Enabled(run[k], acts[k]) && run[k + 1] == Next(cfg, run[k], acts[k])
  }

  /** A step of a client or a runner moves messages; it changes no field of a slot. */
  lemma OthersKeepFields(cfg: Settings, c: Config, a: Action)
    requires Enabled(c, a) && !a.BrokerStep?
    ensures var d := Next(cfg, c, a);
            && d.pc == c.pc && |d.s.sources| == |c.s.sources| && |d.s.targets| == |c.s.targets|
            && (forall i :: 0 <= i < |c.s.sources| ==> SameFields(c.s.sources[i], d.s.sources[i]))
            && (forall j :: 0 <= j < |c.s.targets| ==> SameFields(c.s.targets[j], d.s.targets[j]))
  {
  }

  predicate SameFields(a: Slot, b: Slot) {
    b == a.(input := b.input, output := b.output)
  }

  lemma SizedBroker(cfg: Settings, c: Config, a: Action)
    requires Enabled(c, a) && a.BrokerStep?
    ensures Sized(Next(cfg, c, a))
  {
  }

  lemma SizedOthers(cfg: Settings, c: Config, a: Action)
    requires Enabled(c, a) && !a.BrokerStep?
    ensures Sized(Next(cfg, c, a))
  {
  }

  lemma SizedStep(cfg: Settings, c: Config, a: Action)
    requires Enabled(c, a)
    ensures Sized(Next(cfg, c, a))
  {
    if a.BrokerStep? { SizedBroker(cfg, c, a); } else { SizedOthers(cfg, c, a); }
  }
}
