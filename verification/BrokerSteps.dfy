/** The broker class takes the steps of the transition system, one by one.  Between two of them any
    client and any runner may have used the queues: a step starts from whatever state the slots are
    in. */
module BrokerSteps {
  import opened BrokerProtocol
  import Impl = Broker

  /** The object is in the state of the configuration. */
  ghost predicate Shows(b: Impl.Broker, c: Config)
    reads b, b.sourceSlots, b.targetSlots
  {
    b.Valid() && Sized(c) && b.Abs() == c.s
  }

  /** One visit to a source slot's queue, or the end of the first phase. */
  method StepAtSources(b: Impl.Broker, k: nat, now: int, ghost c: Config) returns (next: Phase)
    requires Shows(b, c) && c.pc == AtSources(k) && c.now == now
    modifies b`freeSourceSlots, b.sourceSlots, b.targetSlots
    ensures Shows(b, c.(s := b.Abs(), pc := next))
    ensures c.(s := b.Abs(), pc := next) == Next(b.Config(), c, BrokerStep("", now))
  {
    if k < |b.sourceSlots| {
      b.ReadSourceMessage(k, now);
      return AtSources(k + 1);
    }
    return AtTargets(0);
  }

  method StepAtTargets(b: Impl.Broker, k: nat, now: int, ghost c: Config) returns (next: Phase)
    requires Shows(b, c) && c.pc == AtTargets(k) && c.now == now
    modifies b`freeSourceSlots, b.sourceSlots, b.targetSlots
    ensures Shows(b, c.(s := b.Abs(), pc := next))
    ensures c.(s := b.Abs(), pc := next) == Next(b.Config(), c, BrokerStep("", now))
  {
    if k < |b.targetSlots| {
      b.ReadTargetMessage(k, now);
      return AtTargets(k + 1);
    }
    return AtMatch(0);
  }

  method StepAtMatch(b: Impl.Broker, k: nat, now: int, ghost c: Config) returns (next: Phase)
    requires Shows(b, c) && c.pc == AtMatch(k) && c.now == now
    modifies b.sourceSlots, b.targetSlots
    ensures Shows(b, c.(s := b.Abs(), pc := next))
    ensures c.(s := b.Abs(), pc := next) == Next(b.Config(), c, BrokerStep("", now))
  {
    if k < |b.sourceSlots| {
      b.MatchWaiter(k, now);
      return AtMatch(k + 1);
    }
    return AtStartNew;
  }

  /** A round of the first start loop; pick is the type that the iteration over the map settled on. */
  method StepAtStartNew(b: Impl.Broker, now: int, ghost c: Config) returns (next: Phase, ghost pick: string)
    requires Shows(b, c) && c.pc == AtStartNew && c.now == now
    modifies b`freeSourceSlots, b.sourceSlots, b.targetSlots
    ensures Shows(b, c.(s := b.Abs(), pc := next)) && Enabled(c, BrokerStep(pick, now))
    ensures c.(s := b.Abs(), pc := next) == Next(b.Config(), c, BrokerStep(pick, now))
  {
    var done: bool;
    done, pick := b.StartOneNew(now);
    next := if done then AtStartCopies else AtStartNew;
  }

  method StepAtStartCopies(b: Impl.Broker, now: int, ghost c: Config) returns (next: Phase)
    requires Shows(b, c) && c.pc == AtStartCopies && c.now == now
    modifies b`freeSourceSlots, b.sourceSlots, b.targetSlots
    ensures Shows(b, c.(s := b.Abs(), pc := next))
    ensures c.(s := b.Abs(), pc := next) == Next(b.Config(), c, BrokerStep("", now))
  {
    var done := b.StartOneCopy(now);
    next := if done then AtFreeY(0) else AtStartCopies;
  }

  method StepAtFreeY(b: Impl.Broker, k: nat, now: int, ghost c: Config) returns (next: Phase)
    requires Shows(b, c) && c.pc == AtFreeY(k) && c.now == now
    modifies b.targetSlots
    ensures Shows(b, c.(s := b.Abs(), pc := next))
    ensures c.(s := b.Abs(), pc := next) == Next(b.Config(), c, BrokerStep("", now))
  {
    if k < |b.targetSlots| {
      b.FreeIfUnused(k, now);
      return AtFreeY(k + 1);
    }
    return AtSweep(0);
  }

  /** One target of the sweep, or the end of the pass and a new look at the clock. */
  method StepAtSweep(b: Impl.Broker, k: nat, now: int, clock: int, ghost c: Config) returns (next: Phase, later: int)
    requires Shows(b, c) && c.pc == AtSweep(k) && c.now == now
    modifies b.targetSlots
    ensures Shows(b, c.(s := b.Abs(), pc := next, now := later))
    ensures c.(s := b.Abs(), pc := next, now := later) == Next(b.Config(), c, BrokerStep("", clock))
  {
    if k < |b.targetSlots| {
      b.SweepIfTimedOut(k, now);
      return AtSweep(k + 1), now;
    }
    return AtSources(0), clock;
  }

  /** Wherever the broker is in its pass and whatever others did since its last step, its next piece
      of code is a step of the system. */
  method TakeStep(b: Impl.Broker, phase: Phase, now: int, clock: int, ghost c: Config)
    returns (next: Phase, later: int, ghost a: Action)
    requires Shows(b, c) && c.pc == phase && c.now == now
    modifies b`freeSourceSlots, b.sourceSlots, b.targetSlots
    ensures a.BrokerStep? && Enabled(c, a)
    ensures Shows(b, Next(b.Config(), c, a)) && next == Next(b.Config(), c, a).pc && later == Next(b.Config(), c, a).now
  {
    ghost var pick := "";
    later := now;
    match phase {
      case AtSources(k) => next := StepAtSources(b, k, now, c);
      case AtTargets(k) => next := StepAtTargets(b, k, now, c);
      case AtMatch(k) => next := StepAtMatch(b, k, now, c);
      case AtStartNew => next, pick := StepAtStartNew(b, now, c);
      case AtStartCopies => next := StepAtStartCopies(b, now, c);
      case AtFreeY(k) => next := StepAtFreeY(b, k, now, c);
      case AtSweep(k) => next, later := StepAtSweep(b, k, now, clock, c);
    }
    a := BrokerStep(pick, if phase.AtSweep? then clock else now);
  }
}
