/** broker.go in its own form: slot objects whose fields the passes of the broker update in place.
    Every method is tied to the function on values that specifies it. */
module Broker {
  import opened Wrappers
  import opened BrokerModel
  import opened BrokerInvariants
  import P = BrokerPass

  class BrokerSlot {
    /** Which of the broker's two lists the slot is in, and where. */
    ghost const isSource: bool
    ghost const index: nat
    var input: seq<Message>
    var output: seq<Message>
    var state: SlotState
    var since: int
    var slotType: string
    var runInfo: RunInfo
    var refInfo: string
    var oppositeSlot: BrokerSlot?

    constructor (ghost isSource: bool, ghost index: nat)
      ensures this.isSource == isSource && this.index == index && View() == Slot([], [], Free, 0, "", NoInfo, "", None)
      ensures oppositeSlot == null
    {
      this.isSource, this.index := isSource, index;
      input, output := [], [];
      state, since, slotType := Free, 0, "";
      runInfo, refInfo, oppositeSlot := NoInfo, "", null;
    }

    ghost function View(): Slot
      reads this
    {
      Slot(input, output, state, since, slotType, runInfo, refInfo,
           if oppositeSlot == null then None else Some(oppositeSlot.index))
    }

    method SendInternal(message: Message)
      modifies this`output
      ensures output == old(output) + [message]
    {
      output := output + [message];
    }

    method ReadInternal() returns (message: Message)
      requires input != []
      modifies this`input
      ensures message == old(input)[0] && input == old(input)[1..]
    {
      message := input[0];
      input := input[1..];
    }

    predicate Empty()
      reads this
    {
      |input| == 0
    }

    /** The client's side of the slot. */
    method Send(message: Message)
      modifies this`input
      ensures input == old(input) + [message]
    {
      input := input + [message];
    }

    /** Read blocks while nothing is queued. */
    method Read() returns (message: Message)
      requires output != []
      modifies this`output
      ensures message == old(output)[0] && output == old(output)[1..]
    {
      message := output[0];
      output := output[1..];
    }
  }

  ghost function Views(q: seq<BrokerSlot>): (v: seq<Slot>)
    reads q
    ensures |v| == |q| && forall i {:trigger v[i]} :: 0 <= i < |q| ==> v[i] == q[i].View()
  {
    seq(|q|, i requires 0 <= i < |q| reads q => q[i].View())
  }

  ghost function Indexes(q: seq<BrokerSlot>): (v: seq<nat>)
    ensures |v| == |q| && forall i {:trigger v[i]} :: 0 <= i < |q| ==> v[i] == q[i].index
  {
    seq(|q|, i requires 0 <= i < |q| => q[i].index)
  }

  ghost predicate NewSlots(q: seq<BrokerSlot>, source: bool)
    reads q
  {
    forall k :: 0 <= k < |q| ==>
      q[k].isSource == source && q[k].index == k && q[k].View() == P.EMPTY_SLOT && q[k].oppositeSlot == null
  }

  /** waitOnlySlotTypes: the entries of one map whose keys another one lacks, in any order. */
  method WithoutKeys(waiting: map<string, nat>, running: map<string, nat>) returns (waitOnly: map<string, nat>)
    ensures forall t :: t in waitOnly <==> t in waiting && t !in running
    ensures forall t :: t in waitOnly ==> waitOnly[t] == waiting[t]
  {
    waitOnly := map[];
    var keys := waiting.Keys;
    while keys != {}
      invariant keys <= waiting.Keys
      invariant forall t :: t in waitOnly <==> t in waiting.Keys - keys && t !in running
      invariant forall t :: t in waitOnly ==> waitOnly[t] == waiting[t]
    {
      var t :| t in keys;
      if t !in running {
        waitOnly := waitOnly[t := waiting[t]];
      }
      keys := keys - {t};
    }
  }

  /** A type with the greatest count, in any order of iteration. */
  method MostRequestedType(waitOnly: map<string, nat>) returns (slotType: string)
    requires waitOnly.Keys != {} && forall t :: t in waitOnly ==> waitOnly[t] > 0
    ensures slotType in waitOnly && forall t :: t in waitOnly ==> waitOnly[t] <= waitOnly[slotType]
  {
    slotType := "";
    var waitCount := 0;
    var keys := waitOnly.Keys;
    while keys != {}
      invariant keys <= waitOnly.Keys
      invariant waitCount == 0 ==> keys == waitOnly.Keys
      invariant waitCount > 0 ==> slotType in waitOnly && waitOnly[slotType] == waitCount
      invariant forall t :: t in waitOnly.Keys - keys ==> waitOnly[t] <= waitCount
    {
      var t :| t in keys;
      if waitOnly[t] > waitCount {
        slotType, waitCount := t, waitOnly[t];
      }
      keys := keys - {t};
    }
  }

  class Broker {
    const sourceSlots: seq<BrokerSlot>
    const targetSlots: seq<BrokerSlot>
    var freeSourceSlots: seq<BrokerSlot>
    var freeTargetSlots: seq<BrokerSlot>
    var LoopSleep: int
    var ReleaseTimeout: int

    ghost predicate IsSource(slot: BrokerSlot) {
      slot.isSource && slot.index < |sourceSlots| && sourceSlots[slot.index] == slot
    }

    ghost predicate IsTarget(slot: BrokerSlot) {
      !slot.isSource && slot.index < |targetSlots| && targetSlots[slot.index] == slot
    }

    ghost predicate SourceValid(slot: BrokerSlot)
      reads slot
    {
      && (slot.oppositeSlot != null ==> IsTarget(slot.oppositeSlot))
      && (slot.state == SlotState.Run ==> slot.oppositeSlot != null)
    }

    ghost predicate TargetValid(slot: BrokerSlot)
      reads slot
    {
      slot.oppositeSlot != null ==> IsSource(slot.oppositeSlot)
    }

    /** Slots know their places, links lead to the other side, and a Run source has a link. */
    ghost predicate Valid()
      reads this, sourceSlots, targetSlots
    {
      && (forall i :: 0 <= i < |sourceSlots| ==> IsSource(sourceSlots[i]) && sourceSlots[i].index == i && SourceValid(sourceSlots[i]))
      && (forall j :: 0 <= j < |targetSlots| ==> IsTarget(targetSlots[j]) && targetSlots[j].index == j && TargetValid(targetSlots[j]))
      && (forall a :: 0 <= a < |freeSourceSlots| ==> IsSource(freeSourceSlots[a]))
    }

    ghost function Abs(): (s: State)
      reads this, sourceSlots, targetSlots
      ensures |s.sources| == |sourceSlots| && |s.targets| == |targetSlots|
    {
      State(Views(sourceSlots), Views(targetSlots), Indexes(freeSourceSlots))
    }

    ghost function Config(): Settings
      reads this
    {
      Settings(LoopSleep, ReleaseTimeout)
    }

    /** Only target slot j was written to. */
    twostate lemma TargetChanged(j: nat)
      requires old(Valid()) && j < |targetSlots|
      requires forall i :: 0 <= i < |sourceSlots| ==> unchanged(sourceSlots[i])
      requires forall k :: 0 <= k < |targetSlots| && k != j ==> unchanged(targetSlots[k])
      requires unchanged(this)
      ensures Abs() == WithTarget(old(Abs()), j, targetSlots[j].View())
    {
      var r := WithTarget(old(Abs()), j, targetSlots[j].View());
      assert Abs().sources == r.sources;
      assert Abs().targets == r.targets;
    }

    /** Only source slot i was written to. */
    twostate lemma SourceChanged(i: nat)
      requires old(Valid()) && i < |sourceSlots|
      requires forall k :: 0 <= k < |sourceSlots| && k != i ==> unchanged(sourceSlots[k])
      requires forall j :: 0 <= j < |targetSlots| ==> unchanged(targetSlots[j])
      requires unchanged(this)
      ensures Abs() == WithSource(old(Abs()), i, sourceSlots[i].View())
    {
      var r := WithSource(old(Abs()), i, sourceSlots[i].View());
      assert Abs().sources == r.sources;
      assert Abs().targets == r.targets;
    }

    /** Only the queue of free slots was written to. */
    twostate lemma Queued(i: nat)
      requires old(Valid()) && i < |sourceSlots|
      requires forall k :: 0 <= k < |sourceSlots| ==> unchanged(sourceSlots[k])
      requires forall j :: 0 <= j < |targetSlots| ==> unchanged(targetSlots[j])
      requires freeSourceSlots == old(freeSourceSlots) + [sourceSlots[i]]
      ensures Abs() == old(Abs()).(freeSources := old(Abs()).freeSources + [i])
    {
      assert Abs().sources == old(Abs()).sources;
      assert Abs().targets == old(Abs()).targets;
    }

    // ---------------------------------------------------------------- phase 1

    method PopSource(i: nat) returns (message: Message)
      requires Valid() && i < |sourceSlots| && sourceSlots[i].input != []
      modifies sourceSlots[i]
      ensures Valid() && message == old(sourceSlots[i].input)[0]
      ensures Abs() == old(WithSource(Abs(), i, sourceSlots[i].View().(input := sourceSlots[i].input[1..])))
    {
      var sourceSlot := sourceSlots[i];
      message := sourceSlot.input[0];
      sourceSlot.input := sourceSlot.input[1..];
      SourceChanged(i);
    }

    method ReadSourceMessage(i: nat, now: int)
      requires Valid() && i < |sourceSlots|
      modifies this`freeSourceSlots, sourceSlots, targetSlots
      ensures Valid() && Abs() == ReadSource(old(Abs()), i, now)
    {
      if !sourceSlots[i].Empty() {
        var message := PopSource(i);
        if message.ReleaseMsg? {
          Release(i, message.kill, now);
        } else if message.AcquireMsg? {
          Acquire(i, message.slotType, message.info, now);
        }
      }
    }

    method Release(i: nat, kill: bool, now: int)
      requires Valid() && i < |sourceSlots|
      modifies this`freeSourceSlots, sourceSlots, targetSlots
      ensures Valid() && Abs() == OnRelease(old(Abs()), i, kill, now)
    {
      var sourceSlot := sourceSlots[i];
      if sourceSlot.state != SlotState.Run || YType(sourceSlot.slotType) {
        Free(sourceSlot);
        return;
      }
      var targetSlot := sourceSlot.oppositeSlot;
      targetSlot.state := SlotState.Free;
      targetSlot.since := now;
      if kill {
        targetSlot.slotType := "";
        targetSlot.state := SlotState.Free;
        targetSlot.since := 3;
      }
      TargetChanged(targetSlot.index);
      Free(sourceSlot);
    }

    /** The slot becomes Free and is queued for the next client. */
    method Free(sourceSlot: BrokerSlot)
      requires Valid() && IsSource(sourceSlot)
      modifies this`freeSourceSlots, sourceSlot
      ensures Valid() && Abs() == Recycle(old(Abs()), sourceSlot.index)
    {
      sourceSlot.state := SlotState.Free;
      SourceChanged(sourceSlot.index);
      label freed:
      freeSourceSlots := freeSourceSlots + [sourceSlot];
      Queued@freed(sourceSlot.index);
    }

    method Acquire(i: nat, slotType: string, info: RunInfo, now: int)
      requires Valid() && i < |sourceSlots|
      modifies sourceSlots[i]
      ensures Valid() && Abs() == OnAcquire(old(Abs()), i, slotType, info, now)
    {
      var sourceSlot := sourceSlots[i];
      sourceSlot.slotType := slotType;
      sourceSlot.runInfo := info;
      sourceSlot.since := now;
      sourceSlot.state := Wait;
      sourceSlot.oppositeSlot := null;
      SourceChanged(i);
    }

    method ReadSources(now: int)
      requires Valid()
      modifies this`freeSourceSlots, sourceSlots, targetSlots
      ensures Valid() && Abs() == P.ReadSources(old(Abs()), now, |sourceSlots|)
    {
      ghost var start := Abs();
      for i := 0 to |sourceSlots|
        invariant Valid() && Abs() == P.ReadSources(start, now, i)
      {
        ReadSourceMessage(i, now);
      }
    }

    // ---------------------------------------------------------------- phase 2

    /** The slot becomes Free, is queued for the next client, and its old client is told why. */
    method FailSource(sourceSlot: BrokerSlot, text: string)
      requires Valid() && IsSource(sourceSlot)
      modifies this`freeSourceSlots, sourceSlot
      ensures Valid() && Abs() == Fail(old(Abs()), sourceSlot.index, text)
    {
      Free(sourceSlot);
      label freed:
      sourceSlot.SendInternal(ErrorMsg(text));
      SourceChanged@freed(sourceSlot.index);
    }

    method FailIfWaiting(i: nat, slotType: string, text: string)
      requires Valid() && i < |sourceSlots|
      modifies this`freeSourceSlots, sourceSlots
      ensures Valid()
      ensures Abs() == if WaitsFor(old(Abs()).sources[i], slotType) then Fail(old(Abs()), i, text) else old(Abs())
    {
      assert sourceSlots[i].View() == Abs().sources[i];
      if sourceSlots[i].state == Wait && sourceSlots[i].slotType == slotType {
        FailSource(sourceSlots[i], text);
      }
    }

    method FailAllWaiters(slotType: string, text: string)
      requires Valid()
      modifies this`freeSourceSlots, sourceSlots
      ensures Valid() && Abs() == FailWaiters(old(Abs()), slotType, text, |sourceSlots|)
    {
      ghost var start := Abs();
      for i := 0 to |sourceSlots|
        invariant Valid() && Abs() == FailWaiters(start, slotType, text, i)
      {
        FailIfWaiting(i, slotType, text);
      }
    }

    method PopTarget(j: nat) returns (message: Message)
      requires Valid() && j < |targetSlots| && targetSlots[j].input != []
      modifies targetSlots[j]
      ensures Valid() && message == old(targetSlots[j].input)[0]
      ensures Abs() == old(WithTarget(Abs(), j, targetSlots[j].View().(input := targetSlots[j].input[1..])))
    {
      message := targetSlots[j].ReadInternal();
      TargetChanged(j);
    }

    method ResetTarget(j: nat, since: int)
      requires Valid() && j < |targetSlots|
      modifies targetSlots[j]
      ensures Valid()
      ensures Abs() == WithTarget(old(Abs()), j, old(Abs()).targets[j].(state := SlotState.Free, slotType := "", since := since))
    {
      targetSlots[j].state := SlotState.Free;
      targetSlots[j].slotType := "";
      targetSlots[j].since := since;
      TargetChanged(j);
    }

    method TargetStarted(j: nat, now: int)
      requires Valid() && j < |targetSlots|
      modifies targetSlots[j]
      ensures Valid() && Abs() == WithTarget(old(Abs()), j, old(Abs()).targets[j].(state := SlotState.Free, since := now))
    {
      targetSlots[j].state := SlotState.Free;
      targetSlots[j].since := now;
      TargetChanged(j);
    }

    method TargetAnnounced(j: nat, address: string, now: int)
      requires Valid() && j < |targetSlots|
      modifies targetSlots[j]
      ensures Valid()
      ensures Abs() == WithTarget(old(Abs()), j, old(Abs()).targets[j].(state := SlotState.Free, slotType := "",
                                                                        refInfo := address, since := now))
    {
      targetSlots[j].state := SlotState.Free;
      targetSlots[j].slotType := "";
      targetSlots[j].refInfo := address;
      targetSlots[j].since := now;
      TargetChanged(j);
    }

    method StartFailed(j: nat, text: string)
      requires Valid() && j < |targetSlots|
      modifies this`freeSourceSlots, sourceSlots, targetSlots[j]
      ensures Valid()
      ensures var f := FailWaiters(old(Abs()), old(targetSlots[j].slotType), text, |sourceSlots|);
              Abs() == WithTarget(f, j, f.targets[j].(state := SlotState.Free, slotType := "", since := 5))
    {
      FailAllWaiters(targetSlots[j].slotType, text);
      ResetTarget(j, 5);
    }

    method ReadTargetMessage(j: nat, now: int)
      requires Valid() && j < |targetSlots|
      modifies this`freeSourceSlots, sourceSlots, targetSlots
      ensures Valid() && Abs() == ReadTarget(old(Abs()), j, now)
    {
      assert targetSlots[j].View() == Abs().targets[j];
      if !targetSlots[j].Empty() {
        var message := PopTarget(j);
        assert targetSlots[j].View() == Abs().targets[j];
        if message.StartedMsg? {
          TargetStarted(j, now);
        } else if message.FreeMsg? {
          TargetAnnounced(j, message.address, now);
        } else if message.ErrorMsg? {
          StartFailed(j, message.text);
        }
      }
    }

    method ReadTargets(now: int)
      requires Valid()
      modifies this`freeSourceSlots, sourceSlots, targetSlots
      ensures Valid() && Abs() == P.ReadTargets(old(Abs()), now, |targetSlots|)
    {
      ghost var start := Abs();
      for j := 0 to |targetSlots|
        invariant Valid() && Abs() == P.ReadTargets(start, now, j)
      {
        ReadTargetMessage(j, now);
      }
    }

    // ---------------------------------------------------------------- phase 3

    method RunTarget(j: nat, now: int)
      requires Valid() && j < |targetSlots|
      modifies targetSlots[j]
      ensures Valid() && Abs() == WithTarget(old(Abs()), j, old(Abs()).targets[j].(state := SlotState.Run, since := now))
      ensures targetSlots[j].refInfo == old(targetSlots[j].refInfo)
    {
      targetSlots[j].state := SlotState.Run;
      targetSlots[j].since := now;
      TargetChanged(j);
    }

    method RunSource(i: nat, j: nat, now: int)
      requires Valid() && i < |sourceSlots| && j < |targetSlots|
      modifies sourceSlots[i]
      ensures Valid()
      ensures Abs() == WithSource(old(Abs()), i, old(Abs()).sources[i].(opposite := Some(j), state := SlotState.Run, since := now,
                                    output := old(Abs()).sources[i].output + [AcquiredMsg(old(Abs()).targets[j].refInfo)]))
    {
      var sourceSlot, targetSlot := sourceSlots[i], targetSlots[j];
      assert targetSlot.View() == Abs().targets[j];
      sourceSlot.oppositeSlot := targetSlot;
      sourceSlot.state := SlotState.Run;
      sourceSlot.since := now;
      sourceSlot.SendInternal(AcquiredMsg(targetSlot.refInfo));
      SourceChanged(i);
    }

    method LinkSlots(i: nat, j: nat, now: int)
      requires Valid() && i < |sourceSlots| && j < |targetSlots|
      modifies sourceSlots[i], targetSlots
      ensures Valid() && Abs() == Link(old(Abs()), i, j, now)
    {
      RunTarget(j, now);
      RunSource(i, j, now);
    }

    method MatchWaiter(i: nat, now: int)
      requires Valid() && i < |sourceSlots|
      modifies sourceSlots, targetSlots
      ensures Valid() && Abs() == MatchSource(old(Abs()), i, now)
    {
      assert sourceSlots[i].View() == Abs().sources[i];
      if sourceSlots[i].state == Wait {
        if YType(sourceSlots[i].slotType) {
          MatchShared(i, now);
        } else {
          MatchExclusive(i, now);
        }
      }
    }

    method MatchShared(i: nat, now: int)
      requires Valid() && i < |sourceSlots| && YType(sourceSlots[i].slotType)
      modifies sourceSlots[i], targetSlots
      ensures Valid() && Abs() == MatchUpTo(old(Abs()), i, now, |targetSlots|)
    {
      ghost var start := Abs();
      for j := 0 to |targetSlots|
        invariant Valid() && Abs() == MatchUpTo(start, i, now, j)
      {
        var targetSlot := targetSlots[j];
        assert targetSlot.View() == Abs().targets[j] && sourceSlots[i].View() == Abs().sources[i];
        if (targetSlot.state == SlotState.Free || targetSlot.state == SlotState.Run) && targetSlot.slotType == sourceSlots[i].slotType {
          LinkSlots(i, j, now);
        }
      }
    }

    method MatchExclusive(i: nat, now: int)
      requires Valid() && i < |sourceSlots| && !YType(sourceSlots[i].slotType)
      modifies sourceSlots[i], targetSlots
      ensures Valid() && Abs() == MatchUpTo(old(Abs()), i, now, |targetSlots|)
    {
      ghost var start := Abs();
      for j := 0 to |targetSlots|
        invariant Valid() && Abs() == MatchUpTo(start, i, now, j)
      {
        var targetSlot := targetSlots[j];
        assert targetSlot.View() == Abs().targets[j] && sourceSlots[i].View() == Abs().sources[i];
        if targetSlot.state == SlotState.Free && targetSlot.slotType == sourceSlots[i].slotType {
          LinkSlots(i, j, now);
        }
      }
    }

    method MatchWaiters(now: int)
      requires Valid()
      modifies sourceSlots, targetSlots
      ensures Valid() && Abs() == P.MatchSources(old(Abs()), now, |sourceSlots|)
    {
      ghost var start := Abs();
      for i := 0 to |sourceSlots|
        invariant Valid() && Abs() == P.MatchSources(start, now, i)
      {
        MatchWaiter(i, now);
      }
    }

    // ---------------------------------------------------------------- phases 6 and 7

    method FreeIfUnused(j: nat, now: int)
      requires Valid() && j < |targetSlots|
      modifies targetSlots
      ensures Valid() && Abs() == FreeUnusedY(old(Abs()), j, now)
    {
      assert targetSlots[j].View() == Abs().targets[j];
      if YType(targetSlots[j].slotType) && targetSlots[j].state == SlotState.Run {
        var used := IsUsed(targetSlots[j].slotType);
        if !used {
          TargetStarted(j, now);
        }
      }
    }

    method FreeUnusedTargets(now: int)
      requires Valid()
      modifies targetSlots
      ensures Valid() && Abs() == P.FreeUnused(old(Abs()), now, |targetSlots|)
    {
      ghost var start := Abs();
      for j := 0 to |targetSlots|
        invariant Valid() && Abs() == P.FreeUnused(start, now, j)
      {
        FreeIfUnused(j, now);
      }
    }

    method IsUsed(slotType: string) returns (used: bool)
      requires Valid()
      ensures used <==> InUse(Abs(), slotType)
    {
      used := false;
      for i := 0 to |sourceSlots|
        invariant used <==> exists h :: 0 <= h < i && Abs().sources[h].slotType == slotType && Abs().sources[h].state == SlotState.Run
      {
        assert sourceSlots[i].View() == Abs().sources[i];
        if sourceSlots[i].slotType == slotType && sourceSlots[i].state == SlotState.Run {
          used := true;
        }
      }
    }

    method SweepIfTimedOut(j: nat, now: int)
      requires Valid() && j < |targetSlots|
      modifies targetSlots
      ensures Valid() && Abs() == Sweep(old(Abs()), j, now, Config())
    {
      assert targetSlots[j].View() == Abs().targets[j];
      if targetSlots[j].since < now - ReleaseTimeout && targetSlots[j].state == SlotState.Run {
        ResetTarget(j, 7);
      }
    }

    method SweepTimedOut(now: int)
      requires Valid()
      modifies targetSlots
      ensures Valid() && Abs() == P.SweepTargets(old(Abs()), now, Config(), |targetSlots|)
    {
      ghost var start := Abs();
      for j := 0 to |targetSlots|
        invariant Valid() && Abs() == P.SweepTargets(start, now, Config(), j)
      {
        SweepIfTimedOut(j, now);
      }
    }

    // ---------------------------------------------------------------- phases 4 and 5

    /** waitSlotTypes: for every type, how many unlinked sources wait for it. */
    method CountWaiting() returns (waiting: map<string, nat>)
      requires Valid()
      ensures forall t :: t in waiting <==> WaitCount(Abs(), t, |sourceSlots|) > 0
      ensures forall t :: t in waiting ==> waiting[t] == WaitCount(Abs(), t, |sourceSlots|)
    {
      ghost var s := Abs();
      waiting := map[];
      for i := 0 to |sourceSlots|
        invariant forall t :: t in waiting <==> WaitCount(s, t, i) > 0
        invariant forall t :: t in waiting ==> waiting[t] == WaitCount(s, t, i)
      {
        var slot := sourceSlots[i];
        assert slot.View() == s.sources[i];
        if slot.state == Wait && slot.oppositeSlot == null {
          var count := if slot.slotType in waiting then waiting[slot.slotType] else 0;
          waiting := waiting[slot.slotType := count + 1];
        }
      }
    }

    /** runningSlotTypes: the types of all targets, whatever their state. */
    method CountRunning() returns (running: map<string, nat>)
      requires Valid()
      ensures forall t :: t in running <==> Carried(Abs(), t)
    {
      ghost var s := Abs();
      running := map[];
      for j := 0 to |targetSlots|
        invariant forall t :: t in running <==> exists k :: 0 <= k < j && s.targets[k].slotType == t
      {
        var slot := targetSlots[j];
        assert slot.View() == s.targets[j];
        var count := if slot.slotType in running then running[slot.slotType] else 0;
        running := running[slot.slotType := count + 1];
      }
    }

    /** The type that most unlinked sources wait for, among the types no target carries. */
    method PickType() returns (found: bool, slotType: string)
      requires Valid()
      ensures found <==> exists t :: WaitOnly(Abs(), t)
      ensures found ==> MostRequested(Abs(), slotType)
    {
      var waiting := CountWaiting();
      var running := CountRunning();
      var waitOnly := WithoutKeys(waiting, running);
      ghost var s := Abs();
      assert forall t :: t in waitOnly <==> WaitOnly(s, t);
      found, slotType := waitOnly.Keys != {}, "";
      if found {
        slotType := MostRequestedType(waitOnly);
        assert WaitOnly(s, slotType);
        forall u | WaitOnly(s, u)
          ensures WaitCount(s, u, |s.sources|) <= WaitCount(s, slotType, |s.sources|)
        {
          assert u in waitOnly;
        }
      } else {
        forall u
          ensures !WaitOnly(s, u)
        {
          assert u !in waitOnly.Keys;
        }
      }
      assert found ==> WaitOnly(Abs(), slotType);
      assert (exists t :: WaitOnly(Abs(), t)) ==> found;
    }

    method FindOldestFree() returns (oldest: BrokerSlot?)
      requires Valid()
      ensures oldest == null <==> OldestFree(Abs(), |targetSlots|) == None
      ensures oldest != null ==> IsTarget(oldest) && OldestFree(Abs(), |targetSlots|) == Some(oldest.index)
    {
      ghost var s := Abs();
      oldest := null;
      for j := 0 to |targetSlots|
        invariant oldest == null <==> OldestFree(s, j) == None
        invariant oldest != null ==> IsTarget(oldest) && OldestFree(s, j) == Some(oldest.index) && oldest.View() == s.targets[oldest.index]
      {
        var slot := targetSlots[j];
        assert slot.View() == s.targets[j];
        if slot.state == SlotState.Free {
          if oldest == null || oldest.since > slot.since {
            oldest := slot;
          }
        }
      }
    }

    method FindFirstWaiter(slotType: string) returns (waiting: BrokerSlot?)
      requires Valid()
      ensures waiting == null <==> FirstWaiter(Abs(), slotType, |sourceSlots|) == None
      ensures waiting != null ==> IsSource(waiting) && FirstWaiter(Abs(), slotType, |sourceSlots|) == Some(waiting.index)
    {
      waiting := null;
      var i := 0;
      while i < |sourceSlots| && waiting == null
        invariant 0 <= i <= |sourceSlots|
        invariant waiting == null ==> FirstWaiter(Abs(), slotType, i) == None
        invariant waiting != null ==> IsSource(waiting) && waiting.index < |sourceSlots|
                                      && WaitsFor(Abs().sources[waiting.index], slotType)
                                      && forall h :: 0 <= h < waiting.index ==> !WaitsFor(Abs().sources[h], slotType)
      {
        var slot := sourceSlots[i];
        assert slot.View() == Abs().sources[i];
        if slot.state == Wait && slot.slotType == slotType {
          waiting := slot;
        }
        i := i + 1;
      }
    }

    /** A target is told to start a container for a waiting source. */
    method CommandTarget(target: BrokerSlot, source: BrokerSlot, backLink: bool, now: int)
      requires Valid() && IsTarget(target) && IsSource(source)
      modifies target
      ensures Valid() && source.View() == Abs().sources[source.index]
      ensures var src, trg := old(Abs()).sources[source.index], old(Abs()).targets[target.index];
              Abs() == WithTarget(old(Abs()), target.index,
                         trg.(state := Starting, slotType := src.slotType, since := now,
                              opposite := if backLink then Some(source.index) else trg.opposite,
                              output := trg.output + [StartMsg(src.runInfo)]))
    {
      assert source.View() == Abs().sources[source.index];
      if backLink {
        target.oppositeSlot := source;
      }
      target.state := Starting;
      target.slotType := source.slotType;
      target.since := now;
      target.SendInternal(StartMsg(source.runInfo));
      TargetChanged(target.index);
      assert source.View() == Abs().sources[source.index];
    }

    method PromiseTarget(source: BrokerSlot, target: BrokerSlot)
      requires Valid() && IsTarget(target) && IsSource(source)
      modifies source`oppositeSlot
      ensures Valid()
      ensures Abs() == WithSource(old(Abs()), source.index, old(Abs()).sources[source.index].(opposite := Some(target.index)))
    {
      source.oppositeSlot := target;
      SourceChanged(source.index);
    }

    method Start(target: BrokerSlot, source: BrokerSlot, backLink: bool, now: int)
      requires Valid() && IsTarget(target) && IsSource(source)
      modifies this`freeSourceSlots, source, target
      ensures Valid() && Abs() == StartTarget(old(Abs()), target.index, source.index, backLink, now)
    {
      CommandTarget(target, source, backLink, now);
      PromiseTarget(source, target);
      assert source.View() == Abs().sources[source.index];
      if source.runInfo.Container? && source.runInfo.port == 3 {
        FailSource(source, CLOSING_TEXT);
      }
    }

    /** The start of a container for the first waiter of a type that is left over. */
    method StartFor(oldest: BrokerSlot, slotType: string, now: int)
      requires Valid() && IsTarget(oldest) && OldestFree(Abs(), |targetSlots|) == Some(oldest.index) && WaitOnly(Abs(), slotType)
      modifies this`freeSourceSlots, sourceSlots, targetSlots
      ensures Valid() && Abs() == StartNew(old(Abs()), slotType, now)
    {
      ghost var i := StartSource(Abs(), slotType);
      var waitingSlot := FindFirstWaiter(slotType);
      if waitingSlot != null {
        Start(oldest, waitingSlot, true, now);
      }
    }

    /** One round of the first start loop.  The type is whatever the map iteration settles on. */
    method StartOneNew(now: int) returns (done: bool, ghost pick: string)
      requires Valid()
      modifies this`freeSourceSlots, sourceSlots, targetSlots
      ensures Valid() && done == !old(CanStartNew(Abs()))
      ensures done ==> Abs() == old(Abs())
      ensures !done ==> old(MostRequested(Abs(), pick)) && Abs() == StartNew(old(Abs()), pick, now)
    {
      done, pick := true, "";
      var oldest := FindOldestFree();
      var found, slotType := PickType();
      assert found && oldest != null <==> CanStartNew(Abs());
      if found && oldest != null {
        StartFor(oldest, slotType, now);
        done, pick := false, slotType;
      }
    }

    /** The first start loop: it stops when no type is left over or no target is Free. */
    method StartAllNew(now: int) returns (ghost picks: seq<string>)
      requires Valid()
      modifies this`freeSourceSlots, sourceSlots, targetSlots
      ensures Valid() && !CanStartNew(Abs())
      ensures P.StartRounds(old(Abs()), picks, now, Abs())
    {
      ghost var start := Abs();
      picks := [];
      var done := false;
      while !done
        invariant Valid() && P.StartRounds(start, picks, now, Abs())
        invariant done ==> !CanStartNew(Abs())
        decreases FreeCount(Abs(), |targetSlots|), if done then 0 else 1
      {
        ghost var before := Abs();
        ghost var pick;
        done, pick := StartOneNew(now);
        if !done {
          P.OneMoreRound(start, picks, now, before, pick);
          StartUsesFree(before, OldestFree(before, |before.targets|).value, StartSource(before, pick), true, now, |targetSlots|);
          picks := picks + [pick];
        }
      }
    }

    method FindOldestWaiter(now: int) returns (oldest: BrokerSlot?, time: int)
      requires Valid()
      ensures oldest == null <==> OldestWaiter(Abs(), now, |sourceSlots|) == None
      ensures oldest != null ==> IsSource(oldest) && OldestWaiter(Abs(), now, |sourceSlots|) == Some(oldest.index)
                                 && time == Abs().sources[oldest.index].since
    {
      ghost var s := Abs();
      oldest, time := null, now;
      for i := 0 to |sourceSlots|
        invariant oldest == null <==> OldestWaiter(s, now, i) == None
        invariant oldest != null ==> IsSource(oldest) && OldestWaiter(s, now, i) == Some(oldest.index)
        invariant time == if oldest == null then now else s.sources[oldest.index].since
      {
        var slot := sourceSlots[i];
        assert slot.View() == s.sources[i];
        if slot.state == Wait && slot.oppositeSlot == null && slot.since < time && !YType(slot.slotType) {
          oldest, time := slot, slot.since;
        }
      }
    }

    method FindOldestRunner(now: int) returns (oldest: BrokerSlot?, time: int)
      requires Valid()
      ensures oldest == null <==> OldestRunner(Abs(), now, |targetSlots|) == None
      ensures oldest != null ==> IsTarget(oldest) && OldestRunner(Abs(), now, |targetSlots|) == Some(oldest.index)
                                 && time == Abs().targets[oldest.index].since
    {
      ghost var s := Abs();
      oldest, time := null, now;
      for j := 0 to |targetSlots|
        invariant oldest == null <==> OldestRunner(s, now, j) == None
        invariant oldest != null ==> IsTarget(oldest) && OldestRunner(s, now, j) == Some(oldest.index)
        invariant time == if oldest == null then now else s.targets[oldest.index].since
      {
        var slot := targetSlots[j];
        assert slot.View() == s.targets[j];
        if slot.state == SlotState.Free && slot.since < time {
          oldest, time := slot, slot.since;
        }
      }
    }

    /** One round of the second start loop. */
    method StartOneCopy(now: int) returns (done: bool)
      requires Valid()
      modifies this`freeSourceSlots, sourceSlots, targetSlots
      ensures Valid() && done == !old(CanStartCopy(Abs(), now, Config()))
      ensures Abs() == if done then old(Abs()) else StartCopy(old(Abs()), now, old(Config()))
    {
      done := true;
      var oldestTCP, oldestTCPtime := FindOldestWaiter(now);
      var oldestRunner, oldestRunnerTime := FindOldestRunner(now);
      var limit := now - TruncDiv(4 * LoopSleep, 1000);
      assert CanStartCopy(Abs(), now, Config()) <==>
             oldestTCP != null && oldestRunner != null && oldestRunnerTime < limit && oldestTCPtime < limit;
      if oldestTCP != null && oldestRunner != null && oldestRunnerTime < limit && oldestTCPtime < limit {
        Start(oldestRunner, oldestTCP, false, now);
        done := false;
      }
    }

    /** A round of the second start loop, and what it leaves for the rounds to come. */
    method StartCopyRound(now: int) returns (done: bool)
      requires Valid()
      modifies this`freeSourceSlots, sourceSlots, targetSlots
      ensures Valid() && P.StartCopies(Abs(), now, Config()) == P.StartCopies(old(Abs()), now, Config())
      ensures done ==> P.StartCopies(Abs(), now, Config()) == Abs() && Abs() == old(Abs())
      ensures !done ==> FreeCount(Abs(), |targetSlots|) < old(FreeCount(Abs(), |targetSlots|))
    {
      ghost var before := Abs();
      P.CopyOnTheWay(before, now, Config());
      done := StartOneCopy(now);
      if !done {
        P.CopyUsesFree(before, now, Config());
      }
    }

    /** The second start loop. */
    method StartAllCopies(now: int)
      requires Valid()
      modifies this`freeSourceSlots, sourceSlots, targetSlots
      ensures Valid() && Abs() == P.StartCopies(old(Abs()), now, Config())
    {
      ghost var result := P.StartCopies(Abs(), now, Config());
      var done := false;
      while !done
        invariant Valid() && P.StartCopies(Abs(), now, Config()) == result
        invariant done ==> Abs() == result
        decreases FreeCount(Abs(), |targetSlots|), if done then 0 else 1
      {
        done := StartCopyRound(now);
      }
    }

    // ---------------------------------------------------------------- passes

    method ReadAndMatch(now: int)
      requires Valid()
      modifies this`freeSourceSlots, sourceSlots, targetSlots
      ensures Valid() && Abs() == P.Matched(old(Abs()), now)
    {
      ReadSources(now);
      ReadTargets(now);
      MatchWaiters(now);
    }

    method CopyAndClear(now: int)
      requires Valid()
      modifies this`freeSourceSlots, sourceSlots, targetSlots
      ensures Valid() && Abs() == P.Cleared(old(Abs()), now, Config())
    {
      StartAllCopies(now);
      FreeUnusedTargets(now);
      SweepTimedOut(now);
    }

    /** One pass over all seven phases. */
    method RunPass(now: int) returns (ghost picks: seq<string>)
      requires Valid()
      modifies this`freeSourceSlots, sourceSlots, targetSlots
      ensures Valid() && P.Pass(old(Abs()), now, Config(), picks, Abs())
    {
      ReadAndMatch(now);
      picks := StartAllNew(now);
      CopyAndClear(now);
    }

    /** The broker's loop, for as many passes as there are readings of the clock. */
    method Run(clock: seq<int>) returns (ghost trace: seq<State>, ghost picks: seq<seq<string>>)
      requires Valid()
      modifies this`freeSourceSlots, this`LoopSleep, sourceSlots, targetSlots
      ensures Valid() && LoopSleep == (if old(LoopSleep) == 0 then 1 else old(LoopSleep))
      ensures |trace| == |clock| + 1 && |picks| == |clock| && trace[0] == old(Abs()) && trace[|clock|] == Abs()
      ensures forall n :: 0 <= n < |clock| ==> P.PassAt(trace, clock, Config(), picks, n)
    {
      if LoopSleep == 0 {
        LoopSleep := 1;
      }
      ghost var cfg := Config();
      trace, picks := [Abs()], [];
      for n := 0 to |clock|
        invariant Valid() && Config() == cfg && |trace| == n + 1 && |picks| == n
        invariant trace[0] == old(Abs()) && trace[n] == Abs()
        invariant forall k :: 0 <= k < n ==> P.PassAt(trace, clock, cfg, picks, k)
      {
        ghost var pick := RunPass(clock[n]);
        P.OneMorePass(trace, clock, cfg, picks, pick, Abs());
        trace, picks := trace + [Abs()], picks + [pick];
      }
    }

    // ---------------------------------------------------------------- API

    /** NewBroker. */
    constructor (sourceSlotCount: nat, targetSlotCount: nat, sleepMS: int, releaseTimeout: int)
      ensures Valid() && Abs() == P.NewState(sourceSlotCount, targetSlotCount)
      ensures freeTargetSlots == targetSlots
      ensures LoopSleep == (if sleepMS == 0 then 1 else sleepMS)
      ensures ReleaseTimeout == if releaseTimeout == 0 then 1800 else releaseTimeout
    {
      var sources: seq<BrokerSlot>, targets: seq<BrokerSlot> := [], [];
      for i := 0 to sourceSlotCount
        invariant |sources| == i && fresh(sources) && NewSlots(sources, true)
      {
        var slot := new BrokerSlot(true, i);
        sources := sources + [slot];
      }
      for j := 0 to targetSlotCount
        invariant |targets| == j && fresh(targets) && NewSlots(targets, false)
        invariant NewSlots(sources, true)
      {
        var slot := new BrokerSlot(false, j);
        targets := targets + [slot];
      }
      sourceSlots, freeSourceSlots := sources, sources;
      targetSlots, freeTargetSlots := targets, targets;
      LoopSleep := if sleepMS == 0 then 1 else sleepMS;
      ReleaseTimeout := if releaseTimeout == 0 then 1800 else releaseTimeout;
      new;
      assert Abs().sources == P.NewState(sourceSlotCount, targetSlotCount).sources;
      assert Abs().targets == P.NewState(sourceSlotCount, targetSlotCount).targets;
      assert Abs().freeSources == P.NewState(sourceSlotCount, targetSlotCount).freeSources;
    }

    /** The client side: blocks while no source slot is free. */
    method GetSourceSlot() returns (slot: BrokerSlot)
      requires Valid() && freeSourceSlots != []
      modifies this`freeSourceSlots
      ensures Valid() && IsSource(slot) && slot.index == old(Abs()).freeSources[0]
      ensures Abs() == old(Abs()).(freeSources := old(Abs()).freeSources[1..])
    {
      slot := freeSourceSlots[0];
      freeSourceSlots := freeSourceSlots[1..];
      assert Abs().freeSources == old(Abs()).freeSources[1..];
    }

    /** The runner side: does not block. */
    method GetTargetSlot() returns (slot: BrokerSlot?)
      modifies this`freeTargetSlots
      ensures slot == null <==> old(freeTargetSlots) == []
      ensures slot != null ==> [slot] + freeTargetSlots == old(freeTargetSlots)
      ensures slot == null ==> freeTargetSlots == []
    {
      slot := null;
      if |freeTargetSlots| > 0 {
        slot := freeTargetSlots[0];
        freeTargetSlots := freeTargetSlots[1..];
      }
    }
  }
}
