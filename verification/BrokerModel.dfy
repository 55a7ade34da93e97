/** The slots of the broker as values, and one function for every step its pass makes on
    them.  Indices stand for the slot pointers of broker.go. */
module BrokerModel {
  import opened Wrappers

  datatype SlotState = Free | Wait | Run | Reset | Starting

  datatype RunInfo = NoInfo | Container(image: string, port: int, envs: map<string, string>)

  datatype Message =
    | StartMsg(info: RunInfo)
    | StartedMsg
    | ErrorMsg(text: string)
    | AcquireMsg(slotType: string, info: RunInfo)
    | AcquiredMsg(address: string)
    | FreeMsg(address: string)
    | ReleaseMsg(kill: bool)

  /** One source or target slot: its two queues (seen from the broker) and its fields. */
  datatype Slot = Slot(
    input: seq<Message>,
    output: seq<Message>,
    state: SlotState,
    since: int,
    slotType: string,
    runInfo: RunInfo,
    refInfo: string,
    opposite: Option<nat>)

  datatype State = State(sources: seq<Slot>, targets: seq<Slot>, freeSources: seq<nat>)

  datatype Settings = Settings(loopSleep: int, releaseTimeout: int)

  const CLOSING_TEXT := "closing port 3 for RabbitMQ"

  predicate YType(slotType: string) {
    |slotType| > 2 && slotType[0] == 'y' && slotType[1] == ':'
  }

  /** Go's integer division, which truncates toward zero. */
  function TruncDiv(a: int, b: int): int
    requires b > 0
  {
    if a >= 0 then a / b else -((-a) / b)
  }

  // ------------------------------------------------------------------ field updates

  function WithSource(s: State, i: nat, slot: Slot): State
    requires i < |s.sources|
  {
    s.(sources := s.sources[i := slot])
  }

  function WithTarget(s: State, j: nat, slot: Slot): State
    requires j < |s.targets|
  {
    s.(targets := s.targets[j := slot])
  }

  /** Slot i goes back to the pool of free source slots. */
  function Recycle(s: State, i: nat): State
    requires i < |s.sources|
  {
    WithSource(s, i, s.sources[i].(state := Free)).(freeSources := s.freeSources + [i])
  }

  /** Slot i goes back to the pool and its client is told about an error. */
  function Fail(s: State, i: nat, text: string): State
    requires i < |s.sources|
  {
    var r := Recycle(s, i);
    WithSource(r, i, r.sources[i].(output := r.sources[i].output + [ErrorMsg(text)]))
  }

  // ------------------------------------------------------------------ phase 1: source messages

  function OnRelease(s: State, i: nat, kill: bool, now: int): State
    requires i < |s.sources|
  {
    var slot := s.sources[i];
    if slot.state != Run || YType(slot.slotType) then
      Recycle(s, i)
    else
      match slot.opposite
      case Some(j) =>
        if j < |s.targets| then
          var target := s.targets[j];
          var freed := if kill then target.(state := Free, slotType := "", since := 3)
                       else target.(state := Free, since := now);
          Recycle(WithTarget(s, j, freed), i)
        else s
      case None => s // a nil dereference in broker.go; BrokerInvariants.Shape rules it out
  }

  function OnAcquire(s: State, i: nat, slotType: string, info: RunInfo, now: int): State
    requires i < |s.sources|
  {
    WithSource(s, i, s.sources[i].(slotType := slotType, runInfo := info, since := now,
                                   state := Wait, opposite := None))
  }

  function ReadSource(s: State, i: nat, now: int): State
    requires i < |s.sources|
  {
    var slot := s.sources[i];
    if slot.input == [] then s
    else
      var popped := WithSource(s, i, slot.(input := slot.input[1..]));
      match slot.input[0]
      case ReleaseMsg(kill) => OnRelease(popped, i, kill, now)
      case AcquireMsg(slotType, info) => OnAcquire(popped, i, slotType, info, now)
      case _ => popped
  }

  // ------------------------------------------------------------------ phase 2: runner messages

  /** A waiter for type t, as the error branch tests it. */
  predicate WaitsFor(slot: Slot, t: string) {
    slot.state == Wait && slot.slotType == t
  }

  function Failed(slot: Slot, text: string): Slot {
    slot.(state := Free, output := slot.output + [ErrorMsg(text)])
  }

  /** The first k source slots have been visited by the loop that fails every waiter of type t. */
  function FailWaiters(s: State, t: string, text: string, k: nat): (r: State)
    requires k <= |s.sources|
    ensures |r.sources| == |s.sources| && r.targets == s.targets
  {
    if k == 0 then s
    else
      var p := FailWaiters(s, t, text, k - 1);
      if WaitsFor(p.sources[k - 1], t) then Fail(p, k - 1, text) else p
  }

  /** Exactly the waiters of type t below k are failed, and only they join the pool. */
  lemma {:induction false} FailWaitersEffect(s: State, t: string, text: string, k: nat)
    requires k <= |s.sources|
    ensures var r := FailWaiters(s, t, text, k);
            && (forall i :: 0 <= i < |s.sources| ==>
                  r.sources[i] == if i < k && WaitsFor(s.sources[i], t) then Failed(s.sources[i], text) else s.sources[i])
            && |r.freeSources| >= |s.freeSources| && r.freeSources[..|s.freeSources|] == s.freeSources
            && (forall a :: |s.freeSources| <= a < |r.freeSources| ==> r.freeSources[a] < k)
  {
    if k == 0 {
    } else {
      FailWaitersEffect(s, t, text, k - 1);
    }
  }

  function ReadTarget(s: State, j: nat, now: int): State
    requires j < |s.targets|
  {
    var slot := s.targets[j];
    if slot.input == [] then s
    else
      var rest := slot.(input := slot.input[1..]);
      match slot.input[0]
      case StartedMsg => WithTarget(s, j, rest.(state := Free, since := now))
      case FreeMsg(address) =>
        WithTarget(s, j, rest.(state := Free, slotType := "", refInfo := address, since := now))
      case ErrorMsg(text) =>
        var f := FailWaiters(WithTarget(s, j, rest), slot.slotType, text, |s.sources|);
        WithTarget(f, j, rest.(state := Free, slotType := "", since := 5))
      case _ => WithTarget(s, j, rest)
  }

  // ------------------------------------------------------------------ phase 3: matching

  /** The target test of the matching loops: x-types need a Free target, y-types share a Run one. */
  predicate Matches(target: Slot, source: Slot) {
    target.slotType == source.slotType
    && (target.state == Free || (YType(source.slotType) && target.state == Run))
  }

  /** The targets below k that match source i, in index order. */
  function Hits(s: State, i: nat, k: nat): (hits: seq<nat>)
    requires i < |s.sources| && k <= |s.targets|
    ensures forall a :: 0 <= a < |hits| ==> hits[a] < k && Matches(s.targets[hits[a]], s.sources[i])
    ensures forall j :: 0 <= j < k && Matches(s.targets[j], s.sources[i]) ==> j in hits
    ensures forall a, b :: 0 <= a < b < |hits| ==> hits[a] < hits[b]
  {
    if k == 0 then []
    else if Matches(s.targets[k - 1], s.sources[i]) then Hits(s, i, k - 1) + [k - 1]
    else Hits(s, i, k - 1)
  }

  /** The replies a waiter gets for its hits: one for each. */
  function Replies(s: State, hits: seq<nat>): (replies: seq<Message>)
    requires forall a :: 0 <= a < |hits| ==> hits[a] < |s.targets|
    ensures |replies| == |hits|
    ensures forall a :: 0 <= a < |hits| ==> replies[a] == AcquiredMsg(s.targets[hits[a]].refInfo)
  {
    if hits == [] then []
    else Replies(s, hits[..|hits| - 1]) + [AcquiredMsg(s.targets[hits[|hits| - 1]].refInfo)]
  }

  /** Source i once it has been linked to each of its hits in turn. */
  function Served(s: State, i: nat, now: int, hits: seq<nat>): Slot
    requires i < |s.sources|
    requires forall a :: 0 <= a < |hits| ==> hits[a] < |s.targets|
  {
    var source := s.sources[i];
    if hits == [] then source
    else source.(opposite := Some(hits[|hits| - 1]), state := Run, since := now,
                 output := source.output + Replies(s, hits))
  }

  /** The body of the matching loop for one pair that matches. */
  function Link(s: State, i: nat, j: nat, now: int): State
    requires i < |s.sources| && j < |s.targets|
  {
    var target := s.targets[j];
    var source := s.sources[i];
    State(s.sources[i := source.(opposite := Some(j), state := Run, since := now,
                                 output := source.output + [AcquiredMsg(target.refInfo)])],
          s.targets[j := target.(state := Run, since := now)],
          s.freeSources)
  }

  /** The first k targets have been visited for source i.  The loop does not stop at the first
      match, so a waiter is linked to every match in turn and ends up linked to the last. */
  function MatchUpTo(s: State, i: nat, now: int, k: nat): (r: State)
    requires i < |s.sources| && k <= |s.targets|
    ensures |r.sources| == |s.sources| && |r.targets| == |s.targets| && r.freeSources == s.freeSources
    ensures r.sources[i].slotType == s.sources[i].slotType
  {
    if k == 0 then s
    else
      var p := MatchUpTo(s, i, now, k - 1);
      if Matches(p.targets[k - 1], p.sources[i]) then Link(p, i, k - 1, now) else p
  }

  lemma RepliesAppend(s: State, hits: seq<nat>, j: nat)
    requires forall a :: 0 <= a < |hits| ==> hits[a] < |s.targets|
    requires j < |s.targets|
    ensures Replies(s, hits + [j]) == Replies(s, hits) + [AcquiredMsg(s.targets[j].refInfo)]
  {
    assert (hits + [j])[..|hits|] == hits;
  }

  /** One more hit: linking the served source once more is serving it with the longer list. */
  lemma ServedAppend(s: State, p: State, i: nat, now: int, hits: seq<nat>, j: nat)
    requires i < |s.sources| == |p.sources| && j < |s.targets| == |p.targets|
    requires forall a :: 0 <= a < |hits| ==> hits[a] < |s.targets|
    requires p.sources[i] == Served(s, i, now, hits) && p.targets[j] == s.targets[j]
    ensures Link(p, i, j, now).sources[i] == Served(s, i, now, hits + [j])
  {
    RepliesAppend(s, hits, j);
    var reply := [AcquiredMsg(s.targets[j].refInfo)];
    assert s.sources[i].output + Replies(s, hits) + reply == s.sources[i].output + (Replies(s, hits) + reply);
    assert hits == [] ==> Replies(s, hits) + reply == reply;
  }

  lemma LinkTouches(s: State, i: nat, j: nat, now: int)
    requires i < |s.sources| && j < |s.targets|
    ensures var r := Link(s, i, j, now);
            && |r.sources| == |s.sources| && |r.targets| == |s.targets|
            && (forall h :: 0 <= h < |s.sources| && h != i ==> r.sources[h] == s.sources[h])
            && (forall h :: 0 <= h < |s.targets| && h != j ==> r.targets[h] == s.targets[h])
            && r.targets[j] == s.targets[j].(state := Run, since := now)
  {
  }

  lemma {:induction false} MatchTouches(s: State, i: nat, now: int, k: nat)
    requires i < |s.sources| && k <= |s.targets|
    ensures var r := MatchUpTo(s, i, now, k);
            && (forall h :: 0 <= h < |s.sources| && h != i ==> r.sources[h] == s.sources[h])
            && (forall j :: 0 <= j < |s.targets| ==>
                  r.targets[j] == if j < k && Matches(s.targets[j], s.sources[i])
                                  then s.targets[j].(state := Run, since := now) else s.targets[j])
  {
    if k == 0 {
    } else {
      MatchTouches(s, i, now, k - 1);
      var p := MatchUpTo(s, i, now, k - 1);
      assert Matches(p.targets[k - 1], p.sources[i]) <==> Matches(s.targets[k - 1], s.sources[i]);
      LinkTouches(p, i, k - 1, now);
    }
  }

  /** The loop tests every target as it was before the loop. */
  lemma MatchStep(s: State, i: nat, now: int, k: nat)
    requires i < |s.sources| && k < |s.targets|
    ensures var p := MatchUpTo(s, i, now, k);
            && p.targets[k] == s.targets[k]
            && MatchUpTo(s, i, now, k + 1) == if Matches(s.targets[k], s.sources[i]) then Link(p, i, k, now) else p
  {
    MatchTouches(s, i, now, k);
  }

  lemma {:induction false} MatchServes(s: State, i: nat, now: int, k: nat)
    requires i < |s.sources| && k <= |s.targets|
    ensures MatchUpTo(s, i, now, k).sources[i] == Served(s, i, now, Hits(s, i, k))
  {
    if k == 0 {
      assert Hits(s, i, 0) == [];
    } else {
      var p := MatchUpTo(s, i, now, k - 1);
      assert p.sources[i] == Served(s, i, now, Hits(s, i, k - 1)) by {
        MatchServes(s, i, now, k - 1);
      }
      MatchStep(s, i, now, k - 1);
      ServedHits(s, p, i, now, k - 1);
    }
  }

  lemma ServedHits(s: State, p: State, i: nat, now: int, k: nat)
    requires i < |s.sources| == |p.sources| && k < |s.targets| == |p.targets| && p.targets[k] == s.targets[k]
    requires p.sources[i] == Served(s, i, now, Hits(s, i, k))
    ensures Served(s, i, now, Hits(s, i, k + 1))
         == if Matches(s.targets[k], s.sources[i]) then Link(p, i, k, now).sources[i] else p.sources[i]
  {
    if Matches(s.targets[k], s.sources[i]) {
      ServedAppend(s, p, i, now, Hits(s, i, k), k);
    }
  }

  function MatchSource(s: State, i: nat, now: int): State
    requires i < |s.sources|
  {
    if s.sources[i].state != Wait then s else MatchUpTo(s, i, now, |s.targets|)
  }

  // ------------------------------------------------------------------ phases 4 and 5: starting

  predicate OnPort3(slot: Slot) {
    slot.runInfo.Container? && slot.runInfo.port == 3
  }

  predicate Unserved(slot: Slot) {
    slot.state == Wait && slot.opposite == None
  }

  /** How many of the first k sources wait for t without a link. */
  function WaitCount(s: State, t: string, k: nat): (n: nat)
    requires k <= |s.sources|
  {
    if k == 0 then 0
    else WaitCount(s, t, k - 1) + if Unserved(s.sources[k - 1]) && s.sources[k - 1].slotType == t then 1 else 0
  }

  lemma {:induction false} WaitCounted(s: State, t: string, k: nat)
    requires k <= |s.sources|
    ensures WaitCount(s, t, k) > 0 <==> exists i :: 0 <= i < k && Unserved(s.sources[i]) && s.sources[i].slotType == t
  {
    if k == 0 {
    } else {
      WaitCounted(s, t, k - 1);
    }
  }

  predicate Carried(s: State, t: string) {
    exists j :: 0 <= j < |s.targets| && s.targets[j].slotType == t
  }

  /** A type that some unlinked source waits for and no target carries. */
  predicate WaitOnly(s: State, t: string) {
    WaitCount(s, t, |s.sources|) > 0 && !Carried(s, t)
  }

  ghost predicate MostRequested(s: State, t: string) {
    WaitOnly(s, t)
    && forall u :: WaitOnly(s, u) ==> WaitCount(s, u, |s.sources|) <= WaitCount(s, t, |s.sources|)
  }

  /** The first Free target with the smallest `since`, among the first k. */
  function OldestFree(s: State, k: nat): (r: Option<nat>)
    requires k <= |s.targets|
    ensures r == None <==> forall j :: 0 <= j < k ==> s.targets[j].state != Free
    ensures r.Some? ==>
              && r.value < k && s.targets[r.value].state == Free
              && (forall j :: 0 <= j < k && s.targets[j].state == Free ==> s.targets[r.value].since <= s.targets[j].since)
              && (forall j :: 0 <= j < r.value && s.targets[j].state == Free ==> s.targets[r.value].since < s.targets[j].since)
  {
    if k == 0 then None
    else
      var p := OldestFree(s, k - 1);
      if s.targets[k - 1].state == Free && (p == None || s.targets[p.value].since > s.targets[k - 1].since)
      then Some(k - 1) else p
  }

  /** The first source that waits for t, linked or not. */
  function FirstWaiter(s: State, t: string, k: nat): (r: Option<nat>)
    requires k <= |s.sources|
    ensures r == None <==> forall i :: 0 <= i < k ==> !WaitsFor(s.sources[i], t)
    ensures r.Some? ==> r.value < k && WaitsFor(s.sources[r.value], t)
                        && forall i :: 0 <= i < r.value ==> !WaitsFor(s.sources[i], t)
  {
    if k == 0 then None
    else
      var p := FirstWaiter(s, t, k - 1);
      if p == None && WaitsFor(s.sources[k - 1], t) then Some(k - 1) else p
  }

  /** Free target j is told to start a container for waiting source i, which is linked to it. */
  function TellToStart(s: State, j: nat, i: nat, backLink: bool, now: int): (r: State)
    requires i < |s.sources| && j < |s.targets|
    ensures |r.sources| == |s.sources| && |r.targets| == |s.targets|
  {
    var source := s.sources[i];
    var target := s.targets[j];
    var started := target.(state := Starting, slotType := source.slotType, since := now,
                           opposite := if backLink then Some(i) else target.opposite,
                           output := target.output + [StartMsg(source.runInfo)]);
    WithSource(WithTarget(s, j, started), i, source.(opposite := Some(j)))
  }

  /** A start, after which the client of a container on port 3 is sent back. */
  function StartTarget(s: State, j: nat, i: nat, backLink: bool, now: int): (r: State)
    requires i < |s.sources| && j < |s.targets|
    ensures |r.sources| == |s.sources| && |r.targets| == |s.targets|
  {
    var linked := TellToStart(s, j, i, backLink, now);
    if OnPort3(s.sources[i]) then Fail(linked, i, CLOSING_TEXT) else linked
  }

  /** The first start loop goes round again. */
  ghost predicate CanStartNew(s: State) {
    OldestFree(s, |s.targets|).Some? && exists t :: WaitOnly(s, t)
  }

  /** The source a start for type t is made for. */
  function StartSource(s: State, t: string): (i: nat)
    requires WaitOnly(s, t)
    ensures i < |s.sources| && WaitsFor(s.sources[i], t) && FirstWaiter(s, t, |s.sources|) == Some(i)
  {
    WaitCounted(s, t, |s.sources|);
    FirstWaiter(s, t, |s.sources|).value
  }

  /** One round of the first start loop, with the type that the map iteration settles on. */
  function StartNew(s: State, t: string, now: int): (r: State)
    requires OldestFree(s, |s.targets|).Some? && WaitOnly(s, t)
    ensures |r.sources| == |s.sources| && |r.targets| == |s.targets|
  {
    StartTarget(s, OldestFree(s, |s.targets|).value, StartSource(s, t), true, now)
  }

  /** The unlinked x-type waiter that has waited longest (before now), among the first k. */
  function OldestWaiter(s: State, now: int, k: nat): (r: Option<nat>)
    requires k <= |s.sources|
    ensures r.Some? ==> r.value < k && CopyWaiter(s.sources[r.value], now)
  {
    if k == 0 then None
    else
      var p := OldestWaiter(s, now, k - 1);
      var bound := if p.Some? then s.sources[p.value].since else now;
      var slot := s.sources[k - 1];
      if Unserved(slot) && slot.since < bound && !YType(slot.slotType) then Some(k - 1) else p
  }

  lemma {:induction false} OldestWaiterIsOldest(s: State, now: int, k: nat)
    requires k <= |s.sources|
    ensures var r := OldestWaiter(s, now, k);
            && (r == None <==> forall i :: 0 <= i < k ==> !CopyWaiter(s.sources[i], now))
            && (r.Some? ==> forall i :: 0 <= i < k && CopyWaiter(s.sources[i], now) ==>
                              s.sources[r.value].since <= s.sources[i].since)
  {
    if k == 0 {
    } else {
      OldestWaiterIsOldest(s, now, k - 1);
    }
  }

  predicate CopyWaiter(slot: Slot, now: int) {
    Unserved(slot) && slot.since < now && !YType(slot.slotType)
  }

  /** The Free target that has been free longest (before now), among the first k. */
  function OldestRunner(s: State, now: int, k: nat): (r: Option<nat>)
    requires k <= |s.targets|
    ensures r.Some? ==> r.value < k && s.targets[r.value].state == Free && s.targets[r.value].since < now
  {
    if k == 0 then None
    else
      var p := OldestRunner(s, now, k - 1);
      var bound := if p.Some? then s.targets[p.value].since else now;
      if s.targets[k - 1].state == Free && s.targets[k - 1].since < bound then Some(k - 1) else p
  }

  lemma {:induction false} OldestRunnerIsOldest(s: State, now: int, k: nat)
    requires k <= |s.targets|
    ensures var r := OldestRunner(s, now, k);
            && (r == None <==> forall j :: 0 <= j < k && s.targets[j].state == Free ==> s.targets[j].since >= now)
            && (r.Some? ==> forall j :: 0 <= j < k && s.targets[j].state == Free ==>
                              s.targets[r.value].since <= s.targets[j].since)
  {
    if k == 0 {
    } else {
      OldestRunnerIsOldest(s, now, k - 1);
    }
  }

  /** The second start loop goes round again: both have waited four broker sleeps. */
  predicate CanStartCopy(s: State, now: int, cfg: Settings) {
    var w := OldestWaiter(s, now, |s.sources|);
    var r := OldestRunner(s, now, |s.targets|);
    var limit := now - TruncDiv(4 * cfg.loopSleep, 1000);
    w.Some? && r.Some? && s.targets[r.value].since < limit && s.sources[w.value].since < limit
  }

  function StartCopy(s: State, now: int, cfg: Settings): (r: State)
    requires CanStartCopy(s, now, cfg)
    ensures |r.sources| == |s.sources| && |r.targets| == |s.targets|
  {
    StartTarget(s, OldestRunner(s, now, |s.targets|).value, OldestWaiter(s, now, |s.sources|).value, false, now)
  }

  // ------------------------------------------------------------------ phases 6 and 7: clearing

  predicate InUse(s: State, t: string) {
    exists i :: 0 <= i < |s.sources| && s.sources[i].slotType == t && s.sources[i].state == Run
  }

  function FreeUnusedY(s: State, j: nat, now: int): State
    requires j < |s.targets|
  {
    var target := s.targets[j];
    if YType(target.slotType) && target.state == Run && !InUse(s, target.slotType)
    then WithTarget(s, j, target.(state := Free, since := now)) else s
  }

  predicate TimedOut(target: Slot, now: int, cfg: Settings) {
    target.since < now - cfg.releaseTimeout && target.state == Run
  }

  function Sweep(s: State, j: nat, now: int, cfg: Settings): State
    requires j < |s.targets|
  {
    var target := s.targets[j];
    if TimedOut(target, now, cfg)
    then WithTarget(s, j, target.(state := Free, slotType := "", since := 7)) else s
  }

  /** Free targets: what both start loops use up. */
  function FreeCount(s: State, k: nat): nat
    requires k <= |s.targets|
  {
    if k == 0 then 0 else FreeCount(s, k - 1) + if s.targets[k - 1].state == Free then 1 else 0
  }
}
