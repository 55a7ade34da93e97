/** How many replies can be queued on one source slot, and what becomes of containers that listen on
    port 3, whose clients are sent back at once. */
module BrokerReplies {
  import opened Wrappers
  import opened BrokerModel
  import opened BrokerProtocol
  import opened BrokerConservation
  import opened BrokerRuns
  import opened BrokerCounterexamples
  import opened BrokerDisplaced
  import opened BrokerRoom
  import P = BrokerPass

  // ------------------------------------------------------------------ every reply has a reader

  /** While no waiter meets two targets, every reply that is queued has a client of its own that
      waits for it: a broker that finds a queue full is let on by one of them. */
  lemma RepliesHaveReaders(cfg: Settings, run: seq<Config>, acts: seq<Action>, k: nat, i: nat)
    requires IsRun(cfg, run, acts) && k < |run| && i < |run[k].s.sources|
    requires forall h :: 0 <= h < |acts| ==> Polite(acts[h]) && OneHit(run[h], acts[h])
    ensures Sized(run[k]) && |run[k].s.sources[i].output| <= run[k].reading[i]
    ensures run[k].s.sources[i].output != [] ==> Enabled(run[k], ReadReply(i))
  {
    ConservedAtStep(cfg, run, acts, k);
    assert ConservedAt(run[k], i);
  }

  // ------------------------------------------------------------------ which steps send a reply

  /** Source i waits for t, and none before it does. */
  predicate FirstToWait(s: State, t: string, i: nat) {
    i < |s.sources| && WaitsFor(s.sources[i], t) && forall h :: 0 <= h < i ==> !WaitsFor(s.sources[h], t)
  }

  predicate XWaiter(slot: Slot) {
    Unserved(slot) && !YType(slot.slotType)
  }

  /** No x-type waiter without a promise has waited longer than source i; of equals the first counts. */
  predicate LongestToWait(s: State, i: nat) {
    && i < |s.sources| && XWaiter(s.sources[i])
    && forall h :: 0 <= h < |s.sources| && XWaiter(s.sources[h]) ==>
         s.sources[i].since <= s.sources[h].since && (h < i ==> s.sources[i].since < s.sources[h].since)
  }

  /** This step of the broker has an answer for the client that waits on slot i: a start of its type
      failed, a target of its type is there, or its container on port 3 is started. */
  ghost predicate Answered(cfg: Settings, c: Config, a: Action, i: nat)
    requires i < |c.s.sources|
  {
    var slot := c.s.sources[i];
    a.BrokerStep? && slot.state == Wait &&
    match c.pc
    case AtTargets(k) =>
      k < |c.s.targets| && c.s.targets[k].input != [] && c.s.targets[k].input[0].ErrorMsg? && c.s.targets[k].slotType == slot.slotType
    case AtMatch(k) => k == i && exists j :: 0 <= j < |c.s.targets| && Matches(c.s.targets[j], slot)
    case AtStartNew => OnPort3(slot) && CanStartNew(c.s) && FirstToWait(c.s, a.pick, i)
    case AtStartCopies => OnPort3(slot) && CanStartCopy(c.s, c.now, cfg) && LongestToWait(c.s, i)
    case _ => false
  }

  lemma {:induction false} OldestWaiterIsFirst(s: State, now: int, k: nat)
    requires k <= |s.sources|
    ensures var r := OldestWaiter(s, now, k);
            r.Some? ==> forall h :: 0 <= h < r.value && XWaiter(s.sources[h]) ==> s.sources[r.value].since < s.sources[h].since
  {
    if k == 0 {
    } else {
      OldestWaiterIsFirst(s, now, k - 1);
      OldestWaiterIsOldest(s, now, k - 1);
    }
  }

  lemma OldestWaiterIff(s: State, now: int, i: nat)
    requires OldestWaiter(s, now, |s.sources|).Some?
    ensures OldestWaiter(s, now, |s.sources|) == Some(i) <==> LongestToWait(s, i)
  {
    var w := OldestWaiter(s, now, |s.sources|).value;
    OldestWaiterIsOldest(s, now, |s.sources|);
    OldestWaiterIsFirst(s, now, |s.sources|);
    forall h | 0 <= h < |s.sources| && XWaiter(s.sources[h])
      ensures s.sources[w].since <= s.sources[h].since
    {
      assert CopyWaiter(s.sources[h], now) || now <= s.sources[h].since;
    }
    assert LongestToWait(s, w);
  }

  lemma StartAnswers(s: State, j: nat, o: nat, backLink: bool, now: int, i: nat)
    requires o < |s.sources| && j < |s.targets| && i < |s.sources|
    ensures var r := StartTarget(s, j, o, backLink, now);
            && |r.sources| == |s.sources|
            && |r.sources[i].output| == |s.sources[i].output| + Bit(i == o && OnPort3(s.sources[i]))
  {
  }

  lemma MatchAnswers(s: State, k: nat, now: int, i: nat)
    requires k < |s.sources| && i < |s.sources|
    ensures var r := MatchSource(s, k, now);
            && |r.sources| == |s.sources|
            && |r.sources[i].output|
               == |s.sources[i].output| + if i == k && s.sources[i].state == Wait then |Hits(s, i, |s.targets|)| else 0
  {
    if s.sources[k].state == Wait {
      MatchTouches(s, k, now, |s.targets|);
      MatchServes(s, k, now, |s.targets|);
    }
  }

  lemma NoHits(s: State, i: nat)
    requires i < |s.sources|
    ensures Hits(s, i, |s.targets|) == [] <==> !exists j :: 0 <= j < |s.targets| && Matches(s.targets[j], s.sources[i])
  {
    var hits := Hits(s, i, |s.targets|);
    assert hits != [] ==> Matches(s.targets[hits[0]], s.sources[i]);
  }

  lemma ErrorAnswers(s: State, k: nat, now: int, i: nat)
    requires k < |s.targets| && i < |s.sources|
    ensures var t := s.targets[k];
            var r := ReadTarget(s, k, now);
            && |r.sources| == |s.sources|
            && |r.sources[i].output|
               == |s.sources[i].output| + Bit(t.input != [] && t.input[0].ErrorMsg? && WaitsFor(s.sources[i], t.slotType))
  {
    var t := s.targets[k];
    if t.input != [] && t.input[0].ErrorMsg? {
      var p := WithTarget(s, k, t.(input := t.input[1..]));
      FailWaitersEffect(p, t.slotType, t.input[0].text, |p.sources|);
    }
  }

  /** How many replies this step sends to slot i. */
  ghost function RepliesSent(cfg: Settings, c: Config, a: Action, i: nat): nat
    requires i < |c.s.sources|
  {
    if !Answered(cfg, c, a, i) then 0
    else if c.pc.AtMatch? then |Hits(c.s, i, |c.s.targets|)| else 1
  }

  lemma ReadingAdds(cfg: Settings, c: Config, a: Action, i: nat)
    requires Enabled(c, a) && a.BrokerStep? && i < |c.s.sources| && (c.pc.AtSources? || c.pc.AtTargets? || c.pc.AtMatch?)
    ensures var d := Next(cfg, c, a);
            && |d.s.sources| == |c.s.sources|
            && |d.s.sources[i].output| == |c.s.sources[i].output| + RepliesSent(cfg, c, a, i)
  {
    match c.pc
    case AtSources(k) =>
    case AtTargets(k) => if k < |c.s.targets| { ErrorAnswers(c.s, k, c.now, i); }
    case AtMatch(k) => if k < |c.s.sources| { MatchAnswers(c.s, k, c.now, i); NoHits(c.s, i); }
  }

  /** A step of the broker adds to the queue of a slot exactly what it answers it. */
  lemma RepliesAdded(cfg: Settings, c: Config, a: Action, i: nat)
    requires Enabled(c, a) && a.BrokerStep? && i < |c.s.sources|
    ensures var d := Next(cfg, c, a);
            && |d.s.sources| == |c.s.sources|
            && |d.s.sources[i].output| == |c.s.sources[i].output| + RepliesSent(cfg, c, a, i)
  {
    match c.pc
    case AtStartNew =>
      if CanStartNew(c.s) {
        StartAnswers(c.s, OldestFree(c.s, |c.s.targets|).value, StartSource(c.s, a.pick), true, c.now, i);
      }
    case AtStartCopies =>
      if CanStartCopy(c.s, c.now, cfg) {
        StartAnswers(c.s, OldestRunner(c.s, c.now, |c.s.targets|).value, OldestWaiter(c.s, c.now, |c.s.sources|).value, false, c.now, i);
        OldestWaiterIff(c.s, c.now, i);
      }
    case AtFreeY(k) =>
    case AtSweep(k) =>
    case _ => ReadingAdds(cfg, c, a, i);
  }

  // ------------------------------------------------------------------ when they stay within a channel

  predicate RepliesFit(c: Config, cap: nat) {
    forall i :: 0 <= i < |c.s.sources| ==> |c.s.sources[i].output| <= cap
  }

  /** No more than cap clients wait on a slot that this step answers. */
  ghost predicate FewWait(cfg: Settings, c: Config, a: Action, cap: nat) {
    Sized(c) && forall i :: 0 <= i < |c.s.sources| && Answered(cfg, c, a, i) ==> c.reading[i] <= cap
  }

  /** Right after an answer every client that waits on the slot has its reply queued. */
  lemma AnswerIsLast(cfg: Settings, c: Config, a: Action, i: nat)
    requires Conserved(c) && Enabled(c, a) && OneHit(c, a) && i < |c.s.sources| && Answered(cfg, c, a, i)
    ensures i < |Next(cfg, c, a).s.sources| && |Next(cfg, c, a).s.sources[i].output| == c.reading[i]
  {
    assert ConservedAt(c, i);
    RepliesAdded(cfg, c, a, i);
  }

  lemma OthersSendNoReply(cfg: Settings, c: Config, a: Action, i: nat)
    requires Enabled(c, a) && !a.BrokerStep? && i < |c.s.sources|
    ensures i < |Next(cfg, c, a).s.sources| && |Next(cfg, c, a).s.sources[i].output| <= |c.s.sources[i].output|
  {
  }

  lemma FitStepIff(cfg: Settings, c: Config, a: Action, cap: nat)
    requires Conserved(c) && Enabled(c, a) && OneHit(c, a) && RepliesFit(c, cap)
    ensures RepliesFit(Next(cfg, c, a), cap) <==> FewWait(cfg, c, a, cap)
  {
    var d := Next(cfg, c, a);
    NextSources(cfg, c, a);
    forall i | 0 <= i < |d.s.sources|
      ensures |d.s.sources[i].output| <= cap <==> (Answered(cfg, c, a, i) ==> c.reading[i] <= cap)
    {
      assert |c.s.sources[i].output| <= cap;
      if !a.BrokerStep? {
        OthersSendNoReply(cfg, c, a, i);
      } else if Answered(cfg, c, a, i) {
        AnswerIsLast(cfg, c, a, i);
      } else {
        RepliesAdded(cfg, c, a, i);
      }
    }
  }

  lemma NextSources(cfg: Settings, c: Config, a: Action)
    requires Enabled(c, a)
    ensures |Next(cfg, c, a).s.sources| == |c.s.sources|
  {
    SizedStep(cfg, c, a);
  }

  lemma {:induction false} FitAt(cfg: Settings, run: seq<Config>, acts: seq<Action>, cap: nat, k: nat)
    requires IsRun(cfg, run, acts) && k < |run|
    requires forall h :: 0 <= h < |acts| ==> Polite(acts[h]) && OneHit(run[h], acts[h])
    requires forall h :: 0 <= h < k ==> FewWait(cfg, run[h], acts[h], cap)
    ensures RepliesFit(run[k], cap)
  {
    if k == 0 {
    } else {
      FitAt(cfg, run, acts, cap, k - 1);
      ConservedAtStep(cfg, run, acts, k - 1);
      assert Follows(cfg, run, acts, k - 1);
      FitStepIff(cfg, run[k - 1], acts[k - 1], cap);
    }
  }

  /** With clients that follow the protocol and meet at most one target each, whatever the capacity:
      the replies of every source slot stay within it throughout a run exactly when the broker never
      answers a slot on which more clients wait. */
  lemma ChannelIff(cfg: Settings, run: seq<Config>, acts: seq<Action>, cap: nat)
    requires IsRun(cfg, run, acts)
    requires forall h :: 0 <= h < |acts| ==> Polite(acts[h]) && OneHit(run[h], acts[h])
    ensures (forall k :: 0 <= k < |run| ==> RepliesFit(run[k], cap))
       <==> (forall k :: 0 <= k < |acts| ==> FewWait(cfg, run[k], acts[k], cap))
  {
    if forall k :: 0 <= k < |acts| ==> FewWait(cfg, run[k], acts[k], cap) {
      forall k | 0 <= k < |run|
        ensures RepliesFit(run[k], cap)
      {
        FitAt(cfg, run, acts, cap, k);
      }
    } else {
      var k :| 0 <= k < |acts| && !FewWait(cfg, run[k], acts[k], cap);
      assert Follows(cfg, run, acts, k);
      ConservedAtStep(cfg, run, acts, k);
      if RepliesFit(run[k], cap) {
        FitStepIff(cfg, run[k], acts[k], cap);
        assert !RepliesFit(run[k + 1], cap);
      }
    }
  }

  // ------------------------------------------------------------------ a full queue

  const PORT_3 := Container("b", 3, map[])

  function AskedFor(src: Slot, t: string): Slot {
    src.(input := [AcquireMsg(t, PORT_3)])
  }

  function WaitingFor(src: Slot, t: string): Slot {
    src.(input := [], slotType := t, runInfo := PORT_3, since := 0, state := Wait, opposite := None)
  }

  function SentOff(src: Slot, t: string): Slot {
    WaitingFor(src, t).(state := Free, opposite := Some(0), output := src.output + [ErrorMsg(CLOSING_TEXT)])
  }

  function ToldToStart(tgt: Slot, t: string): Slot {
    tgt.(state := Starting, slotType := t, since := 0, opposite := Some(0), output := [StartMsg(PORT_3)])
  }

  /** One source slot in the pool, one target that carries u and is Free, no message for either. */
  predicate Rest(src: Slot, tgt: Slot, u: string) {
    && src.input == [] && src.state == Free
    && tgt.input == [] && tgt.output == [] && tgt.state == Free && tgt.slotType == u && tgt.since == 0
  }

  /** The same, with n clients that have not read their replies. */
  predicate Ready(c: Config, n: nat, u: string) {
    && |c.s.sources| == |c.s.targets| == 1 && Rest(c.s.sources[0], c.s.targets[0], u) && |c.s.sources[0].output| == n
    && c == Config(State(c.s.sources, c.s.targets, [0]), AtSources(0), 0, [false], [true], [0], [n], [0])
  }

  lemma AskIsRead(src: Slot, tgt: Slot, u: string, t: string)
    requires Rest(src, tgt, u) && t != u
    ensures P.Matched(State([AskedFor(src, t)], [tgt], []), 0) == State([WaitingFor(src, t)], [tgt], [])
  {
    var s, m := State([AskedFor(src, t)], [tgt], []), State([WaitingFor(src, t)], [tgt], []);
    assert [AcquireMsg(t, PORT_3)][1..] == [];
    assert ReadSource(s, 0, 0).sources == m.sources;
    assert P.ReadSources(s, 0, 0) == s && P.ReadSources(s, 0, 1) == m;
    QuietTargets(m, 0, 1);
    QuietMatch(m, 0, 1);
  }

  lemma AskIsStarted(src: Slot, tgt: Slot, u: string, t: string)
    requires Rest(src, tgt, u) && t != u
    ensures var m := State([WaitingFor(src, t)], [tgt], []);
            && OldestFree(m, 1) == Some(0) && WaitOnly(m, t)
            && StartNew(m, t, 0) == State([SentOff(src, t)], [ToldToStart(tgt, t)], [0])
  {
    var m := State([WaitingFor(src, t)], [tgt], []);
    assert OldestFree(m, 0) == None && OldestFree(m, 1) == Some(0);
    assert WaitCount(m, t, 0) == 0 && WaitCount(m, t, 1) == 1;
    assert WaitOnly(m, t);
    assert [] + [StartMsg(PORT_3)] == [StartMsg(PORT_3)] && [] + [0] == [0];
    assert StartNew(m, t, 0).sources == [SentOff(src, t)];
    assert StartNew(m, t, 0).targets == [ToldToStart(tgt, t)];
  }

  /** A request for port 3 is started, and its client is told that the slot closes. */
  lemma SendsOff(src: Slot, tgt: Slot, u: string, t: string)
    requires Rest(src, tgt, u) && t != u && !YType(t)
    ensures P.Pass(State([AskedFor(src, t)], [tgt], []), 0, NO_WAIT, [t], State([SentOff(src, t)], [ToldToStart(tgt, t)], [0]))
  {
    var m, r := State([WaitingFor(src, t)], [tgt], []), State([SentOff(src, t)], [ToldToStart(tgt, t)], [0]);
    AskIsRead(src, tgt, u, t);
    AskIsStarted(src, tgt, u, t);
    assert OldestFree(r, 1) == None;
    NobodyWaits(r, 0, NO_WAIT);
    StartOnlyPass(State([AskedFor(src, t)], [tgt], []), 0, NO_WAIT, t, m, r);
  }

  /** The container is up and its target Free again. */
  lemma ContainerComesUp(src: Slot, tgt: Slot, up: Slot)
    requires src.input == [] && src.state == Free && !YType(tgt.slotType) && tgt.input == [StartedMsg]
    requires up == tgt.(input := [], state := Free, since := 0)
    ensures P.Pass(State([src], [tgt], [0]), 0, NO_WAIT, [], State([src], [up], [0]))
  {
    var s, m := State([src], [tgt], [0]), State([src], [up], [0]);
    QuietSources(s, 0, 1);
    assert [StartedMsg][1..] == [];
    assert ReadTarget(s, 0, 0).targets == m.targets;
    assert P.ReadTargets(s, 0, 0) == s && P.ReadTargets(s, 0, 1) == m;
    QuietMatch(m, 0, 1);
    NobodyWaits(m, 0, NO_WAIT);
    IdlePass(s, 0, NO_WAIT, m);
  }

  function Quiet(src: Slot, tgt: Slot, reading: nat): Config {
    Config(State([src], [tgt], [0]), AtSources(0), 0, [false], [true], [0], [reading], [0])
  }

  lemma ReadyIsQuiet(c: Config, n: nat, u: string)
    requires Ready(c, n, u)
    ensures c == Quiet(c.s.sources[0], c.s.targets[0], n)
  {
    assert c.s.sources == [c.s.sources[0]] && c.s.targets == [c.s.targets[0]];
  }

  function Asking(src: Slot, tgt: Slot, reading: nat, t: string): Config {
    Config(State([AskedFor(src, t)], [tgt], []), AtSources(0), 0, [false], [true], [0], [reading], [0])
  }

  function Holding(src: Slot, tgt: Slot, n: nat): Config {
    Config(State([src], [tgt], []), AtSources(0), 0, [false], [true], [1], [n], [0])
  }

  lemma NextClientGets(cap: nat, src: Slot, tgt: Slot, u: string, n: nat)
    requires Rest(src, tgt, u) && |src.output| <= cap && cap > 0
    ensures LeadsWithin(NO_WAIT, cap, Quiet(src, tgt, n), Holding(src, tgt, n))
  {
    var c := Quiet(src, tgt, n);
    assert [0][1..] == [];
    assert Next(NO_WAIT, c, GetSlot) == Holding(src, tgt, n);
    WithinByStep(NO_WAIT, cap, c, GetSlot);
  }

  lemma NextClientAsks(cap: nat, src: Slot, tgt: Slot, u: string, n: nat, t: string)
    requires Rest(src, tgt, u) && t != "" && |src.output| <= cap && cap > 0
    ensures LeadsWithin(NO_WAIT, cap, Quiet(src, tgt, n), Asking(src, tgt, n + 1, t))
  {
    var d, e, a := Holding(src, tgt, n), Asking(src, tgt, n + 1, t), SendAcquire(0, t, PORT_3);
    NextClientGets(cap, src, tgt, u, n);
    assert [] + [AcquireMsg(t, PORT_3)] == [AcquireMsg(t, PORT_3)];
    assert Next(NO_WAIT, d, a).s.sources == e.s.sources;
    assert Next(NO_WAIT, d, a) == e;
    WithinByStep(NO_WAIT, cap, d, a);
    WithinOn(NO_WAIT, cap, Quiet(src, tgt, n), d, e);
  }

  /** The next client, who asks for another type, is sent off with one more reply left in the queue. */
  lemma ClientIsSentOff(cap: nat, src: Slot, tgt: Slot, u: string, n: nat, t: string)
    requires Rest(src, tgt, u) && t != u && t != "" && !YType(t) && |src.output| < cap
    ensures LeadsWithin(NO_WAIT, cap, Quiet(src, tgt, n), Quiet(SentOff(src, t), ToldToStart(tgt, t), n + 1))
  {
    var asked := Asking(src, tgt, n + 1, t);
    NextClientAsks(cap, src, tgt, u, n, t);
    SendsOff(src, tgt, u, t);
    WithinByPass(NO_WAIT, cap, asked, [t], State([SentOff(src, t)], [ToldToStart(tgt, t)], [0]), 0);
    WithinOn(NO_WAIT, cap, Quiet(src, tgt, n), asked, Quiet(SentOff(src, t), ToldToStart(tgt, t), n + 1));
  }

  lemma RunnerIsDone(cap: nat, src: Slot, tgt: Slot, u: string, n: nat, t: string)
    requires Rest(src, tgt, u) && !YType(t) && |src.output| < cap
    ensures LeadsWithin(NO_WAIT, cap, Quiet(SentOff(src, t), ToldToStart(tgt, t), n),
                        Quiet(SentOff(src, t), ToldToStart(tgt, t).(state := Free, output := []), n))
  {
    var c := Quiet(SentOff(src, t), ToldToStart(tgt, t), n);
    var answered := ToldToStart(tgt, t).(input := [StartedMsg], output := []);
    var d := Quiet(SentOff(src, t), answered, n);
    RunnerStartsWithin(NO_WAIT, cap, c, 0, d);
    var up := ToldToStart(tgt, t).(state := Free, output := []);
    ContainerComesUp(SentOff(src, t), answered, up);
    WithinByPass(NO_WAIT, cap, d, [], State([SentOff(src, t)], [up], [0]), 0);
    WithinOn(NO_WAIT, cap, c, d, Quiet(SentOff(src, t), up, n));
  }

  lemma Round(cap: nat, c: Config, n: nat, u: string, t: string) returns (d: Config)
    requires Ready(c, n, u) && t != u && t != "" && !YType(t) && n < cap
    ensures LeadsWithin(NO_WAIT, cap, c, d) && Ready(d, n + 1, t)
  {
    var src, tgt := c.s.sources[0], c.s.targets[0];
    ReadyIsQuiet(c, n, u);
    ClientIsSentOff(cap, src, tgt, u, n, t);
    RunnerIsDone(cap, src, tgt, u, n + 1, t);
    d := Quiet(SentOff(src, t), ToldToStart(tgt, t).(state := Free, output := []), n + 1);
    WithinOn(NO_WAIT, cap, c, Quiet(SentOff(src, t), ToldToStart(tgt, t), n + 1), d);
  }

  const GREETED := Target("w", Free, 0, "", None, [], [])

  const BEGIN := One(FRESH, 0, false, 0, 0)

  lemma RunsBegin(cap: nat)
    requires cap > 0
    ensures Init(BEGIN) && Room(BEGIN, cap)
  {
    assert FreshRunner(BEGIN.s.targets[0]);
  }

  lemma FirstPassHears()
    ensures P.Pass(FRESH, 0, NO_WAIT, [], State([NewSlot([])], [GREETED], [0]))
  {
    var m := State([NewSlot([])], [GREETED], [0]);
    QuietSources(FRESH, 0, 1);
    assert [FreeMsg("w")][1..] == [];
    assert ReadTarget(FRESH, 0, 0).targets == m.targets;
    assert P.ReadTargets(FRESH, 0, 0) == FRESH && P.ReadTargets(FRESH, 0, 1) == m;
    QuietMatch(m, 0, 1);
    NobodyWaits(m, 0, NO_WAIT);
    IdlePass(FRESH, 0, NO_WAIT, m);
  }

  lemma RunnerIsHeard(cap: nat)
    requires cap > 0
    ensures LeadsWithin(NO_WAIT, cap, BEGIN, Quiet(NewSlot([]), GREETED, 0))
    ensures Ready(Quiet(NewSlot([]), GREETED, 0), 0, "")
  {
    FirstPassHears();
    WithinByPass(NO_WAIT, cap, BEGIN, [], State([NewSlot([])], [GREETED], [0]), 0);
  }

  /** The type the n-th client asks for. */
  function Turn(n: nat): string {
    if n == 0 then "" else if n % 2 == 1 then "x:a" else "x:b"
  }

  lemma TurnsDiffer(n: nat)
    ensures Turn(n + 1) != Turn(n) && Turn(n + 1) != "" && !YType(Turn(n + 1))
  {
  }

  lemma {:induction false} Rounds(cap: nat, n: nat) returns (d: Config)
    requires n <= cap && cap > 0
    ensures LeadsWithin(NO_WAIT, cap, BEGIN, d) && Ready(d, n, Turn(n))
  {
    if n == 0 {
      RunnerIsHeard(cap);
      d := Quiet(NewSlot([]), GREETED, 0);
    } else {
      var c := Rounds(cap, n - 1);
      TurnsDiffer(n - 1);
      d := Round(cap, c, n - 1, Turn(n - 1), Turn(n));
      WithinOn(NO_WAIT, cap, BEGIN, c, d);
    }
  }

  /** One more client asks, and the broker comes to the start it is to be sent off with. */
  lemma OneMoreAsks(cap: nat, c: Config, n: nat, u: string, t: string) returns (d: Config)
    requires Ready(c, n, u) && t != u && t != "" && !YType(t) && n <= cap && cap > 0
    ensures LeadsWithin(NO_WAIT, cap, c, d) && |d.s.sources| == 1 && |d.s.sources[0].output| == n
    ensures Enabled(d, BrokerStep(t, 0)) && Answered(NO_WAIT, d, BrokerStep(t, 0), 0)
  {
    var src, tgt := c.s.sources[0], c.s.targets[0];
    ReadyIsQuiet(c, n, u);
    NextClientAsks(cap, src, tgt, u, n, t);
    var asked, m := Asking(src, tgt, n + 1, t), State([WaitingFor(src, t)], [tgt], []);
    AskIsRead(src, tgt, u, t);
    AskIsStarted(src, tgt, u, t);
    d := asked.(s := m, pc := AtStartNew);
    WithinByMatching(NO_WAIT, cap, asked);
    WithinOn(NO_WAIT, cap, c, asked, d);
    OnlyAskedType(m, t);
  }

  /** For every capacity there is a run of clients and a runner that follow the protocol, with room in
      every queue at every point, at whose end any number of replies up to the capacity is unread on a
      slot that the broker is about to answer.  At the capacity itself the broker finds the queue
      full; the client that waits for the oldest of the replies can make room. */
  lemma UnreadRepliesPileUp(cap: nat, n: nat) returns (run: seq<Config>, acts: seq<Action>, pick: string)
    requires 0 < cap && n <= cap
    ensures IsRun(NO_WAIT, run, acts) && AllPolite(acts) && AllRoom(run, cap)
    ensures |run[|acts|].s.sources| == 1 && |run[|acts|].s.sources[0].output| == n
    ensures Enabled(run[|acts|], BrokerStep(pick, 0)) && Answered(NO_WAIT, run[|acts|], BrokerStep(pick, 0), 0)
  {
    var c := Rounds(cap, n);
    pick := Turn(n + 1);
    TurnsDiffer(n);
    var d := OneMoreAsks(cap, c, n, Turn(n), pick);
    RunsBegin(cap);
    WithinOn(NO_WAIT, cap, BEGIN, c, d);
    run, acts := WithinIsRun(NO_WAIT, cap, BEGIN, d);
  }

  // ------------------------------------------------------------------ containers on port 3

  const CAPACITY := 3

  /** A container on port 3 is up, its client has been sent off, and no time later its target is told
      to start another one. */
  lemma Port3IsReplaced() returns (run: seq<Config>, acts: seq<Action>, k: nat)
    ensures IsRun(NO_WAIT, run, acts) && AllPolite(acts) && AllRoom(run, CAPACITY) && k < |run|
    ensures |run[k].s.sources| == |run[k].s.targets| == 1
    ensures run[k].s.sources[0].runInfo == PORT_3 && run[k].s.sources[0].output == [ErrorMsg(CLOSING_TEXT)]
    ensures run[k].s.targets[0].slotType == "x:a" && run[k].s.targets[0].state == Free && LeftAlone(run[k], 0)
    ensures |run[|acts|].s.targets| == 1 && run[|acts|].now == run[k].now
    ensures run[|acts|].s.targets[0].slotType == "x:b" && run[|acts|].s.targets[0].state == Starting
  {
    var c := Quiet(NewSlot([]), GREETED, 0);
    RunsBegin(CAPACITY);
    RunnerIsHeard(CAPACITY);
    ClientIsSentOff(CAPACITY, NewSlot([]), GREETED, "", 0, "x:a");
    RunnerIsDone(CAPACITY, NewSlot([]), GREETED, "", 1, "x:a");
    var src, tgt := SentOff(NewSlot([]), "x:a"), ToldToStart(GREETED, "x:a").(state := Free, output := []);
    var d := Quiet(src, tgt, 1);
    WithinOn(NO_WAIT, CAPACITY, c, Quiet(src, ToldToStart(GREETED, "x:a"), 1), d);
    WithinOn(NO_WAIT, CAPACITY, BEGIN, c, d);
    ClientIsSentOff(CAPACITY, src, tgt, "x:a", 1, "x:b");
    run, acts, k := WithinIsRunOver(NO_WAIT, CAPACITY, BEGIN, d, Quiet(SentOff(src, "x:b"), ToldToStart(tgt, "x:b"), 2));
    assert [] + [ErrorMsg(CLOSING_TEXT)] == [ErrorMsg(CLOSING_TEXT)];
  }
}
