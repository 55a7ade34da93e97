/** How a proxied connection ends in proxy.go: the goroutine that chooses a target and then copies, and
    the one it starts for the other direction, report the first error over an unbuffered channel;
    Start waits for one report and calls Closed of the target, which releases the broker's slot. */
module ProxySignals {
  /** A goroutine: at work; past the test of erred and about to send; past the send and about to set
      erred; returned. */
  datatype Worker = Working | Sending | Sent | Returned

  datatype Start = Waiting | Woken | Finished

  /** acquired tells whether the resolver was told Acquired and made a target of it; releases counts
      the Release messages that Closed has sent. */
  datatype State = State(workers: seq<Worker>, erred: bool, start: Start, acquired: bool, releases: nat)

  datatype Action =
    | Resolve           // the first goroutine gets its target
    | Spawn             // and, once connected, starts the second
    | Fail(w: nat)      // an error: return if erred is set, else go on to send
    | Rendezvous(w: nat)
    | SetErred(w: nat)
    | CallClosed

  const START := State([Working], false, Waiting, false, 0)

  predicate Enabled(s: State, a: Action) {
    match a
    case Resolve => |s.workers| == 1 && s.workers[0] == Working && !s.acquired
    case Spawn => |s.workers| == 1 && s.workers[0] == Working && s.acquired
    case Fail(w) => w < |s.workers| && s.workers[w] == Working
    case Rendezvous(w) => w < |s.workers| && s.workers[w] == Sending && s.start == Waiting
    case SetErred(w) => w < |s.workers| && s.workers[w] == Sent
    case CallClosed => s.start == Woken
  }

  function Next(s: State, a: Action): State
    requires Enabled(s, a)
  {
    match a
    case Resolve => s.(acquired := true)
    case Spawn => s.(workers := s.workers + [Working])
    case Fail(w) => s.(workers := s.workers[w := if s.erred then Returned else Sending])
    case Rendezvous(w) => s.(workers := s.workers[w := Sent], start := Woken)
    case SetErred(w) => s.(workers := s.workers[w := Returned], erred := true)
    case CallClosed => s.(start := Finished, releases := s.releases + if s.acquired then 1 else 0)
  }

  ghost predicate IsRun(s: State, actions: seq<Action>, t: State)
    decreases |actions|
  {
    if actions == [] then s == t
    else Enabled(s, actions[0]) && IsRun(Next(s, actions[0]), actions[1..], t)
  }

  /** Once Start has been woken the first goroutine has failed or has handed over to two, so no target
      can be acquired any more; and what was acquired is released when Start is finished. */
  predicate Inv(s: State) {
    && 1 <= |s.workers| <= 2 && (|s.workers| == 2 ==> s.acquired)
    && (s.start != Waiting && |s.workers| == 1 ==> s.workers[0] != Working)
    && s.releases == (if s.start == Finished && s.acquired then 1 else 0)
    && (s.erred ==> s.start != Waiting)
    && (s.start == Waiting ==> forall w :: 0 <= w < |s.workers| ==> s.workers[w] == Working || s.workers[w] == Sending)
  }

  lemma StepKeepsInv(s: State, a: Action)
    requires Inv(s) && Enabled(s, a)
    ensures Inv(Next(s, a))
  {
  }

  lemma {:induction false} RunKeepsInv(s: State, actions: seq<Action>, t: State)
    requires Inv(s) && IsRun(s, actions, t)
    ensures Inv(t)
    decreases |actions|
  {
    if actions == [] {
      assert s == t;
    } else {
      StepKeepsInv(s, actions[0]);
      RunKeepsInv(Next(s, actions[0]), actions[1..], t);
    }
  }

  /** How many of the actions are the given one. */
  function Count(actions: seq<Action>, a: Action): nat {
    if actions == [] then 0 else (if actions[0] == a then 1 else 0) + Count(actions[1..], a)
  }

  /** How many sends went through. */
  function Sends(actions: seq<Action>): nat {
    if actions == [] then 0 else (if actions[0].Rendezvous? then 1 else 0) + Sends(actions[1..])
  }

  lemma {:induction false} SendsAfterWaking(s: State, actions: seq<Action>, t: State)
    requires IsRun(s, actions, t)
    ensures s.start != Waiting ==> t.start != Waiting
    ensures Sends(actions) == if s.start == Waiting && t.start != Waiting then 1 else 0
    decreases |actions|
  {
    if actions == [] {
      assert s == t;
    } else {
      SendsAfterWaking(Next(s, actions[0]), actions[1..], t);
    }
  }

  lemma {:induction false} CountsOfRun(s: State, actions: seq<Action>, t: State)
    requires IsRun(s, actions, t)
    ensures Count(actions, Resolve) == (if t.acquired then 1 else 0) - if s.acquired then 1 else 0
    ensures Count(actions, CallClosed) == (if t.start == Finished then 1 else 0) - if s.start == Finished then 1 else 0
    decreases |actions|
  {
    if actions == [] {
      assert s == t;
    } else {
      CountsOfRun(Next(s, actions[0]), actions[1..], t);
    }
  }

  /** However a connection goes, its slot is acquired at most once and released at most once: never
      before the connection has ended, and exactly as often as it was acquired when it has.  This is
      what lets a client of the broker send a Release only for an Acquired it was told. */
  lemma AcquiredIsReleased(actions: seq<Action>, t: State)
    requires IsRun(START, actions, t)
    ensures Count(actions, Resolve) <= 1 && Count(actions, CallClosed) <= 1
    ensures t.start == Finished ==> t.releases == Count(actions, Resolve)
    ensures t.start != Finished ==> t.releases == 0
  {
    RunKeepsInv(START, actions, t);
    CountsOfRun(START, actions, t);
  }

  /** Of the reports at most one comes through, and only after it is Closed called; erred is set only
      then. */
  lemma OneReport(actions: seq<Action>, t: State)
    requires IsRun(START, actions, t)
    ensures Sends(actions) <= 1 && Count(actions, CallClosed) <= Sends(actions)
    ensures t.erred ==> Sends(actions) == 1
  {
    RunKeepsInv(START, actions, t);
    SendsAfterWaking(START, actions, t);
    CountsOfRun(START, actions, t);
  }

  /** The first failure ends the connection: whoever fails while Start still waits can be heard, and
      then Start can go on to Closed. */
  lemma FailureEnds(s: State, w: nat)
    requires Inv(s) && s.start == Waiting && Enabled(s, Fail(w))
    ensures var s1 := Next(s, Fail(w));
            && Enabled(s1, Rendezvous(w))
            && Enabled(Next(s1, Rendezvous(w)), CallClosed)
            && Next(Next(s1, Rendezvous(w)), CallClosed).releases == if s.acquired then 1 else 0
  {
  }

  /** A goroutine that was past the test of erred when another one's report came through is never
      heard: it stays at its send for ever. */
  lemma {:induction false} LateReportBlocks(s: State, actions: seq<Action>, t: State, w: nat)
    requires IsRun(s, actions, t) && s.start != Waiting
    requires w < |s.workers| && s.workers[w] == Sending
    ensures w < |t.workers| && t.workers[w] == Sending
    decreases |actions|
  {
    if actions == [] {
      assert s == t;
    } else {
      LateReportBlocks(Next(s, actions[0]), actions[1..], t, w);
    }
  }

  // ------------------------------------------------------------------ who returns

  /** How many goroutines are at that point. */
  function Tally(workers: seq<Worker>, at: Worker): nat {
    if workers == [] then 0 else (if workers[0] == at then 1 else 0) + Tally(workers[1..], at)
  }

  lemma {:induction false} TallyMove(workers: seq<Worker>, w: nat, to: Worker, at: Worker)
    requires w < |workers|
    ensures Tally(workers[w := to], at)
         == Tally(workers, at) - (if workers[w] == at then 1 else 0) + if to == at then 1 else 0
  {
    if w == 0 {
      assert workers[w := to][1..] == workers[1..];
    } else {
      assert workers[w := to][1..] == workers[1..][w - 1 := to];
      TallyMove(workers[1..], w - 1, to, at);
    }
  }

  lemma {:induction false} TallyAdd(workers: seq<Worker>, worker: Worker, at: Worker)
    ensures Tally(workers + [worker], at) == Tally(workers, at) + if worker == at then 1 else 0
  {
    if workers == [] {
      assert workers + [worker] == [worker] && [worker][1..] == [];
    } else {
      assert (workers + [worker])[1..] == workers[1..] + [worker];
      TallyAdd(workers[1..], worker, at);
    }
  }

  lemma TallyOne(workers: seq<Worker>, at: Worker)
    requires |workers| == 1
    ensures Tally(workers, at) == if workers[0] == at then 1 else 0
  {
    assert workers[1..] == [];
  }

  lemma {:induction false} TallyNone(workers: seq<Worker>, at: Worker)
    ensures Tally(workers, at) == 0 <==> forall w :: 0 <= w < |workers| ==> workers[w] != at
  {
    if workers == [] {
    } else {
      TallyNone(workers[1..], at);
      assert forall w :: 1 <= w < |workers| ==> workers[w] == workers[1..][w - 1];
    }
  }

  function Erred(s: State): nat {
    if s.erred then 1 else 0
  }

  /** Past their test of erred are the goroutine that was heard and those that never will be. */
  function Past(s: State): nat {
    Tally(s.workers, Sending) + Tally(s.workers, Sent) + Erred(s)
  }

  /** The one report that came through is on its way to setting erred or has done so. */
  predicate HeardOnce(s: State) {
    Tally(s.workers, Sent) + Erred(s) == if s.start == Waiting then 0 else 1
  }

  predicate Early(s: State, a: Action) {
    a.Fail? && !s.erred
  }

  lemma StepCounts(s: State, a: Action)
    requires Enabled(s, a)
    ensures HeardOnce(s) ==> HeardOnce(Next(s, a))
    ensures HeardOnce(s) ==> Past(Next(s, a)) == Past(s) + if Early(s, a) then 1 else 0
  {
    match a
    case Spawn => TallyAdd(s.workers, Working, Sending); TallyAdd(s.workers, Working, Sent);
    case Fail(w) =>
      var to := if s.erred then Returned else Sending;
      TallyMove(s.workers, w, to, Sending); TallyMove(s.workers, w, to, Sent);
    case Rendezvous(w) => TallyMove(s.workers, w, Sent, Sending); TallyMove(s.workers, w, Sent, Sent);
    case SetErred(w) => TallyMove(s.workers, w, Returned, Sending); TallyMove(s.workers, w, Returned, Sent);
    case _ =>
  }

  /** How many goroutines of the run failed while erred was unset. */
  function EarlyFails(s: State, actions: seq<Action>): nat
    decreases |actions|
  {
    if actions == [] || !Enabled(s, actions[0]) then 0
    else (if Early(s, actions[0]) then 1 else 0) + EarlyFails(Next(s, actions[0]), actions[1..])
  }

  lemma {:induction false} EarlyFailsAre(s: State, actions: seq<Action>, t: State)
    requires IsRun(s, actions, t) && HeardOnce(s)
    ensures HeardOnce(t) && Past(t) == Past(s) + EarlyFails(s, actions)
    decreases |actions|
  {
    if actions == [] {
      assert s == t;
    } else {
      StepCounts(s, actions[0]);
      EarlyFailsAre(Next(s, actions[0]), actions[1..], t);
    }
  }

  /** Nothing more can happen. */
  ghost predicate Over(s: State) {
    forall a :: !Enabled(s, a)
  }

  predicate AllReturned(s: State) {
    forall w :: 0 <= w < |s.workers| ==> s.workers[w] == Returned
  }

  lemma OverMeans(s: State)
    requires Inv(s) && Over(s)
    ensures s.start == Finished
    ensures forall w :: 0 <= w < |s.workers| ==> s.workers[w] == Sending || s.workers[w] == Returned
  {
    assert !Enabled(s, CallClosed) && !Enabled(s, Fail(0)) && !Enabled(s, Rendezvous(0));
    forall w | 0 <= w < |s.workers|
      ensures s.workers[w] == Sending || s.workers[w] == Returned
    {
      assert !Enabled(s, Fail(w)) && !Enabled(s, SetErred(w));
    }
  }

  lemma OverCounts(s: State)
    requires Inv(s) && Over(s) && HeardOnce(s)
    ensures s.start == Finished && Tally(s.workers, Sending) == Past(s) - 1
    ensures AllReturned(s) <==> Past(s) == 1
  {
    OverMeans(s);
    TallyNone(s.workers, Sent);
    TallyNone(s.workers, Sending);
  }

  /** START, field by field. */
  predicate AtStart(s: State) {
    |s.workers| == 1 && s.workers[0] == Working && !s.erred && s.start == Waiting && !s.acquired && s.releases == 0
  }

  lemma StartCounts(s: State)
    requires AtStart(s)
    ensures Inv(s) && HeardOnce(s) && Past(s) == 0 && Work(s) == 10
  {
    TallyOne(s.workers, Working);
    TallyOne(s.workers, Sending);
    TallyOne(s.workers, Sent);
  }

  lemma ReturnsFrom(s: State, actions: seq<Action>, t: State)
    requires AtStart(s) && IsRun(s, actions, t) && Over(t)
    ensures t.start == Finished && Tally(t.workers, Sending) == EarlyFails(s, actions) - 1
    ensures AllReturned(t) <==> EarlyFails(s, actions) == 1
  {
    StartCounts(s);
    RunKeepsInv(s, actions, t);
    EarlyFailsAre(s, actions, t);
    OverCounts(t);
  }

  /** When nothing of a connection can happen any more, Start has called Closed, and of the goroutines
      that failed while erred was unset all but one are left at their send: everybody has returned
      exactly when there was only one such failure. */
  lemma AllReturnIff(actions: seq<Action>, t: State)
    requires IsRun(START, actions, t) && Over(t)
    ensures t.start == Finished && Tally(t.workers, Sending) == EarlyFails(START, actions) - 1
    ensures AllReturned(t) <==> EarlyFails(START, actions) == 1
  {
    ReturnsFrom(START, actions, t);
  }

  /** What the goroutines still have to do, at most. */
  function Work(s: State): nat {
    (if s.acquired then 0 else 1) + (if |s.workers| == 1 then 4 else 0)
    + 3 * Tally(s.workers, Working) + 2 * Tally(s.workers, Sending) + Tally(s.workers, Sent)
    + (match s.start case Waiting => 2 case Woken => 1 case Finished => 0)
  }

  lemma StepWorks(s: State, a: Action)
    requires Inv(s) && Enabled(s, a)
    ensures Work(Next(s, a)) < Work(s)
  {
    match a
    case Resolve =>
    case Spawn =>
      TallyAdd(s.workers, Working, Working);
      TallyAdd(s.workers, Working, Sending);
      TallyAdd(s.workers, Working, Sent);
    case Fail(w) => WorkMoves(s.workers, w, if s.erred then Returned else Sending);
    case Rendezvous(w) => WorkMoves(s.workers, w, Sent);
    case SetErred(w) => WorkMoves(s.workers, w, Returned);
    case CallClosed =>
  }

  lemma WorkMoves(workers: seq<Worker>, w: nat, to: Worker)
    requires w < |workers|
    ensures forall at :: Tally(workers[w := to], at)
                      == Tally(workers, at) - (if workers[w] == at then 1 else 0) + if to == at then 1 else 0
  {
    forall at
      ensures Tally(workers[w := to], at) == Tally(workers, at) - (if workers[w] == at then 1 else 0) + if to == at then 1 else 0
    {
      TallyMove(workers, w, to, at);
    }
  }

  lemma {:induction false} RunWorks(s: State, actions: seq<Action>, t: State)
    requires Inv(s) && IsRun(s, actions, t)
    ensures Work(t) + |actions| <= Work(s)
    decreases |actions|
  {
    if actions == [] {
      assert s == t;
    } else {
      StepWorks(s, actions[0]);
      StepKeepsInv(s, actions[0]);
      RunWorks(Next(s, actions[0]), actions[1..], t);
    }
  }

  lemma RunIsShort(s: State, actions: seq<Action>, t: State)
    requires AtStart(s) && IsRun(s, actions, t)
    ensures |actions| <= 10
  {
    StartCounts(s);
    RunWorks(s, actions, t);
  }

  /** No connection goes on for ever: after ten of these actions at most it is over. */
  lemma RunsEnd(actions: seq<Action>, t: State)
    requires IsRun(START, actions, t)
    ensures |actions| <= 10
  {
    RunIsShort(START, actions, t);
  }

  lemma RunOn(s: State, a: Action, rest: seq<Action>, t: State)
    requires Enabled(s, a) && IsRun(Next(s, a), rest, t)
    ensures IsRun(s, [a] + rest, t)
  {
    assert ([a] + rest)[1..] == rest;
  }

  /** And that does happen: both directions fail before either report is through. */
  lemma LateReportHappens()
    ensures exists actions, t ::
              IsRun(START, actions, t) && t.start == Finished && t.releases == 1 && t.workers == [Sent, Sending]
  {
    var s1 := Next(START, Resolve);
    var s2 := Next(s1, Spawn);
    var s3 := Next(s2, Fail(0));
    var s4 := Next(s3, Fail(1));
    var s5 := Next(s4, Rendezvous(0));
    var s6 := Next(s5, CallClosed);
    RunOn(s5, CallClosed, [], s6);
    RunOn(s4, Rendezvous(0), [CallClosed] + [], s6);
    RunOn(s3, Fail(1), [Rendezvous(0)] + ([CallClosed] + []), s6);
    RunOn(s2, Fail(0), [Fail(1)] + ([Rendezvous(0)] + ([CallClosed] + [])), s6);
    RunOn(s1, Spawn, [Fail(0)] + ([Fail(1)] + ([Rendezvous(0)] + ([CallClosed] + []))), s6);
    RunOn(START, Resolve, [Spawn] + ([Fail(0)] + ([Fail(1)] + ([Rendezvous(0)] + ([CallClosed] + [])))), s6);
  }
}
