/** How the run of BrokerDoubleGrant goes on.  The second grant of the first client stays in its
    slot's queue; the slot's next client takes it for the answer to its own request.  When that
    request then fails, the slot is sent back to the pool twice: the channel of free slots, made for
    as many as there are, gets one too many, and a broker that sends to it never comes back. */
module BrokerOverflow {
  import opened Wrappers
  import opened BrokerModel
  import opened BrokerProtocol
  import opened BrokerConservation
  import opened BrokerPlaces
  import opened BrokerCounterexamples
  import opened BrokerDoubleGrant
  import P = BrokerPass

  const PORT_3 := Container("b", 3, map[])
  const ASK_B := AcquireMsg("x:b", PORT_3)
  const BACK := ReleaseMsg(false)
  const STALE := AcquiredMsg("v")

  const W_RUNS := Target("w", Run, 2, "x:a", Some(0), [], [])
  const V_RUNS := Target("v", Run, 3, "x:a", None, [], [])
  const V_FREED := Target("v", Free, 3, "x:a", None, [], [])
  const V_FREE := Target("v", Free, 4, "x:a", None, [], [])
  const V_STARTS := Target("v", Starting, 4, "x:b", Some(0), [], [StartMsg(PORT_3)])

  const A_RETURNS := Source(Run, 2, "x:a", Some(1), [BACK], [STALE])
  const RETURNED := Source(Free, 2, "x:a", Some(1), [], [STALE])
  const B_RUNS := Source(Run, 3, "x:a", Some(1), [], [STALE])
  const B_RETURNS := Source(Run, 3, "x:a", Some(1), [BACK], [])
  const B_IDLE := Source(Free, 3, "x:a", Some(1), [], [])
  const C_ASKS := Source(Free, 2, "x:a", Some(1), [ASK_B], [])
  const C_WAITS := Slot([], [], Wait, 4, "x:b", PORT_3, "", None)
  const C_FAILED := Slot([], [ErrorMsg(CLOSING_TEXT)], Free, 4, "x:b", PORT_3, "", Some(1))
  const C_RETURNS := Slot([BACK], [ErrorMsg(CLOSING_TEXT)], Free, 4, "x:b", PORT_3, "", Some(1))

  const A_DONE := State([A_RETURNS, PROMISED_1], BOTH_RUN.targets, [])
  const B_SERVED := State([RETURNED, B_RUNS], [W_RUNS, V_RUNS], [0])
  const C_FOOLED := State([C_ASKS, B_RETURNS], [W_RUNS, V_RUNS], [])
  const C_SENT_OFF := State([C_FAILED, B_IDLE], [W_RUNS, V_STARTS], [1, 0])
  const C_DONE := State([C_RETURNS, B_IDLE], [W_RUNS, V_STARTS], [1, 0])
  const FULL := State([C_FAILED, B_IDLE], [W_RUNS, V_STARTS], [1, 0, 0])

  function At(s: State, now: int, held: seq<nat>, reading: seq<nat>, using: seq<nat>): Config {
    Config(s, AtSources(0), now, IDLE, [true, true], held, reading, using)
  }

  // ------------------------------------------------------------------ passes

  /** The first client's Release frees the container it did not use, and the second client gets it. */
  lemma ServesB()
    ensures P.Pass(A_DONE, 3, PATIENT, [], B_SERVED)
  {
    var s := State([RETURNED, PROMISED_1], [W_RUNS, V_FREED], [0]);
    assert A_DONE.sources[0].input[1..] == [] && [] + [0] == [0];
    assert ReadSource(A_DONE, 0, 3).sources == s.sources;
    assert ReadSource(A_DONE, 0, 3).targets == s.targets;
    assert P.ReadSources(A_DONE, 3, 0) == A_DONE && P.ReadSources(A_DONE, 3, 1) == s && P.ReadSources(A_DONE, 3, 2) == s;
    QuietTargets(s, 3, 2);
    assert Link(s, 1, 1, 3).sources == B_SERVED.sources by { assert [] + [STALE] == [STALE]; }
    assert Link(s, 1, 1, 3).targets == B_SERVED.targets;
    assert MatchUpTo(s, 1, 3, 0) == s && MatchUpTo(s, 1, 3, 1) == s && MatchUpTo(s, 1, 3, 2) == B_SERVED;
    assert P.MatchSources(s, 3, 0) == s && P.MatchSources(s, 3, 1) == s && P.MatchSources(s, 3, 2) == B_SERVED;
    MatchOnlyPass(A_DONE, 3, PATIENT, B_SERVED);
  }

  const C_WAITING := State([C_WAITS, B_IDLE], [W_RUNS, V_FREE], [1])

  lemma ReadsC()
    ensures P.Matched(C_FOOLED, 4) == C_WAITING
  {
    var s := C_FOOLED.(sources := [C_WAITS, B_RETURNS]);
    assert [ASK_B][1..] == [] && [BACK][1..] == [] && [] + [1] == [1];
    assert ReadSource(C_FOOLED, 0, 4).sources == s.sources;
    assert ReadSource(s, 1, 4).sources == C_WAITING.sources;
    assert ReadSource(s, 1, 4).targets == C_WAITING.targets;
    assert P.ReadSources(C_FOOLED, 4, 0) == C_FOOLED && P.ReadSources(C_FOOLED, 4, 1) == s && P.ReadSources(C_FOOLED, 4, 2) == C_WAITING;
    QuietTargets(C_WAITING, 4, 2);
    QuietMatch(C_WAITING, 4, 2);
  }

  lemma StartsForC()
    ensures OldestFree(C_WAITING, 2) == Some(1) && WaitOnly(C_WAITING, "x:b")
    ensures StartNew(C_WAITING, "x:b", 4) == C_SENT_OFF
  {
    var m := C_WAITING;
    assert OldestFree(m, 0) == None && OldestFree(m, 1) == None && OldestFree(m, 2) == Some(1);
    WaitCounted(m, "x:b", 2);
    assert Unserved(m.sources[0]);
    assert WaitOnly(m, "x:b");
    assert FirstWaiter(m, "x:b", 0) == None && FirstWaiter(m, "x:b", 1) == Some(0) && FirstWaiter(m, "x:b", 2) == Some(0);
    assert [] + [StartMsg(PORT_3)] == [StartMsg(PORT_3)] && [] + [ErrorMsg(CLOSING_TEXT)] == [ErrorMsg(CLOSING_TEXT)];
    assert [1] + [0] == [1, 0];
    assert StartNew(m, "x:b", 4).sources == C_SENT_OFF.sources;
    assert StartNew(m, "x:b", 4).targets == C_SENT_OFF.targets;
  }

  /** The third client's request is started and, its port being 3, sent back at once. */
  lemma SendsOffC()
    ensures P.Pass(C_FOOLED, 4, PATIENT, ["x:b"], C_SENT_OFF)
  {
    ReadsC();
    StartsForC();
    assert OldestFree(C_SENT_OFF, 2) == None && OldestRunner(C_SENT_OFF, 4, 2) == None;
    StartOnlyPass(C_FOOLED, 4, PATIENT, "x:b", C_WAITING, C_SENT_OFF);
  }

  /** Its Release then sends the slot back once more. */
  lemma FillsPool()
    ensures P.Pass(C_DONE, 5, PATIENT, [], FULL)
  {
    assert [BACK][1..] == [] && [1, 0] + [0] == [1, 0, 0];
    assert ReadSource(C_DONE, 0, 5).sources == FULL.sources;
    assert P.ReadSources(C_DONE, 5, 0) == C_DONE && P.ReadSources(C_DONE, 5, 1) == FULL && P.ReadSources(C_DONE, 5, 2) == FULL;
    QuietTargets(FULL, 5, 2);
    QuietMatch(FULL, 5, 2);
    MatchOnlyPass(C_DONE, 5, PATIENT, FULL);
  }

  // ------------------------------------------------------------------ clients

  lemma LeadsTo(c: Config, a: Action, d: Config)
    requires Enabled(c, a) && Polite(a) && Next(PATIENT, c, a) == d
    ensures Leads(PATIENT, c, d)
  {
    LeadsByStep(PATIENT, c, a);
  }

  lemma AReturns()
    ensures Leads(PATIENT, GRANTED_TWICE, At(A_DONE, 3, [0, 0], [0, 1], [0, 0]))
  {
    var read := BOTH_RUN.(sources := [GRANTED.(output := [STALE]), PROMISED_1]);
    var c := At(read, 3, [0, 0], [0, 1], [1, 0]);
    assert GRANTED.output[1..] == [STALE] && [] + [BACK] == [BACK];
    assert Next(PATIENT, GRANTED_TWICE, ReadReply(0)).s.sources == read.sources;
    LeadsTo(GRANTED_TWICE, ReadReply(0), c);
    assert Next(PATIENT, c, SendRelease(0)).s.sources == A_DONE.sources;
    LeadsTo(c, SendRelease(0), At(A_DONE, 3, [0, 0], [0, 1], [0, 0]));
    LeadsOn(PATIENT, GRANTED_TWICE, c, At(A_DONE, 3, [0, 0], [0, 1], [0, 0]));
  }

  const B_GONE := B_SERVED.(sources := [RETURNED, B_RETURNS])

  lemma BReturns()
    ensures Leads(PATIENT, At(B_SERVED, 4, [0, 0], [0, 1], [0, 0]), At(B_GONE, 4, [0, 0], [0, 0], [0, 0]))
  {
    var c := At(B_SERVED, 4, [0, 0], [0, 1], [0, 0]);
    var read := B_SERVED.(sources := [RETURNED, B_RUNS.(output := [])]);
    var d := At(read, 4, [0, 0], [0, 0], [0, 1]);
    assert [STALE][1..] == [] && [] + [BACK] == [BACK];
    assert Next(PATIENT, c, ReadReply(1)).s.sources == read.sources;
    LeadsTo(c, ReadReply(1), d);
    assert Next(PATIENT, d, SendRelease(1)).s.sources == B_GONE.sources;
    LeadsTo(d, SendRelease(1), At(B_GONE, 4, [0, 0], [0, 0], [0, 0]));
    LeadsOn(PATIENT, c, d, At(B_GONE, 4, [0, 0], [0, 0], [0, 0]));
  }

  const C_QUEUED := C_FOOLED.(sources := [RETURNED.(input := [ASK_B]), B_RETURNS])

  lemma CSends()
    ensures Leads(PATIENT, At(B_GONE, 4, [0, 0], [0, 0], [0, 0]), At(C_QUEUED, 4, [0, 0], [1, 0], [0, 0]))
  {
    var c := At(B_GONE, 4, [0, 0], [0, 0], [0, 0]);
    var d := At(B_GONE.(freeSources := []), 4, [1, 0], [0, 0], [0, 0]);
    assert [0][1..] == [] && [] + [ASK_B] == [ASK_B];
    LeadsTo(c, GetSlot, d);
    assert Next(PATIENT, d, SendAcquire(0, "x:b", PORT_3)).s.sources == C_QUEUED.sources;
    LeadsTo(d, SendAcquire(0, "x:b", PORT_3), At(C_QUEUED, 4, [0, 0], [1, 0], [0, 0]));
    LeadsOn(PATIENT, c, d, At(C_QUEUED, 4, [0, 0], [1, 0], [0, 0]));
  }

  /** What it reads is the answer to a client that has left. */
  lemma CAsks()
    ensures Leads(PATIENT, At(B_GONE, 4, [0, 0], [0, 0], [0, 0]), At(C_FOOLED, 4, [0, 0], [0, 0], [1, 0]))
  {
    var e := At(C_QUEUED, 4, [0, 0], [1, 0], [0, 0]);
    CSends();
    assert [STALE][1..] == [];
    assert Next(PATIENT, e, ReadReply(0)).s.sources == C_FOOLED.sources;
    LeadsTo(e, ReadReply(0), At(C_FOOLED, 4, [0, 0], [0, 0], [1, 0]));
    LeadsOn(PATIENT, At(B_GONE, 4, [0, 0], [0, 0], [0, 0]), e, At(C_FOOLED, 4, [0, 0], [0, 0], [1, 0]));
  }

  lemma CReturns()
    ensures Leads(PATIENT, At(C_SENT_OFF, 5, [0, 0], [0, 0], [1, 0]), At(C_DONE, 5, [0, 0], [0, 0], [0, 0]))
  {
    var c := At(C_SENT_OFF, 5, [0, 0], [0, 0], [1, 0]);
    assert [] + [BACK] == [BACK];
    assert Next(PATIENT, c, SendRelease(0)).s.sources == C_DONE.sources;
    LeadsTo(c, SendRelease(0), At(C_DONE, 5, [0, 0], [0, 0], [0, 0]));
  }

  // ------------------------------------------------------------------ the run

  lemma LeadsToServed()
    ensures Leads(PATIENT, GRANTED_TWICE, At(B_SERVED, 4, [0, 0], [0, 1], [0, 0]))
  {
    AReturns();
    ServesB();
    var c := At(A_DONE, 3, [0, 0], [0, 1], [0, 0]);
    LeadsByPass(PATIENT, c, [], B_SERVED, 4);
    LeadsOn(PATIENT, GRANTED_TWICE, c, At(B_SERVED, 4, [0, 0], [0, 1], [0, 0]));
  }

  lemma LeadsToFooled()
    ensures Leads(PATIENT, At(B_SERVED, 4, [0, 0], [0, 1], [0, 0]), At(C_FOOLED, 4, [0, 0], [0, 0], [1, 0]))
  {
    BReturns();
    CAsks();
    LeadsOn(PATIENT, At(B_SERVED, 4, [0, 0], [0, 1], [0, 0]), At(B_GONE, 4, [0, 0], [0, 0], [0, 0]),
            At(C_FOOLED, 4, [0, 0], [0, 0], [1, 0]));
  }

  lemma LeadsToFull()
    ensures Leads(PATIENT, At(C_FOOLED, 4, [0, 0], [0, 0], [1, 0]), At(FULL, 6, [0, 0], [0, 0], [0, 0]))
  {
    var c, d, e := At(C_FOOLED, 4, [0, 0], [0, 0], [1, 0]), At(C_SENT_OFF, 5, [0, 0], [0, 0], [1, 0]), At(C_DONE, 5, [0, 0], [0, 0], [0, 0]);
    SendsOffC();
    LeadsByPass(PATIENT, c, ["x:b"], C_SENT_OFF, 5);
    CReturns();
    LeadsOn(PATIENT, c, d, e);
    FillsPool();
    LeadsByPass(PATIENT, e, [], FULL, 6);
    LeadsOn(PATIENT, c, e, At(FULL, 6, [0, 0], [0, 0], [0, 0]));
  }

  /** Three clients and two runners that all follow the protocol: at the end there are more free slots
      than slots, one of them twice in the pool. */
  lemma PoolOverflows() returns (run: seq<Config>, acts: seq<Action>)
    ensures IsRun(PATIENT, run, acts) && AllPolite(acts)
    ensures Sized(run[|acts|]) && !Placed(run[|acts|])
    ensures |run[|acts|].s.freeSources| > |run[|acts|].s.sources|
    ensures exists k :: 0 <= k < |acts| && StaleRelease(run[k], acts[k])
  {
    LeadsToGrants();
    LeadsToServed();
    LeadsOn(PATIENT, START, GRANTED_TWICE, At(B_SERVED, 4, [0, 0], [0, 1], [0, 0]));
    LeadsToFooled();
    LeadsOn(PATIENT, START, At(B_SERVED, 4, [0, 0], [0, 1], [0, 0]), At(C_FOOLED, 4, [0, 0], [0, 0], [1, 0]));
    LeadsToFull();
    LeadsOn(PATIENT, START, At(C_FOOLED, 4, [0, 0], [0, 0], [1, 0]), At(FULL, 6, [0, 0], [0, 0], [0, 0]));
    run, acts := LeadsIsRun(PATIENT, START, At(FULL, 6, [0, 0], [0, 0], [0, 0]));
    assert !PlacedAt(run[|acts|], 0);
    PlacedIff(PATIENT, run, acts);
  }
}
