/** A run in which two clients that follow the protocol make the broker grant two containers to one
    of them: the matching loop of broker.go does not stop at its first match. */
module BrokerDoubleGrant {
  import opened Wrappers
  import opened BrokerModel
  import opened BrokerProtocol
  import opened BrokerConservation
  import opened BrokerPlaces
  import opened BrokerCounterexamples
  import P = BrokerPass

  const PATIENT := Settings(1, 1800)

  const FRESH_2 := State([NewSlot([]), NewSlot([])], [NewSlot([FreeMsg("w")]), NewSlot([FreeMsg("v")])], [0, 1])

  const ASKING := Source(Free, 0, "", None, [ASK], [])
  const WAITING := Source(Wait, 0, "x:a", None, [], [])
  const PROMISED_0 := Source(Wait, 0, "x:a", Some(0), [], [])
  const PROMISED_1 := Source(Wait, 0, "x:a", Some(1), [], [])
  const GRANTED := Source(Run, 2, "x:a", Some(1), [], [AcquiredMsg("w"), AcquiredMsg("v")])

  const BOTH_ASK := State([ASKING, ASKING], FRESH_2.targets, [])
  const BOTH_WAIT := State([WAITING, WAITING], FRESH_2.targets, [])
  const BOTH_IDLE := State([WAITING, WAITING], [Target("w", Free, 0, "", None, [], []), Target("v", Free, 0, "", None, [], [])], [])
  const ONE_STARTS := State([PROMISED_0, WAITING],
                           [Target("w", Starting, 0, "x:a", Some(0), [], [GO]), Target("v", Free, 0, "", None, [], [])], [])
  const BOTH_START := State([PROMISED_0, PROMISED_1],
                           [Target("w", Starting, 0, "x:a", Some(0), [], [GO]), Target("v", Starting, 1, "x:a", None, [], [GO])], [])
  const BOTH_ANSWER := State([PROMISED_0, PROMISED_1],
                            [Target("w", Starting, 0, "x:a", Some(0), [StartedMsg], []), Target("v", Starting, 1, "x:a", None, [StartedMsg], [])], [])
  const BOTH_FREE := State([PROMISED_0, PROMISED_1],
                          [Target("w", Free, 2, "x:a", Some(0), [], []), Target("v", Free, 2, "x:a", None, [], [])], [])
  const BOTH_RUN := State([GRANTED, PROMISED_1],
                         [Target("w", Run, 2, "x:a", Some(0), [], []), Target("v", Run, 2, "x:a", None, [], [])], [])

  lemma FirstReads()
    ensures P.Matched(BOTH_ASK, 0) == BOTH_IDLE
  {
    var s1 := BOTH_ASK.(sources := [WAITING, ASKING]);
    assert [ASK][1..] == [];
    assert ReadSource(BOTH_ASK, 0, 0).sources == s1.sources;
    assert ReadSource(s1, 1, 0).sources == BOTH_WAIT.sources;
    assert P.ReadSources(BOTH_ASK, 0, 0) == BOTH_ASK && P.ReadSources(BOTH_ASK, 0, 1) == s1 && P.ReadSources(BOTH_ASK, 0, 2) == BOTH_WAIT;
    var s2 := BOTH_WAIT.(targets := [BOTH_IDLE.targets[0], BOTH_WAIT.targets[1]]);
    assert BOTH_WAIT.targets[0].input[1..] == [] && BOTH_WAIT.targets[1].input[1..] == [];
    assert ReadTarget(BOTH_WAIT, 0, 0).targets == s2.targets;
    assert ReadTarget(s2, 1, 0).targets == BOTH_IDLE.targets;
    assert P.ReadTargets(BOTH_WAIT, 0, 0) == BOTH_WAIT && P.ReadTargets(BOTH_WAIT, 0, 1) == s2 && P.ReadTargets(BOTH_WAIT, 0, 2) == BOTH_IDLE;
    QuietMatch(BOTH_IDLE, 0, 2);
  }

  lemma NoMoreNew(s: State)
    requires |s.sources| == 2 && s.sources[0].slotType == "x:a" && s.sources[1].slotType == "x:a"
    requires |s.targets| == 2 && s.targets[0].slotType == "x:a"
    ensures !CanStartNew(s)
  {
    CarriedIsNotWaitedOnly(s, "x:a");
  }

  lemma FirstPass()
    ensures P.Pass(BOTH_ASK, 0, PATIENT, ["x:a"], ONE_STARTS)
  {
    var m := BOTH_IDLE;
    FirstReads();
    assert OldestFree(m, 1) == Some(0) && OldestFree(m, 2) == Some(0);
    assert WaitCount(m, "x:a", 2) > 0 by { WaitCounted(m, "x:a", 2); assert Unserved(m.sources[0]); }
    assert WaitOnly(m, "x:a");
    assert FirstWaiter(m, "x:a", 1) == Some(0) && FirstWaiter(m, "x:a", 2) == Some(0);
    assert [] + [GO] == [GO];
    assert StartNew(m, "x:a", 0).targets == ONE_STARTS.targets;
    assert StartNew(m, "x:a", 0).sources == ONE_STARTS.sources;
    NoMoreNew(ONE_STARTS);
    assert OldestWaiter(ONE_STARTS, 0, 1) == None && OldestWaiter(ONE_STARTS, 0, 2) == None;
    StartOnlyPass(BOTH_ASK, 0, PATIENT, "x:a", m, ONE_STARTS);
  }

  lemma CopyIsStarted()
    ensures CanStartCopy(ONE_STARTS, 1, PATIENT) && StartCopy(ONE_STARTS, 1, PATIENT) == BOTH_START
  {
    var s := ONE_STARTS;
    assert OldestWaiter(s, 1, 0) == None && OldestWaiter(s, 1, 1) == None && OldestWaiter(s, 1, 2) == Some(1);
    assert OldestRunner(s, 1, 0) == None && OldestRunner(s, 1, 1) == None && OldestRunner(s, 1, 2) == Some(1);
    assert [] + [GO] == [GO];
    assert StartCopy(s, 1, PATIENT).sources == BOTH_START.sources;
    assert StartCopy(s, 1, PATIENT).targets == BOTH_START.targets;
  }

  lemma OneCopy()
    ensures P.StartCopies(ONE_STARTS, 1, PATIENT) == BOTH_START
  {
    CopyIsStarted();
    assert OldestRunner(BOTH_START, 1, 1) == None && OldestRunner(BOTH_START, 1, 2) == None;
    P.CopyOnTheWay(BOTH_START, 1, PATIENT);
    P.CopyOnTheWay(ONE_STARTS, 1, PATIENT);
  }

  /** The waiter without a promise has waited long enough: a copy is started for it. */
  lemma SecondPass()
    ensures P.Pass(ONE_STARTS, 1, PATIENT, [], BOTH_START)
  {
    QuietSources(ONE_STARTS, 1, 2);
    QuietTargets(ONE_STARTS, 1, 2);
    QuietMatch(ONE_STARTS, 1, 2);
    assert P.Matched(ONE_STARTS, 1) == ONE_STARTS;
    NoMoreNew(ONE_STARTS);
    assert P.StartRounds(ONE_STARTS, [], 1, ONE_STARTS);
    SecondCleared();
  }

  lemma SecondCleared()
    ensures P.Cleared(ONE_STARTS, 1, PATIENT) == BOTH_START
  {
    OneCopy();
    QuietFreeUnused(BOTH_START, 1, 2);
    QuietSweep(BOTH_START, 1, PATIENT, 2);
  }

  lemma ThirdReads()
    ensures P.ReadTargets(BOTH_ANSWER, 2, 2) == BOTH_FREE
  {
    var s1 := BOTH_ANSWER.(targets := [BOTH_FREE.targets[0], BOTH_ANSWER.targets[1]]);
    assert [StartedMsg][1..] == [];
    assert ReadTarget(BOTH_ANSWER, 0, 2).targets == s1.targets;
    assert ReadTarget(s1, 1, 2).targets == BOTH_FREE.targets;
    assert P.ReadTargets(BOTH_ANSWER, 2, 0) == BOTH_ANSWER && P.ReadTargets(BOTH_ANSWER, 2, 1) == s1;
  }

  lemma BothMatch()
    ensures MatchUpTo(BOTH_FREE, 0, 2, 2) == BOTH_RUN
  {
    var l := Link(BOTH_FREE, 0, 0, 2);
    assert l.sources[0].output == [AcquiredMsg("w")];
    assert Link(l, 0, 1, 2).sources[0].output == [AcquiredMsg("w"), AcquiredMsg("v")];
    assert Link(l, 0, 1, 2).sources == BOTH_RUN.sources;
    assert Link(l, 0, 1, 2).targets == BOTH_RUN.targets;
    assert MatchUpTo(BOTH_FREE, 0, 2, 0) == BOTH_FREE && MatchUpTo(BOTH_FREE, 0, 2, 1) == l;
  }

  /** Both containers are up at the same visit of the matching loop: the first waiter gets both. */
  lemma ThirdPass()
    ensures P.Pass(BOTH_ANSWER, 2, PATIENT, [], BOTH_RUN)
  {
    QuietSources(BOTH_ANSWER, 2, 2);
    ThirdReads();
    BothMatch();
    NoMatch(BOTH_RUN, 1, 2, 2);
    assert P.MatchSources(BOTH_FREE, 2, 0) == BOTH_FREE && P.MatchSources(BOTH_FREE, 2, 1) == BOTH_RUN && P.MatchSources(BOTH_FREE, 2, 2) == BOTH_RUN;
    MatchOnlyPass(BOTH_ANSWER, 2, PATIENT, BOTH_RUN);
  }

  // ------------------------------------------------------------------ the run

  function Two(s: State, now: int, busy: seq<bool>, held: seq<nat>, reading: seq<nat>): Config {
    Config(s, AtSources(0), now, busy, [true, true], held, reading, [0, 0])
  }

  const IDLE := [false, false]

  lemma BothGet(c: Config)
    requires c == Two(FRESH_2, 0, IDLE, [0, 0], [0, 0])
    ensures Leads(PATIENT, c, Two(FRESH_2.(freeSources := []), 0, IDLE, [1, 1], [0, 0]))
  {
    var c1 := Two(FRESH_2.(freeSources := [1]), 0, IDLE, [1, 0], [0, 0]);
    assert [0, 1][1..] == [1] && [1][1..] == [];
    LeadsByStep(PATIENT, c, GetSlot);
    assert Next(PATIENT, c, GetSlot) == c1;
    var c2 := Two(FRESH_2.(freeSources := []), 0, IDLE, [1, 1], [0, 0]);
    LeadsByStep(PATIENT, c1, GetSlot);
    assert Next(PATIENT, c1, GetSlot) == c2;
    LeadsOn(PATIENT, c, c1, c2);
  }

  lemma BothSend(c: Config)
    requires c == Two(FRESH_2.(freeSources := []), 0, IDLE, [1, 1], [0, 0])
    ensures Leads(PATIENT, c, Two(BOTH_ASK, 0, IDLE, [0, 0], [1, 1]))
  {
    var a, b := SendAcquire(0, "x:a", NoInfo), SendAcquire(1, "x:a", NoInfo);
    var d := Two(State([ASKING, NewSlot([])], FRESH_2.targets, []), 0, IDLE, [0, 1], [1, 0]);
    assert [] + [ASK] == [ASK];
    LeadsByStep(PATIENT, c, a);
    assert Next(PATIENT, c, a).s.sources == d.s.sources;
    assert Next(PATIENT, c, a) == d;
    LeadsByStep(PATIENT, d, b);
    assert Next(PATIENT, d, b).s.sources == BOTH_ASK.sources;
    assert Next(PATIENT, d, b) == Two(BOTH_ASK, 0, IDLE, [0, 0], [1, 1]);
    LeadsOn(PATIENT, c, d, Two(BOTH_ASK, 0, IDLE, [0, 0], [1, 1]));
  }

  lemma ClientsAsk()
    ensures Init(Two(FRESH_2, 0, IDLE, [0, 0], [0, 0]))
    ensures Leads(PATIENT, Two(FRESH_2, 0, IDLE, [0, 0], [0, 0]), Two(BOTH_ASK, 0, IDLE, [0, 0], [1, 1]))
  {
    var c := Two(FRESH_2, 0, IDLE, [0, 0], [0, 0]);
    assert FreshRunner(c.s.targets[0]) && FreshRunner(c.s.targets[1]);
    var d := Two(FRESH_2.(freeSources := []), 0, IDLE, [1, 1], [0, 0]);
    BothGet(c);
    BothSend(d);
    LeadsOn(PATIENT, c, d, Two(BOTH_ASK, 0, IDLE, [0, 0], [1, 1]));
  }

  lemma RunnersStart()
    ensures Leads(PATIENT, Two(BOTH_START, 2, IDLE, [0, 0], [1, 1]), Two(BOTH_ANSWER, 2, IDLE, [0, 0], [1, 1]))
  {
    var c := Two(BOTH_START, 2, IDLE, [0, 0], [1, 1]);
    var d := Two(BOTH_START.(targets := [BOTH_ANSWER.targets[0], BOTH_START.targets[1]]), 2, IDLE, [0, 0], [1, 1]);
    RunnerStarts(PATIENT, c, 0, d);
    RunnerStarts(PATIENT, d, 1, Two(BOTH_ANSWER, 2, IDLE, [0, 0], [1, 1]));
    LeadsOn(PATIENT, c, d, Two(BOTH_ANSWER, 2, IDLE, [0, 0], [1, 1]));
  }

  const START := Two(FRESH_2, 0, IDLE, [0, 0], [0, 0])
  const GRANTED_TWICE := Two(BOTH_RUN, 3, IDLE, [0, 0], [1, 1])

  lemma LeadsToStarts()
    ensures Leads(PATIENT, Two(BOTH_ASK, 0, IDLE, [0, 0], [1, 1]), Two(BOTH_START, 2, IDLE, [0, 0], [1, 1]))
  {
    FirstPass();
    var c1 := Two(BOTH_ASK, 0, IDLE, [0, 0], [1, 1]);
    LeadsByPass(PATIENT, c1, ["x:a"], ONE_STARTS, 1);
    var c2 := Two(ONE_STARTS, 1, IDLE, [0, 0], [1, 1]);
    SecondPass();
    LeadsByPass(PATIENT, c2, [], BOTH_START, 2);
    LeadsOn(PATIENT, c1, c2, Two(BOTH_START, 2, IDLE, [0, 0], [1, 1]));
  }

  lemma LeadsToGrants()
    ensures Init(START) && Leads(PATIENT, START, GRANTED_TWICE)
  {
    var c1, c3 := Two(BOTH_ASK, 0, IDLE, [0, 0], [1, 1]), Two(BOTH_START, 2, IDLE, [0, 0], [1, 1]);
    ClientsAsk();
    LeadsToStarts();
    LeadsOn(PATIENT, START, c1, c3);
    RunnersStart();
    var c4 := Two(BOTH_ANSWER, 2, IDLE, [0, 0], [1, 1]);
    LeadsOn(PATIENT, START, c3, c4);
    ThirdPass();
    LeadsByPass(PATIENT, c4, [], BOTH_RUN, 3);
    LeadsOn(PATIENT, START, c4, GRANTED_TWICE);
  }

  /** Two clients and two runners that follow the protocol: one waiter is told Acquired twice, and
      the run breaks the balance of grants; yet no slot is lost or doubled by that. */
  lemma TwoGrantsForOneWaiter() returns (run: seq<Config>, acts: seq<Action>)
    ensures IsRun(PATIENT, run, acts) && AllPolite(acts)
    ensures Sized(run[|acts|]) && !Conserved(run[|acts|]) && Placed(run[|acts|])
    ensures |run[|acts|].s.sources| == 2 && run[|acts|].s.sources[0].output == [AcquiredMsg("w"), AcquiredMsg("v")]
  {
    LeadsToGrants();
    run, acts := LeadsIsRun(PATIENT, START, GRANTED_TWICE);
    assert !ConservedAt(GRANTED_TWICE, 0);
    assert PlacedAt(GRANTED_TWICE, 0) && PlacedAt(GRANTED_TWICE, 1);
  }
}
