/** A runner that speaks late: the broker may tell it to start before its first message has come.
    That message then takes the target back, and the waiter it was promised is never served. */
module BrokerLateRunner {
  import opened Wrappers
  import opened BrokerModel
  import opened BrokerProtocol
  import opened BrokerLinks
  import opened BrokerStranded
  import opened BrokerStarvation
  import opened BrokerCounterexamples
  import P = BrokerPass

  const SILENT := State([NewSlot([])], [NewSlot([])], [0])
  const ASKED := State([Source(Free, 0, "", None, [ASK], [])], [NewSlot([])], [])
  const PROMISED := Source(Wait, 0, "x:a", Some(0), [], [])
  const TOLD := State([PROMISED], [Target("", Starting, 0, "x:a", Some(0), [], [GO])], [])
  const SPOKEN := State([PROMISED], [Target("", Starting, 0, "x:a", Some(0), [FreeMsg("w")], [GO])], [])
  const TAKEN_BACK := State([PROMISED], [Target("w", Free, 1, "", Some(0), [], [GO])], [])

  function Late(s: State, now: int, announced: bool, held: nat, reading: nat): Config {
    Config(s, AtSources(0), now, [false], [announced], [held], [reading], [0])
  }

  lemma ClientAsks()
    ensures Init(Late(SILENT, 0, false, 0, 0))
    ensures Leads(NO_WAIT, Late(SILENT, 0, false, 0, 0), Late(ASKED, 0, false, 0, 1))
  {
    var c, d := Late(SILENT, 0, false, 0, 0), Late(SILENT.(freeSources := []), 0, false, 1, 0);
    assert [0][1..] == [] && [] + [ASK] == [ASK];
    LeadsByStep(NO_WAIT, c, GetSlot);
    assert Next(NO_WAIT, c, GetSlot) == d;
    var a := SendAcquire(0, "x:a", NoInfo);
    LeadsByStep(NO_WAIT, d, a);
    assert Next(NO_WAIT, d, a).s.sources == ASKED.sources;
    assert Next(NO_WAIT, d, a) == Late(ASKED, 0, false, 0, 1);
    LeadsOn(NO_WAIT, c, d, Late(ASKED, 0, false, 0, 1));
  }

  lemma StartsTheSilent()
    ensures P.Pass(ASKED, 0, NO_WAIT, ["x:a"], TOLD)
  {
    var m := ASKED.(sources := [Source(Wait, 0, "x:a", None, [], [])]);
    assert [ASK][1..] == [] && [] + [GO] == [GO];
    assert ReadSource(ASKED, 0, 0).sources == m.sources;
    assert P.ReadSources(ASKED, 0, 0) == ASKED && P.ReadSources(ASKED, 0, 1) == m;
    QuietTargets(m, 0, 1);
    QuietMatch(m, 0, 1);
    assert WaitCount(m, "x:a", 0) == 0 && WaitCount(m, "x:a", 1) == 1;
    assert OldestFree(m, 1) == Some(0) && OldestFree(TOLD, 1) == None;
    assert StartNew(m, "x:a", 0).targets == TOLD.targets;
    assert StartNew(m, "x:a", 0).sources == TOLD.sources;
    StartOnlyPass(ASKED, 0, NO_WAIT, "x:a", m, TOLD);
  }

  lemma RunnerSpeaks()
    ensures Leads(NO_WAIT, Late(TOLD, 1, false, 0, 1), Late(SPOKEN, 1, true, 0, 1))
  {
    var c, a := Late(TOLD, 1, false, 0, 1), Announce(0, "w");
    assert [] + [FreeMsg("w")] == [FreeMsg("w")];
    LeadsByStep(NO_WAIT, c, a);
    assert Next(NO_WAIT, c, a).s.targets == SPOKEN.targets;
    assert Next(NO_WAIT, c, a) == Late(SPOKEN, 1, true, 0, 1);
  }

  lemma TakesBack()
    ensures P.Pass(SPOKEN, 1, NO_WAIT, [], TAKEN_BACK)
  {
    QuietSources(SPOKEN, 1, 1);
    assert [FreeMsg("w")][1..] == [];
    assert ReadTarget(SPOKEN, 0, 1).targets == TAKEN_BACK.targets;
    assert P.ReadTargets(SPOKEN, 1, 0) == SPOKEN && P.ReadTargets(SPOKEN, 1, 1) == TAKEN_BACK;
    QuietMatch(TAKEN_BACK, 1, 1);
    NobodyWaits(TAKEN_BACK, 1, NO_WAIT);
    IdlePass(SPOKEN, 1, NO_WAIT, TAKEN_BACK);
  }

  lemma LeadsToTold()
    ensures Leads(NO_WAIT, Late(SILENT, 0, false, 0, 0), Late(TOLD, 1, false, 0, 1))
  {
    var c0, c1 := Late(SILENT, 0, false, 0, 0), Late(ASKED, 0, false, 0, 1);
    ClientAsks();
    StartsTheSilent();
    LeadsByPass(NO_WAIT, c1, ["x:a"], TOLD, 1);
    LeadsOn(NO_WAIT, c0, c1, Late(TOLD, 1, false, 0, 1));
  }

  lemma LeadsToTakenBack()
    ensures Leads(NO_WAIT, Late(TOLD, 1, false, 0, 1), Late(TAKEN_BACK, 2, true, 0, 1))
  {
    var c2, c3 := Late(TOLD, 1, false, 0, 1), Late(SPOKEN, 1, true, 0, 1);
    RunnerSpeaks();
    TakesBack();
    LeadsByPass(NO_WAIT, c3, [], TAKEN_BACK, 2);
    LeadsOn(NO_WAIT, c2, c3, Late(TAKEN_BACK, 2, true, 0, 1));
  }

  lemma TakenBackIsLost()
    ensures Forgotten(TAKEN_BACK, "x:a") && Stuck(TAKEN_BACK, 0, "x:a") && !NoStranded(TAKEN_BACK)
    ensures !InFlight(TAKEN_BACK.targets[0], false)
  {
    assert TAKEN_BACK.sources[0].opposite == Some(0) && TAKEN_BACK.targets[0].slotType == "";
  }

  /** One client and one runner that follow the protocol, the runner slower than the broker: at the
      end its target is Free with a Start message under way, and the client waits for ever. */
  lemma LateRunnerStrandsClient() returns (run: seq<Config>, acts: seq<Action>)
    ensures IsRun(NO_WAIT, run, acts) && AllPolite(acts) && !OneStart(run[|acts|])
    ensures Forgotten(run[|acts|].s, "x:a") && Stuck(run[|acts|].s, 0, "x:a") && !NoStranded(run[|acts|].s)
  {
    var c0, c2, c4 := Late(SILENT, 0, false, 0, 0), Late(TOLD, 1, false, 0, 1), Late(TAKEN_BACK, 2, true, 0, 1);
    ClientAsks();
    LeadsToTold();
    LeadsToTakenBack();
    LeadsOn(NO_WAIT, c0, c2, c4);
    run, acts := LeadsIsRun(NO_WAIT, c0, c4);
    TakenBackIsLost();
  }
}
