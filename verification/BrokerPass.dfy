/** A whole pass of the broker on values: each phase as the fold of its steps. */
module BrokerPass {
  import opened Wrappers
  import opened BrokerModel
  import opened BrokerInvariants

  function ReadSources(s: State, now: int, k: nat): (r: State)
    requires k <= |s.sources|
    ensures |r.sources| == |s.sources| && |r.targets| == |s.targets|
  {
    if k == 0 then s else ReadSource(ReadSources(s, now, k - 1), k - 1, now)
  }

  function ReadTargets(s: State, now: int, k: nat): (r: State)
    requires k <= |s.targets|
    ensures |r.sources| == |s.sources| && |r.targets| == |s.targets|
  {
    if k == 0 then s else ReadTarget(ReadTargets(s, now, k - 1), k - 1, now)
  }

  function MatchSources(s: State, now: int, k: nat): (r: State)
    requires k <= |s.sources|
    ensures |r.sources| == |s.sources| && |r.targets| == |s.targets|
  {
    if k == 0 then s else MatchSource(MatchSources(s, now, k - 1), k - 1, now)
  }

  /** The rounds of the first start loop, with the types it settled on. */
  ghost predicate StartRounds(s: State, picks: seq<string>, now: int, r: State)
    decreases |picks|
  {
    if picks == [] then r == s
    else CanStartNew(s) && MostRequested(s, picks[0]) && StartRounds(StartNew(s, picks[0], now), picks[1..], now, r)
  }

  lemma OneRound(s: State, now: int, pick: string)
    requires CanStartNew(s) && MostRequested(s, pick)
    ensures StartRounds(s, [pick], now, StartNew(s, pick, now))
  {
    assert [pick][1..] == [];
    assert StartRounds(StartNew(s, pick, now), [], now, StartNew(s, pick, now));
  }

  lemma RoundFirst(s: State, all: seq<string>, first: string, rest: seq<string>, now: int, r: State)
    requires all == [first] + rest
    requires CanStartNew(s) && MostRequested(s, first) && StartRounds(StartNew(s, first, now), rest, now, r)
    ensures StartRounds(s, all, now, r)
  {
    assert all[1..] == rest && all[0] == first;
  }

  lemma Cons(picks: seq<string>, pick: string)
    requires picks != []
    ensures picks + [pick] == [picks[0]] + (picks[1..] + [pick])
  {
  }

  lemma {:induction false} OneMoreRound(s: State, picks: seq<string>, now: int, r: State, pick: string)
    requires StartRounds(s, picks, now, r) && CanStartNew(r) && MostRequested(r, pick)
    ensures StartRounds(s, picks + [pick], now, StartNew(r, pick, now))
    decreases |picks|
  {
    if picks == [] {
      LastRound(s, picks, now, r, pick);
    } else {
      OneMoreRound(StartNew(s, picks[0], now), picks[1..], now, r, pick);
      Cons(picks, pick);
      RoundFirst(s, picks + [pick], picks[0], picks[1..] + [pick], now, StartNew(r, pick, now));
    }
  }

  lemma LastRound(s: State, picks: seq<string>, now: int, r: State, pick: string)
    requires picks == [] && r == s && CanStartNew(r) && MostRequested(r, pick)
    ensures StartRounds(s, picks + [pick], now, StartNew(r, pick, now))
  {
    OneRound(s, now, pick);
    assert picks + [pick] == [pick];
  }

  /** The second start loop, run until it stops. */
  function StartCopies(s: State, now: int, cfg: Settings): (r: State)
    ensures |r.sources| == |s.sources| && |r.targets| == |s.targets|
    decreases FreeCount(s, |s.targets|)
  {
    if CanStartCopy(s, now, cfg) then
      CopyUsesFree(s, now, cfg);
      StartCopies(StartCopy(s, now, cfg), now, cfg)
    else s
  }

  /** A round of the second start loop does not change where the loop ends. */
  lemma CopyOnTheWay(s: State, now: int, cfg: Settings)
    ensures StartCopies(s, now, cfg) == if CanStartCopy(s, now, cfg) then StartCopies(StartCopy(s, now, cfg), now, cfg) else s
  {
  }

  function FreeUnused(s: State, now: int, k: nat): (r: State)
    requires k <= |s.targets|
    ensures |r.sources| == |s.sources| && |r.targets| == |s.targets|
  {
    if k == 0 then s else FreeUnusedY(FreeUnused(s, now, k - 1), k - 1, now)
  }

  function SweepTargets(s: State, now: int, cfg: Settings, k: nat): (r: State)
    requires k <= |s.targets|
    ensures |r.sources| == |s.sources| && |r.targets| == |s.targets|
  {
    if k == 0 then s else Sweep(SweepTargets(s, now, cfg, k - 1), k - 1, now, cfg)
  }

  /** Phases 1 to 3. */
  function Matched(s: State, now: int): (r: State)
    ensures |r.sources| == |s.sources| && |r.targets| == |s.targets|
  {
    var r1 := ReadSources(s, now, |s.sources|);
    var r2 := ReadTargets(r1, now, |s.targets|);
    MatchSources(r2, now, |s.sources|)
  }

  /** Phases 5 to 7. */
  function Cleared(s: State, now: int, cfg: Settings): (r: State)
    ensures |r.sources| == |s.sources| && |r.targets| == |s.targets|
  {
    var r5 := StartCopies(s, now, cfg);
    var r6 := FreeUnused(r5, now, |s.targets|);
    SweepTargets(r6, now, cfg, |s.targets|)
  }

  /** The result of one pass; the picks are the types the first start loop settled on. */
  ghost predicate Pass(s: State, now: int, cfg: Settings, picks: seq<string>, r: State) {
    exists m: State :: StartRounds(Matched(s, now), picks, now, m) && !CanStartNew(m) && r == Cleared(m, now, cfg)
  }

  const EMPTY_SLOT := Slot([], [], Free, 0, "", NoInfo, "", None)

  /** What NewBroker builds. */
  function NewState(sourceCount: nat, targetCount: nat): State {
    State(seq(sourceCount, i => EMPTY_SLOT), seq(targetCount, j => EMPTY_SLOT), seq(sourceCount, i => i))
  }

  /** The n-th pass of a sequence of passes. */
  ghost predicate PassAt(trace: seq<State>, clock: seq<int>, cfg: Settings, picks: seq<seq<string>>, n: nat) {
    n + 1 < |trace| && n < |clock| && n < |picks| && Pass(trace[n], clock[n], cfg, picks[n], trace[n + 1])
  }

  lemma OneMorePass(trace: seq<State>, clock: seq<int>, cfg: Settings, picks: seq<seq<string>>, pick: seq<string>, r: State)
    requires |trace| == |picks| + 1 && |picks| < |clock|
    requires forall k :: 0 <= k < |picks| ==> PassAt(trace, clock, cfg, picks, k)
    requires Pass(trace[|picks|], clock[|picks|], cfg, pick, r)
    ensures forall k :: 0 <= k < |picks| + 1 ==> PassAt(trace + [r], clock, cfg, picks + [pick], k)
  {
    forall k | 0 <= k < |picks|
      ensures PassAt(trace + [r], clock, cfg, picks + [pick], k)
    {
      assert PassAt(trace, clock, cfg, picks, k);
    }
  }

  lemma CopyUsesFree(s: State, now: int, cfg: Settings)
    requires CanStartCopy(s, now, cfg)
    ensures FreeCount(StartCopy(s, now, cfg), |s.targets|) == FreeCount(s, |s.targets|) - 1
  {
    StartUsesFree(s, OldestRunner(s, now, |s.targets|).value, OldestWaiter(s, now, |s.sources|).value, false, now, |s.targets|);
  }

  lemma {:induction false} RoundsKeepSizes(s: State, picks: seq<string>, now: int, r: State)
    requires StartRounds(s, picks, now, r)
    ensures |r.sources| == |s.sources| && |r.targets| == |s.targets|
    decreases |picks|
  {
    if picks == [] {
    } else {
      RoundsKeepSizes(StartNew(s, picks[0], now), picks[1..], now, r);
    }
  }
}
