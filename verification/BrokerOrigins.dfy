/** Where what the broker sends comes from: a runner is told to start what some client asked for, and a
    client is sent to an address that some runner announced. */
module BrokerOrigins {
  import opened Wrappers
  import opened BrokerModel
  import opened BrokerProtocol
  import opened BrokerDisplaced

  // ------------------------------------------------------------------ reading one message

  /** An Acquire makes its slot a waiter for the type and the container that it names, from now on and
      without a promise. */
  lemma AcquireIsKept(s: State, i: nat, now: int)
    requires i < |s.sources| && s.sources[i].input != [] && s.sources[i].input[0].AcquireMsg?
    ensures var r, m := ReadSource(s, i, now), s.sources[i].input[0];
            && r == s.(sources := r.sources) && |r.sources| == |s.sources|
            && (forall h :: 0 <= h < |s.sources| && h != i ==> r.sources[h] == s.sources[h])
            && r.sources[i].state == Wait && r.sources[i].slotType == m.slotType && r.sources[i].runInfo == m.info
            && r.sources[i].since == now && r.sources[i].opposite == None
            && r.sources[i].input == s.sources[i].input[1..] && r.sources[i].output == s.sources[i].output
  {
  }

  /** A Release of a running x-type slot sets its target free, for other clients of the type unless the
      container is to be killed; any Release sends its slot to the pool. */
  lemma ReleaseSetsFree(s: State, i: nat, now: int)
    requires i < |s.sources| && s.sources[i].input != [] && s.sources[i].input[0].ReleaseMsg?
    requires s.sources[i].state == Run ==> s.sources[i].opposite.Some? && s.sources[i].opposite.value < |s.targets|
    ensures var r, slot := ReadSource(s, i, now), s.sources[i];
            && r.freeSources == s.freeSources + [i] && |r.sources| == |s.sources| && |r.targets| == |s.targets|
            && r.sources[i] == slot.(input := slot.input[1..], state := Free)
            && (forall h :: 0 <= h < |s.sources| && h != i ==> r.sources[h] == s.sources[h])
            && forall j :: 0 <= j < |s.targets| ==>
                 if slot.state == Run && !YType(slot.slotType) && slot.opposite == Some(j) then
                   && r.targets[j].state == Free
                   && r.targets[j].slotType == (if slot.input[0].kill then "" else s.targets[j].slotType)
                   && r.targets[j].since == (if slot.input[0].kill then 3 else now)
                   && r.targets[j].input == s.targets[j].input && r.targets[j].output == s.targets[j].output
                 else r.targets[j] == s.targets[j]
  {
  }

  /** What a runner's message makes of its target: Started and the first message set it free now, a
      failure in the distant past, and the latter two take its type away. */
  lemma RunnerIsHeard(s: State, j: nat, now: int)
    requires j < |s.targets| && s.targets[j].input != []
    ensures var r, t, m := ReadTarget(s, j, now).targets, s.targets[j], s.targets[j].input[0];
            && |r| == |s.targets| && (forall h :: 0 <= h < |r| && h != j ==> r[h] == s.targets[h])
            && r[j].input == t.input[1..] && r[j].output == t.output && r[j].opposite == t.opposite
            && (m.StartedMsg? || m.FreeMsg? || m.ErrorMsg? ==> r[j].state == Free)
            && (m.StartedMsg? ==> r[j].slotType == t.slotType && r[j].since == now && r[j].refInfo == t.refInfo)
            && (m.FreeMsg? ==> r[j].slotType == "" && r[j].since == now && r[j].refInfo == m.address)
            && (m.ErrorMsg? ==> r[j].slotType == "" && r[j].since == 5 && r[j].refInfo == t.refInfo)
  {
  }

  // ------------------------------------------------------------------ what was asked for, what was announced

  type Ask = (nat, string, RunInfo)

  /** The request that a client makes by this step, if it is one. */
  function AskOf(a: Action): set<Ask> {
    match a
    case SendAcquire(i, slotType, info) => {(i, slotType, info)}
    case AnySend(i, AcquireMsg(slotType, info)) => {(i, slotType, info)}
    case _ => {}
  }

  function Asks(acts: seq<Action>, k: nat): set<Ask>
    requires k <= |acts|
  {
    if k == 0 then {} else Asks(acts, k - 1) + AskOf(acts[k - 1])
  }

  type Address = (nat, string)

  /** What runner j has said at the start, if it has spoken. */
  function FirstWords(c: Config): set<Address> {
    set j: nat | j < |c.s.targets| && c.s.targets[j].input != [] && c.s.targets[j].input[0].FreeMsg? ::
      (j, c.s.targets[j].input[0].address)
  }

  function WordsOf(a: Action): set<Address> {
    match a
    case Announce(j, address) => {(j, address)}
    case _ => {}
  }

  function Words(first: Config, acts: seq<Action>, k: nat): set<Address>
    requires k <= |acts|
  {
    if k == 0 then FirstWords(first) else Words(first, acts, k - 1) + WordsOf(acts[k - 1])
  }

  predicate AskedBy(slot: Slot, i: nat, asks: set<Ask>) {
    && (slot.state == Wait ==> (i, slot.slotType, slot.runInfo) in asks)
    && forall n :: 0 <= n < |slot.input| ==> slot.input[n].AcquireMsg? ==> (i, slot.input[n].slotType, slot.input[n].info) in asks
  }

  predicate SomeAsk(info: RunInfo, asks: set<Ask>) {
    exists ask :: ask in asks && ask.2 == info
  }

  predicate StartsAsked(slot: Slot, asks: set<Ask>) {
    forall n :: 0 <= n < |slot.output| ==> slot.output[n].StartMsg? ==> SomeAsk(slot.output[n].info, asks)
  }

  predicate AddressKnown(slot: Slot, j: nat, words: set<Address>) {
    && (slot.refInfo == "" || (j, slot.refInfo) in words)
    && forall n :: 0 <= n < |slot.input| ==> slot.input[n].FreeMsg? ==> (j, slot.input[n].address) in words
  }

  predicate SomeAddress(address: string, words: set<Address>) {
    address == "" || exists word :: word in words && word.1 == address
  }

  predicate GrantsKnown(slot: Slot, words: set<Address>) {
    forall n :: 0 <= n < |slot.output| ==> slot.output[n].AcquiredMsg? ==> SomeAddress(slot.output[n].address, words)
  }

  predicate SourceTraced(slot: Slot, i: nat, asks: set<Ask>, words: set<Address>) {
    AskedBy(slot, i, asks) && GrantsKnown(slot, words)
  }

  predicate TargetTraced(slot: Slot, j: nat, asks: set<Ask>, words: set<Address>) {
    StartsAsked(slot, asks) && AddressKnown(slot, j, words)
  }

  /** Everything in the slots goes back to a request of a client or a word of a runner. */
  predicate Traced(s: State, asks: set<Ask>, words: set<Address>) {
    && (forall i :: 0 <= i < |s.sources| ==> SourceTraced(s.sources[i], i, asks, words))
    && (forall j :: 0 <= j < |s.targets| ==> TargetTraced(s.targets[j], j, asks, words))
  }

  // ------------------------------------------------------------------ steps of the broker

  lemma TracedReadSource(s: State, k: nat, now: int, asks: set<Ask>, words: set<Address>)
    requires Traced(s, asks, words) && k < |s.sources|
    ensures Traced(ReadSource(s, k, now), asks, words)
  {
    var r := ReadSource(s, k, now);
    assert SourceTraced(s.sources[k], k, asks, words);
    forall i | 0 <= i < |r.sources|
      ensures SourceTraced(r.sources[i], i, asks, words)
    {
      assert SourceTraced(s.sources[i], i, asks, words);
    }
    forall j | 0 <= j < |r.targets|
      ensures TargetTraced(r.targets[j], j, asks, words)
    {
      assert TargetTraced(s.targets[j], j, asks, words);
    }
  }

  lemma ErrorTraced(s: State, t: string, text: string, i: nat, asks: set<Ask>, words: set<Address>)
    requires i < |s.sources| && SourceTraced(s.sources[i], i, asks, words)
    ensures SourceTraced(FailWaiters(s, t, text, |s.sources|).sources[i], i, asks, words)
  {
    FailWaitersEffect(s, t, text, |s.sources|);
  }

  lemma TracedReadTarget(s: State, k: nat, now: int, asks: set<Ask>, words: set<Address>)
    requires Traced(s, asks, words) && k < |s.targets|
    ensures Traced(ReadTarget(s, k, now), asks, words)
  {
    var r, t := ReadTarget(s, k, now), s.targets[k];
    assert TargetTraced(t, k, asks, words);
    forall i | 0 <= i < |r.sources|
      ensures SourceTraced(r.sources[i], i, asks, words)
    {
      assert SourceTraced(s.sources[i], i, asks, words);
      if t.input != [] && t.input[0].ErrorMsg? {
        ErrorTraced(WithTarget(s, k, t.(input := t.input[1..])), t.slotType, t.input[0].text, i, asks, words);
      }
    }
    forall j | 0 <= j < |r.targets|
      ensures TargetTraced(r.targets[j], j, asks, words)
    {
      assert TargetTraced(s.targets[j], j, asks, words);
      if t.input != [] { RunnerIsHeard(s, k, now); }
    }
  }

  lemma RepliesKnown(s: State, output: seq<Message>, hits: seq<nat>, asks: set<Ask>, words: set<Address>)
    requires Traced(s, asks, words) && forall a :: 0 <= a < |hits| ==> hits[a] < |s.targets|
    requires forall n :: 0 <= n < |output| ==> output[n].AcquiredMsg? ==> SomeAddress(output[n].address, words)
    ensures var all := output + Replies(s, hits);
            forall n :: 0 <= n < |all| ==> all[n].AcquiredMsg? ==> SomeAddress(all[n].address, words)
  {
    var replies := Replies(s, hits);
    forall a | 0 <= a < |replies|
      ensures replies[a].AcquiredMsg? && SomeAddress(replies[a].address, words)
    {
      assert TargetTraced(s.targets[hits[a]], hits[a], asks, words);
    }
  }

  lemma TracedMatch(s: State, k: nat, now: int, asks: set<Ask>, words: set<Address>)
    requires Traced(s, asks, words) && k < |s.sources|
    ensures Traced(MatchSource(s, k, now), asks, words)
  {
    var r := MatchSource(s, k, now);
    if s.sources[k].state == Wait {
      MatchTouches(s, k, now, |s.targets|);
      MatchServes(s, k, now, |s.targets|);
      assert SourceTraced(s.sources[k], k, asks, words);
      RepliesKnown(s, s.sources[k].output, Hits(s, k, |s.targets|), asks, words);
      forall i | 0 <= i < |r.sources|
        ensures SourceTraced(r.sources[i], i, asks, words)
      {
        assert SourceTraced(s.sources[i], i, asks, words);
      }
      forall j | 0 <= j < |r.targets|
        ensures TargetTraced(r.targets[j], j, asks, words)
      {
        assert TargetTraced(s.targets[j], j, asks, words);
      }
    }
  }

  lemma StartSourceTraced(s: State, j: nat, i: nat, backLink: bool, now: int, h: nat, asks: set<Ask>, words: set<Address>)
    requires i < |s.sources| && j < |s.targets| && h < |s.sources| && SourceTraced(s.sources[h], h, asks, words)
    ensures SourceTraced(StartTarget(s, j, i, backLink, now).sources[h], h, asks, words)
  {
  }

  lemma TracedStart(s: State, j: nat, i: nat, backLink: bool, now: int, asks: set<Ask>, words: set<Address>)
    requires Traced(s, asks, words) && i < |s.sources| && j < |s.targets| && s.sources[i].state == Wait
    ensures Traced(StartTarget(s, j, i, backLink, now), asks, words)
  {
    var r := StartTarget(s, j, i, backLink, now);
    assert SourceTraced(s.sources[i], i, asks, words);
    assert SomeAsk(s.sources[i].runInfo, asks) by {
      assert (i, s.sources[i].slotType, s.sources[i].runInfo) in asks;
    }
    forall h | 0 <= h < |r.sources|
      ensures SourceTraced(r.sources[h], h, asks, words)
    {
      StartSourceTraced(s, j, i, backLink, now, h, asks, words);
    }
    forall h | 0 <= h < |r.targets|
      ensures TargetTraced(r.targets[h], h, asks, words)
    {
      assert TargetTraced(s.targets[h], h, asks, words);
      StartTargets(s, j, i, backLink, now, h);
      if h == j { assert r.targets[j].input == s.targets[j].input && r.targets[j].refInfo == s.targets[j].refInfo; }
    }
  }

  lemma TracedClear(s: State, r: State, asks: set<Ask>, words: set<Address>)
    requires Traced(s, asks, words) && r.sources == s.sources && |r.targets| == |s.targets|
    requires forall j :: 0 <= j < |s.targets| ==>
               r.targets[j].input == s.targets[j].input && r.targets[j].output == s.targets[j].output
               && r.targets[j].refInfo == s.targets[j].refInfo
    ensures Traced(r, asks, words)
  {
    forall j | 0 <= j < |r.targets|
      ensures TargetTraced(r.targets[j], j, asks, words)
    {
      assert TargetTraced(s.targets[j], j, asks, words);
    }
  }

  lemma TracedBroker(cfg: Settings, c: Config, a: Action, asks: set<Ask>, words: set<Address>)
    requires Traced(c.s, asks, words) && Enabled(c, a) && a.BrokerStep?
    ensures Traced(Next(cfg, c, a).s, asks, words)
  {
    match c.pc
    case AtSources(k) => if k < |c.s.sources| { TracedReadSource(c.s, k, c.now, asks, words); }
    case AtTargets(k) => if k < |c.s.targets| { TracedReadTarget(c.s, k, c.now, asks, words); }
    case AtMatch(k) => if k < |c.s.sources| { TracedMatch(c.s, k, c.now, asks, words); }
    case AtStartNew =>
      if CanStartNew(c.s) {
        TracedStart(c.s, OldestFree(c.s, |c.s.targets|).value, StartSource(c.s, a.pick), true, c.now, asks, words);
      }
    case AtStartCopies =>
      if CanStartCopy(c.s, c.now, cfg) {
        TracedStart(c.s, OldestRunner(c.s, c.now, |c.s.targets|).value, OldestWaiter(c.s, c.now, |c.s.sources|).value,
                    false, c.now, asks, words);
      }
    case AtFreeY(k) => if k < |c.s.targets| { TracedClear(c.s, FreeUnusedY(c.s, k, c.now), asks, words); }
    case AtSweep(k) => if k < |c.s.targets| { TracedClear(c.s, Sweep(c.s, k, c.now, cfg), asks, words); }
  }

  // ------------------------------------------------------------------ steps of the others

  lemma TracedMore(s: State, asks: set<Ask>, words: set<Address>, moreAsks: set<Ask>, moreWords: set<Address>)
    requires Traced(s, asks, words)
    ensures Traced(s, asks + moreAsks, words + moreWords)
  {
    forall i | 0 <= i < |s.sources|
      ensures SourceTraced(s.sources[i], i, asks + moreAsks, words + moreWords)
    {
      assert SourceTraced(s.sources[i], i, asks, words);
    }
    forall j | 0 <= j < |s.targets|
      ensures TargetTraced(s.targets[j], j, asks + moreAsks, words + moreWords)
    {
      assert TargetTraced(s.targets[j], j, asks, words);
    }
  }

  lemma OtherSource(cfg: Settings, c: Config, a: Action, i: nat, asks: set<Ask>, words: set<Address>)
    requires Enabled(c, a) && !a.BrokerStep? && i < |c.s.sources| && SourceTraced(c.s.sources[i], i, asks, words)
    requires AskOf(a) <= asks
    ensures |Next(cfg, c, a).s.sources| == |c.s.sources| && SourceTraced(Next(cfg, c, a).s.sources[i], i, asks, words)
  {
    var slot, d := c.s.sources[i], Next(cfg, c, a).s.sources[i];
    if a.SendAcquire? && a.i == i { assert (i, a.slotType, a.info) in AskOf(a); }
    if a.AnySend? && a.i == i && a.m.AcquireMsg? { assert (i, a.m.slotType, a.m.info) in AskOf(a); }
  }

  lemma OtherTarget(cfg: Settings, c: Config, a: Action, j: nat, asks: set<Ask>, words: set<Address>)
    requires Enabled(c, a) && !a.BrokerStep? && j < |c.s.targets| && TargetTraced(c.s.targets[j], j, asks, words)
    requires WordsOf(a) <= words
    ensures |Next(cfg, c, a).s.targets| == |c.s.targets| && TargetTraced(Next(cfg, c, a).s.targets[j], j, asks, words)
  {
    if a.Announce? && a.j == j { assert (j, a.address) in WordsOf(a); }
  }

  lemma TracedStep(cfg: Settings, c: Config, a: Action, asks: set<Ask>, words: set<Address>)
    requires Traced(c.s, asks, words) && Enabled(c, a)
    ensures Traced(Next(cfg, c, a).s, asks + AskOf(a), words + WordsOf(a))
  {
    var asked, said := asks + AskOf(a), words + WordsOf(a);
    TracedMore(c.s, asks, words, AskOf(a), WordsOf(a));
    if a.BrokerStep? {
      TracedBroker(cfg, c, a, asked, said);
    } else {
      var d := Next(cfg, c, a);
      OthersKeepFields(cfg, c, a);
      forall i | 0 <= i < |d.s.sources|
        ensures SourceTraced(d.s.sources[i], i, asked, said)
      {
        OtherSource(cfg, c, a, i, asked, said);
      }
      forall j | 0 <= j < |d.s.targets|
        ensures TargetTraced(d.s.targets[j], j, asked, said)
      {
        OtherTarget(cfg, c, a, j, asked, said);
      }
    }
  }

  // ------------------------------------------------------------------ runs

  lemma InitTraced(c: Config)
    requires Init(c)
    ensures Traced(c.s, {}, FirstWords(c))
  {
    forall j | 0 <= j < |c.s.targets|
      ensures TargetTraced(c.s.targets[j], j, {}, FirstWords(c))
    {
      if c.announced[j] {
        var address :| c.s.targets[j] == NewSlot([FreeMsg(address)]);
        assert (j, c.s.targets[j].input[0].address) in FirstWords(c);
      }
    }
  }

  lemma {:induction false} TracedAt(cfg: Settings, run: seq<Config>, acts: seq<Action>, k: nat)
    requires IsRun(cfg, run, acts) && k < |run|
    ensures Traced(run[k].s, Asks(acts, k), Words(run[0], acts, k))
  {
    if k == 0 {
      InitTraced(run[0]);
    } else {
      TracedAt(cfg, run, acts, k - 1);
      assert Follows(cfg, run, acts, k - 1);
      TracedStep(cfg, run[k - 1], acts[k - 1], Asks(acts, k - 1), Words(run[0], acts, k - 1));
    }
  }

  /** By this step a client of slot i asks for a container of that type. */
  predicate AsksFor(a: Action, i: nat, slotType: string, info: RunInfo) {
    a == SendAcquire(i, slotType, info) || a == AnySend(i, AcquireMsg(slotType, info))
  }

  lemma {:induction false} AskWasMade(acts: seq<Action>, k: nat, ask: Ask)
    requires k <= |acts| && ask in Asks(acts, k)
    ensures exists h :: 0 <= h < k && AsksFor(acts[h], ask.0, ask.1, ask.2)
  {
    if k == 0 {
    } else if ask in Asks(acts, k - 1) {
      AskWasMade(acts, k - 1, ask);
    } else {
      assert AsksFor(acts[k - 1], ask.0, ask.1, ask.2);
    }
  }

  lemma {:induction false} WordWasSaid(first: Config, acts: seq<Action>, k: nat, word: Address)
    requires k <= |acts| && word in Words(first, acts, k)
    ensures word in FirstWords(first) || exists h :: 0 <= h < k && acts[h] == Announce(word.0, word.1)
  {
    if k == 0 {
    } else if word in Words(first, acts, k - 1) {
      WordWasSaid(first, acts, k - 1, word);
    } else {
      assert acts[k - 1] == Announce(word.0, word.1);
    }
  }

  /** Over any run: what is waited for on a slot is what a client asked for on it, type and container. */
  lemma WaitsForWhatWasAsked(cfg: Settings, run: seq<Config>, acts: seq<Action>, k: nat, i: nat)
    requires IsRun(cfg, run, acts) && k < |run| && i < |run[k].s.sources| && run[k].s.sources[i].state == Wait
    ensures exists h :: 0 <= h < k && AsksFor(acts[h], i, run[k].s.sources[i].slotType, run[k].s.sources[i].runInfo)
  {
    TracedAt(cfg, run, acts, k);
    assert SourceTraced(run[k].s.sources[i], i, Asks(acts, k), Words(run[0], acts, k));
    AskWasMade(acts, k, (i, run[k].s.sources[i].slotType, run[k].s.sources[i].runInfo));
  }

  /** When a runner is sent something, it is a Start for a container that a client has asked for with
      the type that the target is given. */
  lemma StartsWhatWasAsked(cfg: Settings, run: seq<Config>, acts: seq<Action>, k: nat, j: nat)
      returns (h: nat, i: nat, info: RunInfo)
    requires IsRun(cfg, run, acts) && k < |acts| && SendsTo(run, k, j)
    ensures h < k && AsksFor(acts[h], i, run[k + 1].s.targets[j].slotType, info)
    ensures run[k + 1].s.targets[j].output == run[k].s.targets[j].output + [StartMsg(info)]
  {
    var c, a := run[k], acts[k];
    assert Follows(cfg, run, acts, k);
    DisplacesIff(cfg, c, a, j);
    if c.pc == AtStartNew {
      CanStartNewIff(c.s, j);
      i := StartSource(c.s, a.pick);
      StartTargets(c.s, j, i, true, c.now, j);
    } else {
      CanStartCopyIff(c.s, c.now, cfg, j);
      i := OldestWaiter(c.s, c.now, |c.s.sources|).value;
      StartTargets(c.s, j, i, false, c.now, j);
    }
    WaitsForWhatWasAsked(cfg, run, acts, k, i);
    info := c.s.sources[i].runInfo;
    h :| 0 <= h < k && AsksFor(acts[h], i, c.s.sources[i].slotType, info);
  }

  /** A client that is told Acquired is sent to the address of a runner that has announced itself with
      it, or to none. */
  lemma AddressWasAnnounced(cfg: Settings, run: seq<Config>, acts: seq<Action>, k: nat, i: nat, n: nat)
    requires IsRun(cfg, run, acts) && k < |run| && i < |run[k].s.sources| && n < |run[k].s.sources[i].output|
    requires run[k].s.sources[i].output[n].AcquiredMsg? && run[k].s.sources[i].output[n].address != ""
    ensures var address := run[k].s.sources[i].output[n].address;
            || (exists j :: 0 <= j < |run[0].s.targets| && run[0].s.targets[j].input == [FreeMsg(address)])
            || (exists h, j :: 0 <= h < k && acts[h] == Announce(j, address))
  {
    var address := run[k].s.sources[i].output[n].address;
    TracedAt(cfg, run, acts, k);
    assert SourceTraced(run[k].s.sources[i], i, Asks(acts, k), Words(run[0], acts, k));
    var word: Address :| word in Words(run[0], acts, k) && word.1 == address;
    WordWasSaid(run[0], acts, k, word);
    if word in FirstWords(run[0]) {
      FirstWordIsAll(run[0], word.0);
    }
  }

  lemma FirstWordIsAll(c: Config, j: nat)
    requires Init(c) && j < |c.s.targets| && c.s.targets[j].input != [] && c.s.targets[j].input[0].FreeMsg?
    ensures c.s.targets[j].input == [FreeMsg(c.s.targets[j].input[0].address)]
  {
    if c.announced[j] {
      var address :| c.s.targets[j] == NewSlot([FreeMsg(address)]);
    }
  }
}
