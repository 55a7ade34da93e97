/** Where source slots are: every slot is in the pool, in a client's hands, asked for, waiting or
    running, and in exactly one of these places, as long as no Release is read twice for one grant. */
module BrokerPlaces {
  import opened BrokerModel
  import opened BrokerProtocol
  import opened BrokerInvariants
  import opened BrokerConservation
  import opened BrokerRuns

  /** How many requests are queued. */
  function Asks(input: seq<Message>): nat {
    if input == [] then 0 else Bit(input[0].AcquireMsg?) + Asks(input[1..])
  }

  lemma {:induction false} AsksPush(input: seq<Message>, m: Message)
    ensures Asks(input + [m]) == Asks(input) + Bit(m.AcquireMsg?)
    decreases |input|
  {
    if input == [] {
      assert input + [m] == [m] && [m][1..] == [];
    } else {
      assert (input + [m])[1..] == input[1..] + [m] && (input + [m])[0] == input[0];
      AsksPush(input[1..], m);
    }
  }

  predicate Taken(slot: Slot) {
    slot.state == Wait || slot.state == Run
  }

  predicate PlacedSlot(slot: Slot, pool: nat, held: nat) {
    pool + held + Asks(slot.input) + Bit(Taken(slot)) == 1
  }

  predicate PlacedAt(c: Config, i: nat)
    requires Sized(c) && i < |c.s.sources|
  {
    PlacedSlot(c.s.sources[i], multiset(c.s.freeSources)[i], c.held[i])
  }

  predicate Placed(c: Config) {
    Sized(c) && forall i :: 0 <= i < |c.s.sources| ==> PlacedAt(c, i)
  }

  /** This step reads a Release on a slot that neither waits nor runs: the guard of broker.go:284
      lets it through and the slot joins the pool once more. */
  predicate StaleRelease(c: Config, a: Action) {
    a.BrokerStep? && c.pc.AtSources? && c.pc.k < |c.s.sources| && StaleSlot(c.s.sources[c.pc.k])
  }

  predicate StaleSlot(slot: Slot) {
    slot.input != [] && slot.input[0].ReleaseMsg? && !Taken(slot)
  }

  // ------------------------------------------------------------------ steps

  lemma PlacedSame(c: Config, d: Config)
    requires Placed(c) && Sized(d) && |d.s.sources| == |c.s.sources|
    requires d.s.freeSources == c.s.freeSources && d.held == c.held
    requires forall i :: 0 <= i < |c.s.sources| ==>
               Asks(d.s.sources[i].input) == Asks(c.s.sources[i].input) && Taken(d.s.sources[i]) == Taken(c.s.sources[i])
    ensures Placed(d)
  {
    forall i | 0 <= i < |d.s.sources|
      ensures PlacedAt(d, i)
    {
      assert PlacedAt(c, i);
    }
  }

  /** What reading one message does to its slot's place. */
  lemma ReadSourcePlace(s: State, k: nat, now: int, held: nat)
    requires k < |s.sources| && PlacedSlot(s.sources[k], multiset(s.freeSources)[k], held)
    ensures var r := ReadSource(s, k, now);
            && |r.sources| == |s.sources| && |r.targets| == |s.targets|
            && (PlacedSlot(r.sources[k], multiset(r.freeSources)[k], held) <==> !StaleSlot(s.sources[k]))
            && (r.freeSources == s.freeSources || r.freeSources == s.freeSources + [k])
            && forall h :: 0 <= h < |s.sources| && h != k ==> r.sources[h] == s.sources[h]
  {
    PoolPush(s.freeSources, k, k);
  }

  lemma PlacedReadSource(c: Config, d: Config, a: Action)
    requires Placed(c) && Sized(d) && a.BrokerStep? && c.pc.AtSources? && c.pc.k < |c.s.sources|
    requires d == c.(s := ReadSource(c.s, c.pc.k, c.now), pc := d.pc)
    ensures Placed(d) <==> !StaleRelease(c, a)
  {
    var k := c.pc.k;
    assert PlacedAt(c, k);
    ReadSourcePlace(c.s, k, c.now, c.held[k]);
    forall h | 0 <= h < |d.s.sources| && h != k
      ensures PlacedAt(d, h)
    {
      assert PlacedAt(c, h);
      PoolPush(c.s.freeSources, k, h);
    }
    assert PlacedAt(d, k) <==> !StaleSlot(c.s.sources[k]);
  }

  lemma FailedIsPlaced(slot: Slot, text: string, pool: nat, held: nat)
    requires PlacedSlot(slot, pool, held) && slot.state == Wait
    ensures PlacedSlot(Failed(slot, text), pool + 1, held)
  {
  }

  lemma PlacedReadTarget(c: Config, d: Config, k: nat)
    requires Placed(c) && k < |c.s.targets| && Sized(d)
    requires d == c.(s := ReadTarget(c.s, k, c.now), pc := d.pc)
    ensures Placed(d)
  {
    var t := c.s.targets[k];
    if t.input != [] && t.input[0].ErrorMsg? {
      var p := WithTarget(c.s, k, t.(input := t.input[1..]));
      PlacedFailWaiters(c, d, p, t.slotType, t.input[0].text);
    } else {
      PlacedSame(c, d);
    }
  }

  lemma PlacedFailWaiters(c: Config, d: Config, p: State, t: string, text: string)
    requires Placed(c) && Sized(d) && d.held == c.held && p.sources == c.s.sources && p.freeSources == c.s.freeSources
    requires d.s.sources == FailWaiters(p, t, text, |p.sources|).sources
    requires d.s.freeSources == FailWaiters(p, t, text, |p.sources|).freeSources
    ensures Placed(d)
  {
    FailWaitersEffect(p, t, text, |p.sources|);
    forall i | 0 <= i < |d.s.sources|
      ensures PlacedAt(d, i)
    {
      assert PlacedAt(c, i);
      FailWaitersPool(p, t, text, |p.sources|, i);
      if WaitsFor(c.s.sources[i], t) {
        FailedIsPlaced(c.s.sources[i], text, multiset(c.s.freeSources)[i], c.held[i]);
      }
    }
  }

  lemma PlacedMatch(c: Config, d: Config, k: nat)
    requires Placed(c) && k < |c.s.sources| && Sized(d)
    requires d == c.(s := MatchSource(c.s, k, c.now), pc := d.pc)
    ensures Placed(d)
  {
    if c.s.sources[k].state == Wait {
      MatchServes(c.s, k, c.now, |c.s.targets|);
      MatchTouches(c.s, k, c.now, |c.s.targets|);
      PlacedSame(c, d);
    } else {
      PlacedSame(c, d);
    }
  }

  lemma PlacedStart(c: Config, d: Config, j: nat, i: nat, backLink: bool)
    requires Placed(c) && i < |c.s.sources| && j < |c.s.targets| && c.s.sources[i].state == Wait && Sized(d)
    requires d == c.(s := StartTarget(c.s, j, i, backLink, c.now), pc := d.pc)
    ensures Placed(d)
  {
    StartEffect(c.s, j, i, backLink, c.now);
    forall h | 0 <= h < |d.s.sources|
      ensures PlacedAt(d, h)
    {
      assert PlacedAt(c, h);
      PoolPush(c.s.freeSources, i, h);
    }
  }

  lemma PlacedGetSlot(cfg: Settings, c: Config)
    requires Placed(c) && Enabled(c, GetSlot)
    ensures Placed(Next(cfg, c, GetSlot))
  {
    var d := Next(cfg, c, GetSlot);
    assert c.s.freeSources == [c.s.freeSources[0]] + c.s.freeSources[1..];
    forall h | 0 <= h < |d.s.sources|
      ensures PlacedAt(d, h)
    {
      assert PlacedAt(c, h);
    }
  }

  lemma PlacedClients(cfg: Settings, c: Config, a: Action)
    requires Placed(c) && Enabled(c, a) && Polite(a) && !a.BrokerStep? && !a.GetSlot?
    ensures Placed(Next(cfg, c, a))
  {
    var d := Next(cfg, c, a);
    SizedStep(cfg, c, a);
    forall h | 0 <= h < |d.s.sources|
      ensures PlacedAt(d, h)
    {
      assert PlacedAt(c, h);
      if a.SendAcquire? { AsksPush(c.s.sources[a.i].input, AcquireMsg(a.slotType, a.info)); }
      if a.SendRelease? { AsksPush(c.s.sources[a.i].input, ReleaseMsg(false)); }
    }
  }

  /** One step of the broker or of a client that follows the protocol keeps every slot in one place
      exactly when it does not read a Release on a slot that neither waits nor runs. */
  lemma PlacedStep(cfg: Settings, c: Config, a: Action)
    requires Placed(c) && Enabled(c, a) && Polite(a)
    ensures Placed(Next(cfg, c, a)) <==> !StaleRelease(c, a)
  {
    var d := Next(cfg, c, a);
    SizedStep(cfg, c, a);
    if a.GetSlot? {
      PlacedGetSlot(cfg, c);
    } else if !a.BrokerStep? {
      PlacedClients(cfg, c, a);
    } else {
      match c.pc
      case AtSources(k) => if k < |c.s.sources| { PlacedReadSource(c, d, a); } else { PlacedSame(c, d); }
      case AtTargets(k) => if k < |c.s.targets| { PlacedReadTarget(c, d, k); } else { PlacedSame(c, d); }
      case AtMatch(k) => if k < |c.s.sources| { PlacedMatch(c, d, k); } else { PlacedSame(c, d); }
      case AtStartNew =>
        if CanStartNew(c.s) {
          PlacedStart(c, d, OldestFree(c.s, |c.s.targets|).value, StartSource(c.s, a.pick), true);
        } else { PlacedSame(c, d); }
      case AtStartCopies =>
        if CanStartCopy(c.s, c.now, cfg) {
          PlacedStart(c, d, OldestRunner(c.s, c.now, |c.s.targets|).value, OldestWaiter(c.s, c.now, |c.s.sources|).value, false);
        } else { PlacedSame(c, d); }
      case AtFreeY(k) => PlacedSame(c, d);
      case AtSweep(k) => PlacedSame(c, d);
    }
  }

  // ------------------------------------------------------------------ runs

  lemma ConservedIsPlaced(c: Config)
    requires Conserved(c)
    ensures Placed(c)
  {
    forall i | 0 <= i < |c.s.sources|
      ensures PlacedAt(c, i)
    {
      assert ConservedAt(c, i);
    }
  }

  lemma {:induction false} PlacedAtStep(cfg: Settings, run: seq<Config>, acts: seq<Action>, k: nat)
    requires IsRun(cfg, run, acts) && k < |run|
    requires forall h :: 0 <= h < k ==> Polite(acts[h]) && !StaleRelease(run[h], acts[h])
    ensures Placed(run[k])
  {
    if k == 0 {
      ConservedInit(run[0]);
      ConservedIsPlaced(run[0]);
    } else {
      PlacedAtStep(cfg, run, acts, k - 1);
      assert Follows(cfg, run, acts, k - 1);
      PlacedStep(cfg, run[k - 1], acts[k - 1]);
    }
  }

  /** With clients that follow the protocol every source slot is in exactly one place throughout a
      run exactly when the broker never reads a Release on a slot that neither waits nor runs. */
  lemma PlacedIff(cfg: Settings, run: seq<Config>, acts: seq<Action>)
    requires IsRun(cfg, run, acts) && forall k :: 0 <= k < |acts| ==> Polite(acts[k])
    ensures (forall k :: 0 <= k < |run| ==> Placed(run[k]))
       <==> (forall k :: 0 <= k < |acts| ==> !StaleRelease(run[k], acts[k]))
  {
    if forall k :: 0 <= k < |acts| ==> !StaleRelease(run[k], acts[k]) {
      forall k | 0 <= k < |run|
        ensures Placed(run[k])
      {
        PlacedAtStep(cfg, run, acts, k);
      }
    } else {
      var k :| 0 <= k < |acts| && StaleRelease(run[k], acts[k]);
      assert Follows(cfg, run, acts, k);
      if Placed(run[k]) {
        PlacedStep(cfg, run[k], acts[k]);
        assert !Placed(run[k + 1]);
      }
    }
  }

  /** Slots in one place each are in the pool at most once, so the channel made for all of them is
      never full when a slot is sent back. */
  lemma PoolNeverOverflows(c: Config)
    requires Shape(c.s) && Placed(c)
    ensures forall a, b :: 0 <= a < b < |c.s.freeSources| ==> c.s.freeSources[a] != c.s.freeSources[b]
    ensures |c.s.freeSources| <= |c.s.sources|
  {
    var q := c.s.freeSources;
    forall a, b | 0 <= a < b < |q|
      ensures q[a] != q[b]
    {
      assert PlacedAt(c, q[a]);
      CountsBoth(q, a, b);
    }
    Pigeonhole(q, |c.s.sources|);
  }

  /** In a run in which no waiter meets two targets no Release is stale, and the pool is sound. */
  lemma OneHitKeepsPool(cfg: Settings, run: seq<Config>, acts: seq<Action>, k: nat)
    requires IsRun(cfg, run, acts) && k < |run|
    requires forall h :: 0 <= h < |acts| ==> Polite(acts[h]) && OneHit(run[h], acts[h])
    ensures Placed(run[k]) && |run[k].s.freeSources| <= |run[k].s.sources|
    ensures k < |acts| ==> !StaleRelease(run[k], acts[k])
  {
    forall h | 0 <= h < |run|
      ensures Placed(run[h])
    {
      ConservedAtStep(cfg, run, acts, h);
      ConservedIsPlaced(run[h]);
    }
    PlacedIff(cfg, run, acts);
    AlwaysAt(cfg, run, acts, k);
    PoolNeverOverflows(run[k]);
  }
}
