/** Source slots are neither lost nor duplicated while clients follow the get, acquire, read,
    release protocol and no waiter is linked twice. */
module BrokerConservation {
  import opened Wrappers
  import opened BrokerModel
  import opened BrokerProtocol
  import opened BrokerInvariants

  function Bit(b: bool): nat {
    if b then 1 else 0
  }

  /** How many Acquired replies are queued. */
  function Grants(output: seq<Message>): nat {
    if output == [] then 0
    else Grants(output[..|output| - 1]) + Bit(output[|output| - 1].AcquiredMsg?)
  }

  lemma GrantsPush(output: seq<Message>, m: Message)
    ensures Grants(output + [m]) == Grants(output) + Bit(m.AcquiredMsg?)
  {
    assert (output + [m])[..|output|] == output;
  }

  lemma {:induction false} GrantsPop(output: seq<Message>)
    requires output != []
    ensures Grants(output) == Bit(output[0].AcquiredMsg?) + Grants(output[1..])
  {
    if |output| > 1 {
      var n := |output| - 1;
      assert output[..n][1..] == output[1..][..n - 1] && output[..n][0] == output[0];
      GrantsPop(output[..n]);
    } else {
      assert output[..0] == [] && output[1..] == [];
    }
  }

  lemma {:induction false} GrantsOfReplies(s: State, output: seq<Message>, hits: seq<nat>)
    requires forall a :: 0 <= a < |hits| ==> hits[a] < |s.targets|
    ensures Grants(output + Replies(s, hits)) == Grants(output) + |hits|
  {
    if hits == [] {
      assert output + Replies(s, hits) == output;
    } else {
      var n := |hits| - 1;
      var last := AcquiredMsg(s.targets[hits[n]].refInfo);
      GrantsOfReplies(s, output, hits[..n]);
      assert output + Replies(s, hits) == (output + Replies(s, hits[..n])) + [last];
      GrantsPush(output + Replies(s, hits[..n]), last);
    }
  }

  predicate QueuedAcquire(slot: Slot) {
    |slot.input| == 1 && slot.input[0].AcquireMsg?
  }

  predicate QueuedRelease(slot: Slot) {
    |slot.input| == 1 && slot.input[0].ReleaseMsg?
  }

  /** The five places a source slot can be in add up to exactly one: in the pool, held, asking,
      waiting, running. */
  function Places(slot: Slot, pool: nat, held: nat): nat {
    pool + held + Bit(QueuedAcquire(slot)) + Bit(slot.state == Wait) + Bit(slot.state == Run)
  }

  predicate Balanced(slot: Slot, pool: nat, held: nat, reading: nat, using: nat) {
    && (slot.input == [] || QueuedAcquire(slot) || QueuedRelease(slot))
    && (forall a :: 0 <= a < |slot.output| ==> slot.output[a].AcquiredMsg? || slot.output[a].ErrorMsg?)
    && Places(slot, pool, held) == 1
    // the grant of a Run slot is queued, in the hands of one client, or on its way back
    && Grants(slot.output) + using + Bit(QueuedRelease(slot)) == Bit(slot.state == Run)
    // every queued reply, and every request still to be answered, has its own reader
    && reading == |slot.output| + Bit(QueuedAcquire(slot)) + Bit(slot.state == Wait)
  }

  predicate ConservedAt(c: Config, i: nat)
    requires Sized(c) && i < |c.s.sources|
  {
    Balanced(c.s.sources[i], multiset(c.s.freeSources)[i], c.held[i], c.reading[i], c.using[i])
  }

  predicate Conserved(c: Config) {
    Sized(c) && forall i :: 0 <= i < |c.s.sources| ==> ConservedAt(c, i)
  }

  predicate Polite(a: Action) {
    !a.AnySend? && !a.AnyRead?
  }

  /** The waiter visited by this step of the matching loop meets at most one target. */
  predicate OneHit(c: Config, a: Action) {
    a.BrokerStep? && c.pc.AtMatch? && c.pc.k < |c.s.sources| && c.s.sources[c.pc.k].state == Wait ==>
      |Hits(c.s, c.pc.k, |c.s.targets|)| <= 1
  }

  // ------------------------------------------------------------------ steps

  lemma ConservedClears(c: Config, d: Config)
    requires Conserved(c) && Sized(d)
    requires d.s.sources == c.s.sources && d.s.freeSources == c.s.freeSources
    requires d.held == c.held && d.reading == c.reading && d.using == c.using
    ensures Conserved(d)
  {
    forall h | 0 <= h < |d.s.sources|
      ensures ConservedAt(d, h)
    {
      assert ConservedAt(c, h);
    }
  }

  /** A slot that recycles leaves Run and joins the pool. */
  lemma BalancedReadSource(s: State, k: nat, now: int, held: nat, reading: nat, using: nat)
    requires k < |s.sources| && SourceOk(s.sources[k], |s.targets|)
    requires Balanced(s.sources[k], multiset(s.freeSources)[k], held, reading, using)
    ensures var r := ReadSource(s, k, now);
            && |r.sources| == |s.sources| && |r.targets| == |s.targets|
            && Balanced(r.sources[k], multiset(r.freeSources)[k], held, reading, using)
            && forall h :: 0 <= h < |s.sources| && h != k ==>
                 r.sources[h] == s.sources[h] && multiset(r.freeSources)[h] == multiset(s.freeSources)[h]
  {
    var slot := s.sources[k];
    var r := ReadSource(s, k, now);
    if QueuedRelease(slot) {
      assert r.freeSources == s.freeSources + [k];
      assert r.sources[k] == slot.(input := [], state := Free);
    } else if QueuedAcquire(slot) {
      assert r.freeSources == s.freeSources;
    }
  }

  lemma ConservedReadSource(c: Config, d: Config, k: nat)
    requires Conserved(c) && Shape(c.s) && k < |c.s.sources| && Sized(d)
    requires d == c.(s := ReadSource(c.s, k, c.now), pc := d.pc)
    ensures Conserved(d)
  {
    assert SourceOk(c.s.sources[k], |c.s.targets|) && ConservedAt(c, k);
    BalancedReadSource(c.s, k, c.now, c.held[k], c.reading[k], c.using[k]);
    forall i | 0 <= i < |d.s.sources|
      ensures ConservedAt(d, i)
    {
      assert ConservedAt(c, i);
    }
  }

  lemma PoolPush(q: seq<nat>, k: nat, i: nat)
    ensures multiset(q + [k])[i] == multiset(q)[i] + Bit(i == k)
  {
  }

  lemma FailPool(s: State, i: nat, text: string, h: nat)
    requires i < |s.sources|
    ensures multiset(Fail(s, i, text).freeSources)[h] == multiset(s.freeSources)[h] + Bit(h == i)
  {
    PoolPush(s.freeSources, i, h);
  }

  lemma FailWaitersStep(s: State, t: string, text: string, k: nat, i: nat)
    requires 0 < k <= |s.sources|
    ensures multiset(FailWaiters(s, t, text, k).freeSources)[i]
         == multiset(FailWaiters(s, t, text, k - 1).freeSources)[i] + Bit(i == k - 1 && WaitsFor(s.sources[k - 1], t))
  {
    FailWaitersEffect(s, t, text, k - 1);
    FailPool(FailWaiters(s, t, text, k - 1), k - 1, text, i);
  }

  lemma {:induction false} FailWaitersPool(s: State, t: string, text: string, k: nat, i: nat)
    requires k <= |s.sources| && i < |s.sources|
    ensures multiset(FailWaiters(s, t, text, k).freeSources)[i]
         == multiset(s.freeSources)[i] + Bit(i < k && WaitsFor(s.sources[i], t))
  {
    if k == 0 {
      assert FailWaiters(s, t, text, k) == s;
    } else {
      FailWaitersPool(s, t, text, k - 1, i);
      FailWaitersStep(s, t, text, k, i);
    }
  }

  lemma ConservedFailWaiters(c: Config, s: State, t: string, text: string, i: nat)
    requires Conserved(c) && s.sources == c.s.sources && s.freeSources == c.s.freeSources && i < |s.sources|
    ensures var f := FailWaiters(s, t, text, |s.sources|);
            Balanced(f.sources[i], multiset(f.freeSources)[i], c.held[i], c.reading[i], c.using[i])
  {
    assert ConservedAt(c, i);
    FailWaitersPool(s, t, text, |s.sources|, i);
    FailWaitersEffect(s, t, text, |s.sources|);
    GrantsPush(s.sources[i].output, ErrorMsg(text));
  }

  lemma ConservedReadTarget(c: Config, d: Config, k: nat)
    requires Conserved(c) && k < |c.s.targets| && Sized(d)
    requires d == c.(s := ReadTarget(c.s, k, c.now), pc := d.pc)
    ensures Conserved(d)
  {
    var t := c.s.targets[k];
    if t.input != [] && t.input[0].ErrorMsg? {
      var p := WithTarget(c.s, k, t.(input := t.input[1..]));
      forall i | 0 <= i < |d.s.sources|
        ensures ConservedAt(d, i)
      {
        ConservedFailWaiters(c, p, t.slotType, t.input[0].text, i);
        var f := FailWaiters(p, t.slotType, t.input[0].text, |p.sources|);
        assert d.s.sources == f.sources && d.s.freeSources == f.freeSources;
      }
    } else {
      ConservedClears(c, d);
    }
  }

  lemma BalancedServed(s: State, k: nat, now: int, hits: seq<nat>, pool: nat, held: nat, reading: nat, using: nat)
    requires k < |s.sources| && s.sources[k].state == Wait && (forall a :: 0 <= a < |hits| ==> hits[a] < |s.targets|)
    requires Balanced(s.sources[k], pool, held, reading, using)
    ensures Balanced(Served(s, k, now, hits), pool, held, reading, using) <==> |hits| <= 1
  {
    GrantsOfReplies(s, s.sources[k].output, hits);
  }

  /** Matching keeps the count exactly when the waiter meets at most one target. */
  lemma ConservedMatchIff(c: Config, d: Config, a: Action)
    requires Conserved(c) && Sized(d) && a.BrokerStep? && c.pc.AtMatch? && c.pc.k < |c.s.sources|
    requires d == c.(s := MatchSource(c.s, c.pc.k, c.now), pc := d.pc)
    ensures Conserved(d) <==> OneHit(c, a)
  {
    var k := c.pc.k;
    if c.s.sources[k].state == Wait {
      var hits := Hits(c.s, k, |c.s.targets|);
      assert ConservedAt(c, k);
      BalancedServed(c.s, k, c.now, hits, multiset(c.s.freeSources)[k], c.held[k], c.reading[k], c.using[k]);
      MatchServes(c.s, k, c.now, |c.s.targets|);
      MatchTouches(c.s, k, c.now, |c.s.targets|);
      forall i | 0 <= i < |d.s.sources| && i != k
        ensures ConservedAt(d, i)
      {
        assert ConservedAt(c, i);
      }
      assert ConservedAt(d, k) <==> |hits| <= 1;
    } else {
      ConservedClears(c, d);
    }
  }

  /** A start links the waiter, and sends it back when its container listens on port 3. */
  lemma StartEffect(s: State, j: nat, i: nat, backLink: bool, now: int)
    requires i < |s.sources| && j < |s.targets|
    ensures var r := StartTarget(s, j, i, backLink, now);
            var linked := s.sources[i].(opposite := Some(j));
            && (forall h :: 0 <= h < |s.sources| && h != i ==> r.sources[h] == s.sources[h])
            && ((r.sources[i] == linked && r.freeSources == s.freeSources)
                || (r.sources[i] == Failed(linked, CLOSING_TEXT) && r.freeSources == s.freeSources + [i]))
  {
  }

  lemma BalancedFailed(slot: Slot, text: string, pool: nat, held: nat, reading: nat, using: nat)
    requires Balanced(slot, pool, held, reading, using) && slot.state == Wait
    ensures Balanced(Failed(slot, text), pool + 1, held, reading, using)
  {
    GrantsPush(slot.output, ErrorMsg(text));
  }

  lemma ConservedStart(c: Config, d: Config, j: nat, i: nat, backLink: bool)
    requires Conserved(c) && i < |c.s.sources| && j < |c.s.targets| && c.s.sources[i].state == Wait && Sized(d)
    requires d == c.(s := StartTarget(c.s, j, i, backLink, c.now), pc := d.pc)
    ensures Conserved(d)
  {
    StartEffect(c.s, j, i, backLink, c.now);
    forall h | 0 <= h < |d.s.sources|
      ensures ConservedAt(d, h)
    {
      assert ConservedAt(c, h);
      PoolPush(c.s.freeSources, i, h);
      if h == i {
        BalancedFailed(c.s.sources[i].(opposite := Some(j)), CLOSING_TEXT, multiset(c.s.freeSources)[i], c.held[i], c.reading[i], c.using[i]);
      }
    }
  }

  lemma ConservedClients(cfg: Settings, c: Config, a: Action)
    requires Conserved(c) && Enabled(c, a) && Polite(a) && !a.BrokerStep? && !a.GetSlot?
    ensures Conserved(Next(cfg, c, a))
  {
    var d := Next(cfg, c, a);
    SizedStep(cfg, c, a);
    forall h | 0 <= h < |d.s.sources|
      ensures ConservedAt(d, h)
    {
      assert ConservedAt(c, h);
      if a.ReadReply? { GrantsPop(c.s.sources[a.i].output); }
    }
  }

  lemma ConservedGetSlot(cfg: Settings, c: Config)
    requires Conserved(c) && Enabled(c, GetSlot)
    ensures Conserved(Next(cfg, c, GetSlot))
  {
    var d := Next(cfg, c, GetSlot);
    assert c.s.freeSources == [c.s.freeSources[0]] + c.s.freeSources[1..];
    forall h | 0 <= h < |d.s.sources|
      ensures ConservedAt(d, h)
    {
      assert ConservedAt(c, h);
    }
  }

  lemma ConservedStep(cfg: Settings, c: Config, a: Action)
    requires Shape(c.s) && Conserved(c) && Enabled(c, a) && Polite(a)
    ensures Conserved(Next(cfg, c, a)) <==> OneHit(c, a)
  {
    var d := Next(cfg, c, a);
    SizedStep(cfg, c, a);
    if a.GetSlot? {
      ConservedGetSlot(cfg, c);
    } else if !a.BrokerStep? {
      ConservedClients(cfg, c, a);
    } else {
      match c.pc
      case AtSources(k) => if k < |c.s.sources| { ConservedReadSource(c, d, k); } else { ConservedClears(c, d); }
      case AtTargets(k) => if k < |c.s.targets| { ConservedReadTarget(c, d, k); } else { ConservedClears(c, d); }
      case AtMatch(k) => if k < |c.s.sources| { ConservedMatchIff(c, d, a); } else { ConservedClears(c, d); }
      case AtStartNew =>
        if CanStartNew(c.s) {
          ConservedStart(c, d, OldestFree(c.s, |c.s.targets|).value, StartSource(c.s, a.pick), true);
        } else { ConservedClears(c, d); }
      case AtStartCopies =>
        if CanStartCopy(c.s, c.now, cfg) {
          ConservedStart(c, d, OldestRunner(c.s, c.now, |c.s.targets|).value, OldestWaiter(c.s, c.now, |c.s.sources|).value, false);
        } else { ConservedClears(c, d); }
      case AtFreeY(k) => ConservedClears(c, d);
      case AtSweep(k) => ConservedClears(c, d);
    }
  }

  // ------------------------------------------------------------------ consequences

  lemma {:induction false} Pigeonhole(q: seq<nat>, n: nat)
    requires forall a :: 0 <= a < |q| ==> q[a] < n
    requires forall a, b :: 0 <= a < b < |q| ==> q[a] != q[b]
    ensures |q| <= n
    decreases |q|
  {
    if |q| == 0 {
    } else {
      var last := q[|q| - 1];
      var rest: seq<nat> := seq(|q| - 1, a requires 0 <= a < |q| - 1 => if q[a] > last then q[a] - 1 else q[a]);
      forall a, b | 0 <= a < b < |rest|
        ensures rest[a] != rest[b]
      {
        assert q[a] != q[b] && q[a] != last && q[b] != last;
      }
      forall a | 0 <= a < |rest|
        ensures rest[a] < n - 1
      {
        assert q[a] != last;
      }
      Pigeonhole(rest, n - 1);
    }
  }

  lemma CountsBoth(q: seq<nat>, a: nat, b: nat)
    requires a < b < |q|
    ensures multiset(q)[q[a]] >= 1 + Bit(q[a] == q[b])
  {
    assert q == q[..b] + [q[b]] + q[b + 1..];
    assert q[..b] == q[..a] + [q[a]] + q[a + 1..b];
  }

  lemma ConservedInit(c: Config)
    requires Init(c)
    ensures Conserved(c)
  {
    forall i | 0 <= i < |c.s.sources|
      ensures ConservedAt(c, i)
    {
      IdentityCount(c.s.freeSources, i);
    }
  }

  lemma {:induction false} IdentityCount(q: seq<nat>, i: nat)
    requires forall k :: 0 <= k < |q| ==> q[k] == k
    ensures multiset(q)[i] == Bit(i < |q|)
  {
    if |q| == 0 {
    } else {
      IdentityCount(q[..|q| - 1], i);
      assert q == q[..|q| - 1] + [|q| - 1];
    }
  }
}
