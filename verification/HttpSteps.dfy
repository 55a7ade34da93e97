/** The steps of the reader of http-resolver.go on values: what a call does to the reader's buffers,
    its source and what callers were given, and why the bytes always add up. */
module HttpSteps {
  import opened Wrappers
  import opened Text
  import opened HttpFraming
  import opened HttpParser
  import opened Streams

  /** The reader and its source at one moment: what is left of the message, the two buffers, how much
      of the input was parsed in vain, the bytes still in the source, the bytes callers were given and
      the number of heads parsed. */
  datatype View = View(
    mode: Mode,
    input: string,
    output: string,
    parsed: nat,
    unread: string,
    delivered: string,
    heads: nat)

  /** What is before the reader: the buffered bytes, then those still in the source. */
  function Ahead(v: View): string {
    v.input + v.unread
  }

  /** There is nothing to parse, or what there is has been parsed before. */
  predicate Hungry(v: View) {
    v.input == "" || v.parsed == |v.input|
  }

  /** The buffered bytes are an incomplete head or chunk line, and were found to be so. */
  predicate Stalled(g: Rules, v: View) {
    v.input != "" && v.parsed == |v.input|
    && ((v.mode.AtHead? && g.head(v.input).HeadMore?) || (v.mode.ChunkHead? && g.chunk(v.input).NeedMore?))
  }

  /** The bytes put out so far and the bytes ahead account for every byte of the stream. */
  ghost predicate Accounts(g: Rules, v: View) {
    Proper(v.mode) && g.live(v.heads, v.delivered + v.output, v.mode, Ahead(v))
  }

  ghost predicate Good(g: Rules, v: View) {
    Accounts(g, v) && (v.parsed > 0 ==> Stalled(g, v))
  }

  /** Nothing of the messages so far is held back. */
  predicate Settled(v: View) {
    v.mode.AtHead? ==> v.output == ""
  }

  // ------------------------------------------------------------------ giving bytes

  /** The first n bytes of the output go to the caller. */
  function GiveOutput(v: View, n: nat): View
    requires n <= |v.output|
  {
    v.(output := v.output[n..], delivered := v.delivered + v.output[..n])
  }

  lemma GiveOutputKeeps(g: Rules, v: View, n: nat)
    requires n <= |v.output|
    ensures Accounts(g, v) ==> Accounts(g, GiveOutput(v, n))
    ensures Good(g, v) ==> Good(g, GiveOutput(v, n))
  {
    Regroup(v.delivered, v.output[..n], v.output[n..]);
    Whole(v.output, n);
  }

  /** How many bytes one read can pass on: it takes them from the input, or from the source when the
      input is empty. */
  function Within(v: View): nat {
    if v.input != "" then |v.input| else |v.unread|
  }

  /** The next n bytes pass to the caller as they are. */
  function PassOn(v: View, n: nat): View
    requires n <= Within(v)
  {
    var w := v.(delivered := v.delivered + Ahead(v)[..n]);
    if v.input != "" then w.(input := v.input[n..]) else w.(unread := v.unread[n..])
  }

  lemma PassOnAhead(v: View, n: nat)
    requires n <= Within(v)
    ensures n <= |Ahead(v)| && Ahead(PassOn(v, n)) == Ahead(v)[n..]
    ensures v.input != "" ==> Ahead(v)[..n] == v.input[..n]
    ensures v.input == "" ==> Ahead(v)[..n] == v.unread[..n]
  {
    if v.input != "" {
      Cut(v.input, v.unread, n);
    } else {
      NothingAfter(v.unread);
      NothingAfter(v.unread[n..]);
    }
  }

  /** Bytes pass on, and something else of the message is left. */
  lemma PassOnKeeps(g: Rules, v: View, n: nat, next: Mode)
    requires Good(g, v) && v.output == "" && v.parsed == 0 && n <= Within(v)
    requires Proper(next) && g.live(v.heads, v.delivered + Ahead(v)[..n], next, Ahead(v)[n..])
    ensures Good(g, PassOn(v, n).(mode := next))
  {
    PassOnAhead(v, n);
    NothingAfter(PassOn(v, n).delivered);
  }

  lemma OnlyStalledIsParsed(g: Rules, v: View)
    requires Good(g, v) && !v.mode.AtHead? && !v.mode.ChunkHead?
    ensures v.parsed == 0
  {
  }

  function TakeSized(v: View, n: nat): View
    requires v.mode.Sized? && n <= v.mode.n && n <= Within(v)
  {
    PassOn(v, n).(mode := SizedMode(v.mode.n - n))
  }

  lemma TakeSizedKeeps(g: Rules, rw: Rewriter, stream: string, v: View, n: nat)
    requires Wired(g, rw, stream) && Good(g, v) && v.output == ""
    requires v.mode.Sized? && n <= v.mode.n && n <= Within(v)
    ensures Good(g, TakeSized(v, n))
  {
    OnlyStalledIsParsed(g, v);
    PassOnAhead(v, n);
    NothingAfter(v.delivered);
    SizedByRules(g, rw, stream, v.heads, v.delivered, v.mode.n, Ahead(v), n);
    PassOnKeeps(g, v, n, SizedMode(v.mode.n - n));
  }

  function TakeChunk(v: View, n: nat): View
    requires v.mode.Chunk? && n <= v.mode.n && n <= Within(v)
  {
    PassOn(v, n).(mode := AfterChunk(v.mode.n - n, v.mode.final))
  }

  lemma TakeChunkKeeps(g: Rules, rw: Rewriter, stream: string, v: View, n: nat)
    requires Wired(g, rw, stream) && Good(g, v) && v.output == ""
    requires v.mode.Chunk? && 0 < v.mode.n && n <= v.mode.n && n <= Within(v)
    ensures Good(g, TakeChunk(v, n))
  {
    OnlyStalledIsParsed(g, v);
    PassOnAhead(v, n);
    NothingAfter(v.delivered);
    ChunkByRules(g, rw, stream, v.heads, v.delivered, v.mode.n, v.mode.final, Ahead(v), n);
    PassOnKeeps(g, v, n, AfterChunk(v.mode.n - n, v.mode.final));
  }

  lemma TakeVerbatimKeeps(g: Rules, rw: Rewriter, stream: string, v: View, n: nat)
    requires Wired(g, rw, stream) && Good(g, v) && v.output == "" && v.mode.Verbatim? && n <= Within(v)
    ensures Good(g, PassOn(v, n))
  {
    OnlyStalledIsParsed(g, v);
    PassOnAhead(v, n);
    NothingAfter(v.delivered);
    VerbatimByRules(g, rw, stream, v.heads, v.delivered, Ahead(v), n);
    PassOnKeeps(g, v, n, Verbatim);
  }

  // ------------------------------------------------------------------ taking bytes

  /** n bytes move from the source to the input. */
  function Refill(v: View, n: nat): View
    requires n <= |v.unread|
  {
    v.(input := v.input + v.unread[..n], unread := v.unread[n..])
  }

  lemma RefillKeeps(g: Rules, v: View, n: nat)
    requires n <= |v.unread|
    ensures Ahead(Refill(v, n)) == Ahead(v) && (Accounts(g, v) ==> Accounts(g, Refill(v, n)))
    ensures n == 0 ==> Refill(v, n) == v
  {
    Whole(v.unread, n);
    Regroup(v.input, v.unread[..n], v.unread[n..]);
    NothingAfter(v.input);
  }

  /** The parse attempt is remembered. */
  function Waits(v: View): View {
    v.(parsed := |v.input|)
  }

  lemma WaitsKeeps(g: Rules, v: View)
    requires Accounts(g, v) && v.input != ""
    requires (v.mode.AtHead? && g.head(v.input).HeadMore?) || (v.mode.ChunkHead? && g.chunk(v.input).NeedMore?)
    ensures Good(g, Waits(v)) && Stalled(g, Waits(v))
  {
  }

  // ------------------------------------------------------------------ heads

  /** The head leaves the input, its text joins the output. */
  function TakeHead(g: Rules, v: View): View
    requires g.head(v.input).HeadDone? && g.head(v.input).size <= |v.input|
  {
    var r := g.head(v.input);
    v.(mode := r.mode, input := v.input[r.size..], output := v.output + r.text, parsed := 0, heads := v.heads + 1)
  }

  lemma TakeHeadKeeps(g: Rules, rw: Rewriter, stream: string, v: View)
    requires Wired(g, rw, stream) && Accounts(g, v) && v.mode.AtHead? && g.head(v.input).HeadDone?
    ensures 4 <= g.head(v.input).size <= |v.input| && g.head(v.input).text != ""
    ensures Good(g, TakeHead(g, v))
  {
    ProperByRules(g, rw, stream, v.input);
    HeadByRules(g, rw, stream, v.heads, v.delivered + v.output, v.input, v.unread);
    Regroup(v.delivered, v.output, g.head(v.input).text);
  }

  /** After a 101 what is left of the input joins the output. */
  function Upgrade(v: View): View {
    v.(input := "", output := v.output + v.input)
  }

  lemma UpgradeKeeps(g: Rules, rw: Rewriter, stream: string, v: View)
    requires Wired(g, rw, stream) && Good(g, v) && v.mode.Verbatim?
    ensures Good(g, Upgrade(v))
  {
    OnlyStalledIsParsed(g, v);
    VerbatimByRules(g, rw, stream, v.heads, v.delivered + v.output, Ahead(v), |v.input|);
    Cut(v.input, v.unread, |v.input|);
    NothingAfter(v.unread);
    Regroup(v.delivered, v.output, v.input);
  }

  /** A head is taken, and after a 101 the input with it. */
  function TakeWholeHead(g: Rules, v: View): View
    requires g.head(v.input).HeadDone? && g.head(v.input).size <= |v.input|
  {
    var w := TakeHead(g, v);
    if w.mode.Verbatim? then Upgrade(w) else w
  }

  lemma TakeWholeHeadKeeps(g: Rules, rw: Rewriter, stream: string, v: View)
    requires Wired(g, rw, stream) && Accounts(g, v) && v.mode.AtHead? && g.head(v.input).HeadDone?
    ensures 4 <= g.head(v.input).size <= |v.input|
    ensures Good(g, TakeWholeHead(g, v)) && TakeWholeHead(g, v).output != ""
  {
    TakeHeadKeeps(g, rw, stream, v);
    var w := TakeHead(g, v);
    if w.mode.Verbatim? {
      UpgradeKeeps(g, rw, stream, w);
    }
  }

  lemma TakeWholeHeadHasText(g: Rules, rw: Rewriter, stream: string, v: View)
    requires Wired(g, rw, stream) && Accounts(g, v) && v.mode.AtHead?
    ensures g.head(v.input).HeadDone? ==> g.head(v.input).size <= |v.input| && TakeWholeHead(g, v).output != ""
  {
    if g.head(v.input).HeadDone? {
      TakeWholeHeadKeeps(g, rw, stream, v);
    }
  }

  /** The empty input holds no head. */
  lemma NothingIsNoHead(g: Rules, rw: Rewriter, stream: string)
    requires Wired(g, rw, stream)
    ensures !g.head("").HeadDone?
  {
    OpenHead(g, rw, stream, "");
  }

  /** There is no head where there is nothing new to parse. */
  lemma HungryHasNoHead(g: Rules, rw: Rewriter, stream: string, v: View)
    requires Wired(g, rw, stream) && Good(g, v) && v.mode.AtHead?
    ensures Hungry(v) ==> !g.head(v.input).HeadDone?
  {
    NothingIsNoHead(g, rw, stream);
  }

  /** A parse attempt between messages, from v to w: with a whole head in the input, all that is held
      and then the head's text go to the caller as far as there is room; otherwise nothing moves. */
  ghost predicate HeadStep(g: Rules, v: View, w: View, room: nat, n: nat) {
    if g.head(v.input).HeadDone? then
      && g.head(v.input).size <= |v.input|
      && var t := TakeWholeHead(g, v);
         n == Min(room, |t.output|) && w == GiveOutput(t, n)
    else
      n == 0 && w == Waits(v)
  }

  /** A call between messages that does not fail: taken bytes come from the source, and if there is
      anything new to parse it is parsed. */
  ghost predicate HeadCall(g: Rules, v: View, w: View, room: nat, n: nat, taken: nat) {
    && taken <= |v.unread|
    && if Hungry(v) && taken == 0 then n == 0 && w == v else HeadStep(g, Refill(v, taken), w, room, n)
  }

  /** A message is delivered whole if its rewritten head fits the room, or if it has a body. */
  ghost predicate MessageFits(g: Rules, ahead: string, room: nat) {
    g.head(ahead).HeadDone? && (|g.head(ahead).text| <= room || !g.head(ahead).mode.AtHead?)
  }

  /** The head of the buffered bytes is the head of all that is ahead. */
  lemma HeadIsAhead(g: Rules, rw: Rewriter, stream: string, input: string, unread: string)
    requires Wired(g, rw, stream) && g.head(input).HeadDone?
    ensures g.head(input + unread) == g.head(input)
  {
    OpenHead(g, rw, stream, input);
    OpenHead(g, rw, stream, input + unread);
    RewriteHeadExtends(rw, input, unread);
  }

  /** With nothing held before, a whole head leaves nothing held exactly when it fits the room. */
  lemma HeadStepEffect(g: Rules, rw: Rewriter, stream: string, v: View, w: View, room: nat, n: nat)
    requires Wired(g, rw, stream) && Accounts(g, v) && v.mode.AtHead? && v.output == ""
    requires HeadStep(g, v, w, room, n) && g.head(v.input).HeadDone?
    ensures w.heads == v.heads + 1 && g.head(Ahead(v)) == g.head(v.input) && w.mode == g.head(v.input).mode
    ensures w.mode.AtHead? ==> (w.output == "" <==> |g.head(v.input).text| <= room)
    ensures MessageFits(g, Ahead(v), room) <==> !w.mode.AtHead? || w.output == ""
  {
    HeadIsAhead(g, rw, stream, v.input, v.unread);
    NothingAfter(g.head(v.input).text);
  }

  lemma HeadCallEffect(g: Rules, rw: Rewriter, stream: string, v: View, w: View, room: nat, n: nat, taken: nat)
    requires Wired(g, rw, stream) && Good(g, v) && v.mode.AtHead? && v.output == ""
    requires HeadCall(g, v, w, room, n, taken)
    ensures w.heads == v.heads ==> n == 0 && w.mode.AtHead? && w.output == "" && Ahead(w) == Ahead(v)
    ensures w.heads == v.heads || w.heads == v.heads + 1
    ensures w.heads == v.heads + 1 ==> (MessageFits(g, Ahead(v), room) <==> !w.mode.AtHead? || w.output == "") && (room > 0 ==> n > 0)
  {
    RefillKeeps(g, v, taken);
    TakeWholeHeadHasText(g, rw, stream, Refill(v, taken));
    var u := Refill(v, taken);
    if !(Hungry(v) && taken == 0) && g.head(u.input).HeadDone? {
      HeadStepEffect(g, rw, stream, u, w, room, n);
    }
  }

  // ------------------------------------------------------------------ chunk lines

  /** A chunk line moves from the input to the output; its data are next. */
  function TakeChunkLine(v: View, size: int, offset: nat): View
    requires offset <= |v.input|
  {
    v.(mode := ChunkMode(Wrap64(size + 2), size == 0), input := v.input[offset..], output := v.output + v.input[..offset], parsed := 0)
  }

  lemma TakeChunkLineKeeps(g: Rules, rw: Rewriter, stream: string, v: View, size: int, offset: nat)
    requires Wired(g, rw, stream) && Accounts(g, v) && v.mode.ChunkHead? && g.chunk(v.input) == Done((size, offset))
    ensures 0 < offset <= |v.input|
    ensures Good(g, TakeChunkLine(v, size, offset)) && TakeChunkLine(v, size, offset).output != ""
  {
    ChunkLineByRules(g, rw, stream, v.heads, v.delivered + v.output, v.input, v.unread, size, offset);
    Regroup(v.delivered, v.output, v.input[..offset]);
  }

  /** The last chunk's line and line break go from the input straight to the caller. */
  function TakeLastChunk(v: View, offset: nat): View
    requires offset + 2 <= |v.input|
  {
    v.(mode := AtHead, input := v.input[offset + 2..], delivered := v.delivered + v.input[..offset + 2], parsed := 0)
  }

  lemma TakeLastChunkKeeps(g: Rules, rw: Rewriter, stream: string, v: View, offset: nat)
    requires Wired(g, rw, stream) && Accounts(g, v) && v.mode.ChunkHead? && v.output == ""
    requires g.chunk(v.input) == Done((0, offset)) && offset + 2 <= |v.input|
    ensures Good(g, TakeLastChunk(v, offset))
  {
    NothingAfter(v.delivered);
    NothingAfter(v.delivered + v.input[..offset + 2]);
    LastChunkByRules(g, rw, stream, v.heads, v.delivered, v.input, v.unread, offset);
  }

  // ------------------------------------------------------------------ what has been delivered

  lemma PrefixOfPrefix(whole: string, a: string, b: string)
    requires HasPrefix(whole, a + b)
    ensures HasPrefix(whole, a)
  {
    assert whole[..|a|] == whole[..|a + b|][..|a|];
  }

  /** What callers were given is a prefix of the rewrite of the whole stream. */
  lemma AccountsIsSafe(g: Rules, rw: Rewriter, stream: string, v: View)
    requires Wired(g, rw, stream) && Accounts(g, v)
    ensures HasPrefix(Batch(rw, stream), v.delivered) && g.whole == Batch(rw, stream)
  {
    SafeByRules(g, rw, stream, v.heads, v.delivered + v.output, v.mode, Ahead(v));
    PrefixOfPrefix(g.whole, v.delivered, v.output);
  }

  /** Between messages, with nothing held back, callers were given exactly the messages whose heads
      were parsed. */
  lemma SettledIsExact(g: Rules, rw: Rewriter, stream: string, v: View)
    requires Wired(g, rw, stream) && Accounts(g, v) && v.mode.AtHead? && v.output == ""
    ensures Messages(rw, stream, v.heads) == Outcome(v.delivered, Ahead(v), true)
  {
    NothingAfter(v.delivered);
    ExactByRules(g, rw, stream, v.heads, v.delivered, Ahead(v));
  }

  lemma SamePrefix(d: string, a: string, b: string)
    requires d + a == d + b
    ensures a == b
  {
    assert (d + a)[|d|..] == a && (d + b)[|d|..] == b;
  }

  /** Between two moments at which nothing is held, exactly one message was delivered. */
  lemma OneMessageBetween(g: Rules, rw: Rewriter, stream: string, v: View, w: View, got: string)
    requires Wired(g, rw, stream) && Accounts(g, v) && v.mode.AtHead? && v.output == ""
    requires Accounts(g, w) && w.mode.AtHead? && w.output == ""
    requires w.heads == v.heads + 1 && w.delivered == v.delivered + got
    ensures OneMessage(rw, Ahead(v)) == Outcome(got, Ahead(w), true)
  {
    SettledIsExact(g, rw, stream, v);
    SettledIsExact(g, rw, stream, w);
    MessagesStep(rw, stream, v.heads, v.delivered, Ahead(v));
    SamePrefix(v.delivered, got, OneMessage(rw, Ahead(v)).out);
  }

  lemma FirstMessageIsExact(g: Rules, rw: Rewriter, stream: string, v: View, message: string, tail: string)
    requires Wired(g, rw, stream) && Accounts(g, v) && v.mode.AtHead? && v.output == "" && v.heads == 1
    requires OneMessage(rw, stream) == Outcome(message, tail, true)
    ensures v.delivered == message && Ahead(v) == tail
  {
    SettledIsExact(g, rw, stream, v);
    assert Messages(rw, stream, 0) == Outcome("", stream, true);
    MessagesStep(rw, stream, 0, "", stream);
    NothingAfter(message);
  }

  /** One message with a body of its framing, sized or chunked: exactly its rewritten head and its
      body, whatever the reads and the buffers were. */
  lemma MessageIsExact(g: Rules, rw: Rewriter, stream: string, v: View, head: string, body: string, tail: string)
    requires Wired(g, rw, stream) && Accounts(g, v) && v.mode.AtHead? && v.output == "" && v.heads == 1
    requires stream == head + (body + tail)
    requires RewriteHead(rw, head).HeadDone? && RewriteHead(rw, head).size == |head|
    requires BodyOf(Some(RewriteHead(rw, head).mode), body)
    ensures v.delivered == RewriteHead(rw, head).text + body && Ahead(v) == tail
  {
    var r := RewriteHead(rw, head);
    BodyFinishes(Some(r.mode), body, tail);
    MessageCompletes(rw, head, body, tail, r.mode);
    FirstMessageIsExact(g, rw, stream, v, r.text + body, tail);
  }

  /** Output is held between messages only after a head was parsed. */
  lemma HeldMeansParsed(g: Rules, rw: Rewriter, stream: string, v: View)
    requires Wired(g, rw, stream) && Accounts(g, v) && v.mode.AtHead? && v.output != ""
    ensures v.heads > 0
  {
    ExactByRules(g, rw, stream, v.heads, v.delivered + v.output, Ahead(v));
    assert Messages(rw, stream, 0) == Outcome("", stream, true);
    assert |v.delivered + v.output| > 0;
  }

  /** Nothing is withheld: once the source is empty, the output drained and the rest of the input
      found incomplete, callers were given the whole rewrite of the stream. */
  lemma CaughtUpIsWhole(g: Rules, rw: Rewriter, stream: string, v: View)
    requires Wired(g, rw, stream) && Good(g, v) && v.output == "" && v.unread == "" && Hungry(v)
    ensures v.delivered == Batch(rw, stream)
  {
    NothingAfter(v.delivered);
    NothingAfter(v.input);
    assert Live(rw, stream, v.heads, v.delivered, v.mode, v.input);
    NothingMore(g, rw, stream, v);
    MessagesInBatch(rw, stream, v.heads);
  }

  lemma NothingMore(g: Rules, rw: Rewriter, stream: string, v: View)
    requires Wired(g, rw, stream) && Good(g, v) && Hungry(v)
    ensures var o := Finish(v.mode, v.input);
            o.out == "" && (o.complete ==> o.rest == v.input && v.mode.AtHead?)
    ensures v.mode.AtHead? ==> Batch(rw, v.input) == ""
  {
    assert v.mode.ChunkHead? ==> g.chunk(v.input) == ParseHTTPChunkHead(v.input);
    if v.mode.AtHead? {
      NoMessageIn(g, rw, stream, v.input);
    }
  }

  lemma NoMessageIn(g: Rules, rw: Rewriter, stream: string, input: string)
    requires Wired(g, rw, stream) && (input == "" || g.head(input).HeadMore?)
    ensures Batch(rw, input) == ""
  {
    assert g.head(input) == RewriteHead(rw, input);
    if input == "" {
      assert Index("", CRLF) == None;
    }
    MessageConsumes(rw);
    assert MessageOf(rw)(input) == OneMessage(rw, input);
  }
}
