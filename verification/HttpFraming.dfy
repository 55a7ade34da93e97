/** What the head rewriter of http-resolver.go makes of a whole stream: a recursive function on the
    bytes, message by message.  The framing of bodies follows section 6 and section 7.1 of RFC 9112
    as the code reads them. */
module HttpFraming {
  import opened Wrappers
  import opened Text
  import opened HttpHeaders
  import opened HttpParser

  /** The rewrite callback: an arbitrary pure function on parsed heads; None stands for an error. */
  datatype Rewriter =
    | OnRequest(request: Request -> Option<Request>)
    | OnResponse(response: Response -> Option<Response>)
    | NoRewriter

  /** What is left of the message at some point of the stream. */
  datatype Mode =
    | AtHead                           // nothing: a head is next
    | Sized(n: int)                    // n bytes of a body
    | ChunkHead                        // a chunk line
    | Chunk(n: int, final: bool)       // n bytes of a chunk, its line break included
    | Verbatim                         // everything

  /** Bytes put out, bytes not looked at, and whether the message came to its end. */
  datatype Outcome = Outcome(out: string, rest: string, complete: bool)

  function Prepend(text: string, o: Outcome): Outcome {
    o.(out := text + o.out)
  }

  // ------------------------------------------------------------------ heads

  datatype HeadResult = HeadMore | HeadError | HeadDone(text: string, size: nat, mode: Mode)

  /** A body or chunk of no bytes is over. */
  predicate Proper(mode: Mode) {
    match mode
    case Sized(n) => n != 0
    case Chunk(n, _) => n != 0
    case _ => true
  }

  function SizedMode(n: int): Mode {
    if n == 0 then AtHead else Sized(n)
  }

  /** The body's framing: None for a Content-Length that is no number. */
  function LengthFraming(h: Headers): Option<Mode> {
    var length := Lookup(h, CONTENT_LENGTH);
    if length == "" then Some(AtHead)
    else match Atoi(length) case None => None case Some(n) => Some(SizedMode(n))
  }

  function RequestFraming(h: Headers): Option<Mode> {
    if Lookup(h, TRANSFER_ENCODING) == "chunked" then Some(ChunkHead) else LengthFraming(h)
  }

  /** A response without a length that is not 204 is read as chunked. */
  function ResponseFraming(code: int, h: Headers): Option<Mode> {
    if Lookup(h, TRANSFER_ENCODING) == "chunked" then Some(ChunkHead)
    else if code == 204 then Some(AtHead)
    else if Lookup(h, CONTENT_LENGTH) == "" then Some(ChunkHead)
    else LengthFraming(h)
  }

  /** The framing is read off the head as it came, the switch to another protocol off the head as
      it was rewritten. */
  function RequestHead(rewrite: Request -> Option<Request>, head: Head<Request>): HeadResult {
    var framing := RequestFraming(head.fields.headers);
    var rewritten := rewrite(head.fields);
    if framing == None || rewritten == None then HeadError
    else HeadDone(NewHead(RequestLine(rewritten.value, true), rewritten.value.headers), head.HeaderSize(), framing.value)
  }

  function ResponseHead(rewrite: Response -> Option<Response>, head: Head<Response>): HeadResult {
    var framing := ResponseFraming(head.fields.statusCode, head.fields.headers);
    var rewritten := rewrite(head.fields);
    if framing == None || rewritten == None then HeadError
    else HeadDone(NewHead(StatusLine(rewritten.value, true), rewritten.value.headers), head.HeaderSize(),
                  if rewritten.value.statusCode == 101 then Verbatim else framing.value)
  }

  function RewriteHead(rw: Rewriter, s: string): (r: HeadResult)
    ensures r.HeadDone? ==> 4 <= r.size <= |s|
  {
    match rw
    case OnRequest(rewrite) => (
      match ParseHTTPRequest(s)
      case NeedMore => HeadMore
      case Malformed => HeadError
      case Done(head) => RequestHead(rewrite, head))
    case OnResponse(rewrite) => (
      match ParseHTTPResponse(s)
      case NeedMore => HeadMore
      case Malformed => HeadError
      case Done(head) => ResponseHead(rewrite, head))
    case NoRewriter => HeadError
  }

  /** A head has a text and leaves a body of some bytes or none to come. */
  lemma HeadIsProper(rw: Rewriter, s: string)
    requires RewriteHead(rw, s).HeadDone?
    ensures RewriteHead(rw, s).text != "" && Proper(RewriteHead(rw, s).mode)
  {
    if rw.OnRequest? {
      RequestHeadIsProper(rw.request, ParseHTTPRequest(s).value);
    } else {
      ResponseHeadIsProper(rw.response, ParseHTTPResponse(s).value);
    }
  }

  lemma RequestHeadIsProper(rewrite: Request -> Option<Request>, head: Head<Request>)
    requires RequestHead(rewrite, head).HeadDone?
    ensures RequestHead(rewrite, head).text != "" && Proper(RequestHead(rewrite, head).mode)
  {
  }

  lemma ResponseHeadIsProper(rewrite: Response -> Option<Response>, head: Head<Response>)
    requires ResponseHead(rewrite, head).HeadDone?
    ensures ResponseHead(rewrite, head).text != "" && Proper(ResponseHead(rewrite, head).mode)
  {
  }

  lemma RewriteHeadExtends(rw: Rewriter, s: string, t: string)
    requires !RewriteHead(rw, s).HeadMore?
    ensures RewriteHead(rw, s + t) == RewriteHead(rw, s)
  {
    if rw.OnRequest? { RequestExtends(s, t); }
    if rw.OnResponse? { ResponseExtends(s, t); }
  }

  // ------------------------------------------------------------------ chunk lines

  /** parseHTTPChunkHead: the size and the length of the line with its line break. */
  function ParseHTTPChunkHead(s: string): (r: Parsed<(int, nat)>)
    ensures r.Done? ==> 3 <= r.value.1 <= |s|
  {
    if |s| < 3 then NeedMore
    else
      match Index(s, CRLF)
      case None => NeedMore
      case Some(l) =>
        match ParseInt(s[..l], 16)
        case None => Malformed
        case Some(size) => Done((size, l + 2))
  }

  lemma ChunkHeadExtends(s: string, t: string)
    requires !ParseHTTPChunkHead(s).NeedMore?
    ensures ParseHTTPChunkHead(s + t) == ParseHTTPChunkHead(s)
  {
    IndexExtends(s, t, CRLF);
    var l := Index(s, CRLF).value;
    assert (s + t)[..l] == s[..l];
  }

  /** Go's sum of a 64-bit size and 2, which wraps around. */
  function Wrap64(n: int): int {
    if n > MAX_INT_64 then n - 0x1_0000_0000_0000_0000 else n
  }

  function ChunkMode(n: int, final: bool): Mode {
    if n == 0 then ChunkHead else Chunk(n, final)
  }

  // ------------------------------------------------------------------ bodies

  function Rank(mode: Mode): nat {
    if mode.Chunk? then 1 else 0
  }

  /** The rest of a message: its bytes pass as they are. */
  function Finish(mode: Mode, s: string): (o: Outcome)
    decreases |s|, Rank(mode)
  {
    match mode
    case AtHead => Outcome("", s, true)
    case Verbatim => Outcome(s, "", false)
    case Sized(n) =>
      if n < 0 then Outcome("", s, false)
      else if |s| < n then Outcome(s, "", false)
      else Outcome(s[..n], s[n..], true)
    case ChunkHead => (
      match ParseHTTPChunkHead(s)
      case NeedMore => Outcome("", s, false)
      case Malformed => Outcome("", s, false)
      case Done(v) => Prepend(s[..v.1], Finish(ChunkMode(Wrap64(v.0 + 2), v.0 == 0), s[v.1..])))
    case Chunk(n, final) =>
      if n < 0 then Outcome("", s, false)
      else if |s| < n then Outcome(s, "", false)
      else if n == 0 then Finish(ChunkHead, s)
      else Prepend(s[..n], Finish(if final then AtHead else ChunkHead, s[n..]))
  }

  lemma FinishChunkLine(s: string, size: int, offset: nat)
    requires ParseHTTPChunkHead(s) == Done((size, offset))
    ensures offset <= |s|
    ensures Finish(ChunkHead, s) == Prepend(s[..offset], Finish(ChunkMode(Wrap64(size + 2), size == 0), s[offset..]))
  {
  }

  /** What was put out starts the text, and when it came to its end what was left completes it. */
  predicate IsVerbatim(s: string, o: Outcome) {
    HasPrefix(s, o.out) && (o.complete ==> o.out + o.rest == s)
  }

  lemma Whole(r: string, k: nat)
    requires k <= |r|
    ensures r[..k] + r[k..] == r
  {
  }

  lemma PrefixAfter(s: string, n: nat, o: Outcome)
    requires n <= |s| && IsVerbatim(s[n..], o)
    ensures IsVerbatim(s, Prepend(s[..n], o))
  {
    Whole(s, n);
    if o.complete {
      assert s[..n] + o.out + o.rest == s[..n] + (o.out + o.rest);
    }
  }

  lemma SizedIsVerbatim(n: int, s: string)
    ensures IsVerbatim(s, Finish(Sized(n), s))
  {
    if 0 <= n <= |s| { Whole(s, n); }
  }

  lemma ChunkLineIsVerbatim(s: string, size: int, offset: nat)
    requires ParseHTTPChunkHead(s) == Done((size, offset)) && offset <= |s|
    requires IsVerbatim(s[offset..], Finish(ChunkMode(Wrap64(size + 2), size == 0), s[offset..]))
    ensures IsVerbatim(s, Finish(ChunkHead, s))
  {
    FinishChunkLine(s, size, offset);
    PrefixAfter(s, offset, Finish(ChunkMode(Wrap64(size + 2), size == 0), s[offset..]));
  }

  lemma ChunkIsVerbatim(n: nat, final: bool, s: string)
    requires 0 < n <= |s|
    requires IsVerbatim(s[n..], Finish(if final then AtHead else ChunkHead, s[n..]))
    ensures IsVerbatim(s, Finish(Chunk(n, final), s))
  {
    PrefixAfter(s, n, Finish(if final then AtHead else ChunkHead, s[n..]));
  }

  /** Bodies are not rewritten: what a finished message put out and what it left add up to the input,
      and an unfinished one put out a part of it. */
  lemma {:induction false} FinishIsVerbatim(mode: Mode, s: string)
    ensures IsVerbatim(s, Finish(mode, s))
    decreases |s|, Rank(mode)
  {
    match mode
    case AtHead =>
    case Verbatim =>
    case Sized(n) => SizedIsVerbatim(n, s);
    case ChunkHead =>
      if ParseHTTPChunkHead(s).Done? {
        var v := ParseHTTPChunkHead(s).value;
        FinishIsVerbatim(ChunkMode(Wrap64(v.0 + 2), v.0 == 0), s[v.1..]);
        ChunkLineIsVerbatim(s, v.0, v.1);
      }
    case Chunk(n, final) =>
      if n == 0 {
        FinishIsVerbatim(ChunkHead, s);
      } else if 0 < n <= |s| {
        FinishIsVerbatim(if final then AtHead else ChunkHead, s[n..]);
        ChunkIsVerbatim(n, final, s);
      }
  }

  // ------------------------------------------------------------------ messages

  function OneMessage(rw: Rewriter, s: string): (o: Outcome)
  {
    match RewriteHead(rw, s)
    case HeadMore => Outcome("", s, false)
    case HeadError => Outcome("", s, false)
    case HeadDone(text, size, mode) => Prepend(text, Finish(mode, s[size..]))
  }

  lemma {:induction false} FinishShrinks(mode: Mode, s: string)
    ensures |Finish(mode, s).rest| <= |s|
    decreases |s|, Rank(mode)
  {
    match mode
    case ChunkHead =>
      if ParseHTTPChunkHead(s).Done? {
        var v := ParseHTTPChunkHead(s).value;
        FinishShrinks(ChunkMode(Wrap64(v.0 + 2), v.0 == 0), s[v.1..]);
      }
    case Chunk(n, final) =>
      if n == 0 { FinishShrinks(ChunkHead, s); }
      else if 0 < n <= |s| { FinishShrinks(if final then AtHead else ChunkHead, s[n..]); }
    case _ =>
  }

  /** A way of cutting one message off a stream; a finished message used some bytes. */
  ghost predicate Consuming(step: string -> Outcome) {
    forall s :: step(s).complete ==> |step(s).rest| < |s|
  }

  /** Message after message until one does not finish. */
  function Repeat(step: string -> Outcome, s: string): string
    requires Consuming(step)
    decreases |s|
  {
    var o := step(s);
    if o.complete then o.out + Repeat(step, o.rest) else o.out
  }

  /** The first h messages. */
  function Take(step: string -> Outcome, s: string, h: nat): Outcome {
    if h == 0 then Outcome("", s, true)
    else
      var p := Take(step, s, h - 1);
      if p.complete then Prepend(p.out, step(p.rest)) else p
  }

  function MessageOf(rw: Rewriter): string -> Outcome {
    s => OneMessage(rw, s)
  }

  lemma MessageConsumes(rw: Rewriter)
    ensures Consuming(MessageOf(rw))
  {
    forall s | OneMessage(rw, s).complete
      ensures |OneMessage(rw, s).rest| < |s|
    {
      var r := RewriteHead(rw, s);
      FinishShrinks(r.mode, s[r.size..]);
    }
  }

  /** The rewrite of a whole stream. */
  function Batch(rw: Rewriter, s: string): string {
    MessageConsumes(rw);
    Repeat(MessageOf(rw), s)
  }

  /** The first h messages of a stream. */
  function Messages(rw: Rewriter, s: string, h: nat): Outcome {
    Take(MessageOf(rw), s, h)
  }

  lemma {:induction false} TakeInRepeat(step: string -> Outcome, s: string, h: nat)
    requires Consuming(step)
    ensures var p := Take(step, s, h);
            Repeat(step, s) == p.out + if p.complete then Repeat(step, p.rest) else ""
  {
    if h == 0 {
      assert "" + Repeat(step, s) == Repeat(step, s);
    } else {
      TakeInRepeat(step, s, h - 1);
      var p := Take(step, s, h - 1);
      if p.complete {
        var o := step(p.rest);
        assert p.out + (o.out + Repeat(step, o.rest)) == p.out + o.out + Repeat(step, o.rest);
        assert p.out + o.out + "" == p.out + o.out;
      }
    }
  }

  /** The first messages of a stream are where its rewrite starts. */
  lemma MessagesInBatch(rw: Rewriter, s: string, h: nat)
    ensures var p := Messages(rw, s, h);
            Batch(rw, s) == p.out + if p.complete then Batch(rw, p.rest) else ""
  {
    MessageConsumes(rw);
    TakeInRepeat(MessageOf(rw), s, h);
  }

  // ------------------------------------------------------------------ more bytes never change what is out

  /** A finished message stays as it is when more bytes arrive; an unfinished one only grows. */
  ghost predicate Grows(a: Outcome, b: Outcome, more: string) {
    if a.complete then b == a.(rest := a.rest + more) else HasPrefix(b.out, a.out)
  }

  lemma PrependGrows(text: string, a: Outcome, b: Outcome, more: string)
    requires Grows(a, b, more)
    ensures Grows(Prepend(text, a), Prepend(text, b), more)
  {
    if !a.complete {
      assert (text + b.out)[..|text| + |a.out|] == text + b.out[..|a.out|];
    }
  }

  lemma Cut(s: string, more: string, n: nat)
    requires n <= |s|
    ensures (s + more)[..n] == s[..n] && (s + more)[n..] == s[n..] + more
  {
  }

  lemma ShortGrows(s: string, more: string, n: nat, o: Outcome)
    requires |s| < n
    requires |s + more| < n ==> o.out == s + more
    requires |s + more| >= n ==> HasPrefix(o.out, (s + more)[..n])
    ensures HasPrefix(o.out, s)
  {
    assert (s + more)[..|s|] == s;
    if |s + more| >= n { assert o.out[..n][..|s|] == (s + more)[..n][..|s|] == s; }
  }

  lemma {:induction false} FinishGrows(mode: Mode, s: string, more: string)
    ensures Grows(Finish(mode, s), Finish(mode, s + more), more)
    decreases |s|, Rank(mode)
  {
    match mode
    case AtHead =>
    case Verbatim =>
    case Sized(n) =>
      if n >= 0 { SizedGrows(s, more, n); }
    case ChunkHead =>
      if ParseHTTPChunkHead(s).Done? {
        var v := ParseHTTPChunkHead(s).value;
        FinishGrows(ChunkMode(Wrap64(v.0 + 2), v.0 == 0), s[v.1..], more);
      }
      ChunkHeadGrows(s, more);
    case Chunk(n, final) =>
      if n == 0 {
        FinishGrows(ChunkHead, s, more);
      } else if 0 < n <= |s| {
        FinishGrows(if final then AtHead else ChunkHead, s[n..], more);
        ChunkGrows(s, more, n, final);
      } else if n > |s| {
        ShortChunkGrows(s, more, n, final);
      }
  }

  lemma SizedGrows(s: string, more: string, n: nat)
    ensures Grows(Finish(Sized(n), s), Finish(Sized(n), s + more), more)
  {
    if n <= |s| { Cut(s, more, n); } else { ShortGrows(s, more, n, Finish(Sized(n), s + more)); }
  }

  lemma ShortChunkGrows(s: string, more: string, n: nat, final: bool)
    requires n > |s|
    ensures Grows(Finish(Chunk(n, final), s), Finish(Chunk(n, final), s + more), more)
  {
    ShortGrows(s, more, n, Finish(Chunk(n, final), s + more));
  }

  lemma ChunkHeadGrows(s: string, more: string)
    requires ParseHTTPChunkHead(s).Done? ==>
               var v := ParseHTTPChunkHead(s).value;
               var next := ChunkMode(Wrap64(v.0 + 2), v.0 == 0);
               Grows(Finish(next, s[v.1..]), Finish(next, s[v.1..] + more), more)
    ensures Grows(Finish(ChunkHead, s), Finish(ChunkHead, s + more), more)
  {
    if ParseHTTPChunkHead(s).Done? {
      ChunkLineGrows(s, more, ParseHTTPChunkHead(s).value.0, ParseHTTPChunkHead(s).value.1);
    } else if ParseHTTPChunkHead(s).Malformed? {
      ChunkHeadExtends(s, more);
    }
  }

  lemma ChunkLineGrows(s: string, more: string, size: int, offset: nat)
    requires ParseHTTPChunkHead(s) == Done((size, offset)) && offset <= |s|
    requires var next := ChunkMode(Wrap64(size + 2), size == 0);
             Grows(Finish(next, s[offset..]), Finish(next, s[offset..] + more), more)
    ensures Grows(Finish(ChunkHead, s), Finish(ChunkHead, s + more), more)
  {
    var next := ChunkMode(Wrap64(size + 2), size == 0);
    ChunkHeadSplit(s, more, size, offset);
    FinishChunkLine(s, size, offset);
    PrependGrows(s[..offset], Finish(next, s[offset..]), Finish(next, s[offset..] + more), more);
  }

  lemma ChunkGrows(s: string, more: string, n: nat, final: bool)
    requires 0 < n <= |s|
    requires var next := if final then AtHead else ChunkHead;
             Grows(Finish(next, s[n..]), Finish(next, s[n..] + more), more)
    ensures Grows(Finish(Chunk(n, final), s), Finish(Chunk(n, final), s + more), more)
  {
    var next := if final then AtHead else ChunkHead;
    Cut(s, more, n);
    PrependGrows(s[..n], Finish(next, s[n..]), Finish(next, s[n..] + more), more);
  }

  lemma OneMessageGrows(rw: Rewriter, s: string, more: string)
    ensures Grows(OneMessage(rw, s), OneMessage(rw, s + more), more)
  {
    if !RewriteHead(rw, s).HeadMore? {
      RewriteHeadExtends(rw, s, more);
      var r := RewriteHead(rw, s);
      if r.HeadDone? {
        Cut(s, more, r.size);
        FinishGrows(r.mode, s[r.size..], more);
        PrependGrows(r.text, Finish(r.mode, s[r.size..]), Finish(r.mode, s[r.size..] + more), more);
      }
    }
  }

  lemma {:induction false} RepeatGrows(step: string -> Outcome, s: string, more: string)
    requires Consuming(step) && forall t :: Grows(step(t), step(t + more), more)
    ensures HasPrefix(Repeat(step, s + more), Repeat(step, s))
    decreases |s|
  {
    var o, p := step(s), step(s + more);
    assert Grows(o, p, more);
    if o.complete {
      RepeatGrows(step, o.rest, more);
      PrefixConcat(o.out, Repeat(step, o.rest + more), Repeat(step, o.rest));
    } else if p.complete {
      assert (p.out + Repeat(step, p.rest))[..|o.out|] == p.out[..|o.out|];
    }
  }

  lemma PrefixConcat(a: string, longer: string, shorter: string)
    requires HasPrefix(longer, shorter)
    ensures HasPrefix(a + longer, a + shorter)
  {
    assert (a + longer)[..|a| + |shorter|] == a + longer[..|shorter|];
  }

  /** The rewrite of a longer stream starts with the rewrite of a shorter one. */
  lemma BatchGrows(rw: Rewriter, s: string, more: string)
    ensures HasPrefix(Batch(rw, s + more), Batch(rw, s))
  {
    MessageConsumes(rw);
    forall t
      ensures Grows(MessageOf(rw)(t), MessageOf(rw)(t + more), more)
    {
      OneMessageGrows(rw, t, more);
    }
    RepeatGrows(MessageOf(rw), s, more);
  }

  // ------------------------------------------------------------------ well-formed messages

  datatype ChunkText = ChunkText(line: string, data: string)

  /** A chunk without extensions whose size, with its line break, fits 64 bits. */
  predicate WellFormedChunk(c: ChunkText) {
    Lacks(c.line, '\r') && ParseInt(c.line, 16) == Some(|c.data|) && 0 < |c.data| <= MAX_INT_64 - 2
  }

  predicate LastLine(line: string) {
    Lacks(line, '\r') && ParseInt(line, 16) == Some(0)
  }

  /** The chunked coding of section 7.1 of RFC 9112, without a trailer section. */
  function Encode(chunks: seq<ChunkText>, last: string): string {
    if chunks == [] then last + CRLF + CRLF
    else chunks[0].line + CRLF + (chunks[0].data + CRLF) + Encode(chunks[1..], last)
  }

  lemma ChunkLineParses(line: string, tail: string)
    requires Lacks(line, '\r') && ParseInt(line, 16).Some? && |tail| >= 2
    ensures ParseHTTPChunkHead(line + CRLF + tail) == Done((ParseInt(line, 16).value, |line| + 2))
  {
    IndexAfter(line, CRLF, tail);
    assert (line + CRLF + tail)[..|line|] == line;
  }

  predicate WellFormedChunks(chunks: seq<ChunkText>) {
    forall c :: c in chunks ==> WellFormedChunk(c)
  }

  /** A chunked body is read to its last byte and not a byte further. */
  lemma {:induction false} ChunkedBodyFinishes(chunks: seq<ChunkText>, last: string, tail: string)
    requires WellFormedChunks(chunks) && LastLine(last)
    ensures Finish(ChunkHead, Encode(chunks, last) + tail) == Outcome(Encode(chunks, last), tail, true)
    decreases |chunks|
  {
    if chunks == [] {
      LastChunkFinishes(last, tail);
    } else {
      var c, rest := chunks[0], Encode(chunks[1..], last);
      ChunkedBodyFinishes(chunks[1..], last, tail);
      ChunkFinishes(c, rest + tail);
      EncodeCons(c, rest, tail);
    }
  }

  lemma EncodeCons(c: ChunkText, rest: string, tail: string)
    ensures c.line + CRLF + (c.data + CRLF) + rest + tail == c.line + CRLF + (c.data + CRLF + (rest + tail))
  {
  }

  lemma LastChunkFinishes(last: string, tail: string)
    requires LastLine(last)
    ensures Finish(ChunkHead, last + CRLF + CRLF + tail) == Outcome(last + CRLF + CRLF, tail, true)
  {
    var rest := CRLF + tail;
    ChunkLineParses(last, rest);
    FinishChunkLine(last + CRLF + rest, 0, |last| + 2);
    AfterLine(last, rest);
    assert Wrap64(2) == 2;
    AfterCRLF(tail);
    assert last + CRLF + CRLF + tail == last + CRLF + rest;
    assert last + CRLF + (CRLF + "") == last + CRLF + CRLF;
  }

  lemma AfterCRLF(tail: string)
    ensures Finish(Chunk(2, true), CRLF + tail) == Outcome(CRLF + "", tail, true)
  {
    assert (CRLF + tail)[..2] == CRLF && (CRLF + tail)[2..] == tail;
  }

  lemma ChunkFinishes(c: ChunkText, tail: string)
    requires WellFormedChunk(c)
    ensures Finish(ChunkHead, c.line + CRLF + (c.data + CRLF + tail))
         == Prepend(c.line + CRLF + (c.data + CRLF), Finish(ChunkHead, tail))
  {
    var rest := c.data + CRLF + tail;
    ChunkLineThenData(c, rest);
    DataThenNext(c.data + CRLF, tail);
    PrependTwice(c.line + CRLF, c.data + CRLF, Finish(ChunkHead, tail));
  }

  lemma AfterLine(line: string, rest: string)
    ensures (line + CRLF + rest)[..|line| + 2] == line + CRLF && (line + CRLF + rest)[|line| + 2..] == rest
  {
  }

  lemma ChunkLineThenData(c: ChunkText, rest: string)
    requires WellFormedChunk(c) && |rest| >= 2
    ensures Finish(ChunkHead, c.line + CRLF + rest) == Prepend(c.line + CRLF, Finish(Chunk(|c.data| + 2, false), rest))
  {
    ChunkLineParses(c.line, rest);
    FinishChunkLine(c.line + CRLF + rest, |c.data|, |c.line| + 2);
    AfterLine(c.line, rest);
  }

  lemma DataThenNext(data: string, tail: string)
    requires |data| > 0
    ensures Finish(Chunk(|data|, false), data + tail) == Prepend(data, Finish(ChunkHead, tail))
  {
    assert (data + tail)[..|data|] == data && (data + tail)[|data|..] == tail;
  }

  lemma PrependTwice(a: string, b: string, o: Outcome)
    ensures Prepend(a, Prepend(b, o)) == Prepend(a + b, o)
  {
    assert a + (b + o.out) == a + b + o.out;
  }

  /** A complete head followed by a body that finishes: the rewritten head, then exactly that body. */
  lemma MessageCompletes(rw: Rewriter, head: string, body: string, tail: string, mode: Mode)
    requires RewriteHead(rw, head).HeadDone? && RewriteHead(rw, head).size == |head| && RewriteHead(rw, head).mode == mode
    requires Finish(mode, body + tail) == Outcome(body, tail, true)
    ensures OneMessage(rw, head + (body + tail)) == Outcome(RewriteHead(rw, head).text + body, tail, true)
  {
    RewriteHeadExtends(rw, head, body + tail);
    assert (head + (body + tail))[|head|..] == body + tail;
  }

  lemma SizedBodyFinishes(body: string, tail: string)
    ensures Finish(SizedMode(|body|), body + tail) == Outcome(body, tail, true)
  {
    assert (body + tail)[..|body|] == body && (body + tail)[|body|..] == tail;
    assert body == "" ==> body + tail == tail;
  }

  /** A message whose head asks for n bytes of body: the rewritten head, then exactly those bytes. */
  lemma SizedMessageCompletes(rw: Rewriter, head: string, body: string, tail: string)
    requires RewriteHead(rw, head).HeadDone? && RewriteHead(rw, head).size == |head|
    requires RewriteHead(rw, head).mode == SizedMode(|body|)
    ensures OneMessage(rw, head + (body + tail)) == Outcome(RewriteHead(rw, head).text + body, tail, true)
  {
    SizedBodyFinishes(body, tail);
    MessageCompletes(rw, head, body, tail, SizedMode(|body|));
  }

  /** A message whose head asks for a chunked body: the rewritten head, then exactly the chunks. */
  lemma ChunkedMessageCompletes(rw: Rewriter, head: string, chunks: seq<ChunkText>, last: string, tail: string)
    requires RewriteHead(rw, head).HeadDone? && RewriteHead(rw, head).size == |head|
    requires RewriteHead(rw, head).mode == ChunkHead
    requires WellFormedChunks(chunks) && LastLine(last)
    ensures OneMessage(rw, head + (Encode(chunks, last) + tail))
         == Outcome(RewriteHead(rw, head).text + Encode(chunks, last), tail, true)
  {
    ChunkedBodyFinishes(chunks, last, tail);
    MessageCompletes(rw, head, Encode(chunks, last), tail, ChunkHead);
  }

  // ------------------------------------------------------------------ messages of clients and workers

  /** The headers announce a body of n bytes. */
  predicate Announce(h: Headers, n: nat) {
    && Lookup(h, TRANSFER_ENCODING) != "chunked" && n <= MAX_INT_64
    && (Lookup(h, CONTENT_LENGTH) == Itoa(n) || (n == 0 && Lookup(h, CONTENT_LENGTH) == ""))
  }

  /** A body whose length is written in decimal is read as one of that length. */
  lemma AnnouncedLength(h: Headers, n: nat)
    requires Announce(h, n)
    ensures RequestFraming(h) == Some(SizedMode(n))
  {
    AtoiItoa(n);
  }

  /** The text is a chunked body: well-formed chunks and a last one. */
  ghost predicate ChunkedText(body: string) {
    exists chunks: seq<ChunkText>, last :: WellFormedChunks(chunks) && LastLine(last) && body == Encode(chunks, last)
  }

  /** The text is a body of the given framing: of the announced length, or in well-formed chunks. */
  ghost predicate BodyOf(framing: Option<Mode>, body: string) {
    match framing
    case Some(AtHead) => body == ""
    case Some(Sized(n)) => n == |body|
    case Some(ChunkHead) => ChunkedText(body)
    case _ => false
  }

  lemma BodyFinishes(framing: Option<Mode>, body: string, tail: string)
    requires BodyOf(framing, body)
    ensures Finish(framing.value, body + tail) == Outcome(body, tail, true)
  {
    if framing.value.ChunkHead? {
      var chunks: seq<ChunkText>, last :| WellFormedChunks(chunks) && LastLine(last) && body == Encode(chunks, last);
      ChunkedBodyFinishes(chunks, last, tail);
    } else {
      SizedBodyFinishes(body, tail);
    }
  }

  lemma RequestHeadOf(rewrite: Request -> Option<Request>, text: string, r: Request, l: nat, mode: Mode)
    requires |text| >= 4 && ParsesAs(text, r, l, |text| - 4)
    requires rewrite(r).Some? && RequestFraming(r.headers) == Some(mode)
    ensures RewriteHead(OnRequest(rewrite), text)
         == HeadDone(NewHead(RequestLine(rewrite(r).value, true), rewrite(r).value.headers), |text|, mode)
  {
  }

  lemma ResponseHeadOf(rewrite: Response -> Option<Response>, text: string, r: Response, l: nat, mode: Mode)
    requires |text| >= 4 && ResponseParsesAs(text, r, l, |text| - 4)
    requires rewrite(r).Some? && ResponseFraming(r.statusCode, r.headers) == Some(mode)
    ensures RewriteHead(OnResponse(rewrite), text)
         == HeadDone(NewHead(StatusLine(rewrite(r).value, true), rewrite(r).value.headers), |text|,
                     if rewrite(r).value.statusCode == 101 then Verbatim else mode)
  {
  }

  /** Any request head that parses, followed by a body of its framing, sized or chunked: the head as
      the callback changed it, then exactly the body, and nothing of what follows. */
  lemma RequestPasses(rewrite: Request -> Option<Request>, text: string, r: Request, l: nat, body: string, tail: string)
    requires |text| >= 4 && ParsesAs(text, r, l, |text| - 4)
    requires rewrite(r).Some? && BodyOf(RequestFraming(r.headers), body)
    ensures OneMessage(OnRequest(rewrite), text + (body + tail))
         == Outcome(NewHead(RequestLine(rewrite(r).value, true), rewrite(r).value.headers) + body, tail, true)
  {
    var mode := RequestFraming(r.headers).value;
    RequestHeadOf(rewrite, text, r, l, mode);
    BodyFinishes(Some(mode), body, tail);
    MessageCompletes(OnRequest(rewrite), text, body, tail, mode);
  }

  /** The same for a response that does not switch protocols. */
  lemma ResponsePasses(rewrite: Response -> Option<Response>, text: string, r: Response, l: nat, body: string, tail: string)
    requires |text| >= 4 && ResponseParsesAs(text, r, l, |text| - 4)
    requires rewrite(r).Some? && rewrite(r).value.statusCode != 101
    requires BodyOf(ResponseFraming(r.statusCode, r.headers), body)
    ensures OneMessage(OnResponse(rewrite), text + (body + tail))
         == Outcome(NewHead(StatusLine(rewrite(r).value, true), rewrite(r).value.headers) + body, tail, true)
  {
    var mode := ResponseFraming(r.statusCode, r.headers).value;
    ResponseHeadOf(rewrite, text, r, l, mode);
    BodyFinishes(Some(mode), body, tail);
    MessageCompletes(OnResponse(rewrite), text, body, tail, mode);
  }

  // ------------------------------------------------------------------ bodies by their header fields

  /** A request with Transfer-Encoding chunked: the head as the callback changed it, then exactly a
      chunked body. */
  lemma ChunkedRequestPasses(rewrite: Request -> Option<Request>, text: string, r: Request, l: nat, body: string, tail: string)
    requires |text| >= 4 && ParsesAs(text, r, l, |text| - 4) && rewrite(r).Some?
    requires Get(r.headers, "transfer-encoding") == "chunked" && ChunkedText(body)
    ensures OneMessage(OnRequest(rewrite), text + (body + tail))
         == Outcome(NewHead(RequestLine(rewrite(r).value, true), rewrite(r).value.headers) + body, tail, true)
  {
    LowerNames(r.headers);
    RequestPasses(rewrite, text, r, l, body, tail);
  }

  /** A request with a Content-Length, in any decimal spelling: the head, then exactly so many bytes. */
  lemma SizedRequestPasses(rewrite: Request -> Option<Request>, text: string, r: Request, l: nat, body: string, tail: string)
    requires |text| >= 4 && ParsesAs(text, r, l, |text| - 4) && rewrite(r).Some?
    requires Get(r.headers, "transfer-encoding") != "chunked" && IsNumeral(Get(r.headers, "content-length"), |body|)
    ensures OneMessage(OnRequest(rewrite), text + (body + tail))
         == Outcome(NewHead(RequestLine(rewrite(r).value, true), rewrite(r).value.headers) + body, tail, true)
  {
    LowerNames(r.headers);
    AtoiIff(Get(r.headers, "content-length"), |body|);
    RequestPasses(rewrite, text, r, l, body, tail);
  }

  /** A request with neither has no body. */
  lemma BareRequestPasses(rewrite: Request -> Option<Request>, text: string, r: Request, l: nat, tail: string)
    requires |text| >= 4 && ParsesAs(text, r, l, |text| - 4) && rewrite(r).Some?
    requires Get(r.headers, "transfer-encoding") != "chunked" && Get(r.headers, "content-length") == ""
    ensures OneMessage(OnRequest(rewrite), text + tail)
         == Outcome(NewHead(RequestLine(rewrite(r).value, true), rewrite(r).value.headers), tail, true)
  {
    LowerNames(r.headers);
    RequestPasses(rewrite, text, r, l, "", tail);
    NothingAfter(tail);
    NothingAfter(NewHead(RequestLine(rewrite(r).value, true), rewrite(r).value.headers));
  }

  /** A response with Transfer-Encoding chunked, or with neither a length nor the code 204: the head as
      the callback changed it, then exactly a chunked body. */
  lemma ChunkedResponsePasses(rewrite: Response -> Option<Response>, text: string, r: Response, l: nat, body: string, tail: string)
    requires |text| >= 4 && ResponseParsesAs(text, r, l, |text| - 4)
    requires rewrite(r).Some? && rewrite(r).value.statusCode != 101
    requires || Get(r.headers, "transfer-encoding") == "chunked"
             || (r.statusCode != 204 && Get(r.headers, "content-length") == "")
    requires ChunkedText(body)
    ensures OneMessage(OnResponse(rewrite), text + (body + tail))
         == Outcome(NewHead(StatusLine(rewrite(r).value, true), rewrite(r).value.headers) + body, tail, true)
  {
    LowerNames(r.headers);
    ResponsePasses(rewrite, text, r, l, body, tail);
  }

  /** A response with a Content-Length that is not 204: the head, then exactly so many bytes. */
  lemma SizedResponsePasses(rewrite: Response -> Option<Response>, text: string, r: Response, l: nat, body: string, tail: string)
    requires |text| >= 4 && ResponseParsesAs(text, r, l, |text| - 4)
    requires rewrite(r).Some? && rewrite(r).value.statusCode != 101
    requires Get(r.headers, "transfer-encoding") != "chunked" && r.statusCode != 204
    requires IsNumeral(Get(r.headers, "content-length"), |body|)
    ensures OneMessage(OnResponse(rewrite), text + (body + tail))
         == Outcome(NewHead(StatusLine(rewrite(r).value, true), rewrite(r).value.headers) + body, tail, true)
  {
    LowerNames(r.headers);
    AtoiIff(Get(r.headers, "content-length"), |body|);
    NumeralIsThere(Get(r.headers, "content-length"), |body|);
    ResponsePasses(rewrite, text, r, l, body, tail);
  }

  lemma NumeralIsThere(s: string, n: int)
    requires IsNumeral(s, n)
    ensures s != ""
  {
  }

  /** A 204 without Transfer-Encoding chunked has no body, whatever its Content-Length. */
  lemma NoContentPasses(rewrite: Response -> Option<Response>, text: string, r: Response, l: nat, tail: string)
    requires |text| >= 4 && ResponseParsesAs(text, r, l, |text| - 4)
    requires rewrite(r).Some? && rewrite(r).value.statusCode != 101
    requires Get(r.headers, "transfer-encoding") != "chunked" && r.statusCode == 204
    ensures OneMessage(OnResponse(rewrite), text + tail)
         == Outcome(NewHead(StatusLine(rewrite(r).value, true), rewrite(r).value.headers), tail, true)
  {
    LowerNames(r.headers);
    ResponsePasses(rewrite, text, r, l, "", tail);
    NothingAfter(tail);
    NothingAfter(NewHead(StatusLine(rewrite(r).value, true), rewrite(r).value.headers));
  }

  /** A length that is needed and is no number: the head is refused and nothing is put out. */
  lemma BadLengthIsRefused(rewrite: Request -> Option<Request>, text: string, r: Request, l: nat, tail: string)
    requires |text| >= 4 && ParsesAs(text, r, l, |text| - 4)
    requires Get(r.headers, "transfer-encoding") != "chunked" && Get(r.headers, "content-length") != ""
    requires forall n :: !IsNumeral(Get(r.headers, "content-length"), n)
    ensures RewriteHead(OnRequest(rewrite), text + tail).HeadError?
  {
    LowerNames(r.headers);
    NoNumber(Get(r.headers, "content-length"));
    RequestExtends(text, tail);
  }

  /** The same for a response that is not 204. */
  lemma BadResponseLengthIsRefused(rewrite: Response -> Option<Response>, text: string, r: Response, l: nat, tail: string)
    requires |text| >= 4 && ResponseParsesAs(text, r, l, |text| - 4)
    requires Get(r.headers, "transfer-encoding") != "chunked" && r.statusCode != 204 && Get(r.headers, "content-length") != ""
    requires forall n :: !IsNumeral(Get(r.headers, "content-length"), n)
    ensures RewriteHead(OnResponse(rewrite), text + tail).HeadError?
  {
    LowerNames(r.headers);
    NoNumber(Get(r.headers, "content-length"));
    ResponseExtends(text, tail);
  }

  /** A length below zero: the head is put out, and then the message stops for good. */
  lemma NegativeLengthStops(rewrite: Request -> Option<Request>, text: string, r: Request, l: nat, n: int, tail: string)
    requires |text| >= 4 && ParsesAs(text, r, l, |text| - 4) && rewrite(r).Some?
    requires Get(r.headers, "transfer-encoding") != "chunked" && IsNumeral(Get(r.headers, "content-length"), n) && n < 0
    ensures OneMessage(OnRequest(rewrite), text + tail)
         == Outcome(NewHead(RequestLine(rewrite(r).value, true), rewrite(r).value.headers), tail, false)
  {
    LowerNames(r.headers);
    AtoiIff(Get(r.headers, "content-length"), n);
    NumeralIsThere(Get(r.headers, "content-length"), n);
    RequestHeadOf(rewrite, text, r, l, Sized(n));
    MessageStops(OnRequest(rewrite), text, tail, n);
  }

  /** The same for a response that is not 204 and does not switch protocols. */
  lemma NegativeResponseLengthStops(rewrite: Response -> Option<Response>, text: string, r: Response, l: nat, n: int, tail: string)
    requires |text| >= 4 && ResponseParsesAs(text, r, l, |text| - 4)
    requires rewrite(r).Some? && rewrite(r).value.statusCode != 101 && r.statusCode != 204
    requires Get(r.headers, "transfer-encoding") != "chunked" && IsNumeral(Get(r.headers, "content-length"), n) && n < 0
    ensures OneMessage(OnResponse(rewrite), text + tail)
         == Outcome(NewHead(StatusLine(rewrite(r).value, true), rewrite(r).value.headers), tail, false)
  {
    LowerNames(r.headers);
    AtoiIff(Get(r.headers, "content-length"), n);
    NumeralIsThere(Get(r.headers, "content-length"), n);
    ResponseHeadOf(rewrite, text, r, l, Sized(n));
    MessageStops(OnResponse(rewrite), text, tail, n);
  }

  lemma MessageStops(rw: Rewriter, head: string, tail: string, n: int)
    requires RewriteHead(rw, head).HeadDone? && RewriteHead(rw, head).size == |head| && RewriteHead(rw, head).mode == Sized(n)
    requires n < 0
    ensures OneMessage(rw, head + tail) == Outcome(RewriteHead(rw, head).text, tail, false)
  {
    RewriteHeadExtends(rw, head, tail);
    AfterHead(head, tail);
    MessageOfHead(rw, head + tail, tail);
    NothingAfter(RewriteHead(rw, head).text);
  }

  lemma NoNumber(s: string)
    requires forall n :: !IsNumeral(s, n)
    ensures Atoi(s) == None
  {
    if Atoi(s).Some? { AtoiIff(s, Atoi(s).value); }
  }

  /** The same names in small letters. */
  lemma LowerNames(h: Headers)
    ensures Get(h, "transfer-encoding") == Lookup(h, TRANSFER_ENCODING)
    ensures Get(h, "content-length") == Lookup(h, CONTENT_LENGTH)
  {
    FramingNames(h);
    TransferIsToken();
    TransferSmall();
    LengthIsToken();
    LengthSmall();
    CanonicalIff(TRANSFER_ENCODING, "transfer-encoding");
    CanonicalIff(CONTENT_LENGTH, "content-length");
  }

  lemma TransferIsToken()
    ensures IsToken(TRANSFER_ENCODING)
  {
  }

  lemma TransferSmall()
    ensures SameName(TRANSFER_ENCODING, "transfer-encoding")
  {
  }

  lemma LengthIsToken()
    ensures IsToken(CONTENT_LENGTH)
  {
  }

  lemma LengthSmall()
    ensures SameName(CONTENT_LENGTH, "content-length")
  {
  }

  /** A size in hexadecimal, with any leading zeros and letters of either case, makes a chunk of the
      data of that size. */
  lemma HexChunk(line: string, data: string)
    requires IsHexText(line, |data|) && |data| <= MAX_INT_64 - 2
    ensures if data == "" then LastLine(line) else WellFormedChunk(ChunkText(line, data))
  {
    HexIff(line, |data|);
    HexLacksBreak(line, |data|);
  }

  lemma NegativeChunkStops(n: int, final: bool, tail: string)
    requires n < 0
    ensures Finish(ChunkMode(n, final), tail) == Outcome("", tail, false)
  {
  }

  lemma LineThenStop(line: string, tail: string, n: nat)
    requires Lacks(line, '\r') && ParseInt(line, 16) == Some(n) && Wrap64(n + 2) < 0 && |tail| >= 2
    ensures Finish(ChunkHead, line + CRLF + tail) == Prepend(line + CRLF, Outcome("", tail, false))
  {
    ChunkLineParses(line, tail);
    FinishChunkLine(line + CRLF + tail, n, |line| + 2);
    AfterLine(line, tail);
    NegativeChunkStops(Wrap64(n + 2), n == 0, tail);
  }

  /** A chunk whose size fits 64 bits but not together with its line break: the sum is below zero, and
      the message stops after the chunk line. */
  lemma HugeChunkStops(line: string, n: nat, tail: string)
    requires IsHexText(line, n) && MAX_INT_64 - 2 < n <= MAX_INT_64 && |tail| >= 2
    ensures Finish(ChunkHead, line + CRLF + tail) == Outcome(line + CRLF, tail, false)
  {
    HexIff(line, n);
    HexLacksBreak(line, n);
    LineThenStop(line, tail, n);
    NothingAfter(line + CRLF);
  }

  lemma HexLacksBreak(line: string, n: nat)
    requires IsHexText(line, n)
    ensures Lacks(line, '\r')
  {
    var zeros :| HexText(line, n, zeros);
    HexIsRead(line, n, zeros);
    forall k | 0 <= k < |line|
      ensures line[k] != '\r'
    {
      ReadHasDigits(line, n, k);
    }
  }

  lemma AfterHead(text: string, tail: string)
    ensures (text + tail)[|text|..] == tail
  {
  }

  lemma MessageOfHead(rw: Rewriter, s: string, rest: string)
    requires RewriteHead(rw, s).HeadDone? && s[RewriteHead(rw, s).size..] == rest
    ensures OneMessage(rw, s) == Prepend(RewriteHead(rw, s).text, Finish(RewriteHead(rw, s).mode, rest))
  {
  }

  lemma MessageSwitches(rw: Rewriter, head: string, tail: string)
    requires RewriteHead(rw, head).HeadDone? && RewriteHead(rw, head).size == |head| && RewriteHead(rw, head).mode == Verbatim
    ensures OneMessage(rw, head + tail) == Outcome(RewriteHead(rw, head).text + tail, "", false)
  {
    RewriteHeadExtends(rw, head, tail);
    AfterHead(head, tail);
    MessageOfHead(rw, head + tail, tail);
  }

  /** After a response that switches protocols everything passes as it is, and the message never
      ends; its head must still announce a framing that can be read. */
  lemma SwitchPasses(rewrite: Response -> Option<Response>, text: string, r: Response, l: nat, tail: string)
    requires |text| >= 4 && ResponseParsesAs(text, r, l, |text| - 4)
    requires rewrite(r).Some? && rewrite(r).value.statusCode == 101 && ResponseFraming(r.statusCode, r.headers).Some?
    ensures OneMessage(OnResponse(rewrite), text + tail)
         == Outcome(NewHead(StatusLine(rewrite(r).value, true), rewrite(r).value.headers) + tail, "", false)
  {
    ResponseHeadOf(rewrite, text, r, l, ResponseFraming(r.statusCode, r.headers).value);
    MessageSwitches(OnResponse(rewrite), text, tail);
  }

  // ------------------------------------------------------------------ in the middle of a stream

  /** After h heads the reader has put out d, is in the given mode and has r before it: together they
      make up the first h messages of the stream. */
  predicate Live(rw: Rewriter, stream: string, h: nat, d: string, mode: Mode, r: string) {
    Messages(rw, stream, h) == Prepend(d, Finish(mode, r))
  }

  lemma LiveStart(rw: Rewriter, stream: string)
    ensures Live(rw, stream, 0, "", AtHead, stream)
  {
  }

  /** What a live reader has put out is a prefix of the rewrite of the whole stream. */
  lemma LiveIsPrefix(rw: Rewriter, stream: string, h: nat, d: string, mode: Mode, r: string)
    requires Live(rw, stream, h, d, mode, r)
    ensures HasPrefix(Batch(rw, stream), d)
  {
    MessagesInBatch(rw, stream, h);
    var p := Messages(rw, stream, h);
    var tail := if p.complete then Batch(rw, p.rest) else "";
    PrefixOfSum(d, Finish(mode, r).out, tail);
  }

  lemma PrefixOfSum(d: string, out: string, tail: string)
    ensures HasPrefix(d + out + tail, d)
  {
    assert (d + out + tail)[..|d|] == d;
  }

  /** Between messages, with everything put out, the first messages are what was put out. */
  lemma LiveIsExact(rw: Rewriter, stream: string, h: nat, d: string, r: string)
    requires Live(rw, stream, h, d, AtHead, r)
    ensures Messages(rw, stream, h) == Outcome(d, r, true)
  {
    NothingAfter(d);
  }

  lemma MessagesStep(rw: Rewriter, stream: string, h: nat, d: string, r: string)
    requires Messages(rw, stream, h) == Outcome(d, r, true)
    ensures Messages(rw, stream, h + 1) == Prepend(d, OneMessage(rw, r))
  {
  }

  /** A head parsed from the buffered bytes is the head of all that is before the reader. */
  lemma HeadOfBuffered(rw: Rewriter, input: string, unread: string)
    requires RewriteHead(rw, input).HeadDone?
    ensures var r := RewriteHead(rw, input);
            OneMessage(rw, input + unread) == Prepend(r.text, Finish(r.mode, input[r.size..] + unread))
  {
    RewriteHeadExtends(rw, input, unread);
    Cut(input, unread, RewriteHead(rw, input).size);
  }

  /** With a head's text put out and its bytes taken, the reader is in the middle of its message. */
  lemma LiveHead(rw: Rewriter, stream: string, h: nat, d: string, ahead: string, text: string, mode: Mode, rest: string)
    requires Live(rw, stream, h, d, AtHead, ahead) && OneMessage(rw, ahead) == Prepend(text, Finish(mode, rest))
    ensures Live(rw, stream, h + 1, d + text, mode, rest)
  {
    LiveIsExact(rw, stream, h, d, ahead);
    MessagesStep(rw, stream, h, d, ahead);
    PrependTwice(d, text, Finish(mode, rest));
  }

  /** Something of a message was put out, and something else is left of it. */
  lemma LiveMoves(rw: Rewriter, stream: string, h: nat, d: string, mode: Mode, r: string, text: string, next: Mode, rest: string)
    requires Live(rw, stream, h, d, mode, r) && Finish(mode, r) == Prepend(text, Finish(next, rest))
    ensures Live(rw, stream, h, d + text, next, rest)
  {
    PrependTwice(d, text, Finish(next, rest));
  }

  lemma CutAgain(r: string, k: nat, n: nat)
    requires k <= n <= |r|
    ensures r[..k] + r[k..][..n - k] == r[..n] && r[k..][n - k..] == r[n..]
  {
  }

  lemma SizedSplit(n: int, r: string, k: nat)
    requires k <= n && k <= |r|
    ensures Finish(Sized(n), r) == Prepend(r[..k], Finish(SizedMode(n - k), r[k..]))
  {
    if |r| < n {
      Whole(r, k);
    } else if k == n {
      NothingAfter(r[..n]);
    } else {
      CutAgain(r, k, n);
    }
  }

  lemma ChunkHeadSplit(input: string, unread: string, size: int, offset: nat)
    requires ParseHTTPChunkHead(input) == Done((size, offset))
    ensures offset <= |input|
    ensures Finish(ChunkHead, input + unread)
         == Prepend(input[..offset], Finish(ChunkMode(Wrap64(size + 2), size == 0), input[offset..] + unread))
  {
    ChunkHeadExtends(input, unread);
    FinishChunkLine(input + unread, size, offset);
    Cut(input, unread, offset);
  }

  function AfterChunk(n: int, final: bool): Mode {
    if n == 0 then (if final then AtHead else ChunkHead) else Chunk(n, final)
  }

  lemma ChunkSplitWhole(n: int, final: bool, r: string, k: nat)
    requires k == n && 0 < n <= |r|
    ensures Finish(Chunk(n, final), r) == Prepend(r[..k], Finish(AfterChunk(n - k, final), r[k..]))
  {
    assert Finish(Chunk(n, final), r) == Prepend(r[..k], Finish(if final then AtHead else ChunkHead, r[k..]));
  }

  lemma ChunkSplitShort(n: int, final: bool, r: string, k: nat)
    requires |r| < n && k <= |r|
    ensures Finish(Chunk(n, final), r) == Prepend(r[..k], Finish(AfterChunk(n - k, final), r[k..]))
  {
    Whole(r, k);
  }

  lemma ChunkSplitInside(n: int, final: bool, r: string, k: nat)
    requires k < n <= |r|
    ensures Finish(Chunk(n, final), r) == Prepend(r[..k], Finish(AfterChunk(n - k, final), r[k..]))
  {
    var o := Finish(if final then AtHead else ChunkHead, r[n..]);
    CutAgain(r, k, n);
    assert Finish(Chunk(n, final), r) == Prepend(r[..n], o);
    assert Finish(Chunk(n - k, final), r[k..]) == Prepend(r[k..][..n - k], o);
    PrependTwice(r[..k], r[k..][..n - k], o);
  }

  lemma ChunkSplit(n: int, final: bool, r: string, k: nat)
    requires k <= n && k <= |r| && n > 0
    ensures Finish(Chunk(n, final), r) == Prepend(r[..k], Finish(AfterChunk(n - k, final), r[k..]))
  {
    if |r| < n {
      ChunkSplitShort(n, final, r, k);
    } else if k < n {
      ChunkSplitInside(n, final, r, k);
    } else {
      ChunkSplitWhole(n, final, r, k);
    }
  }

  lemma VerbatimSplit(r: string, k: nat)
    requires k <= |r|
    ensures Finish(Verbatim, r) == Prepend(r[..k], Finish(Verbatim, r[k..]))
  {
    Whole(r, k);
  }

  /** The last chunk's line and line break, taken in one piece. */
  lemma LastChunkSplit(input: string, unread: string, offset: nat)
    requires ParseHTTPChunkHead(input) == Done((0, offset)) && offset + 2 <= |input|
    ensures Finish(ChunkHead, input + unread) == Prepend(input[..offset + 2], Finish(AtHead, input[offset + 2..] + unread))
  {
    var rest := input[offset..] + unread;
    ChunkHeadSplit(input, unread, 0, offset);
    ChunkSplit(2, true, rest, 2);
    assert Wrap64(2) == 2;
    TwoMore(input, unread, offset);
    PrependTwice(input[..offset], rest[..2], Finish(AtHead, rest[2..]));
  }

  lemma TwoMore(input: string, unread: string, off: nat)
    requires off + 2 <= |input|
    ensures (input[off..] + unread)[2..] == input[off + 2..] + unread
    ensures input[..off] + (input[off..] + unread)[..2] == input[..off + 2]
  {
    assert (input[off..] + unread)[..2] == input[off..off + 2];
  }

  // ------------------------------------------------------------------ the functions as values

  /** The functions of this module for one rewriter and one stream, as function values. */
  datatype Rules = Rules(
    head: string -> HeadResult,
    chunk: string -> Parsed<(int, nat)>,
    live: (nat, string, Mode, string) -> bool,
    whole: string)

  function RulesFor(rw: Rewriter, stream: string): Rules {
    Rules(s => RewriteHead(rw, s), ParseHTTPChunkHead,
          (h: nat, d: string, mode: Mode, r: string) => Live(rw, stream, h, d, mode, r), Batch(rw, stream))
  }

  ghost predicate Wired(g: Rules, rw: Rewriter, stream: string) {
    && (forall s {:trigger RewriteHead(rw, s)} :: g.head(s) == RewriteHead(rw, s))
    && (forall s {:trigger ParseHTTPChunkHead(s)} :: g.chunk(s) == ParseHTTPChunkHead(s))
    && (forall h: nat, d, mode, r {:trigger Live(rw, stream, h, d, mode, r)} ::
          g.live(h, d, mode, r) == Live(rw, stream, h, d, mode, r))
    && (forall s {:trigger Batch(rw, s)} :: s == stream ==> g.whole == Batch(rw, s))
  }

  lemma RulesAreWired(rw: Rewriter, stream: string)
    ensures Wired(RulesFor(rw, stream), rw, stream)
    ensures RulesFor(rw, stream).live(0, "", AtHead, stream)
  {
    LiveStart(rw, stream);
  }

  lemma OpenLive(g: Rules, rw: Rewriter, stream: string, h: nat, d: string, mode: Mode, r: string)
    requires Wired(g, rw, stream) && g.live(h, d, mode, r)
    ensures Live(rw, stream, h, d, mode, r)
  {
  }

  lemma CloseLive(g: Rules, rw: Rewriter, stream: string, h: nat, d: string, mode: Mode, r: string)
    requires Wired(g, rw, stream) && Live(rw, stream, h, d, mode, r)
    ensures g.live(h, d, mode, r)
  {
  }

  lemma OpenHead(g: Rules, rw: Rewriter, stream: string, s: string)
    requires Wired(g, rw, stream)
    ensures g.head(s) == RewriteHead(rw, s)
  {
  }

  lemma SafeByRules(g: Rules, rw: Rewriter, stream: string, h: nat, d: string, mode: Mode, r: string)
    requires Wired(g, rw, stream) && g.live(h, d, mode, r)
    ensures HasPrefix(g.whole, d) && g.whole == Batch(rw, stream)
  {
    assert Live(rw, stream, h, d, mode, r);
    LiveIsPrefix(rw, stream, h, d, mode, r);
  }

  lemma ExactByRules(g: Rules, rw: Rewriter, stream: string, h: nat, d: string, r: string)
    requires Wired(g, rw, stream) && g.live(h, d, AtHead, r)
    ensures Messages(rw, stream, h) == Outcome(d, r, true)
  {
    assert Live(rw, stream, h, d, AtHead, r);
    LiveIsExact(rw, stream, h, d, r);
  }

  lemma BufferedHeadMoves(rw: Rewriter, stream: string, h: nat, d: string, input: string, unread: string)
    requires Live(rw, stream, h, d, AtHead, input + unread) && RewriteHead(rw, input).HeadDone?
    ensures var r := RewriteHead(rw, input);
            Live(rw, stream, h + 1, d + r.text, r.mode, input[r.size..] + unread)
  {
    var r := RewriteHead(rw, input);
    HeadOfBuffered(rw, input, unread);
    LiveHead(rw, stream, h, d, input + unread, r.text, r.mode, input[r.size..] + unread);
  }

  lemma ProperByRules(g: Rules, rw: Rewriter, stream: string, input: string)
    requires Wired(g, rw, stream) && g.head(input).HeadDone?
    ensures 4 <= g.head(input).size <= |input| && g.head(input).text != "" && Proper(g.head(input).mode)
  {
    assert RewriteHead(rw, input).HeadDone?;
    HeadIsProper(rw, input);
  }

  lemma HeadByRules(g: Rules, rw: Rewriter, stream: string, h: nat, d: string, input: string, unread: string)
    requires Wired(g, rw, stream) && g.live(h, d, AtHead, input + unread)
    requires g.head(input).HeadDone? && g.head(input).size <= |input|
    ensures var r := g.head(input);
            g.live(h + 1, d + r.text, r.mode, input[r.size..] + unread)
  {
    OpenHead(g, rw, stream, input);
    OpenLive(g, rw, stream, h, d, AtHead, input + unread);
    BufferedHeadMoves(rw, stream, h, d, input, unread);
    var r := RewriteHead(rw, input);
    CloseLive(g, rw, stream, h + 1, d + r.text, r.mode, input[r.size..] + unread);
  }

  /** What was put out of a message, as its split says. */
  lemma MoveByRules(g: Rules, rw: Rewriter, stream: string, h: nat, d: string, mode: Mode, r: string, text: string, next: Mode, rest: string)
    requires Wired(g, rw, stream) && g.live(h, d, mode, r) && Finish(mode, r) == Prepend(text, Finish(next, rest))
    ensures g.live(h, d + text, next, rest)
  {
    assert Live(rw, stream, h, d, mode, r);
    LiveMoves(rw, stream, h, d, mode, r, text, next, rest);
  }

  lemma SizedByRules(g: Rules, rw: Rewriter, stream: string, h: nat, d: string, n: int, r: string, k: nat)
    requires Wired(g, rw, stream) && g.live(h, d, Sized(n), r) && k <= n && k <= |r|
    ensures g.live(h, d + r[..k], SizedMode(n - k), r[k..])
  {
    SizedSplit(n, r, k);
    MoveByRules(g, rw, stream, h, d, Sized(n), r, r[..k], SizedMode(n - k), r[k..]);
  }

  lemma ChunkByRules(g: Rules, rw: Rewriter, stream: string, h: nat, d: string, n: int, final: bool, r: string, k: nat)
    requires Wired(g, rw, stream) && g.live(h, d, Chunk(n, final), r) && k <= n && k <= |r| && n > 0
    ensures g.live(h, d + r[..k], AfterChunk(n - k, final), r[k..])
  {
    ChunkSplit(n, final, r, k);
    MoveByRules(g, rw, stream, h, d, Chunk(n, final), r, r[..k], AfterChunk(n - k, final), r[k..]);
  }

  lemma VerbatimByRules(g: Rules, rw: Rewriter, stream: string, h: nat, d: string, r: string, k: nat)
    requires Wired(g, rw, stream) && g.live(h, d, Verbatim, r) && k <= |r|
    ensures g.live(h, d + r[..k], Verbatim, r[k..])
  {
    VerbatimSplit(r, k);
    MoveByRules(g, rw, stream, h, d, Verbatim, r, r[..k], Verbatim, r[k..]);
  }

  lemma ChunkLineByRules(g: Rules, rw: Rewriter, stream: string, h: nat, d: string, input: string, unread: string, size: int, offset: nat)
    requires Wired(g, rw, stream) && g.live(h, d, ChunkHead, input + unread) && g.chunk(input) == Done((size, offset))
    ensures 3 <= offset <= |input|
    ensures g.live(h, d + input[..offset], ChunkMode(Wrap64(size + 2), size == 0), input[offset..] + unread)
  {
    ChunkHeadSplit(input, unread, size, offset);
    MoveByRules(g, rw, stream, h, d, ChunkHead, input + unread, input[..offset],
                ChunkMode(Wrap64(size + 2), size == 0), input[offset..] + unread);
  }

  lemma LastChunkByRules(g: Rules, rw: Rewriter, stream: string, h: nat, d: string, input: string, unread: string, offset: nat)
    requires Wired(g, rw, stream) && g.live(h, d, ChunkHead, input + unread)
    requires g.chunk(input) == Done((0, offset)) && offset + 2 <= |input|
    ensures g.live(h, d + input[..offset + 2], AtHead, input[offset + 2..] + unread)
  {
    LastChunkSplit(input, unread, offset);
    MoveByRules(g, rw, stream, h, d, ChunkHead, input + unread, input[..offset + 2], AtHead, input[offset + 2..] + unread);
  }
}
