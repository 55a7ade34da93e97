/** HTTPRewriteHeaderWrapper of http-resolver.go: the reader that rewrites heads and passes bodies,
    however the network cuts the stream into pieces and whatever buffers its caller brings. */
module HttpReader {
  import opened Wrappers
  import opened Text
  import opened HttpHeaders
  import opened HttpParser
  import opened HttpFraming
  import opened HttpSteps
  import opened Streams

  datatype ReaderState = InHead | InBody | InChunkedBody | Upgraded

  /** OutOfRange is the panic of a slice expression that runs past the caller's buffer. */
  datatype ReadError = EndOfFile | SourceFailed | BadHead | BadLength | RewriteFailed | BadChunk | NegativeBody | NoFunction | OutOfRange

  /** The call of WriteHeader on a parsed request whose fields the callback has changed. */
  method WriteRequestAnew(out: string, head: Head<Request>, input: string) returns (written: string)
    requires Fits(Source(head, input))
    ensures written == out + NewHead(RequestLine(head.fields, true), head.fields.headers)
  {
    var source := Source(head, input);
    WriteRequestHeaderAnew(source);
    written := WriteRequestTo(out, source, true, true, true);
  }

  method WriteResponseAnew(out: string, head: Head<Response>, input: string) returns (written: string)
    requires Fits(Source(head, input))
    ensures written == out + NewHead(StatusLine(head.fields, true), head.fields.headers)
  {
    var source := Source(head, input);
    WriteResponseHeaderAnew(source);
    written := WriteResponseTo(out, source, true, true, true);
  }

  class HTTPRewriteHeaderWrapper {
    const inner: ReadWriterWithPrefixBuffer
    const rewriter: Rewriter
    const buff: array<char>
    var input: string
    var output: string
    var state: ReaderState
    var bodyToRead: int
    var lastBodyParse: nat
    var finalChunk: bool
    var headerParsed: bool

    /** The whole source stream, what callers were given of it, and how many heads were parsed. */
    ghost const stream: string
    ghost var delivered: string
    ghost var heads: nat
    /** What the rewriter makes of the stream. */
    ghost const rules: Rules

    constructor (inner: ReadWriterWithPrefixBuffer, rewriter: Rewriter)
      requires inner.Valid()
      ensures Valid() && fresh(buff) && this.inner == inner && this.rewriter == rewriter
      ensures stream == inner.Unread() && delivered == "" && heads == 0 && state == InHead && output == ""
      ensures rules == RulesFor(rewriter, stream)
    {
      this.inner, this.rewriter := inner, rewriter;
      buff := new char[0xfff];
      input, output, state, bodyToRead, lastBodyParse, finalChunk, headerParsed := "", "", InHead, 0, 0, false, false;
      stream, delivered, heads := inner.Unread(), "", 0;
      rules := RulesFor(rewriter, inner.Unread());
      new;
      RulesAreWired(rewriter, stream);
      NothingAfter(inner.Unread());
      NothingAfter("");
    }

    ghost function Mode(): Mode
      reads this
    {
      match state
      case InHead => AtHead
      case InBody => Sized(bodyToRead)
      case InChunkedBody => ChunkMode(bodyToRead, finalChunk)
      case Upgraded => Verbatim
    }

    /** The reader, its source and its callers at this moment. */
    ghost function Snap(): View
      requires inner.Valid()
      reads this, inner, inner.inner
    {
      View(Mode(), input, output, lastBodyParse, inner.Unread(), delivered, heads)
    }

    /** What holds of the fields at all times. */
    ghost predicate Framed()
      reads this, inner, inner.inner
    {
      && inner.Valid() && buff.Length == 0xfff && Wired(rules, rewriter, stream)
      && (finalChunk ==> state == InChunkedBody && bodyToRead > 0)
      && (headerParsed <==> heads > 0)
    }

    /** The fields and the bytes put out so far account for every byte of the stream, and what was
        parsed in vain is all of the input. */
    ghost predicate Valid()
      reads this, inner, inner.inner
    {
      Framed() && Good(rules, Snap())
    }

    /** What callers were given is a prefix of the rewrite of the whole stream. */
    ghost predicate Safe()
      reads this
    {
      HasPrefix(rules.whole, delivered)
    }

    lemma AccountsIsSafe()
      requires Framed() && Accounts(rules, Snap())
      ensures Safe()
    {
      HttpSteps.AccountsIsSafe(rules, rewriter, stream, Snap());
    }

    /** The caller's buffer starts with the n bytes that were added to what was delivered. */
    twostate predicate Gave(n: nat, caller: array<char>)
      reads this, caller
    {
      n <= caller.Length && delivered == old(delivered) + caller[..n]
    }

    /** With nothing left anywhere, callers were given the whole rewrite. */
    lemma DrainedIsWhole()
      requires Valid() && Drained()
      ensures delivered == rules.whole
    {
      CaughtUpIsWhole(rules, rewriter, stream, Snap());
      SafeByRules(rules, rewriter, stream, heads, delivered + output, Mode(), input + inner.Unread());
    }

    static lemma GaveNothing(delivered: string, bytes: string)
      requires bytes == ""
      ensures delivered + bytes == delivered
    {
    }

    /** The source only moves on. */
    twostate predicate Forward()
      requires old(inner.Valid()) && inner.Valid()
      reads inner, inner.inner
    {
      inner.inner.asked >= old(inner.inner.asked) && inner.Counted()
    }

    /** The source was asked with nothing left in it. */
    twostate predicate Dry()
      reads inner, inner.inner
    {
      inner.inner.dry > old(inner.inner.dry)
    }

    /** There is nothing to give, and nothing new to parse. */
    ghost predicate Drained()
      requires inner.Valid()
      reads this, inner, inner.inner
    {
      inner.Unread() == "" && output == "" && Hungry(Snap())
    }

    /** The source was asked and answered with an error. */
    twostate predicate Failed()
      reads inner, inner.inner
    {
      inner.inner.failures > old(inner.inner.failures)
    }

    /** A read did something: it gave bytes, took bytes, asked the source, or parsed for the first
        time what it holds; a stalled reader cannot do the last. */
    twostate predicate Moved(n: nat, room: nat)
      requires old(inner.Valid()) && inner.Valid()
      reads this, inner, inner.inner
    {
      && Forward()
      && (n > 0 || room == 0
          || |inner.Unread()| < old(|inner.Unread()|) || inner.inner.asked > old(inner.inner.asked)
          || (Stalled(rules, Snap()) && !old(Stalled(rules, Snap()))))
    }

    /** How many bytes the reader holds that a call must hand out, outside the head state. */
    ghost function Due(room: nat): nat
      reads this
    {
      if output != "" then Min(room, |output|)
      else if state == Upgraded then Min(room, |input|)
      else if bodyToRead > 0 then Min(Min(bodyToRead, room), |input|)
      else 0
    }

    /** The buffered bytes cannot become a head, whatever follows them. */
    ghost predicate BadHeadError(err: ReadError)
      reads this
    {
      err in {BadHead, BadLength, RewriteFailed, NoFunction} && rules.head(input).HeadError?
    }

    /** The same for a chunk, for a length below zero, and for a buffer too short for the last chunk. */
    ghost predicate BadBodyError(err: ReadError, room: nat)
      reads this
    {
      match err
      case BadChunk => state == InChunkedBody && rules.chunk(input).Malformed?
      case NegativeBody => state == InChunkedBody && bodyToRead < 0
      case OutOfRange =>
        || (state == InBody && bodyToRead < 0)
        || (state == InChunkedBody && rules.chunk(input).Done? && rules.chunk(input).value.0 == 0
            && rules.chunk(input).value.1 + 2 > room)
      case _ => false
    }

    // ---------------------------------------------------------------- reads from the buffers

    /** r.output.Read(buff) */
    method ReadOutput(caller: array<char>) returns (n: nat)
      requires Valid() && output != ""
      modifies this`output, this`delivered, caller
      ensures Valid() && n == Min(caller.Length, |old(output)|) && Gave(n, caller)
      ensures Snap() == GiveOutput(old(Snap()), n)
    {
      GiveOutputKeeps(rules, Snap(), Min(caller.Length, |output|));
      n := Min(caller.Length, |output|);
      CopyInto(caller, output[..n]);
      delivered, output := delivered + output[..n], output[n..];
    }

    /** A read of at most limit bytes that go to the caller as they are, from the input or, when
        that is empty, straight from the source. */
    method ReadThrough(caller: array<char>, limit: nat) returns (n: nat, err: Option<ReadError>)
      requires inner.Valid() && limit <= caller.Length && caller != buff
      modifies this`input, this`delivered, inner`prefix, inner.inner`pos, inner.inner`asked, inner.inner`vain, inner.inner`dry, inner.inner`failures, caller
      ensures inner.Valid() && n <= limit && n <= Within(old(Snap()))
      ensures Gave(n, caller) && Snap() == PassOn(old(Snap()), n)
      ensures n > 0 || limit == 0 || inner.inner.asked > old(inner.inner.asked)
      ensures err.None? || err == Some(SourceFailed)
      ensures Forward() && (err.Some? <==> Failed())
      ensures old(input) != "" ==> err.None? && n == Min(limit, |old(input)|)
      ensures Dry() ==> n == 0 && input == ""
    {
      ghost var v := Snap();
      err := None;
      if |input| > 0 {
        n := Min(limit, |input|);
        PassOnAhead(v, n);
        CopyInto(caller, input[..n]);
        delivered, input := delivered + input[..n], input[n..];
      } else {
        var failed: bool;
        n, failed := inner.Read(caller, limit);
        PassOnAhead(v, n);
        delivered := delivered + v.unread[..n];
        err := if failed then Some(SourceFailed) else None;
      }
    }

    /** inner is read into the internal buffer, which is appended to input. */
    method ReadMore() returns (taken: nat, err: bool)
      requires inner.Valid() && buff.Length == 0xfff
      modifies this`input, inner`prefix, inner.inner`pos, inner.inner`asked, inner.inner`vain, inner.inner`dry, inner.inner`failures, buff
      ensures inner.Valid() && Forward() && (err <==> Failed())
      ensures !err ==> taken <= |old(inner.Unread())| && Snap() == Refill(old(Snap()), taken)
      ensures taken > 0 ==> |inner.Unread()| < old(|inner.Unread()|)
      ensures err || taken == 0 ==> inner.inner.asked > old(inner.inner.asked)
      ensures Dry() ==> taken == 0
    {
      taken, err := inner.Read(buff, 0xfff);
      if !err {
        input := input + buff[..taken];
      }
    }

    // ---------------------------------------------------------------- the head state

    /** Reads more when there is nothing to parse or what there is was parsed in vain; after a parsed
        head that ends in an error.  Otherwise the source is left alone. */
    method FillHead() returns (go: bool, err: Option<ReadError>, ghost taken: nat)
      requires Valid() && state == InHead
      modifies this`input, inner`prefix, inner.inner`pos, inner.inner`asked, inner.inner`vain, inner.inner`dry, inner.inner`failures, inner.inner`closed, buff
      ensures inner.Valid() && Forward()
      ensures !old(Hungry(Snap())) ==> go && taken == 0 && input == old(input) && unchanged(inner, inner.inner, buff)
      ensures old(Hungry(Snap())) ==> inner.inner.asked > old(inner.inner.asked) || |inner.Unread()| < old(|inner.Unread()|)
      ensures old(Hungry(Snap())) && headerParsed ==> err.Some?
      ensures err.None? ==> taken <= |old(inner.Unread())| && Snap() == Refill(old(Snap()), taken)
      ensures err.None? ==> (go <==> !old(Hungry(Snap())) || taken > 0)
      ensures err.Some? ==> !go && (err.value == SourceFailed || (err.value == EndOfFile && headerParsed && inner.inner.closed))
      ensures err == Some(SourceFailed) <==> Failed()
      ensures Dry() ==> taken == 0
    {
      RefillKeeps(rules, Snap(), 0);
      go, err, taken := true, None, 0;
      if |input| == 0 || lastBodyParse == |input| {
        var more, failed := ReadMore();
        taken := more;
        if failed {
          return false, Some(SourceFailed), taken;
        }
        if headerParsed {
          inner.Close();
          return false, Some(EndOfFile), taken;
        }
        if more == 0 {
          return false, None, taken;
        }
      }
    }

    /** The framing that was read off a head, before it is known whether there is a body. */
    ghost function BodyMode(): Option<Mode>
      reads this`state, this`bodyToRead
    {
      match state
      case InBody => Some(SizedMode(bodyToRead))
      case InChunkedBody => if bodyToRead == 0 then Some(ChunkHead) else None
      case _ => None
    }

    /** Content-Length as the code reads it. */
    method SetLength(headers: Headers) returns (ok: bool)
      modifies this`state, this`bodyToRead
      ensures ok <==> LengthFraming(headers).Some?
      ensures ok ==> state == InBody && BodyMode() == LengthFraming(headers)
    {
      state := InBody;
      var contentLength := Lookup(headers, CONTENT_LENGTH);
      if |contentLength| == 0 {
        bodyToRead := 0;
      } else {
        var length := Atoi(contentLength);
        if length.None? {
          return false;
        }
        bodyToRead := length.value;
      }
      return true;
    }

    method FrameRequest(headers: Headers) returns (ok: bool)
      modifies this`state, this`bodyToRead
      ensures ok <==> RequestFraming(headers).Some?
      ensures ok ==> BodyMode() == RequestFraming(headers)
    {
      var transferEncoding := Lookup(headers, TRANSFER_ENCODING);
      if transferEncoding == "chunked" {
        state, bodyToRead := InChunkedBody, 0;
        return true;
      }
      ok := SetLength(headers);
    }

    method FrameResponse(statusCode: int, headers: Headers) returns (ok: bool)
      modifies this`state, this`bodyToRead
      ensures ok <==> ResponseFraming(statusCode, headers).Some?
      ensures ok ==> BodyMode() == ResponseFraming(statusCode, headers)
    {
      var transferEncoding := Lookup(headers, TRANSFER_ENCODING);
      if transferEncoding == "chunked" {
        state, bodyToRead := InChunkedBody, 0;
      } else if statusCode == 204 {
        state, bodyToRead := InBody, 0;
      } else if |Lookup(headers, CONTENT_LENGTH)| == 0 {
        state, bodyToRead := InChunkedBody, 0;
      } else {
        ok := SetLength(headers);
        return;
      }
      return true;
    }

    /** The old head leaves the input; a body of no bytes is no body. */
    method LeaveHead(size: nat, upgrade: bool)
      requires size <= |input| && BodyMode().Some? && !finalChunk
      modifies this`state, this`input, this`heads
      ensures input == old(input)[size..] && heads == old(heads) + 1
      ensures Mode() == if upgrade then Verbatim else old(BodyMode()).value
    {
      heads := heads + 1;
      input := input[size..];
      if upgrade {
        state := Upgraded;
        return;
      }
      if bodyToRead == 0 && state != InChunkedBody {
        state := InHead;
      }
    }

    /** A parse attempt found the head incomplete and did nothing but remember it. */
    twostate predicate HeadWaits()
      reads this
    {
      && rules.head(input).HeadMore? && lastBodyParse == |input|
      && unchanged(`state, `bodyToRead, `headerParsed, `input, `output, `heads)
    }

    /** A parse attempt took the head off the input. */
    twostate predicate HeadTaken()
      reads this
    {
      var r := rules.head(old(input));
      && r.HeadDone? && r.size <= |old(input)|
      && output == old(output) + r.text && input == old(input)[r.size..]
      && Mode() == r.mode && heads == old(heads) + 1 && headerParsed && lastBodyParse == 0
    }

    method ParseRequest(rewrite: Request -> Option<Request>) returns (parsed: Parsed<Head<Request>>)
      requires Wired(rules, rewriter, stream) && rewriter == OnRequest(rewrite)
      ensures parsed.NeedMore? ==> rules.head(input).HeadMore?
      ensures parsed.Malformed? ==> rules.head(input).HeadError?
      ensures parsed.Done? ==> Fits(Source(parsed.value, input)) && rules.head(input) == RequestHead(rewrite, parsed.value)
    {
      assert rules.head(input) == RewriteHead(rewriter, input);
      parsed := ParseHTTPRequest(input);
      if parsed.Done? {
        ParsedRequestFits(input);
      }
    }

    /** Parses a request, reads its framing and calls the callback; head holds the changed fields. */
    method RewriteRequest(rewrite: Request -> Option<Request>) returns (go: bool, err: Option<ReadError>, head: Head<Request>)
      requires state == InHead && rewriter == OnRequest(rewrite) && Wired(rules, rewriter, stream)
      modifies this`state, this`bodyToRead, this`lastBodyParse, this`headerParsed
      ensures go ==> && err.None? && headerParsed && lastBodyParse == 0 && BodyMode().Some? && Fits(Source(head, input))
                     && rules.head(input) == HeadDone(NewHead(RequestLine(head.fields, true), head.fields.headers), head.HeaderSize(),
                                                      BodyMode().value)
      ensures !go && err.None? ==> && rules.head(input).HeadMore? && lastBodyParse == |input|
                                   && unchanged(`state, `bodyToRead, `headerParsed)
      ensures err.Some? ==> !go && BadHeadError(err.value)
    {
      head := Head(Request("", "", "", 0, 0, map[]), 0, 0);
      var parsed := ParseRequest(rewrite);
      if parsed.Malformed? {
        return false, Some(BadHead), head;
      }
      if parsed.NeedMore? {
        lastBodyParse := |input|;
        return false, None, head;
      }
      head := parsed.value;
      headerParsed, lastBodyParse := true, 0;
      var ok := FrameRequest(head.fields.headers);
      if !ok {
        return false, Some(BadLength), head;
      }
      var request := rewrite(head.fields);
      if request.None? {
        return false, Some(RewriteFailed), head;
      }
      head := head.(fields := request.value);
      return true, None, head;
    }

    method ParseRequestHead(rewrite: Request -> Option<Request>) returns (go: bool, err: Option<ReadError>)
      requires state == InHead && rewriter == OnRequest(rewrite) && !finalChunk && Wired(rules, rewriter, stream)
      modifies this`state, this`bodyToRead, this`lastBodyParse, this`headerParsed, this`input, this`output, this`heads
      ensures go ==> err.None? && HeadTaken()
      ensures !go && err.None? ==> HeadWaits()
      ensures err.Some? ==> !go && input == old(input) && BadHeadError(err.value)
    {
      var head;
      go, err, head := RewriteRequest(rewrite);
      if go {
        output := WriteRequestAnew(output, head, input);
        LeaveHead(head.HeaderSize(), false);
      }
    }

    method ParseResponse(rewrite: Response -> Option<Response>) returns (parsed: Parsed<Head<Response>>)
      requires Wired(rules, rewriter, stream) && rewriter == OnResponse(rewrite)
      ensures parsed.NeedMore? ==> rules.head(input).HeadMore?
      ensures parsed.Malformed? ==> rules.head(input).HeadError?
      ensures parsed.Done? ==> Fits(Source(parsed.value, input)) && rules.head(input) == ResponseHead(rewrite, parsed.value)
    {
      assert rules.head(input) == RewriteHead(rewriter, input);
      parsed := ParseHTTPResponse(input);
      if parsed.Done? {
        ParsedResponseFits(input);
      }
    }

    /** Parses a response, reads its framing and calls the callback; head holds the changed fields. */
    method RewriteResponse(rewrite: Response -> Option<Response>) returns (go: bool, err: Option<ReadError>, head: Head<Response>)
      requires state == InHead && rewriter == OnResponse(rewrite) && Wired(rules, rewriter, stream)
      modifies this`state, this`bodyToRead, this`lastBodyParse, this`headerParsed
      ensures go ==> && err.None? && headerParsed && lastBodyParse == 0 && BodyMode().Some? && Fits(Source(head, input))
                     && rules.head(input) == HeadDone(NewHead(StatusLine(head.fields, true), head.fields.headers), head.HeaderSize(),
                                                      if head.fields.statusCode == 101 then Verbatim else BodyMode().value)
      ensures !go && err.None? ==> && rules.head(input).HeadMore? && lastBodyParse == |input|
                                   && unchanged(`state, `bodyToRead, `headerParsed)
      ensures err.Some? ==> !go && BadHeadError(err.value)
    {
      head := Head(Response("", 0, 0, 0, "", map[]), 0, 0);
      var parsed := ParseResponse(rewrite);
      if parsed.Malformed? {
        return false, Some(BadHead), head;
      }
      if parsed.NeedMore? {
        lastBodyParse := |input|;
        return false, None, head;
      }
      head := parsed.value;
      headerParsed, lastBodyParse := true, 0;
      var ok := FrameResponse(head.fields.statusCode, head.fields.headers);
      if !ok {
        return false, Some(BadLength), head;
      }
      var response := rewrite(head.fields);
      if response.None? {
        return false, Some(RewriteFailed), head;
      }
      head := head.(fields := response.value);
      return true, None, head;
    }

    method ParseResponseHead(rewrite: Response -> Option<Response>) returns (go: bool, err: Option<ReadError>)
      requires state == InHead && rewriter == OnResponse(rewrite) && !finalChunk && Wired(rules, rewriter, stream)
      modifies this`state, this`bodyToRead, this`lastBodyParse, this`headerParsed, this`input, this`output, this`heads
      ensures go ==> err.None? && HeadTaken()
      ensures !go && err.None? ==> HeadWaits()
      ensures err.Some? ==> !go && input == old(input) && BadHeadError(err.value)
    {
      var head;
      go, err, head := RewriteResponse(rewrite);
      if go {
        output := WriteResponseAnew(output, head, input);
        LeaveHead(head.HeaderSize(), head.fields.statusCode == 101);
      }
    }

    /** The call of the parser that the rewriter asks for. */
    method ParseAnyHead() returns (go: bool, err: Option<ReadError>)
      requires state == InHead && !finalChunk && Wired(rules, rewriter, stream)
      modifies this`state, this`bodyToRead, this`lastBodyParse, this`headerParsed, this`input, this`output, this`heads
      ensures go ==> err.None? && HeadTaken()
      ensures !go && err.None? ==> HeadWaits()
      ensures err.Some? ==> !go && input == old(input) && BadHeadError(err.value)
    {
      match rewriter {
        case OnRequest(rewrite) => go, err := ParseRequestHead(rewrite);
        case OnResponse(rewrite) => go, err := ParseResponseHead(rewrite);
        case NoRewriter =>
          assert rules.head(input) == RewriteHead(rewriter, input);
          return false, Some(NoFunction);
      }
    }

    /** Parses a head off the buffered bytes, if they hold one. */
    method ParseHead() returns (go: bool, err: Option<ReadError>)
      requires Framed() && Accounts(rules, Snap()) && state == InHead && input != ""
      modifies this`state, this`bodyToRead, this`lastBodyParse, this`headerParsed, this`input, this`output, this`heads
      ensures err.None? ==> Valid()
      ensures go <==> old(rules.head(input)).HeadDone?
      ensures go ==> err.None? && rules.head(old(input)).size <= |old(input)| && Snap() == TakeHead(rules, old(Snap()))
      ensures !go && err.None? ==> Snap() == Waits(old(Snap())) && Stalled(rules, Snap()) && unchanged(`state, `headerParsed)
      ensures err.Some? ==> BadHeadError(err.value)
    {
      ghost var v := Snap();
      go, err := ParseAnyHead();
      if go {
        TakeHeadKeeps(rules, rewriter, stream, v);
      } else if err.None? {
        WaitsKeeps(rules, v);
      }
    }

    /** After a 101 what is left of the input joins the output. */
    method JoinInput()
      requires Valid() && state == Upgraded
      modifies this`input, this`output
      ensures Valid() && Snap() == Upgrade(old(Snap()))
    {
      UpgradeKeeps(rules, rewriter, stream, Snap());
      NothingAfter(output);
      if |input| > 0 {
        output, input := output + input, "";
      }
    }

    /** Parses a head; its text, with the input after a 101, is what the output now ends with. */
    method ParseAndUpgrade() returns (go: bool, err: Option<ReadError>)
      requires Framed() && Accounts(rules, Snap()) && state == InHead && input != ""
      modifies this`input, this`output, this`state, this`bodyToRead, this`lastBodyParse, this`headerParsed, this`heads
      ensures err.None? ==> Valid()
      ensures go <==> old(rules.head(input)).HeadDone?
      ensures go ==> err.None? && rules.head(old(input)).size <= |old(input)| && Snap() == TakeWholeHead(rules, old(Snap()))
      ensures !go && err.None? ==> Snap() == Waits(old(Snap())) && Stalled(rules, Snap()) && unchanged(`state, `headerParsed)
      ensures err.Some? ==> BadHeadError(err.value)
    {
      go, err := ParseHead();
      if go && state == Upgraded {
        JoinInput();
      }
    }

    /** Parses a head off the buffered bytes; the caller gets the start of its text, after whatever
        was left of the output. */
    method ReadParsedHead(caller: array<char>) returns (n: nat, err: Option<ReadError>)
      requires Framed() && Accounts(rules, Snap()) && state == InHead && input != ""
      modifies this`input, this`output, this`state, this`bodyToRead, this`lastBodyParse, this`headerParsed, this`heads
      modifies this`delivered, caller
      ensures Gave(n, caller)
      ensures err.None? ==> Valid() && HeadStep(rules, old(Snap()), Snap(), caller.Length, n)
      ensures old(rules.head(input)).HeadDone? ==> err.None? && (n > 0 || caller.Length == 0)
      ensures !old(rules.head(input)).HeadDone? ==> n == 0 && (err.None? ==> Stalled(rules, Snap()) && unchanged(`state, `headerParsed))
      ensures err.Some? ==> n == 0 && BadHeadError(err.value)
    {
      n := 0;
      TakeWholeHeadHasText(rules, rewriter, stream, Snap());
      var go: bool;
      go, err := ParseAndUpgrade();
      GaveNothing(delivered, caller[..0]);
      if go {
        n := ReadOutput(caller);
      }
    }

    /** A call between messages: the source is asked when there is nothing new to parse, then the
        buffered bytes are parsed.  taken is how many bytes came from the source. */
    method ReadHead(caller: array<char>) returns (n: nat, err: Option<ReadError>, ghost taken: nat)
      requires Valid() && state == InHead && caller != buff
      modifies this`input, this`output, this`state, this`bodyToRead, this`lastBodyParse, this`headerParsed, this`heads
      modifies this`delivered, inner`prefix, inner.inner`pos, inner.inner`asked, inner.inner`vain, inner.inner`dry, inner.inner`failures, inner.inner`closed, buff, caller
      ensures Gave(n, caller)
      ensures err.None? ==> && Valid() && Moved(n, caller.Length)
                            && HeadCall(rules, old(Snap()), Snap(), caller.Length, n, taken)
      ensures err.None? && heads == old(heads) ==> unchanged(`state, `headerParsed)
      ensures old(rules.head(input)).HeadDone? ==> err.None? && taken == 0
      ensures old(headerParsed) && !old(rules.head(input)).HeadDone? ==>
                n == 0 && (err.Some? || (taken == 0 && Stalled(rules, Snap())))
      ensures old(headerParsed) && old(Hungry(Snap())) ==> err.Some?
      ensures err.Some? ==> n == 0 && (err.value == SourceFailed || (err.value == EndOfFile && old(headerParsed) && inner.inner.closed)
                                       || BadHeadError(err.value))
      ensures err == Some(SourceFailed) <==> Failed()
      ensures err.None? && Dry() ==> n == 0 && Drained()
    {
      ghost var v := Snap();
      HungryHasNoHead(rules, rewriter, stream, v);
      if output != "" { HeldMeansParsed(rules, rewriter, stream, v); }
      n := 0;
      var go: bool;
      go, err, taken := FillHead();
      if !go {
        GaveNothing(delivered, caller[..0]);
        if err.None? {
          RefillKeeps(rules, v, 0);
        }
        return;
      }
      RefillKeeps(rules, v, taken);
      n, err := ReadParsedHead(caller);
    }

    // ---------------------------------------------------------------- the body states

    /** After a 101 everything passes. */
    method ReadVerbatim(caller: array<char>) returns (n: nat, err: Option<ReadError>)
      requires Valid() && state == Upgraded && output == "" && caller != buff
      modifies this`input, this`delivered, inner`prefix, inner.inner`pos, inner.inner`asked, inner.inner`vain, inner.inner`dry, inner.inner`failures, caller
      ensures Valid() && Gave(n, caller)
      ensures n > 0 || caller.Length == 0 || inner.inner.asked > old(inner.inner.asked)
      ensures old(input) != "" ==> err.None? && n == Min(caller.Length, |old(input)|)
      ensures err.None? || err == Some(SourceFailed)
      ensures Forward() && (err.Some? <==> Failed())
      ensures Dry() && caller.Length > 0 ==> n == 0 && Drained()
    {
      ghost var v := Snap();
      n, err := ReadThrough(caller, caller.Length);
      TakeVerbatimKeeps(rules, rewriter, stream, v, n);
    }

    /** What is left of output comes first. */
    method ReadUpgraded(caller: array<char>) returns (n: nat, err: Option<ReadError>)
      requires Valid() && state == Upgraded && caller != buff
      modifies this`input, this`output, this`delivered, inner`prefix, inner.inner`pos, inner.inner`asked, inner.inner`vain, inner.inner`dry, inner.inner`failures, caller
      ensures Valid() && Gave(n, caller)
      ensures n > 0 || caller.Length == 0 || inner.inner.asked > old(inner.inner.asked)
      ensures old(Due(caller.Length)) > 0 ==> err.None? && n == old(Due(caller.Length))
      ensures err.None? || err == Some(SourceFailed)
      ensures Forward() && (err.Some? <==> Failed())
      ensures Dry() && caller.Length > 0 ==> n == 0 && Drained()
    {
      if |output| > 0 {
        n := ReadOutput(caller);
        return n, None;
      }
      n, err := ReadVerbatim(caller);
    }

    /** The bytes of a body of known length. */
    method ReadSizedData(caller: array<char>) returns (n: nat, err: Option<ReadError>)
      requires Valid() && state == InBody && bodyToRead > 0 && output == "" && caller != buff
      modifies this`input, this`state, this`bodyToRead, this`delivered, inner`prefix, inner.inner`pos, inner.inner`asked, inner.inner`vain, inner.inner`dry, inner.inner`failures, caller
      ensures Valid() && Gave(n, caller) && n <= old(bodyToRead) && n <= Within(old(Snap()))
      ensures bodyToRead == old(bodyToRead) - n && Snap() == TakeSized(old(Snap()), n)
      ensures n > 0 || caller.Length == 0 || inner.inner.asked > old(inner.inner.asked)
      ensures old(input) != "" ==> err.None? && n == Min(Min(old(bodyToRead), caller.Length), |old(input)|)
      ensures err.None? || err == Some(SourceFailed)
      ensures Forward() && (err.Some? <==> Failed())
      ensures Dry() && caller.Length > 0 ==> n == 0 && Drained()
    {
      ghost var v := Snap();
      n, err := ReadThrough(caller, Min(bodyToRead, caller.Length));
      TakeSizedKeeps(rules, rewriter, stream, v, n);
      bodyToRead := bodyToRead - n;
      if bodyToRead == 0 {
        state := InHead;
      }
    }

    method ReadBody(caller: array<char>) returns (n: nat, err: Option<ReadError>)
      requires Valid() && state == InBody && output == "" && caller != buff
      modifies this`input, this`state, this`bodyToRead, this`delivered, inner`prefix, inner.inner`pos, inner.inner`asked, inner.inner`vain, inner.inner`dry, inner.inner`failures, caller
      ensures Valid() && Gave(n, caller)
      ensures old(bodyToRead) > 0 ==> n <= old(bodyToRead) && bodyToRead == old(bodyToRead) - n
      ensures n > 0 || err.Some? || caller.Length == 0 || inner.inner.asked > old(inner.inner.asked)
      ensures old(Due(caller.Length)) > 0 ==> err.None? && n == old(Due(caller.Length))
      ensures err.Some? ==> err.value == SourceFailed || (n == 0 && BadBodyError(err.value, caller.Length))
      ensures Forward() && (err == Some(SourceFailed) <==> Failed())
      ensures Dry() && caller.Length > 0 ==> n == 0 && Drained()
    {
      if bodyToRead < 0 {
        GaveNothing(delivered, caller[..0]);
        return 0, Some(OutOfRange);
      }
      n, err := ReadSizedData(caller);
    }

    /** The bytes of a chunk and of its line break. */
    method ReadChunkData(caller: array<char>) returns (n: nat, err: Option<ReadError>)
      requires Valid() && state == InChunkedBody && bodyToRead > 0 && output == "" && caller != buff
      modifies this`input, this`state, this`bodyToRead, this`finalChunk, this`delivered, inner`prefix, inner.inner`pos, inner.inner`asked, inner.inner`vain, inner.inner`dry, inner.inner`failures, caller
      ensures Valid() && Gave(n, caller) && n <= old(bodyToRead) && n <= Within(old(Snap()))
      ensures bodyToRead == old(bodyToRead) - n && Snap() == TakeChunk(old(Snap()), n)
      ensures n > 0 || caller.Length == 0 || inner.inner.asked > old(inner.inner.asked)
      ensures old(input) != "" ==> err.None? && n == Min(Min(old(bodyToRead), caller.Length), |old(input)|)
      ensures err.None? || err == Some(SourceFailed)
      ensures Forward() && (err.Some? <==> Failed())
      ensures Dry() && caller.Length > 0 ==> n == 0 && Drained()
    {
      ghost var v := Snap();
      n, err := ReadThrough(caller, Min(bodyToRead, caller.Length));
      TakeChunkKeeps(rules, rewriter, stream, v, n);
      bodyToRead := bodyToRead - n;
      if bodyToRead == 0 && finalChunk {
        state, finalChunk := InHead, false;
      }
      assert Mode() == AfterChunk(v.mode.n - n, v.mode.final);
    }

    /** Reads more when there is no chunk line to parse or what there is was parsed in vain; otherwise
        the source is left alone. */
    method FillChunkLine() returns (go: bool, err: Option<ReadError>, ghost taken: nat)
      requires Valid() && state == InChunkedBody && bodyToRead == 0
      modifies this`input, inner`prefix, inner.inner`pos, inner.inner`asked, inner.inner`vain, inner.inner`dry, inner.inner`failures, buff
      ensures inner.Valid() && Forward()
      ensures !old(Hungry(Snap())) ==> go && taken == 0 && input == old(input) && unchanged(inner, inner.inner, buff)
      ensures !go ==> inner.inner.asked > old(inner.inner.asked)
      ensures err.None? ==> taken <= |old(inner.Unread())| && Snap() == Refill(old(Snap()), taken)
      ensures err.None? ==> (go <==> !old(Hungry(Snap())) || taken > 0)
      ensures err.Some? ==> !go && err.value == SourceFailed
      ensures err.Some? <==> Failed()
      ensures Dry() ==> taken == 0 && !go
    {
      RefillKeeps(rules, Snap(), 0);
      go, err, taken := true, None, 0;
      if bodyToRead == 0 && (|input| == 0 || lastBodyParse == |input|) {
        var more, failed := ReadMore();
        taken := more;
        if failed {
          return false, Some(SourceFailed), taken;
        }
        if more == 0 {
          return false, None, taken;
        }
      }
    }

    /** parseHTTPChunkHead on the input. */
    method ParseChunkHead() returns (parsed: Parsed<(int, nat)>)
      requires Wired(rules, rewriter, stream)
      ensures parsed == rules.chunk(input) && (parsed.Done? ==> 3 <= parsed.value.1 <= |input|)
    {
      parsed := ParseHTTPChunkHead(input);
    }

    /** The last chunk's line and its line break go straight to the caller. */
    method PassLastChunk(caller: array<char>, offset: nat) returns (n: nat)
      requires Framed() && Accounts(rules, Snap()) && state == InChunkedBody && bodyToRead == 0 && output == ""
      requires rules.chunk(input) == Done((0, offset)) && offset + 2 <= |input| && offset + 2 <= caller.Length
      modifies this`input, this`state, this`lastBodyParse, this`delivered, caller
      ensures Valid() && n == offset + 2 && Gave(n, caller) && Snap() == TakeLastChunk(old(Snap()), offset)
    {
      TakeLastChunkKeeps(rules, rewriter, stream, Snap(), offset);
      n := offset + 2;
      CopyInto(caller, input[..n]);
      delivered, input := delivered + input[..n], input[n..];
      state, lastBodyParse := InHead, 0;
    }

    /** A chunk line goes to the output; its data are next. */
    method MoveChunkLine(size: int, offset: nat)
      requires Framed() && Accounts(rules, Snap()) && state == InChunkedBody && bodyToRead == 0
      requires rules.chunk(input) == Done((size, offset)) && offset <= |input|
      modifies this`input, this`output, this`bodyToRead, this`lastBodyParse, this`finalChunk
      ensures Valid() && output != "" && Snap() == TakeChunkLine(old(Snap()), size, offset)
    {
      TakeChunkLineKeeps(rules, rewriter, stream, Snap(), size, offset);
      if size == 0 {
        finalChunk := true;
      }
      bodyToRead, lastBodyParse := Wrap64(size + 2), 0;
      output := output + input[..offset];
      input := input[offset..];
    }

    /** The chunk line at the start of the input goes to the output; when the line break of the last
        chunk is there as well, both go straight to the caller. */
    method ParseChunkLine(caller: array<char>) returns (go: bool, n: nat, err: Option<ReadError>)
      requires Framed() && Accounts(rules, Snap()) && state == InChunkedBody && bodyToRead == 0 && input != "" && output == ""
      modifies this`input, this`output, this`state, this`bodyToRead, this`lastBodyParse, this`finalChunk, this`delivered, caller
      ensures Gave(n, caller)
      ensures err.None? ==> Valid()
      ensures err.None? && go ==> n == 0 && output != "" && state == InChunkedBody
      ensures err.None? && !go ==> output == "" && if n > 0 then state == InHead else Stalled(rules, Snap())
      ensures err.Some? ==> n == 0 && BadBodyError(err.value, caller.Length)
    {
      go, n, err := false, 0, None;
      GaveNothing(delivered, caller[..0]);
      var parsed := ParseChunkHead();
      if parsed.Malformed? {
        return false, 0, Some(BadChunk);
      }
      if parsed.NeedMore? {
        WaitsKeeps(rules, Snap());
        lastBodyParse := |input|;
        return;
      }
      var (size, offset) := parsed.value;
      if size == 0 && |input| >= offset + 2 {
        if offset + 2 > caller.Length {
          lastBodyParse := 0;
          return false, 0, Some(OutOfRange);
        }
        n := PassLastChunk(caller, offset);
        return;
      }
      MoveChunkLine(size, offset);
      go := true;
    }

    /** A chunk line that is there; its first bytes go to the caller. */
    method ReadChunkLine(caller: array<char>) returns (n: nat, err: Option<ReadError>)
      requires Framed() && Accounts(rules, Snap()) && state == InChunkedBody && bodyToRead == 0 && input != "" && output == ""
      modifies this`input, this`output, this`state, this`bodyToRead, this`lastBodyParse, this`finalChunk, this`delivered, caller
      ensures Gave(n, caller)
      ensures err.None? ==> Valid() && (state == InHead ==> output == "") && (n > 0 || caller.Length == 0 || Stalled(rules, Snap()))
      ensures err.Some? ==> n == 0 && BadBodyError(err.value, caller.Length)
    {
      var go: bool;
      go, n, err := ParseChunkLine(caller);
      if go && err.None? {
        n := ReadOutput(caller);
      }
    }

    /** A chunk line is next: it is read in whole before any of it is given. */
    method ReadNextChunk(caller: array<char>) returns (n: nat, err: Option<ReadError>)
      requires Valid() && state == InChunkedBody && bodyToRead == 0 && output == "" && caller != buff
      modifies this`input, this`output, this`state, this`bodyToRead, this`lastBodyParse, this`finalChunk, this`delivered
      modifies inner`prefix, inner.inner`pos, inner.inner`asked, inner.inner`vain, inner.inner`dry, inner.inner`failures, buff, caller
      ensures Gave(n, caller)
      ensures err.None? ==> Valid() && (state == InHead ==> output == "") && Moved(n, caller.Length)
      ensures err.Some? ==> n == 0 && (err.value == SourceFailed || BadBodyError(err.value, caller.Length))
      ensures err == Some(SourceFailed) <==> Failed()
      ensures err.None? && Dry() ==> n == 0 && Drained()
    {
      ghost var v := Snap();
      var go: bool;
      ghost var taken: nat;
      go, err, taken := FillChunkLine();
      n := 0;
      if !go {
        GaveNothing(delivered, caller[..0]);
        if err.None? {
          RefillKeeps(rules, v, 0);
        }
        return;
      }
      RefillKeeps(rules, v, taken);
      n, err := ReadChunkLine(caller);
    }

    method ReadChunked(caller: array<char>) returns (n: nat, err: Option<ReadError>)
      requires Valid() && state == InChunkedBody && output == "" && caller != buff
      modifies this`input, this`output, this`state, this`bodyToRead, this`lastBodyParse, this`finalChunk, this`delivered
      modifies inner`prefix, inner.inner`pos, inner.inner`asked, inner.inner`vain, inner.inner`dry, inner.inner`failures, buff, caller
      ensures Gave(n, caller)
      ensures err.None? ==> Valid() && (state == InHead ==> output == "") && Moved(n, caller.Length)
      ensures old(bodyToRead) > 0 ==> n <= old(bodyToRead) && bodyToRead == old(bodyToRead) - n
      ensures old(Due(caller.Length)) > 0 ==> err.None? && n == old(Due(caller.Length))
      ensures err.Some? && n > 0 ==> Valid() && err.value == SourceFailed
      ensures err.Some? && err.value != SourceFailed ==> BadBodyError(err.value, caller.Length)
      ensures err == Some(SourceFailed) <==> Failed()
      ensures err.None? && Dry() && caller.Length > 0 ==> n == 0 && Drained()
    {
      if bodyToRead < 0 {
        GaveNothing(delivered, caller[..0]);
        return 0, Some(NegativeBody);
      }
      if bodyToRead > 0 {
        n, err := ReadChunkData(caller);
      } else {
        n, err := ReadNextChunk(caller);
      }
    }

    // ---------------------------------------------------------------- the reader

    /** A call in the middle of a message with a body. */
    method ReadInMessage(caller: array<char>) returns (n: nat, err: Option<ReadError>)
      requires Valid() && (state == InBody || state == InChunkedBody) && caller != buff
      modifies this`input, this`output, this`state, this`bodyToRead, this`lastBodyParse, this`finalChunk, this`delivered
      modifies inner`prefix, inner.inner`pos, inner.inner`asked, inner.inner`vain, inner.inner`dry, inner.inner`failures, buff, caller
      ensures Gave(n, caller)
      ensures err.None? ==> Valid() && (state == InHead ==> output == "") && Moved(n, caller.Length)
      ensures old(output) == "" && old(bodyToRead) > 0 ==> n <= old(bodyToRead) && bodyToRead == old(bodyToRead) - n
      ensures old(Due(caller.Length)) > 0 ==> err.None? && n == old(Due(caller.Length))
      ensures err.Some? && n > 0 ==> Valid() && err.value == SourceFailed
      ensures err.Some? && err.value != SourceFailed ==> BadBodyError(err.value, caller.Length)
      ensures err == Some(SourceFailed) <==> Failed()
      ensures err.None? && Dry() && caller.Length > 0 ==> n == 0 && Drained()
    {
      err := None;
      if |output| > 0 {
        n := ReadOutput(caller);
      } else if state == InBody {
        n, err := ReadBody(caller);
      } else {
        n, err := ReadChunked(caller);
      }
    }

    /** One call, in three parts: what holds always, what holds in the middle of a message, and what
        holds between messages, where output that did not fit earlier may still be held.  taken is
        how many bytes came from the source before a head was parsed. */
    method Read(caller: array<char>) returns (n: nat, err: Option<ReadError>, ghost taken: nat)
      requires Valid() && caller != buff
      modifies this, inner`prefix, inner.inner`pos, inner.inner`asked, inner.inner`vain, inner.inner`dry, inner.inner`failures, inner.inner`closed, buff, caller
      // Callers have been given a prefix of the rewrite of the whole stream, whatever happens.
      ensures Gave(n, caller) && Safe()
      ensures err.None? ==> Valid() && Moved(n, caller.Length)
      ensures err == Some(SourceFailed) <==> Failed()
      ensures err.Some? ==> || err.value == SourceFailed || BadHeadError(err.value) || BadBodyError(err.value, caller.Length)
                            || (err.value == EndOfFile && old(state) == InHead && old(headerParsed) && n == 0 && inner.inner.closed)
      // In the middle of a message held bytes are handed out, no call goes past the end of the body
      // or chunk, and when the message ends nothing of it is held back.
      ensures old(state) != InHead && old(Due(caller.Length)) > 0 ==> err.None? && n == old(Due(caller.Length))
      ensures (old(state) == InBody || old(state) == InChunkedBody) && old(output) == "" && old(bodyToRead) > 0 ==>
                n <= old(bodyToRead) && bodyToRead == old(bodyToRead) - n
      ensures old(state) != InHead && err.None? ==> heads == old(heads) && (state == InHead ==> output == "")
      // Between messages held output is handed out exactly when the input starts with a whole head.
      ensures old(state) == InHead && err.None? ==> HeadCall(rules, old(Snap()), Snap(), caller.Length, n, taken)
      ensures old(state) == InHead && old(rules.head(input)).HeadDone? ==> err.None? && taken == 0
      ensures old(state) == InHead && old(headerParsed) && !old(rules.head(input)).HeadDone? ==>
                n == 0 && (err.Some? || (taken == 0 && Stalled(rules, Snap()) && state == InHead))
      ensures old(state) == InHead && old(headerParsed) && old(Hungry(Snap())) ==> err.Some?
      // A call that asks the source in vain for a last time has nothing left to give.
      ensures err.None? && Dry() && caller.Length > 0 ==> n == 0 && Drained() && delivered == rules.whole
    {
      AccountsIsSafe();
      taken := 0;
      if state == Upgraded {
        n, err := ReadUpgraded(caller);
      } else if state == InHead {
        n, err, taken := ReadHead(caller);
      } else {
        n, err := ReadInMessage(caller);
      }
      if err.None? || n > 0 {
        AccountsIsSafe();
        if err.None? && Drained() { DrainedIsWhole(); }
      } else {
        GaveNothing(old(delivered), caller[..0]);
      }
    }

    /** A second call on a reader that found nothing new to parse in the first takes bytes, gives
        bytes or asks the source: the same incomplete head or chunk line is not parsed for ever. */
    method ReadTwice(first: array<char>, second: array<char>) returns (n: nat, m: nat, err: Option<ReadError>)
      requires Valid() && first != buff && second != buff && first.Length > 0 && second.Length > 0
      modifies this, inner`prefix, inner.inner`pos, inner.inner`asked, inner.inner`vain, inner.inner`dry, inner.inner`failures, inner.inner`closed, buff, first, second
      ensures err.None? ==>
                && Valid()
                && (n > 0 || m > 0 || |inner.Unread()| < old(|inner.Unread()|) || inner.inner.asked > old(inner.inner.asked))
    {
      m := 0;
      ghost var taken: nat;
      n, err, taken := Read(first);
      if err.None? {
        m, err, taken := Read(second);
      }
    }

    // ---------------------------------------------------------------- output that is held between messages

    /** Output that is held between messages reaches the caller if the input starts with a whole
        head, and then together with that head; otherwise it is lost, for the reader gives nothing
        and fails at the second call at the latest. */
    method ReadHeld(first: array<char>, second: array<char>) returns (n: nat, err: Option<ReadError>)
      requires Valid() && state == InHead && output != "" && first != buff && second != buff && first.Length > 0
      modifies this, inner`prefix, inner.inner`pos, inner.inner`asked, inner.inner`vain, inner.inner`dry, inner.inner`failures, inner.inner`closed, buff, first, second
      ensures old(rules.head(input)).HeadDone? <==> n > 0
      ensures n > 0 ==> && err.None? && Gave(n, first)
                        && Valid() && HeadStep(rules, old(Snap()), Snap(), first.Length, n)
      ensures n == 0 ==> err.Some? && delivered == old(delivered)
    {
      ghost var taken: nat;
      ghost var v := Snap();
      HeldMeansParsed(rules, rewriter, stream, v);
      RefillKeeps(rules, v, 0);
      n, err, taken := Read(first);
      if n == 0 {
        GaveNothing(old(delivered), first[..0]);
        if err.None? {
          var m: nat;
          m, err, taken := Read(second);
          GaveNothing(old(delivered), second[..0]);
        }
      }
    }

    // ---------------------------------------------------------------- whole messages

    /** The state between the calls of ReadMessage: nothing has happened, or a message with a body is
        being delivered. */
    ghost predicate Underway(v: View, got: string, room: nat)
      requires inner.Valid()
      reads this, inner, inner.inner
    {
      && delivered == v.delivered + got
      && if heads == v.heads then got == "" && state == InHead && output == "" && Ahead(Snap()) == Ahead(v)
         else got != "" && heads == v.heads + 1 && state != InHead && MessageFits(rules, Ahead(v), room)
    }

    /** A bound on the calls to come that do not leave the source asked in vain: each gives a byte, takes
        a byte, or finds for the first time that what is held cannot be parsed yet. */
    ghost function Left(): int
      requires inner.Valid()
      reads this, inner, inner.inner
    {
      2 * (|rules.whole| - |delivered| + |inner.Unread()|) + if Stalled(rules, Snap()) then 0 else 1
    }

    lemma LeftIsPositive()
      requires inner.Valid() && Safe()
      ensures 0 <= Left() <= 2 * (|rules.whole| + |inner.Unread()|) + 1
    {
    }

    /** A call of Read on the way to a whole message. */
    method ReadPart(caller: array<char>, ghost v: View, got: string) returns (done: bool, err: Option<ReadError>, more: string)
      requires Valid() && caller != buff && caller.Length > 0 && Underway(v, got, caller.Length)
      requires Accounts(rules, v) && v.mode.AtHead? && v.output == ""
      modifies this, inner`prefix, inner.inner`pos, inner.inner`asked, inner.inner`vain, inner.inner`dry, inner.inner`failures, inner.inner`closed, buff, caller
      ensures delivered == v.delivered + more && Safe()
      ensures err.None? ==> Valid()
      ensures done ==> && err.None? && state == InHead && output == "" && more != ""
                       && OneMessage(rewriter, Ahead(v)) == Outcome(more, Ahead(Snap()), true)
      ensures err.None? ==> (heads != v.heads <==> more != "")
      ensures err.None? ==> Left() + 1 <= old(Left()) + 2 * (inner.inner.asked - old(inner.inner.asked))
      ensures err.None? && more != "" && state == InHead ==> (done <==> MessageFits(rules, Ahead(v), caller.Length))
      ensures err.None? && (more == "" || state != InHead) ==> Underway(v, more, caller.Length)
    {
      ghost var before := Snap();
      var n: nat;
      ghost var taken: nat;
      n, err, taken := Read(caller);
      Regroup(v.delivered, got, caller[..n]);
      more := got + caller[..n];
      done := false;
      if err.Some? {
        return;
      }
      if before.mode.AtHead? {
        HeadCallEffect(rules, rewriter, stream, before, Snap(), caller.Length, n, taken);
        GaveNothing("", caller[..0]);
      }
      if state == InHead && |more| > 0 && |output| == 0 {
        OneMessageBetween(rules, rewriter, stream, v, Snap(), more);
        done := true;
      }
    }

    /** Calls of Read until a message has been delivered.  Then the bytes that were given are exactly
        the rewrite of the first message ahead; of a message without a body only when its rewritten
        head fits the buffer.  More calls than twice the bytes to come, in the stream and in its
        rewrite, and twice the times the source is asked are never made before that or an error. */
    method ReadMessage(caller: array<char>, calls: nat) returns (done: bool, err: Option<ReadError>, got: string)
      requires Valid() && state == InHead && output == "" && caller != buff && caller.Length > 0
      modifies this, inner`prefix, inner.inner`pos, inner.inner`asked, inner.inner`vain, inner.inner`dry, inner.inner`failures, inner.inner`closed, buff, caller
      ensures delivered == old(delivered) + got && Safe()
      ensures done ==> && Valid() && state == InHead && output == ""
                       && OneMessage(rewriter, old(Ahead(Snap()))) == Outcome(got, Ahead(Snap()), true)
      ensures err.None? && heads != old(heads) && state == InHead ==>
                (done <==> MessageFits(rules, old(Ahead(Snap())), caller.Length))
      ensures err.None? && !(got != "" && state == InHead) ==>
                calls <= old(2 * (|rules.whole| + |inner.Unread()|) + 1) + 2 * (inner.inner.asked - old(inner.inner.asked))
    {
      got, done, err := "", false, None;
      AccountsIsSafe();
      ghost var v := Snap();
      NothingAfter(delivered);
      LeftIsPositive();
      for call := 0 to calls
        invariant Valid() && Safe() && Underway(v, got, caller.Length) && !done
        invariant Left() + call <= old(Left()) + 2 * (inner.inner.asked - old(inner.inner.asked))
      {
        done, err, got := ReadPart(caller, v, got);
        if err.Some? || (|got| > 0 && state == InHead) {
          return;
        }
      }
      LeftIsPositive();
    }
  }
}
