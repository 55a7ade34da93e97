/** http-parser.go: parsing the head of a request or a response, and printing it again. */
module HttpParser {
  import opened Wrappers
  import opened Text
  import opened HttpHeaders

  const BLANK := "\r\n\r\n"

  datatype Request = Request(verb: string, path: string, version: string, major: nat, minor: nat, headers: Headers)

  datatype Response = Response(version: string, major: nat, minor: nat, statusCode: int, status: string, headers: Headers)

  /** A parsed head with the places of its ends in the buffer it was parsed from. */
  datatype Head<+T> = Head(fields: T, lineLength: nat, endOfHeaders: nat) {
    function HeaderSize(): nat {
      endOfHeaders + 4
    }
  }

  /** The outcome of a parse.  Malformed stands for a returned error and, where a header line has no
      colon, for the index panic of the code. */
  datatype Parsed<+T> = NeedMore | Malformed | Done(value: T)

  // ------------------------------------------------------------------ parsing

  /** http.ParseHTTPVersion: exactly HTTP/d.d. */
  function ParseVersion(v: string): (r: Option<(nat, nat)>)
    ensures r.Some? ==> r.value.0 < 10 && r.value.1 < 10
  {
    if |v| == 8 && v[..5] == "HTTP/" && v[6] == '.' && '0' <= v[5] <= '9' && '0' <= v[7] <= '9'
    then Some((v[5] as nat - '0' as nat, v[7] as nat - '0' as nat))
    else None
  }

  /** The blank line does not come before the end of the first line. */
  lemma LineBeforeBlank(buff: string)
    requires Index(buff, CRLF).Some? && Index(buff, BLANK).Some?
    ensures Index(buff, CRLF).value <= Index(buff, BLANK).value
  {
    var e := Index(buff, BLANK).value;
    IndexIsFirst(buff, BLANK, 0);
    assert buff[e..e + 2] == buff[e..e + 4][..2] == CRLF;
    IndexIsFirst(buff, CRLF, e);
  }

  /** The headers between the first line and the blank line. */
  function ParseRest<T>(buff: string, l: nat, make: Headers -> T): (r: Parsed<Head<T>>)
    requires Index(buff, CRLF) == Some(l)
    ensures r.Done? ==> r.value.HeaderSize() <= |buff|
  {
    match Index(buff, BLANK)
    case None => NeedMore
    case Some(e) =>
      LineBeforeBlank(buff);
      match ParseLines(map[], Split(buff[l..e], CRLF))
      case None => Malformed
      case Some(h) => Done(Head(make(h), l, e))
  }

  function ParseHTTPRequest(buff: string): (r: Parsed<Head<Request>>)
    ensures r.Done? ==> r.value.HeaderSize() <= |buff|
  {
    match Index(buff, CRLF)
    case None => NeedMore
    case Some(l) =>
      if l < 12 then Malformed
      else
        var parts := Split(buff[..l], " ");
        if |parts| != 3 then Malformed
        else
          match ParseVersion(parts[2])
          case None => Malformed
          case Some(v) => ParseRest(buff, l, h => Request(parts[0], parts[1], parts[2], v.0, v.1, h))
  }

  function ParseHTTPResponse(buff: string): (r: Parsed<Head<Response>>)
    ensures r.Done? ==> r.value.HeaderSize() <= |buff|
  {
    match Index(buff, CRLF)
    case None => NeedMore
    case Some(l) =>
      if l < 13 then Malformed
      else
        var parts := Split(buff[..l], " ");
        if |parts| < 3 then Malformed
        else
          match Atoi(parts[1])
          case None => Malformed
          case Some(code) =>
            match ParseVersion(parts[0])
            case None => Malformed
            case Some(v) => ParseRest(buff, l, h => Response(parts[0], v.0, v.1, code, parts[2], h))
  }

  // ------------------------------------------------------------------ stability

  lemma RestExtends<T>(buff: string, more: string, l: nat, make: Headers -> T)
    requires Index(buff, CRLF) == Some(l) && !ParseRest(buff, l, make).NeedMore?
    ensures Index(buff + more, CRLF) == Some(l)
    ensures ParseRest(buff + more, l, make) == ParseRest(buff, l, make)
  {
    IndexExtends(buff, more, CRLF);
    IndexExtends(buff, more, BLANK);
    LineBeforeBlank(buff);
    var e := Index(buff, BLANK).value;
    assert (buff + more)[l..e] == buff[l..e];
  }

  /** Once a request head has been decided, well-formed or not, more bytes change nothing. */
  lemma RequestExtends(buff: string, more: string)
    requires !ParseHTTPRequest(buff).NeedMore?
    ensures ParseHTTPRequest(buff + more) == ParseHTTPRequest(buff)
  {
    IndexExtends(buff, more, CRLF);
    var l := Index(buff, CRLF).value;
    assert (buff + more)[..l] == buff[..l];
    var parts := Split(buff[..l], " ");
    if l >= 12 && |parts| == 3 && ParseVersion(parts[2]).Some? {
      var v := ParseVersion(parts[2]).value;
      RestExtends(buff, more, l, h => Request(parts[0], parts[1], parts[2], v.0, v.1, h));
    }
  }

  lemma ResponseExtends(buff: string, more: string)
    requires !ParseHTTPResponse(buff).NeedMore?
    ensures ParseHTTPResponse(buff + more) == ParseHTTPResponse(buff)
  {
    IndexExtends(buff, more, CRLF);
    var l := Index(buff, CRLF).value;
    assert (buff + more)[..l] == buff[..l];
    var parts := Split(buff[..l], " ");
    if l >= 13 && |parts| >= 3 && Atoi(parts[1]).Some? && ParseVersion(parts[0]).Some? {
      var v := ParseVersion(parts[0]).value;
      var code := Atoi(parts[1]).value;
      RestExtends(buff, more, l, h => Response(parts[0], v.0, v.1, code, parts[2], h));
    }
  }

  // ------------------------------------------------------------------ printing

  function Lines(lines: seq<string>): string {
    if lines == [] then "" else lines[0] + CRLF + Lines(lines[1..])
  }

  function VersionText(major: nat, minor: nat): string {
    "HTTP/" + Itoa(major) + "." + Itoa(minor)
  }

  function RequestLine(r: Request, versionUpdated: bool): string {
    r.verb + " " + r.path + " " + (if versionUpdated then VersionText(r.major, r.minor) else r.version)
  }

  function StatusLine(r: Response, versionUpdated: bool): string {
    (if versionUpdated then VersionText(r.major, r.minor) else r.version) + " " + Itoa(r.statusCode) + " " + r.status
  }

  /** A head and the buffer it was parsed from. */
  datatype Source<+T> = Source(head: Head<T>, buff: string)

  predicate Fits<T>(p: Source<T>) {
    p.head.lineLength <= p.head.endOfHeaders && p.head.HeaderSize() <= |p.buff|
  }

  /** The first line, printed anew or copied from the buffer. */
  function LineText<T>(p: Source<T>, line: string, updated: bool): string
    requires Fits(p)
  {
    if updated then line + CRLF else p.buff[..p.head.lineLength + 2]
  }

  /** The header lines, printed anew or copied from the buffer. */
  function HeaderText<T>(p: Source<T>, headers: Headers, updated: bool): string
    requires Fits(p)
  {
    if updated then Lines(Print(headers)) else p.buff[p.head.lineLength + 2..][..p.head.endOfHeaders - p.head.lineLength]
  }

  /** The head as WriteHeader and Data print it. */
  function PrintHead<T>(p: Source<T>, line: string, lineUpdated: bool, headers: Headers, headersUpdated: bool): string
    requires Fits(p)
  {
    LineText(p, line, lineUpdated) + HeaderText(p, headers, headersUpdated)
  }

  function RequestData(p: Source<Request>, pathUpdated: bool, versionUpdated: bool, headersUpdated: bool): string
    requires Fits(p)
  {
    if !pathUpdated && !versionUpdated && !headersUpdated then p.buff
    else PrintHead(p, RequestLine(p.head.fields, versionUpdated), pathUpdated || versionUpdated, p.head.fields.headers, headersUpdated)
         + p.buff[p.head.endOfHeaders + 2..]
  }

  function WriteRequestHeader(p: Source<Request>, pathUpdated: bool, versionUpdated: bool, headersUpdated: bool): string
    requires Fits(p)
  {
    if !pathUpdated && !versionUpdated && !headersUpdated then p.buff
    else PrintHead(p, RequestLine(p.head.fields, versionUpdated), pathUpdated || versionUpdated, p.head.fields.headers, headersUpdated)
         + CRLF
  }

  function WriteResponseHeader(p: Source<Response>, versionUpdated: bool, statusUpdated: bool, headersUpdated: bool): string
    requires Fits(p)
  {
    if !versionUpdated && !statusUpdated && !headersUpdated then p.buff
    else PrintHead(p, StatusLine(p.head.fields, versionUpdated), statusUpdated || versionUpdated, p.head.fields.headers, headersUpdated)
         + CRLF
  }

  /** A head printed anew throughout, as the reader of http-resolver.go prints it. */
  function NewHead(line: string, headers: Headers): string {
    line + CRLF + Lines(Print(headers)) + CRLF
  }

  lemma WriteRequestHeaderAnew(p: Source<Request>)
    requires Fits(p)
    ensures WriteRequestHeader(p, true, true, true) == NewHead(RequestLine(p.head.fields, true), p.head.fields.headers)
  {
  }

  lemma WriteResponseHeaderAnew(p: Source<Response>)
    requires Fits(p)
    ensures WriteResponseHeader(p, true, true, true) == NewHead(StatusLine(p.head.fields, true), p.head.fields.headers)
  {
  }

  // ------------------------------------------------------------------ heads as they are spelled

  /** Header lines, each with a line break before it. */
  function Block(lines: seq<string>): string {
    if lines == [] then "" else CRLF + lines[0] + Block(lines[1..])
  }

  lemma JoinHead(a: string, lines: seq<string>)
    requires lines != []
    ensures Join([a] + lines, CRLF) == a + CRLF + Join([lines[0]] + lines[1..], CRLF)
  {
    JoinFirst(a, lines, CRLF);
    assert [lines[0]] + lines[1..] == lines;
  }

  /** After its first line, a head is its lines joined. */
  lemma {:induction false} BlockIsJoin(line: string, lines: seq<string>)
    ensures line + Block(lines) == Join([line] + lines, CRLF)
    decreases |lines|
  {
    if lines == [] {
      assert [line] + lines == [line] && line + "" == line;
    } else {
      BlockIsJoin(lines[0], lines[1..]);
      JoinHead(line, lines);
      assert line + (CRLF + lines[0] + Block(lines[1..])) == line + CRLF + (lines[0] + Block(lines[1..]));
    }
  }

  lemma {:induction false} BlockThenBreak(lines: seq<string>)
    ensures Block(lines) + CRLF == CRLF + Lines(lines)
    decreases |lines|
  {
    if lines == [] {
      assert "" + CRLF == CRLF + "";
    } else {
      BlockThenBreak(lines[1..]);
      assert CRLF + lines[0] + Block(lines[1..]) + CRLF == CRLF + lines[0] + (Block(lines[1..]) + CRLF);
      assert CRLF + lines[0] + (CRLF + Lines(lines[1..])) == CRLF + (lines[0] + CRLF + Lines(lines[1..]));
    }
  }

  lemma BlankAfterLines(line: string, lines: seq<string>)
    ensures line + CRLF + Lines(lines) + CRLF == line + Block(lines) + BLANK
  {
    BlockThenBreak(lines);
    assert line + CRLF + Lines(lines) == line + (CRLF + Lines(lines));
    assert line + (Block(lines) + CRLF) + CRLF == line + Block(lines) + BLANK;
  }

  /** A head as it is printed: its first line, its header lines, a blank line. */
  lemma NewHeadIsBlock(line: string, headers: Headers)
    ensures NewHead(line, headers) == line + Block(Print(headers)) + BLANK
  {
    BlankAfterLines(line, Print(headers));
  }

  lemma BreakAt(s: string, k: nat)
    ensures At(s, k, CRLF) <==> k + 2 <= |s| && s[k] == '\r' && s[k + 1] == '\n'
  {
    if k + 2 <= |s| {
      assert s[k..k + 2] == [s[k], s[k + 1]];
    }
  }

  lemma BlankIsTwo(s: string, k: nat)
    ensures At(s, k, BLANK) <==> At(s, k, CRLF) && At(s, k + 2, CRLF)
  {
    BreakAt(s, k);
    BreakAt(s, k + 2);
    if k + 4 <= |s| {
      assert s[k..k + 4] == [s[k], s[k + 1], s[k + 2], s[k + 3]];
    }
  }

  /** A head's text after its first line. */
  function Tail(lines: seq<string>, rest: string): string {
    Block(lines) + BLANK + rest
  }

  lemma TailStart(lines: seq<string>, rest: string)
    ensures lines == [] ==> Tail(lines, rest) == CRLF + (CRLF + rest)
    ensures lines != [] ==> Tail(lines, rest) == CRLF + (lines[0] + Tail(lines[1..], rest))
  {
    if lines == [] {
      assert "" + BLANK + rest == CRLF + (CRLF + rest);
    } else {
      assert CRLF + lines[0] + Block(lines[1..]) + BLANK + rest == CRLF + (lines[0] + (Block(lines[1..]) + BLANK + rest));
    }
  }

  lemma AtStart(a: string, b: string)
    ensures At(a + b, 0, a)
  {
    assert (a + b)[0..|a|] == a;
  }

  lemma TailAt(line: string, lines: seq<string>, rest: string)
    requires Free(line, CRLF)
    ensures Index(line + Tail(lines, rest), CRLF) == Some(|line|)
  {
    TailStart(lines, rest);
    var after := if lines == [] then CRLF + rest else lines[0] + Tail(lines[1..], rest);
    Regroup(line, CRLF, after);
    IndexAfterFree(line, CRLF, after);
  }

  lemma NoLineBreakBefore(line: string, lines: seq<string>, rest: string, k: nat)
    requires Free(line, CRLF) && k < |line|
    ensures !At(line + Tail(lines, rest), k, BLANK)
  {
    var text := line + Tail(lines, rest);
    TailAt(line, lines, rest);
    IndexIsFirst(text, CRLF, k);
    BlankIsTwo(text, k);
  }

  lemma NoBlankAtBreak(line: string, lines: seq<string>, rest: string)
    requires lines != [] && HeadLine(lines[0])
    ensures !At(line + Tail(lines, rest), |line|, BLANK) && !At(line + Tail(lines, rest), |line| + 1, BLANK)
  {
    var text, next := line + Tail(lines, rest), lines[0] + Tail(lines[1..], rest);
    TailStart(lines, rest);
    Regroup(line, CRLF, next);
    TailAt(lines[0], lines[1..], rest);
    IndexIsFirst(next, CRLF, 0);
    AtShift(line + CRLF, next, CRLF, |line| + 2);
    BlankIsTwo(text, |line|);
    NoBreakAtLineFeed(line, next);
    BlankIsTwo(text, |line| + 1);
  }

  lemma NoBreakAtLineFeed(line: string, next: string)
    ensures !At(line + CRLF + next, |line| + 1, CRLF)
  {
    var text := line + CRLF + next;
    assert text[|line| + 1] == '\n';
    if |line| + 3 <= |text| {
      assert text[|line| + 1..|line| + 3][0] == '\n';
    }
  }

  /** No blank line before the end of the header lines. */
  lemma {:induction false} NoEarlyBlank(line: string, lines: seq<string>, rest: string, k: nat)
    requires Free(line, CRLF) && HeadLines(lines) && k < |line + Block(lines)|
    ensures !At(line + Tail(lines, rest), k, BLANK)
    decreases |lines|
  {
    if k < |line| {
      NoLineBreakBefore(line, lines, rest, k);
    } else {
      assert HeadLine(lines[0]);
      if k < |line| + 2 {
        NoBlankAtBreak(line, lines, rest);
      } else {
        NoEarlyBlank(lines[0], lines[1..], rest, k - |line| - 2);
        TailStart(lines, rest);
        Regroup(line, CRLF, lines[0] + Tail(lines[1..], rest));
        AtShift(line + CRLF, lines[0] + Tail(lines[1..], rest), BLANK, k);
      }
    }
  }

  lemma BlankAfterBlock(line: string, lines: seq<string>, rest: string)
    requires Free(line, CRLF) && HeadLines(lines)
    ensures Index(line + Tail(lines, rest), BLANK) == Some(|line + Block(lines)|)
  {
    var before, text := line + Block(lines), line + Tail(lines, rest);
    assert text == before + (BLANK + rest);
    AtStart(BLANK, rest);
    AtShift(before, BLANK + rest, BLANK, |before|);
    forall k | 0 <= k < |before|
      ensures !At(text, k, BLANK)
    {
      NoEarlyBlank(line, lines, rest, k);
    }
    IndexIs(text, BLANK, |before|);
  }

  predicate FreeLines(lines: seq<string>) {
    AllFree(lines, CRLF)
  }

  lemma EmptyLineIsBlank(line: string, lines: seq<string>, rest: string)
    requires lines != [] && lines[0] == ""
    ensures At(line + Tail(lines, rest), |line|, BLANK)
  {
    var next := Tail(lines[1..], rest);
    TailStart(lines, rest);
    TailStart(lines[1..], rest);
    NothingAfter(next);
    var after := if lines[1..] == [] then CRLF + rest else lines[1..][0] + Tail(lines[1..][1..], rest);
    TwoBreaks(line, after);
  }

  lemma TwoBreaks(line: string, after: string)
    ensures At(line + (CRLF + (CRLF + after)), |line|, BLANK)
  {
    assert CRLF + (CRLF + after) == BLANK + after;
    AtStart(BLANK, after);
    AtShift(line, BLANK + after, BLANK, |line|);
  }

  /** Where no blank line comes before the end of the header lines, none of them is empty. */
  lemma {:induction false} NoEmptyLine(line: string, lines: seq<string>, rest: string)
    requires FreeLines(lines)
    requires forall k :: 0 <= k < |line + Block(lines)| ==> !At(line + Tail(lines, rest), k, BLANK)
    ensures HeadLines(lines)
    decreases |lines|
  {
    if lines == [] {
    } else {
      if lines[0] == "" {
        EmptyLineIsBlank(line, lines, rest);
        assert false;
      }
      TailStart(lines, rest);
      var next := lines[0] + Tail(lines[1..], rest);
      Regroup(line, CRLF, next);
      forall k | 0 <= k < |lines[0] + Block(lines[1..])|
        ensures !At(next, k, BLANK)
      {
        AtShift(line + CRLF, next, BLANK, k + |line| + 2);
      }
      NoEmptyLine(lines[0], lines[1..], rest);
    }
  }

  // ------------------------------------------------------------------ exactly what parses

  lemma SplitBlock(lines: seq<string>)
    requires FreeLines(lines)
    ensures Split(Block(lines), CRLF) == [""] + lines
  {
    var all := [""] + lines;
    BlockIsJoin("", lines);
    NothingAfter(Block(lines));
    forall i | 0 <= i < |all|
      ensures Free(all[i], CRLF)
    {
      if i > 0 { assert all[i] == lines[i - 1]; }
    }
    SplitIff(Block(lines), CRLF, all);
  }

  /** The text between the first line and the blank line is a block of header lines. */
  lemma BlockBetween(text: string) returns (lines: seq<string>)
    requires text == "" || At(text, 0, CRLF)
    ensures FreeLines(lines) && text == Block(lines) && Split(text, CRLF) == [""] + lines
  {
    var parts := Split(text, CRLF);
    FirstIsEmpty(text);
    lines := parts[1..];
    assert parts == [""] + lines;
    SplitIff(text, CRLF, parts);
    BlockIsJoin("", lines);
    NothingAfter(Block(lines));
    forall i | 0 <= i < |lines|
      ensures Free(lines[i], CRLF)
    {
      assert lines[i] == parts[i + 1];
    }
  }

  lemma FirstIsEmpty(text: string)
    requires text == "" || At(text, 0, CRLF)
    ensures Split(text, CRLF)[0] == ""
  {
    IndexIsFirst(text, CRLF, 0);
    if text == "" {
      LacksIsFree(text, CRLF);
      FreeIff(text, CRLF);
      assert Split(text, CRLF) == [text];
    } else {
      assert Index(text, CRLF) == Some(0) && text[..0] == "";
    }
  }

  /** What is between the ends that the parser finds. */
  lemma BetweenEnds(buff: string, l: nat, e: nat)
    requires Index(buff, CRLF) == Some(l) && Index(buff, BLANK) == Some(e)
    ensures l <= e && e + 4 <= |buff| && Free(buff[..l], CRLF)
    ensures buff[l..e] == "" || At(buff[l..e], 0, CRLF)
  {
    LineBeforeBlank(buff);
    BeforeFirst(buff, CRLF);
    IndexIsFirst(buff, CRLF, l);
    IndexIsFirst(buff, BLANK, e);
    assert buff[l..l + 2][1] == buff[l + 1] && buff[e..e + 4][0] == buff[e];
    if e > l {
      assert buff[l..e][0..2] == buff[l..l + 2];
    }
  }

  lemma BuffIsTail(buff: string, l: nat, e: nat, lines: seq<string>)
    requires l <= e && e + 4 <= |buff| && At(buff, e, BLANK) && buff[l..e] == Block(lines)
    ensures buff == buff[..l] + Tail(lines, buff[e + 4..]) && |buff[..l] + Block(lines)| == e
  {
    assert buff == buff[..l] + (buff[l..e] + buff[e..e + 4] + buff[e + 4..]);
  }

  /** A head that parses is spelled by header lines that are not empty and free of line breaks. */
  lemma EndsAreSpelled(buff: string, l: nat, e: nat) returns (lines: seq<string>)
    requires Index(buff, CRLF) == Some(l) && Index(buff, BLANK) == Some(e)
    ensures l <= e && e + 4 <= |buff| && HeadLines(lines) && Free(buff[..l], CRLF)
    ensures buff == buff[..l] + Tail(lines, buff[e + 4..]) && |buff[..l] + Block(lines)| == e
    ensures Split(buff[l..e], CRLF) == [""] + lines
  {
    BetweenEnds(buff, l, e);
    IndexIsFirst(buff, BLANK, e);
    lines := BlockBetween(buff[l..e]);
    BuffIsTail(buff, l, e, lines);
    forall k | 0 <= k < e
      ensures !At(buff, k, BLANK)
    {
      IndexIsFirst(buff, BLANK, k);
    }
    NoEmptyLine(buff[..l], lines, buff[e + 4..]);
  }

  lemma TailRegroup(line: string, lines: seq<string>, rest: string)
    ensures line + Tail(lines, rest) == line + Block(lines) + BLANK + rest
  {
  }

  /** Where the parser finds the ends of a spelled head, and what lines it finds between them. */
  lemma SpelledEnds(text: string, l: nat, e: nat, line: string, lines: seq<string>, rest: string)
    requires text == line + Block(lines) + BLANK + rest && l == |line| && e == l + |Block(lines)|
    requires Free(line, CRLF) && HeadLines(lines)
    ensures Index(text, CRLF) == Some(l) && Index(text, BLANK) == Some(e) && l <= e && e + 4 <= |text|
    ensures text[..l] == line && Split(text[l..e], CRLF) == [""] + lines
  {
    TailRegroup(line, lines, rest);
    TailAt(line, lines, rest);
    BlankAfterBlock(line, lines, rest);
    SplitBlock(lines);
    BlockInText(line, Block(lines), BLANK, rest);
  }

  lemma BlockInText(line: string, block: string, blank: string, rest: string)
    ensures var text := line + block + blank + rest;
            text[..|line|] == line && text[|line|..|line| + |block|] == block
  {
  }

  lemma VersionParsesBack(major: nat, minor: nat)
    requires major < 10 && minor < 10
    ensures ParseVersion(VersionText(major, minor)) == Some((major, minor))
    ensures |VersionText(major, minor)| == 8 && Lacks(VersionText(major, minor), ' ') && Lacks(VersionText(major, minor), '\r')
    ensures Lacks(VersionText(major, minor), '\n')
  {
    assert Itoa(major) == [DigitChar(major)] && Itoa(minor) == [DigitChar(minor)];
    assert VersionText(major, minor) == ['H', 'T', 'T', 'P', '/', DigitChar(major), '.', DigitChar(minor)];
  }

  lemma VersionIsText(v: string)
    requires ParseVersion(v).Some?
    ensures v == VersionText(ParseVersion(v).value.0, ParseVersion(v).value.1)
  {
    var major, minor := ParseVersion(v).value.0, ParseVersion(v).value.1;
    assert Itoa(major) == [DigitChar(major)] && Itoa(minor) == [DigitChar(minor)];
    assert v == v[..5] + [v[5], v[6], v[7]];
    assert VersionText(major, minor) == "HTTP/" + [DigitChar(major), '.', DigitChar(minor)];
  }

  /** The version is HTTP, a slash, a digit, a dot and a digit. */
  predicate Versioned(version: string, major: nat, minor: nat) {
    major < 10 && minor < 10 && version == ['H', 'T', 'T', 'P', '/', DigitChar(major), '.', DigitChar(minor)]
  }

  lemma VersionedIsText(version: string, major: nat, minor: nat)
    ensures Versioned(version, major, minor) <==> major < 10 && minor < 10 && version == VersionText(major, minor)
  {
    if major < 10 && minor < 10 {
      assert Itoa(major) == [DigitChar(major)] && Itoa(minor) == [DigitChar(minor)];
      assert VersionText(major, minor) == ['H', 'T', 'T', 'P', '/', DigitChar(major), '.', DigitChar(minor)];
    }
  }

  lemma VersionIff(version: string, major: nat, minor: nat)
    ensures ParseVersion(version) == Some((major, minor)) <==> Versioned(version, major, minor)
  {
    VersionedIsText(version, major, minor);
    if ParseVersion(version).Some? { VersionIsText(version); }
    if major < 10 && minor < 10 { VersionParsesBack(major, minor); }
  }

  lemma JoinThree(a: string, b: string, c: string)
    ensures Join([a, b, c], " ") == a + " " + b + " " + c
  {
    JoinFirst(a, [b, c], " ");
    JoinFirst(b, [c], " ");
    assert [a] + [b, c] == [a, b, c] && [b] + [c] == [b, c];
    assert a + " " + (b + " " + c) == a + " " + b + " " + c;
  }

  lemma SplitThreeIff(line: string, a: string, b: string, c: string)
    ensures Split(line, " ") == [a, b, c] <==> line == a + " " + b + " " + c && Lacks(a, ' ') && Lacks(b, ' ') && Lacks(c, ' ')
  {
    var parts := [a, b, c];
    JoinThree(a, b, c);
    SplitIff(line, " ", parts);
    FreeIsLacks(a, ' ');
    FreeIsLacks(b, ' ');
    FreeIsLacks(c, ' ');
    assert AllFree(parts, " ") <==> Free(parts[0], " ") && Free(parts[1], " ") && Free(parts[2], " ");
  }

  predicate ParsesAs(text: string, r: Request, l: nat, e: nat) {
    ParseHTTPRequest(text) == Done(Head(r, l, e))
  }

  /** The text of a request with the given header lines. */
  function SpellOut(r: Request, fields: seq<Field>, rest: string): string {
    RequestLine(r, false) + Block(Spell(fields)) + BLANK + rest
  }

  /** A request as it is spelled: three words with single spaces between them, header lines that are
      a key, a colon and a value each, a blank line, and whatever follows.  The first line ends at l,
      the header lines at e. */
  predicate Spelled(buff: string, r: Request, l: nat, e: nat, fields: seq<Field>, rest: string) {
    && buff == SpellOut(r, fields, rest) && l == |RequestLine(r, false)| && e == l + |Block(Spell(fields))|
    && SpelledBut(r, fields) && Lacks(r.path, ' ') && Free(RequestLine(r, false), CRLF) && |r.verb| + |r.path| >= 2
  }

  /** All of it but the path. */
  predicate SpelledBut(r: Request, fields: seq<Field>) {
    && Lacks(r.verb, ' ') && Versioned(r.version, r.major, r.minor)
    && HeadLines(Spell(fields)) && ColonFree(fields) && r.headers == Collect(map[], fields)
  }

  lemma HeadersBetween(lines: seq<string>)
    ensures ParseLines(map[], [""] + lines) == ParseLines(map[], lines)
  {
    ParseCons(map[], "", lines, map[]);
  }

  lemma PartsAreDone(buff: string, r: Request, l: nat, e: nat, h: Headers)
    requires Index(buff, CRLF) == Some(l) && Index(buff, BLANK) == Some(e) && 12 <= l <= e <= |buff|
    requires Split(buff[..l], " ") == [r.verb, r.path, r.version] && ParseVersion(r.version) == Some((r.major, r.minor))
    requires ParseLines(map[], Split(buff[l..e], CRLF)) == Some(h) && r.headers == h
    ensures ParsesAs(buff, r, l, e)
  {
  }

  lemma WordsFound(line: string, r: Request)
    requires line == RequestLine(r, false)
    requires Lacks(r.verb, ' ') && Lacks(r.path, ' ') && Versioned(r.version, r.major, r.minor)
    ensures Split(line, " ") == [r.verb, r.path, r.version] && ParseVersion(r.version) == Some((r.major, r.minor))
  {
    VersionIff(r.version, r.major, r.minor);
    VersionParsesBack(r.major, r.minor);
    SplitThreeIff(line, r.verb, r.path, r.version);
  }

  lemma HeadersFound(between: string, fields: seq<Field>)
    requires Split(between, CRLF) == [""] + Spell(fields) && ColonFree(fields)
    ensures ParseLines(map[], Split(between, CRLF)) == Some(Collect(map[], fields))
  {
    HeadersBetween(Spell(fields));
    FieldsParse(map[], fields);
  }

  lemma LongEnough(r: Request)
    requires Versioned(r.version, r.major, r.minor) && |r.verb| + |r.path| >= 2
    ensures |RequestLine(r, false)| >= 12
  {
    VersionParsesBack(r.major, r.minor);
  }

  lemma SpelledParses(buff: string, r: Request, l: nat, e: nat, fields: seq<Field>, rest: string)
    requires Spelled(buff, r, l, e, fields, rest)
    ensures ParsesAs(buff, r, l, e)
  {
    SpelledEnds(buff, l, e, RequestLine(r, false), Spell(fields), rest);
    LongEnough(r);
    WordsFound(buff[..l], r);
    HeadersFound(buff[l..e], fields);
    PartsAreDone(buff, r, l, e, Collect(map[], fields));
  }

  /** What the branches of a successful parse found. */
  lemma DoneParts(buff: string, r: Request, l: nat, e: nat)
    requires ParsesAs(buff, r, l, e)
    ensures Index(buff, CRLF) == Some(l) && Index(buff, BLANK) == Some(e) && 12 <= l <= e <= |buff|
    ensures Split(buff[..l], " ") == [r.verb, r.path, r.version] && ParseVersion(r.version) == Some((r.major, r.minor))
    ensures ParseLines(map[], Split(buff[l..e], CRLF)) == Some(r.headers)
  {
    LineBeforeBlank(buff);
    var parts := Split(buff[..Index(buff, CRLF).value], " ");
    assert parts == [parts[0], parts[1], parts[2]];
  }

  lemma DoneIsSpelled(buff: string, r: Request, l: nat, e: nat) returns (fields: seq<Field>, rest: string)
    requires ParsesAs(buff, r, l, e)
    ensures Spelled(buff, r, l, e, fields, rest)
  {
    DoneParts(buff, r, l, e);
    var lines := EndsAreSpelled(buff, l, e);
    SplitThreeIff(buff[..l], r.verb, r.path, r.version);
    VersionIff(r.version, r.major, r.minor);
    VersionParsesBack(r.major, r.minor);
    HeadersBetween(lines);
    fields := LinesAreFields(map[], lines);
    FieldsParse(map[], fields);
    rest := buff[e + 4..];
    TailRegroup(buff[..l], lines, rest);
  }

  /** The parser accepts exactly the buffers that are spelled like a request, and it finds the words,
      the headers and the two ends that they are spelled with. */
  lemma ParsesIffSpelled(buff: string, r: Request, l: nat, e: nat)
    ensures ParseHTTPRequest(buff) == Done(Head(r, l, e)) <==> exists fields, rest :: Spelled(buff, r, l, e, fields, rest)
  {
    assert ParsesAs(buff, r, l, e) <==> ParseHTTPRequest(buff) == Done(Head(r, l, e));
    if ParsesAs(buff, r, l, e) {
      var fields, rest := DoneIsSpelled(buff, r, l, e);
    }
    forall fields, rest | Spelled(buff, r, l, e, fields, rest)
      ensures ParsesAs(buff, r, l, e)
    {
      SpelledParses(buff, r, l, e, fields, rest);
    }
  }

  // ------------------------------------------------------------------ copying

  /** What the parser returns fits its buffer, and its first line is the printed line. */
  lemma ParsedRequestFits(buff: string)
    requires ParseHTTPRequest(buff).Done?
    ensures Fits(Source(ParseHTTPRequest(buff).value, buff))
    ensures RequestLine(ParseHTTPRequest(buff).value.fields, false) == buff[..ParseHTTPRequest(buff).value.lineLength]
  {
    var head := ParseHTTPRequest(buff).value;
    DoneParts(buff, head.fields, head.lineLength, head.endOfHeaders);
    SplitThreeIff(buff[..head.lineLength], head.fields.verb, head.fields.path, head.fields.version);
  }

  lemma ParsedResponseFits(buff: string)
    requires ParseHTTPResponse(buff).Done?
    ensures Fits(Source(ParseHTTPResponse(buff).value, buff))
  {
    LineBeforeBlank(buff);
  }

  /** A new first line, then the old header lines and what follows them. */
  function Pieces(buff: string, l: nat, e: nat, line: string): string
    requires l <= e && e + 4 <= |buff|
  {
    line + CRLF + buff[l + 2..][..e - l] + buff[e + 2..]
  }

  lemma DataIsPieces(buff: string, r: Request, l: nat, e: nat)
    requires Fits(Source(Head(r, l, e), buff))
    ensures RequestData(Source(Head(r, l, e), buff), true, false, false) == Pieces(buff, l, e, RequestLine(r, false))
  {
  }

  lemma CutSpelled(line: string, block: string, lines: string, rest: string)
    requires block + CRLF == CRLF + lines
    ensures var buff := line + block + BLANK + rest;
            && buff[|line| + 2..][..|block|] == lines
            && buff[|line| + |block| + 2..] == CRLF + rest
  {
    var buff := line + block + BLANK + rest;
    assert buff == line + (block + CRLF) + (CRLF + rest);
    assert buff == line + CRLF + (lines + (CRLF + rest));
  }

  lemma Assemble(line: string, block: string, lines: string, rest: string)
    requires block + CRLF == CRLF + lines
    ensures line + CRLF + lines + (CRLF + rest) == line + block + BLANK + rest
  {
    assert line + CRLF + lines == line + (CRLF + lines);
    assert line + (block + CRLF) + (CRLF + rest) == line + block + BLANK + rest;
  }

  lemma PiecesOfText(buff: string, l: nat, e: nat, line: string, lines: seq<string>, rest: string, anew: string)
    requires buff == line + Block(lines) + BLANK + rest && l == |line| && e == l + |Block(lines)|
    ensures Pieces(buff, l, e, anew) == anew + Block(lines) + BLANK + rest
  {
    BlockThenBreak(lines);
    CutSpelled(line, Block(lines), Lines(lines), rest);
    Assemble(anew, Block(lines), Lines(lines), rest);
  }

  lemma PiecesOfSpelled(buff: string, r: Request, l: nat, e: nat, fields: seq<Field>, rest: string, anew: Request)
    requires Spelled(buff, r, l, e, fields, rest)
    ensures Pieces(buff, l, e, RequestLine(anew, false)) == SpellOut(anew, fields, rest)
  {
    PiecesOfText(buff, l, e, RequestLine(r, false), Spell(fields), rest, RequestLine(anew, false));
  }

  lemma Same(a: string, b: string, c: string)
    requires a == b && b == c
    ensures a == c
  {
  }

  lemma SpelledFits(buff: string, r: Request, l: nat, e: nat, fields: seq<Field>, rest: string, anew: Request)
    requires Spelled(buff, r, l, e, fields, rest)
    ensures Fits(Source(Head(anew, l, e), buff)) && l <= e && e + 4 <= |buff|
  {
  }

  /** What Data prints for a spelled request with other words. */
  lemma DataIsSpelled(buff: string, r: Request, l: nat, e: nat, fields: seq<Field>, rest: string, anew: Request)
    requires Spelled(buff, r, l, e, fields, rest)
    ensures Fits(Source(Head(anew, l, e), buff))
    ensures RequestData(Source(Head(anew, l, e), buff), true, false, false) == SpellOut(anew, fields, rest)
  {
    SpelledFits(buff, r, l, e, fields, rest, anew);
    PiecesOfSpelled(buff, r, l, e, fields, rest, anew);
    DataIsPieces(buff, anew, l, e);
    Same(RequestData(Source(Head(anew, l, e), buff), true, false, false), Pieces(buff, l, e, RequestLine(anew, false)),
         SpellOut(anew, fields, rest));
  }

  /** A parsed request whose fields are unchanged prints as the buffer, byte for byte. */
  lemma UnchangedDataIsBuffer(buff: string, r: Request, l: nat, e: nat)
    requires ParsesAs(buff, r, l, e)
    ensures Fits(Source(Head(r, l, e), buff))
    ensures RequestData(Source(Head(r, l, e), buff), true, false, false) == buff
  {
    var fields, rest := DoneIsSpelled(buff, r, l, e);
    DataIsSpelled(buff, r, l, e, fields, rest, r);
    Same(RequestData(Source(Head(r, l, e), buff), true, false, false), SpellOut(r, fields, rest), buff);
  }

  lemma FreeBefore(s: string, t: string)
    requires Lacks(t, '\n')
    ensures Free(s + t, CRLF) <==> Free(s, CRLF)
  {
    forall k | 0 <= k <= |s + t|
      ensures At(s + t, k, CRLF) <==> At(s, k, CRLF)
    {
      if k + 2 <= |s| {
        SameAt(s, t, CRLF, k);
      } else if k + 2 <= |s + t| {
        assert (s + t)[k..k + 2][1] == t[k + 1 - |s|];
      }
    }
    if Free(s + t, CRLF) {
      forall k | 0 <= k <= |s|
        ensures !At(s, k, CRLF)
      {
        assert !At(s + t, k, CRLF);
      }
    }
  }

  /** Two words that can stand in a request line. */
  predicate Speakable(verb: string, path: string) {
    Lacks(verb, ' ') && Lacks(path, ' ') && Free(verb + " " + path, CRLF)
  }

  lemma LineIsFree(r: Request)
    requires Versioned(r.version, r.major, r.minor)
    ensures Free(RequestLine(r, false), CRLF) <==> Free(r.verb + " " + r.path, CRLF)
  {
    VersionParsesBack(r.major, r.minor);
    assert RequestLine(r, false) == r.verb + " " + r.path + (" " + r.version);
    FreeBefore(r.verb + " " + r.path, " " + r.version);
  }

  lemma ReadIsSpeakable(text: string, r: Request, l: nat, e: nat)
    requires ParsesAs(text, r, l, e)
    ensures Speakable(r.verb, r.path) && |r.verb| + |r.path| >= 2
  {
    var fields, rest := DoneIsSpelled(text, r, l, e);
    LineIsFree(r);
  }

  /** The same headers after other words: readable exactly when the words can stand in a request line
      and the line is not too short. */
  lemma SpelledIff(r: Request, l: nat, e: nat, fields: seq<Field>, rest: string)
    requires l == |RequestLine(r, false)| && e == l + |Block(Spell(fields))|
    requires SpelledBut(r, fields)
    ensures ParsesAs(SpellOut(r, fields, rest), r, l, e) <==> Speakable(r.verb, r.path) && |r.verb| + |r.path| >= 2
  {
    if Speakable(r.verb, r.path) && |r.verb| + |r.path| >= 2 {
      LineIsFree(r);
      SpelledParses(SpellOut(r, fields, rest), r, l, e, fields, rest);
    } else if ParsesAs(SpellOut(r, fields, rest), r, l, e) {
      ReadIsSpeakable(SpellOut(r, fields, rest), r, l, e);
    }
  }

  /** Data of a request whose path has changed parses as that request, the ends moved as the line
      grows, exactly when the path can stand in a request line and the line is not too short. */
  lemma DataWithNewPathParses(buff: string, r: Request, l: nat, e: nat, changed: Request, m: nat, n: nat) returns (data: string)
    requires ParsesAs(buff, r, l, e) && changed == r.(path := changed.path)
    requires m == |RequestLine(changed, false)| && n == m + e - l
    ensures Fits(Source(Head(changed, l, e), buff))
    ensures RequestData(Source(Head(changed, l, e), buff), true, false, false) == data
    ensures ParsesAs(data, changed, m, n) <==> Speakable(changed.verb, changed.path) && |changed.verb| + |changed.path| >= 2
  {
    var fields, rest := DoneIsSpelled(buff, r, l, e);
    data := SpellOut(changed, fields, rest);
    SpelledHas(buff, r, l, e, fields, rest);
    NewPathParses(r, fields, rest, changed, m, n);
    DataIsSpelled(buff, r, l, e, fields, rest, changed);
  }

  lemma SpelledHas(buff: string, r: Request, l: nat, e: nat, fields: seq<Field>, rest: string)
    requires Spelled(buff, r, l, e, fields, rest)
    ensures SpelledBut(r, fields) && e - l == |Block(Spell(fields))|
  {
  }

  lemma OnlyPathChanged(r: Request, changed: Request, fields: seq<Field>)
    requires SpelledBut(r, fields) && changed == r.(path := changed.path)
    ensures SpelledBut(changed, fields)
  {
  }

  lemma NewPathParses(r: Request, fields: seq<Field>, rest: string, changed: Request, m: nat, n: nat)
    requires SpelledBut(r, fields) && changed == r.(path := changed.path)
    requires m == |RequestLine(changed, false)| && n == m + |Block(Spell(fields))|
    ensures ParsesAs(SpellOut(changed, fields, rest), changed, m, n)
            <==> Speakable(changed.verb, changed.path) && |changed.verb| + |changed.path| >= 2
  {
    OnlyPathChanged(r, changed, fields);
    SpelledIff(changed, m, n, fields, rest);
  }

  // ------------------------------------------------------------------ parsing back what was printed

  lemma PrintedHeadEnds(text: string, line: string, headers: Headers, l: nat, e: nat)
    requires text == NewHead(line, headers) && Free(line, CRLF) && Readable(headers) && l == |line| && e + 4 == |text|
    ensures l <= e && text[..l] == line
    ensures Index(text, CRLF) == Some(l) && Index(text, BLANK) == Some(e)
    ensures ParseLines(map[], Split(text[l..e], CRLF)) == Some(Sent(headers))
  {
    var lines := Print(headers);
    PrintsHeadLines(headers);
    HeadersParseBack(headers);
    NewHeadIsBlock(line, headers);
    NothingAfter(line + Block(lines) + BLANK);
    SpelledEnds(text, l, e, line, lines, "");
    HeadersBetween(lines);
  }

  lemma ShortRequestLine(text: string, l: nat)
    requires Index(text, CRLF) == Some(l) && l < 12
    ensures ParseHTTPRequest(text).Malformed?
  {
  }

  lemma PrintedRequestParses(text: string, line: string, q: Request, headers: Headers, l: nat, e: nat)
    requires text == NewHead(line, headers) && line == RequestLine(q, false) && l == |line| && e + 4 == |text|
    requires Readable(headers) && q.headers == Sent(headers)
    requires Speakable(q.verb, q.path) && Versioned(q.version, q.major, q.minor)
    ensures if |q.verb| + |q.path| >= 2 then ParsesAs(text, q, l, e) else ParseHTTPRequest(text).Malformed?
  {
    LineIsFree(q);
    PrintedHeadEnds(text, line, headers, l, e);
    VersionParsesBack(q.major, q.minor);
    if |q.verb| + |q.path| >= 2 {
      LongEnough(q);
      WordsFound(text[..l], q);
      PartsAreDone(text, q, l, e, Sent(headers));
    } else {
      ShortRequestLine(text, l);
    }
  }

  /** A request as it is read back after printing. */
  function RequestAgain(r: Request): Request {
    r.(version := VersionText(r.major, r.minor), headers := Sent(r.headers))
  }

  lemma LineAgain(r: Request)
    ensures RequestLine(r, true) == RequestLine(RequestAgain(r), false)
  {
  }

  /** A request head that was printed anew is read back with its words and its field names, or is too
      short to be read. */
  lemma RequestParsesBack(text: string, r: Request, l: nat, e: nat)
    requires text == NewHead(RequestLine(r, true), r.headers) && l == |RequestLine(r, true)| && e + 4 == |text|
    requires Speakable(r.verb, r.path) && r.major < 10 && r.minor < 10 && Readable(r.headers)
    ensures if |r.verb| + |r.path| >= 2 then ParsesAs(text, RequestAgain(r), l, e) else ParseHTTPRequest(text).Malformed?
  {
    LineAgain(r);
    PrintedRequestParses(text, RequestLine(r, true), RequestAgain(r), r.headers, l, e);
  }

  lemma DecimalIsWord(n: nat)
    ensures Lacks(Decimal(n), ' ') && Lacks(Decimal(n), '\r') && Lacks(Decimal(n), '\n')
  {
  }

  lemma ItoaIsWord(n: int)
    ensures Lacks(Itoa(n), ' ') && Lacks(Itoa(n), '\r') && Lacks(Itoa(n), '\n')
  {
    DecimalIsWord(if n < 0 then -n else n);
  }

  lemma FreeAfter(s: string, t: string)
    requires Lacks(s, '\r') && Free(t, CRLF)
    ensures Free(s + t, CRLF)
  {
    forall k | 0 <= k <= |s + t|
      ensures !At(s + t, k, CRLF)
    {
      if k >= |s| {
        AtShift(s, t, CRLF, k);
      } else if k + 2 <= |s + t| {
        assert (s + t)[k..k + 2][0] == s[k];
      }
    }
  }

  lemma StatusLineIsFree(r: Response)
    requires Versioned(r.version, r.major, r.minor) && Free(r.status, CRLF)
    ensures Free(StatusLine(r, false), CRLF)
  {
    VersionParsesBack(r.major, r.minor);
    ItoaIsWord(r.statusCode);
    FreeAfter(r.version + " " + Itoa(r.statusCode) + " ", r.status);
  }

  predicate ResponseParsesAs(text: string, r: Response, l: nat, e: nat) {
    ParseHTTPResponse(text) == Done(Head(r, l, e))
  }

  lemma ResponsePartsAreDone(text: string, r: Response, l: nat, e: nat, words: seq<string>, h: Headers)
    requires Index(text, CRLF) == Some(l) && Index(text, BLANK) == Some(e) && 13 <= l <= e <= |text|
    requires Split(text[..l], " ") == words && |words| >= 3 && words[0] == r.version && words[2] == r.status
    requires Atoi(words[1]) == Some(r.statusCode) && ParseVersion(r.version) == Some((r.major, r.minor))
    requires ParseLines(map[], Split(text[l..e], CRLF)) == Some(h) && r.headers == h
    ensures ResponseParsesAs(text, r, l, e)
  {
  }

  lemma ShortStatusLine(text: string, l: nat)
    requires Index(text, CRLF) == Some(l) && l < 13
    ensures ParseHTTPResponse(text).Malformed?
  {
  }

  lemma StatusFound(line: string, r: Response)
    requires line == StatusLine(r, false) && Lacks(r.status, ' ') && Versioned(r.version, r.major, r.minor)
    ensures Split(line, " ") == [r.version, Itoa(r.statusCode), r.status] && ParseVersion(r.version) == Some((r.major, r.minor))
  {
    VersionIff(r.version, r.major, r.minor);
    VersionParsesBack(r.major, r.minor);
    ItoaIsWord(r.statusCode);
    SplitThreeIff(line, r.version, Itoa(r.statusCode), r.status);
  }

  lemma StatusLineLength(r: Response)
    requires Versioned(r.version, r.major, r.minor)
    ensures |StatusLine(r, false)| == 10 + |Itoa(r.statusCode)| + |r.status|
  {
    VersionParsesBack(r.major, r.minor);
  }

  lemma PrintedResponseParses(text: string, line: string, q: Response, headers: Headers, l: nat, e: nat)
    requires text == NewHead(line, headers) && line == StatusLine(q, false) && l == |line| && e + 4 == |text|
    requires Readable(headers) && q.headers == Sent(headers)
    requires Lacks(q.status, ' ') && Free(q.status, CRLF) && -MAX_INT_64 - 1 <= q.statusCode <= MAX_INT_64
    requires Versioned(q.version, q.major, q.minor)
    ensures if |Itoa(q.statusCode)| + |q.status| >= 3 then ResponseParsesAs(text, q, l, e) else ParseHTTPResponse(text).Malformed?
  {
    StatusLineIsFree(q);
    PrintedHeadEnds(text, line, headers, l, e);
    StatusLineLength(q);
    if |Itoa(q.statusCode)| + |q.status| >= 3 {
      AtoiItoa(q.statusCode);
      StatusFound(text[..l], q);
      ResponsePartsAreDone(text, q, l, e, [q.version, Itoa(q.statusCode), q.status], Sent(headers));
    } else {
      ShortStatusLine(text, l);
    }
  }

  function ResponseAgain(r: Response): Response {
    r.(version := VersionText(r.major, r.minor), headers := Sent(r.headers))
  }

  lemma StatusLineAgain(r: Response)
    ensures StatusLine(r, true) == StatusLine(ResponseAgain(r), false)
  {
  }

  /** The same for a response. */
  lemma ResponseParsesBack(text: string, r: Response, l: nat, e: nat)
    requires text == NewHead(StatusLine(r, true), r.headers) && l == |StatusLine(r, true)| && e + 4 == |text|
    requires Lacks(r.status, ' ') && Free(r.status, CRLF) && -MAX_INT_64 - 1 <= r.statusCode <= MAX_INT_64
    requires r.major < 10 && r.minor < 10 && Readable(r.headers)
    ensures if |Itoa(r.statusCode)| + |r.status| >= 3 then ResponseParsesAs(text, ResponseAgain(r), l, e)
            else ParseHTTPResponse(text).Malformed?
  {
    StatusLineAgain(r);
    PrintedResponseParses(text, StatusLine(r, true), ResponseAgain(r), r.headers, l, e);
  }

  // ------------------------------------------------------------------ how a response is spelled

  /** The words of a status line: the version, the code, the status and any number of others. */
  ghost predicate StatusWords(words: seq<string>, r: Response) {
    && |words| >= 3 && (forall n :: 0 <= n < |words| ==> Lacks(words[n], ' '))
    && words[0] == r.version && Versioned(r.version, r.major, r.minor)
    && IsNumeral(words[1], r.statusCode) && words[2] == r.status
  }

  /** A response as it is spelled: words with single spaces between them, of which those after the
      status are not kept, header lines, a blank line, and whatever follows. */
  ghost predicate ResponseSpelled(buff: string, r: Response, l: nat, e: nat, words: seq<string>, fields: seq<Field>, rest: string) {
    && buff == Join(words, " ") + Block(Spell(fields)) + BLANK + rest && l == |Join(words, " ")| && e == l + |Block(Spell(fields))|
    && StatusWords(words, r) && Free(Join(words, " "), CRLF) && l >= 13
    && HeadLines(Spell(fields)) && ColonFree(fields) && r.headers == Collect(map[], fields)
  }

  lemma AllFreeIff(words: seq<string>)
    ensures AllFree(words, " ") <==> forall n :: 0 <= n < |words| ==> Lacks(words[n], ' ')
  {
    forall n | 0 <= n < |words|
      ensures Free(words[n], " ") <==> Lacks(words[n], ' ')
    {
      FreeIsLacks(words[n], ' ');
    }
  }

  lemma WordsIff(line: string, words: seq<string>)
    ensures Split(line, " ") == words
       <==> words != [] && (forall n :: 0 <= n < |words| ==> Lacks(words[n], ' ')) && Join(words, " ") == line
  {
    SplitIff(line, " ", words);
    AllFreeIff(words);
  }

  lemma SpelledResponseParses(buff: string, r: Response, l: nat, e: nat, words: seq<string>, fields: seq<Field>, rest: string)
    requires ResponseSpelled(buff, r, l, e, words, fields, rest)
    ensures ResponseParsesAs(buff, r, l, e)
  {
    SpelledEnds(buff, l, e, Join(words, " "), Spell(fields), rest);
    WordsIff(buff[..l], words);
    AtoiIff(words[1], r.statusCode);
    VersionIff(r.version, r.major, r.minor);
    HeadersFound(buff[l..e], fields);
    ResponsePartsAreDone(buff, r, l, e, words, Collect(map[], fields));
  }

  lemma ResponseParts(buff: string, r: Response, l: nat, e: nat) returns (words: seq<string>)
    requires ResponseParsesAs(buff, r, l, e)
    ensures Index(buff, CRLF) == Some(l) && Index(buff, BLANK) == Some(e) && 13 <= l <= e <= |buff|
    ensures Split(buff[..l], " ") == words && |words| >= 3 && words[0] == r.version && words[2] == r.status
    ensures Atoi(words[1]) == Some(r.statusCode) && ParseVersion(r.version) == Some((r.major, r.minor))
    ensures ParseLines(map[], Split(buff[l..e], CRLF)) == Some(r.headers)
  {
    LineBeforeBlank(buff);
    words := Split(buff[..Index(buff, CRLF).value], " ");
  }

  lemma ResponseIsSpelled(buff: string, r: Response, l: nat, e: nat)
      returns (words: seq<string>, fields: seq<Field>, rest: string)
    requires ResponseParsesAs(buff, r, l, e)
    ensures ResponseSpelled(buff, r, l, e, words, fields, rest)
  {
    words := ResponseParts(buff, r, l, e);
    var lines := EndsAreSpelled(buff, l, e);
    WordsIff(buff[..l], words);
    AtoiIff(words[1], r.statusCode);
    VersionIff(r.version, r.major, r.minor);
    HeadersBetween(lines);
    fields := LinesAreFields(map[], lines);
    FieldsParse(map[], fields);
    rest := buff[e + 4..];
    TailRegroup(buff[..l], lines, rest);
  }

  /** The parser of responses accepts exactly the buffers that are spelled like one. */
  lemma ResponseParsesIffSpelled(buff: string, r: Response, l: nat, e: nat)
    ensures ParseHTTPResponse(buff) == Done(Head(r, l, e))
       <==> exists words, fields, rest :: ResponseSpelled(buff, r, l, e, words, fields, rest)
  {
    assert ResponseParsesAs(buff, r, l, e) <==> ParseHTTPResponse(buff) == Done(Head(r, l, e));
    if ResponseParsesAs(buff, r, l, e) {
      var words, fields, rest := ResponseIsSpelled(buff, r, l, e);
    }
    forall words, fields, rest | ResponseSpelled(buff, r, l, e, words, fields, rest)
      ensures ResponseParsesAs(buff, r, l, e)
    {
      SpelledResponseParses(buff, r, l, e, words, fields, rest);
    }
  }

  // ------------------------------------------------------------------ printing with any flags

  lemma OldLine(buff: string, l: nat)
    requires Index(buff, CRLF) == Some(l)
    ensures l + 2 <= |buff| && buff[..l + 2] == buff[..l] + CRLF
  {
    IndexIsFirst(buff, CRLF, l);
    assert buff[..l + 2] == buff[..l] + buff[l..l + 2];
  }

  lemma OldLines(buff: string, l: nat, e: nat) returns (lines: seq<string>)
    requires Index(buff, CRLF) == Some(l) && Index(buff, BLANK) == Some(e)
    ensures l <= e && e + 4 <= |buff| && buff[l + 2..][..e - l] == Lines(lines)
    ensures HeadLines(lines) && Split(buff[l..e], CRLF) == [""] + lines
  {
    lines := EndsAreSpelled(buff, l, e);
    TailRegroup(buff[..l], lines, buff[e + 4..]);
    BlockThenBreak(lines);
    CutSpelled(buff[..l], Block(lines), Lines(lines), buff[e + 4..]);
  }

  /** What is printed of a parsed head: the first line anew or as it came, and the header lines of the
      map or those that were parsed. */
  lemma PrintedPieces<T>(p: Source<T>, line: string, lineUpdated: bool, headers: Headers, headersUpdated: bool)
      returns (lines: seq<string>)
    requires Index(p.buff, CRLF) == Some(p.head.lineLength) && Index(p.buff, BLANK) == Some(p.head.endOfHeaders)
    ensures Fits(p)
    ensures PrintHead(p, line, lineUpdated, headers, headersUpdated) + CRLF
         == (if lineUpdated then line else p.buff[..p.head.lineLength]) + Block(lines) + BLANK
    ensures headersUpdated ==> lines == Print(headers)
    ensures !headersUpdated ==>
              HeadLines(lines) && Split(p.buff[p.head.lineLength..p.head.endOfHeaders], CRLF) == [""] + lines
  {
    var l, e := p.head.lineLength, p.head.endOfHeaders;
    var came := OldLines(p.buff, l, e);
    OldLine(p.buff, l);
    lines := if headersUpdated then Print(headers) else came;
    BlankAfterLines(if lineUpdated then line else p.buff[..l], lines);
  }

  /** WriteHeader of a parsed request, for any flags: unchanged it is the whole buffer; otherwise the
      words as they are now or the line as it came, and the header map as it is now or the lines that
      parse to the map that came. */
  lemma WrittenRequest(buff: string, r: Request, l: nat, e: nat, now: Request,
                       pathUpdated: bool, versionUpdated: bool, headersUpdated: bool) returns (lines: seq<string>)
    requires ParsesAs(buff, r, l, e)
    ensures Fits(Source(Head(now, l, e), buff))
    ensures WriteRequestHeader(Source(Head(now, l, e), buff), false, false, false) == buff
    ensures pathUpdated || versionUpdated || headersUpdated ==>
              WriteRequestHeader(Source(Head(now, l, e), buff), pathUpdated, versionUpdated, headersUpdated)
              == (if pathUpdated || versionUpdated
                  then now.verb + " " + now.path + " " + (if versionUpdated then VersionText(now.major, now.minor) else now.version)
                  else r.verb + " " + r.path + " " + r.version)
                 + Block(lines) + BLANK
    ensures headersUpdated ==> lines == Print(now.headers)
    ensures !headersUpdated ==> HeadLines(lines) && ParseLines(map[], lines) == Some(r.headers)
  {
    DoneParts(buff, r, l, e);
    SplitThreeIff(buff[..l], r.verb, r.path, r.version);
    lines := PrintedPieces(Source(Head(now, l, e), buff), RequestLine(now, versionUpdated), pathUpdated || versionUpdated,
                           now.headers, headersUpdated);
    HeadersBetween(lines);
  }

  /** The same for a response; its first line as it came may hold more words. */
  lemma WrittenResponse(buff: string, r: Response, l: nat, e: nat, now: Response,
                        versionUpdated: bool, statusUpdated: bool, headersUpdated: bool) returns (lines: seq<string>)
    requires ResponseParsesAs(buff, r, l, e)
    ensures Fits(Source(Head(now, l, e), buff)) && l <= |buff|
    ensures WriteResponseHeader(Source(Head(now, l, e), buff), false, false, false) == buff
    ensures versionUpdated || statusUpdated || headersUpdated ==>
              WriteResponseHeader(Source(Head(now, l, e), buff), versionUpdated, statusUpdated, headersUpdated)
              == (if versionUpdated || statusUpdated
                  then (if versionUpdated then VersionText(now.major, now.minor) else now.version)
                       + " " + Itoa(now.statusCode) + " " + now.status
                  else buff[..l])
                 + Block(lines) + BLANK
    ensures headersUpdated ==> lines == Print(now.headers)
    ensures !headersUpdated ==> HeadLines(lines) && ParseLines(map[], lines) == Some(r.headers)
  {
    var words := ResponseParts(buff, r, l, e);
    lines := PrintedPieces(Source(Head(now, l, e), buff), StatusLine(now, versionUpdated), versionUpdated || statusUpdated,
                           now.headers, headersUpdated);
    HeadersBetween(lines);
  }

  // ------------------------------------------------------------------ writing to an output buffer

  /** WriteHeader of a request: the head is appended to what out holds, piece by piece. */
  method WriteRequestTo(out: string, p: Source<Request>, pathUpdated: bool, versionUpdated: bool, headersUpdated: bool)
    returns (written: string)
    requires Fits(p)
    ensures written == out + WriteRequestHeader(p, pathUpdated, versionUpdated, headersUpdated)
  {
    if !pathUpdated && !versionUpdated && !headersUpdated {
      return out + p.buff;
    }
    written := WriteHead(out, p, RequestLine(p.head.fields, versionUpdated), pathUpdated || versionUpdated,
                         p.head.fields.headers, headersUpdated);
    written := written + CRLF;
  }

  /** WriteHeader of a response. */
  method WriteResponseTo(out: string, p: Source<Response>, versionUpdated: bool, statusUpdated: bool, headersUpdated: bool)
    returns (written: string)
    requires Fits(p)
    ensures written == out + WriteResponseHeader(p, versionUpdated, statusUpdated, headersUpdated)
  {
    if !versionUpdated && !statusUpdated && !headersUpdated {
      return out + p.buff;
    }
    written := WriteHead(out, p, StatusLine(p.head.fields, versionUpdated), statusUpdated || versionUpdated,
                         p.head.fields.headers, headersUpdated);
    written := written + CRLF;
  }

  method WriteHead<T>(out: string, p: Source<T>, line: string, lineUpdated: bool, headers: Headers, headersUpdated: bool)
    returns (written: string)
    requires Fits(p)
    ensures written == out + PrintHead(p, line, lineUpdated, headers, headersUpdated)
  {
    if lineUpdated {
      written := out + (line + CRLF);
    } else {
      written := out + p.buff[..p.head.lineLength + 2];
    }
    written := WriteHeaders(written, p, headers, headersUpdated);
    Regroup(out, LineText(p, line, lineUpdated), HeaderText(p, headers, headersUpdated));
  }

  method WriteHeaders<T>(out: string, p: Source<T>, headers: Headers, headersUpdated: bool) returns (written: string)
    requires Fits(p)
    ensures written == out + HeaderText(p, headers, headersUpdated)
  {
    if headersUpdated {
      written := WriteLines(out, Print(headers));
    } else {
      written := out + p.buff[p.head.lineLength + 2..][..p.head.endOfHeaders - p.head.lineLength];
    }
  }

  method WriteLines(out: string, lines: seq<string>) returns (written: string)
    ensures written == out + Lines(lines)
  {
    written := out;
    for i := 0 to |lines|
      invariant written + Lines(lines[i..]) == out + Lines(lines)
    {
      assert lines[i..][1..] == lines[i + 1..];
      written := written + lines[i] + CRLF;
    }
  }
}
