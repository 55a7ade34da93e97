/** The string functions the HTTP code is built on, as Go's strings, bytes and strconv packages
    define them.  A byte is modelled by the character with its code. */
module Text {
  import opened Wrappers

  const CRLF := "\r\n"

  // ------------------------------------------------------------------ concatenation

  lemma Regroup(a: string, b: string, c: string)
    ensures a + b + c == a + (b + c)
  {
  }

  lemma NothingAfter(s: string)
    ensures s + "" == s && "" + s == s
  {
  }

  // ------------------------------------------------------------------ searching

  predicate At(s: string, i: nat, pat: string) {
    i + |pat| <= |s| && s[i..i + |pat|] == pat
  }

  /** The first place at or after i where pat occurs. */
  function IndexFrom(s: string, pat: string, i: nat): (r: Option<nat>)
    requires i <= |s|
    ensures r.Some? ==> i <= r.value && r.value + |pat| <= |s|
    decreases |s| - i
  {
    if At(s, i, pat) then Some(i)
    else if i == |s| then None
    else IndexFrom(s, pat, i + 1)
  }

  function Index(s: string, pat: string): Option<nat> {
    IndexFrom(s, pat, 0)
  }

  lemma {:induction false} IndexFromIsFirst(s: string, pat: string, i: nat, k: nat)
    requires i <= k <= |s|
    ensures var r := IndexFrom(s, pat, i);
            (r.Some? ==> At(s, r.value, pat)) && (At(s, k, pat) ==> r.Some? && r.value <= k)
    decreases |s| - i
  {
    if !At(s, i, pat) && i < |s| {
      IndexFromIsFirst(s, pat, i + 1, if k == i then i + 1 else k);
    }
  }

  /** What is found is there, and it is there nowhere before. */
  lemma IndexIsFirst(s: string, pat: string, k: nat)
    requires k <= |s|
    ensures var r := Index(s, pat);
            (r.Some? ==> At(s, r.value, pat)) && (At(s, k, pat) ==> r.Some? && r.value <= k)
  {
    IndexFromIsFirst(s, pat, 0, k);
  }

  lemma IndexIs(s: string, pat: string, i: nat)
    requires At(s, i, pat) && forall k :: 0 <= k < i ==> !At(s, k, pat)
    ensures Index(s, pat) == Some(i)
  {
    IndexIsFirst(s, pat, i);
  }

  /** What has been found stays found, in the same place, when more text arrives. */
  lemma IndexExtends(s: string, t: string, pat: string)
    requires Index(s, pat).Some?
    ensures Index(s + t, pat) == Index(s, pat)
  {
    var i := Index(s, pat).value;
    IndexIsFirst(s, pat, 0);
    SameAt(s, t, pat, i);
    forall k | 0 <= k < i
      ensures !At(s + t, k, pat)
    {
      IndexIsFirst(s, pat, k);
      SameAt(s, t, pat, k);
    }
    IndexIs(s + t, pat, i);
  }

  lemma SameAt(s: string, t: string, pat: string, k: nat)
    requires k + |pat| <= |s|
    ensures At(s + t, k, pat) <==> At(s, k, pat)
  {
    assert (s + t)[k..k + |pat|] == s[k..k + |pat|];
  }

  predicate HasPrefix(s: string, p: string) {
    |p| <= |s| && s[..|p|] == p
  }

  // ------------------------------------------------------------------ splitting and joining

  /** strings.SplitN for n > 0; n = 0 stands for no limit (strings.Split). */
  function SplitN(s: string, sep: string, n: nat): (parts: seq<string>)
    requires |sep| > 0
    ensures |parts| > 0 && (n > 0 ==> |parts| <= n)
    decreases |s|
  {
    if n == 1 then [s]
    else
      match Index(s, sep)
      case None => [s]
      case Some(i) => [s[..i]] + SplitN(s[i + |sep|..], sep, if n == 0 then 0 else n - 1)
  }

  function Split(s: string, sep: string): (parts: seq<string>)
    requires |sep| > 0
    ensures |parts| > 0
  {
    SplitN(s, sep, 0)
  }

  function Join(parts: seq<string>, sep: string): string {
    if parts == [] then ""
    else if |parts| == 1 then parts[0]
    else parts[0] + sep + Join(parts[1..], sep)
  }

  lemma JoinFirst(a: string, rest: seq<string>, sep: string)
    requires rest != []
    ensures Join([a] + rest, sep) == a + sep + Join(rest, sep)
  {
    assert ([a] + rest)[1..] == rest;
  }

  lemma CutAtFound(s: string, sep: string)
    requires Index(s, sep).Some?
    ensures var i := Index(s, sep).value;
            s == s[..i] + sep + s[i + |sep|..]
  {
    IndexIsFirst(s, sep, 0);
    var i := Index(s, sep).value;
    assert s == s[..i] + s[i..i + |sep|] + s[i + |sep|..];
  }

  /** Joining undoes splitting. */
  lemma {:induction false} JoinSplit(s: string, sep: string, n: nat)
    requires |sep| > 0
    ensures Join(SplitN(s, sep, n), sep) == s
    decreases |s|
  {
    if n == 1 || Index(s, sep).None? {
      assert SplitN(s, sep, n) == [s];
    } else {
      var i := Index(s, sep).value;
      var rest := s[i + |sep|..];
      var m := if n == 0 then 0 else n - 1;
      JoinSplit(rest, sep, m);
      JoinFirst(s[..i], SplitN(rest, sep, m), sep);
      CutAtFound(s, sep);
    }
  }

  predicate Lacks(s: string, c: char) {
    forall k :: 0 <= k < |s| ==> s[k] != c
  }

  /** A separator that starts with a character the part lacks is found right after the part. */
  lemma IndexAfter(s: string, sep: string, t: string)
    requires |sep| > 0 && Lacks(s, sep[0])
    ensures Index(s + sep + t, sep) == Some(|s|)
  {
    var all := s + sep + t;
    assert all[|s|..|s| + |sep|] == sep;
    forall k | 0 <= k < |s|
      ensures !At(all, k, sep)
    {
      assert all[k] == s[k];
      if k + |sep| <= |all| { assert all[k..k + |sep|][0] == s[k]; }
    }
    IndexIs(all, sep, |s|);
  }

  lemma NotAt(s: string, sep: string, k: nat)
    requires |sep| > 0 && Lacks(s, sep[0])
    ensures !At(s, k, sep)
  {
    if k + |sep| <= |s| {
      assert s[k..k + |sep|][0] == s[k];
    }
  }

  lemma IndexNone(s: string, sep: string)
    requires |sep| > 0 && Lacks(s, sep[0])
    ensures Index(s, sep) == None
  {
    var r := Index(s, sep);
    IndexIsFirst(s, sep, 0);
    NotAt(s, sep, if r.Some? then r.value else 0);
  }

  // ------------------------------------------------------------------ exactly the split that joins back

  /** The pattern occurs nowhere. */
  predicate Free(s: string, pat: string) {
    forall k :: 0 <= k <= |s| ==> !At(s, k, pat)
  }

  lemma FreeIff(s: string, pat: string)
    ensures Free(s, pat) <==> Index(s, pat) == None
  {
    IndexIsFirst(s, pat, 0);
    if Index(s, pat) == None {
      forall k | 0 <= k <= |s|
        ensures !At(s, k, pat)
      {
        IndexIsFirst(s, pat, k);
      }
    }
  }

  lemma LacksIsFree(s: string, pat: string)
    requires |pat| > 0 && Lacks(s, pat[0])
    ensures Free(s, pat)
  {
    forall k | 0 <= k <= |s|
      ensures !At(s, k, pat)
    {
      NotAt(s, pat, k);
    }
  }

  lemma FreeIsLacks(s: string, c: char)
    ensures Free(s, [c]) <==> Lacks(s, c)
  {
    if Free(s, [c]) {
      forall k | 0 <= k < |s|
        ensures s[k] != c
      {
        assert !At(s, k, [c]);
        assert s[k..k + 1] == [s[k]];
      }
    } else {
      var k :| 0 <= k <= |s| && At(s, k, [c]);
      assert s[k..k + 1] == [s[k]];
    }
  }

  /** A separator whose first character does not recur cannot overlap itself. */
  predicate Borderless(sep: string) {
    |sep| > 0 && forall k :: 0 < k < |sep| ==> sep[k] != sep[0]
  }

  lemma AtShift(a: string, b: string, pat: string, k: nat)
    requires k >= |a|
    ensures At(a + b, k, pat) <==> At(b, k - |a|, pat)
  {
    if k + |pat| <= |a + b| {
      assert (a + b)[k..k + |pat|] == b[k - |a|..k - |a| + |pat|];
    }
  }

  lemma NotAcross(s: string, sep: string, t: string, k: nat)
    requires Borderless(sep) && Free(s, sep) && k < |s|
    ensures !At(s + sep + t, k, sep)
  {
    var all := s + sep + t;
    assert !At(s, k, sep);
    if k + |sep| <= |s| {
      assert all[k..k + |sep|] == s[k..k + |sep|];
    } else if k + |sep| <= |all| {
      assert all[k..k + |sep|][|s| - k] == all[|s|] == sep[0];
    }
  }

  /** Such a separator is found right after a part that is free of it. */
  lemma IndexAfterFree(s: string, sep: string, t: string)
    requires Borderless(sep) && Free(s, sep)
    ensures Index(s + sep + t, sep) == Some(|s|)
  {
    assert (s + sep + t)[|s|..|s| + |sep|] == sep;
    forall k | 0 <= k < |s|
      ensures !At(s + sep + t, k, sep)
    {
      NotAcross(s, sep, t, k);
    }
    IndexIs(s + sep + t, sep, |s|);
  }

  predicate AllFree(parts: seq<string>, sep: string) {
    forall i :: 0 <= i < |parts| ==> Free(parts[i], sep)
  }

  lemma BeforeFirst(s: string, sep: string)
    requires |sep| > 0 && Index(s, sep).Some?
    ensures Free(s[..Index(s, sep).value], sep)
  {
    var i := Index(s, sep).value;
    forall k | 0 <= k <= i
      ensures !At(s[..i], k, sep)
    {
      IndexIsFirst(s, sep, k);
      if k + |sep| <= i {
        assert s[..i][k..k + |sep|] == s[k..k + |sep|];
      }
    }
  }

  lemma {:induction false} SplitIsFree(s: string, sep: string)
    requires |sep| > 0
    ensures AllFree(Split(s, sep), sep)
    decreases |s|
  {
    FreeIff(s, sep);
    if Index(s, sep) == None {
      assert Split(s, sep) == [s];
    } else {
      var i := Index(s, sep).value;
      BeforeFirst(s, sep);
      SplitIsFree(s[i + |sep|..], sep);
      assert Split(s, sep) == [s[..i]] + Split(s[i + |sep|..], sep);
    }
  }

  lemma AroundFirst(s: string, sep: string, t: string)
    ensures (s + sep + t)[..|s|] == s && (s + sep + t)[|s| + |sep|..] == t
  {
  }

  lemma SplitFirst(s: string, sep: string, t: string)
    requires Borderless(sep) && Free(s, sep)
    ensures Split(s + sep + t, sep) == [s] + Split(t, sep)
  {
    IndexAfterFree(s, sep, t);
    AroundFirst(s, sep, t);
  }

  lemma {:induction false} FreeSplit(parts: seq<string>, sep: string)
    requires Borderless(sep) && parts != [] && AllFree(parts, sep)
    ensures Split(Join(parts, sep), sep) == parts
    decreases |parts|
  {
    if |parts| == 1 {
      FreeIff(parts[0], sep);
    } else {
      FreeSplit(parts[1..], sep);
      SplitFirst(parts[0], sep, Join(parts[1..], sep));
    }
  }

  /** Splitting gives exactly the one list of parts that are free of the separator and join to the
      text. */
  lemma SplitIff(s: string, sep: string, parts: seq<string>)
    requires Borderless(sep)
    ensures Split(s, sep) == parts <==> parts != [] && AllFree(parts, sep) && Join(parts, sep) == s
  {
    if Split(s, sep) == parts {
      SplitIsFree(s, sep);
      JoinSplit(s, sep, 0);
    } else if parts != [] && AllFree(parts, sep) {
      FreeSplit(parts, sep);
    }
  }

  /** Splitting undoes joining, for parts that lack the separator's first character. */
  lemma {:induction false} SplitJoin(parts: seq<string>, sep: string)
    requires |sep| > 0 && |parts| > 0 && forall i :: 0 <= i < |parts| ==> Lacks(parts[i], sep[0])
    ensures Split(Join(parts, sep), sep) == parts
    decreases |parts|
  {
    if |parts| == 1 {
      IndexNone(parts[0], sep);
    } else {
      var rest := Join(parts[1..], sep);
      SplitJoin(parts[1..], sep);
      IndexAfter(parts[0], sep, rest);
      var all := parts[0] + sep + rest;
      assert all[|parts[0]| + |sep|..] == rest && all[..|parts[0]|] == parts[0];
    }
  }

  /** One cut, as SplitN(s, sep, 2) makes it. */
  lemma SplitOnce(s: string, sep: string, t: string)
    requires |sep| > 0 && Lacks(s, sep[0])
    ensures SplitN(s + sep + t, sep, 2) == [s, t]
  {
    IndexAfter(s, sep, t);
    var all := s + sep + t;
    assert all[|s| + |sep|..] == t && all[..|s|] == s;
  }

  // ------------------------------------------------------------------ trimming

  /** The ASCII part of unicode.IsSpace. */
  predicate IsSpace(c: char) {
    c in "\t\n\U{00000B}\U{00000C}\r "
  }

  /** textproto's narrower notion. */
  predicate IsBlank(c: char) {
    c in "\t\n\r "
  }

  lemma SpaceChars(c: char)
    ensures IsSpace(c) <==> c == ' ' || 9 <= c as int <= 13
    ensures IsBlank(c) <==> c == ' ' || c as int == 9 || c as int == 10 || c as int == 13
  {
  }

  function TrimLeft(s: string, space: char -> bool): string {
    if s != "" && space(s[0]) then TrimLeft(s[1..], space) else s
  }

  function TrimRight(s: string, space: char -> bool): string {
    if s != "" && space(s[|s| - 1]) then TrimRight(s[..|s| - 1], space) else s
  }

  /** strings.TrimSpace */
  function TrimSpace(s: string): string {
    TrimRight(TrimLeft(s, IsSpace), IsSpace)
  }

  /** textproto.TrimString */
  function TrimString(s: string): string {
    TrimRight(TrimLeft(s, IsBlank), IsBlank)
  }

  /** Neither end is a space. */
  predicate Trimmed(s: string) {
    s == "" || (!IsSpace(s[0]) && !IsSpace(s[|s| - 1]))
  }

  lemma TrimTrimmed(s: string)
    requires Trimmed(s)
    ensures TrimSpace(s) == s && TrimSpace(" " + s) == s && TrimString(s) == s
  {
    assert (" " + s)[1..] == s;
  }

  lemma {:induction false} TrimLeftEnds(s: string, space: char -> bool)
    ensures var t := TrimLeft(s, space);
            t == "" || !space(t[0])
    decreases |s|
  {
    if s == "" || !space(s[0]) {
      assert TrimLeft(s, space) == s;
    } else {
      TrimLeftEnds(s[1..], space);
    }
  }

  lemma {:induction false} TrimRightEnds(s: string, space: char -> bool)
    ensures var t := TrimRight(s, space);
            t == "" || (!space(t[|t| - 1]) && t[0] == s[0])
    decreases |s|
  {
    if s == "" || !space(s[|s| - 1]) {
      assert TrimRight(s, space) == s;
    } else {
      TrimRightEnds(s[..|s| - 1], space);
    }
  }

  lemma TrimSpaceTrims(s: string)
    ensures Trimmed(TrimSpace(s))
  {
    TrimLeftEnds(s, IsSpace);
    TrimRightEnds(TrimLeft(s, IsSpace), IsSpace);
  }

  /** All of it is space. */
  predicate AllSpace(s: string, space: char -> bool) {
    forall k :: 0 <= k < |s| ==> space(s[k])
  }

  /** Neither end of it is a space. */
  predicate Ends(s: string, space: char -> bool) {
    s == "" || (!space(s[0]) && !space(s[|s| - 1]))
  }

  lemma {:induction false} TrimLeftCuts(s: string, space: char -> bool) returns (left: string)
    ensures s == left + TrimLeft(s, space) && AllSpace(left, space)
    decreases |s|
  {
    if s != "" && space(s[0]) {
      var rest := TrimLeftCuts(s[1..], space);
      left := [s[0]] + rest;
      assert s == [s[0]] + s[1..];
    } else {
      left := "";
    }
  }

  lemma {:induction false} TrimRightCuts(s: string, space: char -> bool) returns (right: string)
    ensures s == TrimRight(s, space) + right && AllSpace(right, space)
    decreases |s|
  {
    if s != "" && space(s[|s| - 1]) {
      var rest := TrimRightCuts(s[..|s| - 1], space);
      right := rest + [s[|s| - 1]];
      assert s == s[..|s| - 1] + [s[|s| - 1]];
    } else {
      right := "";
    }
  }

  lemma SpacesAround(s: string, c: string, u: string, d: string, space: char -> bool)
    requires s == c + u + d && AllSpace(c, space) && AllSpace(d, space)
    ensures forall p :: 0 <= p < |c| ==> space(s[p])
    ensures forall p :: |c| + |u| <= p < |s| ==> space(s[p])
  {
    forall p | 0 <= p < |c|
      ensures space(s[p])
    {
      assert s[p] == c[p];
    }
    forall p | |c| + |u| <= p < |s|
      ensures space(s[p])
    {
      assert s[p] == d[p - |c| - |u|];
    }
  }

  lemma CutsAgree(a: string, t: string, b: string, c: string, u: string, d: string, space: char -> bool)
    requires a + t + b == c + u + d
    requires AllSpace(a, space) && AllSpace(b, space) && AllSpace(c, space) && AllSpace(d, space)
    requires Ends(t, space) && Ends(u, space) && t != ""
    ensures |a| >= |c| && |b| >= |d| && u != ""
  {
    var s := a + t + b;
    SpacesAround(s, c, u, d, space);
    assert s[|a|] == t[0] && s[|a| + |t| - 1] == t[|t| - 1];
    assert !space(s[|a|]) && !space(s[|a| + |t| - 1]);
  }

  lemma OneCut(s: string, a: string, t: string, b: string, c: string, u: string, d: string, space: char -> bool)
    requires s == a + t + b && s == c + u + d
    requires AllSpace(a, space) && AllSpace(b, space) && AllSpace(c, space) && AllSpace(d, space)
    requires Ends(t, space) && Ends(u, space)
    ensures t == u
  {
    if t != "" {
      CutsAgree(a, t, b, c, u, d, space);
      CutsAgree(c, u, d, a, t, b, space);
      assert t == s[|a|..|a| + |t|] && u == s[|c|..|c| + |u|];
    } else if u != "" {
      CutsAgree(c, u, d, a, t, b, space);
    }
  }

  predicate Cut3(s: string, left: string, t: string, right: string, space: char -> bool) {
    s == left + t + right && AllSpace(left, space) && AllSpace(right, space) && Ends(t, space)
  }

  /** Trimming takes off the spaces at both ends, all of them and nothing else. */
  lemma TrimIff(s: string, t: string, space: char -> bool)
    ensures TrimRight(TrimLeft(s, space), space) == t <==> exists left, right :: Cut3(s, left, t, right, space)
  {
    var l := TrimLeft(s, space);
    var left := TrimLeftCuts(s, space);
    var right := TrimRightCuts(l, space);
    var r := TrimRight(l, space);
    TrimLeftEnds(s, space);
    TrimRightEnds(l, space);
    assert s == left + r + right;
    assert Cut3(s, left, r, right, space);
    if a, b :| Cut3(s, a, t, b, space) {
      OneCut(s, left, r, right, a, t, b, space);
    }
  }

  // ------------------------------------------------------------------ letters

  /** The same character, or the two cases of a letter. */
  predicate SameLetter(a: char, b: char) {
    || a == b
    || ('A' <= a <= 'Z' && b as int == a as int + 32)
    || ('A' <= b <= 'Z' && a as int == b as int + 32)
  }

  /** The same text up to the case of letters. */
  predicate SameName(s: string, t: string) {
    |s| == |t| && forall k :: 0 <= k < |s| ==> SameLetter(s[k], t[k])
  }

  // ------------------------------------------------------------------ numbers

  const MAX_INT_64: int := 0x7fff_ffff_ffff_ffff

  function DigitValue(c: char): Option<nat> {
    if '0' <= c <= '9' then Some(c as nat - '0' as nat)
    else if 'a' <= c <= 'z' then Some(c as nat - 'a' as nat + 10)
    else if 'A' <= c <= 'Z' then Some(c as nat - 'A' as nat + 10)
    else None
  }

  function Digits(s: string, base: nat): Option<nat>
  {
    if s == "" then Some(0)
    else
      match Digits(s[..|s| - 1], base)
      case None => None
      case Some(high) =>
        match DigitValue(s[|s| - 1])
        case Some(d) => if d < base then Some(high * base + d) else None
        case None => None
  }

  /** strconv.ParseInt(s, base, 64) for base 10 or 16; None stands for an error. */
  function ParseInt(s: string, base: nat): (r: Option<int>)
    ensures r.Some? ==> -MAX_INT_64 - 1 <= r.value <= MAX_INT_64
  {
    if s == "" then None
    else
      var signed := s[0] == '+' || s[0] == '-';
      var body := if signed then s[1..] else s;
      if body == "" then None
      else
        match Digits(body, base)
        case None => None
        case Some(n) =>
          var value := if s[0] == '-' then -(n as int) else n as int;
          if -MAX_INT_64 - 1 <= value <= MAX_INT_64 then Some(value) else None
  }

  function Atoi(s: string): (r: Option<int>)
    ensures r.Some? ==> -MAX_INT_64 - 1 <= r.value <= MAX_INT_64
  {
    ParseInt(s, 10)
  }

  function DigitChar(d: nat): char
    requires d < 10
  {
    ('0' as nat + d) as char
  }

  function Decimal(n: nat): (s: string)
    ensures s != "" && forall k :: 0 <= k < |s| ==> '0' <= s[k] <= '9'
  {
    if n < 10 then [DigitChar(n)] else Decimal(n / 10) + [DigitChar(n % 10)]
  }

  function Itoa(n: int): (s: string)
    ensures s != ""
  {
    if n < 0 then "-" + Decimal(-n) else Decimal(n)
  }

  lemma {:induction false} DigitsDecimal(n: nat)
    ensures Digits(Decimal(n), 10) == Some(n)
  {
    var s := Decimal(n);
    if n < 10 {
      assert s[..0] == "";
    } else {
      DigitsDecimal(n / 10);
      assert s[..|s| - 1] == Decimal(n / 10);
    }
  }

  lemma AfterSign(d: string)
    ensures ("-" + d)[1..] == d && ("-" + d)[0] == '-'
  {
  }

  lemma AtoiNegative(n: nat)
    requires n <= MAX_INT_64 + 1
    ensures Atoi("-" + Decimal(n)) == Some(-(n as int))
  {
    AfterSign(Decimal(n));
    DigitsDecimal(n);
  }

  lemma AtoiPlain(n: nat)
    requires n <= MAX_INT_64
    ensures Atoi(Decimal(n)) == Some(n)
  {
    DigitsDecimal(n);
    assert '0' <= Decimal(n)[0] <= '9';
  }

  /** strconv.Atoi undoes strconv.Itoa. */
  lemma AtoiItoa(n: int)
    requires -MAX_INT_64 - 1 <= n <= MAX_INT_64
    ensures Atoi(Itoa(n)) == Some(n)
  {
    if n < 0 {
      AtoiNegative(-n);
    } else {
      AtoiPlain(n);
    }
  }

  function Zeros(k: nat): string {
    if k == 0 then "" else "0" + Zeros(k - 1)
  }

  lemma {:induction false} ZeroLast(k: nat)
    ensures Zeros(k) + "0" == Zeros(k + 1)
  {
    if k == 0 {
    } else {
      ZeroLast(k - 1);
      assert Zeros(k) + "0" == "0" + (Zeros(k - 1) + "0");
    }
  }

  lemma DigitsPush(high: string, n: nat, d: nat)
    requires Digits(high, 10) == Some(n) && d < 10
    ensures Digits(high + [DigitChar(d)], 10) == Some(10 * n + d)
  {
    var s := high + [DigitChar(d)];
    assert s[..|s| - 1] == high && s[|s| - 1] == DigitChar(d);
  }

  lemma {:induction false} DigitsZeros(k: nat)
    ensures Digits(Zeros(k), 10) == Some(0)
  {
    if k == 0 {
    } else {
      DigitsZeros(k - 1);
      ZeroLast(k - 1);
      DigitsPush(Zeros(k - 1), 0, 0);
      assert "0" == [DigitChar(0)];
    }
  }

  lemma PadMore(k: nat, n: nat)
    ensures Zeros(k) + Decimal(n) == (if n < 10 then Zeros(k) else Zeros(k) + Decimal(n / 10)) + [DigitChar(n % 10)]
  {
  }

  /** Leading zeros do not count. */
  lemma {:induction false} DigitsPadded(k: nat, n: nat)
    ensures Digits(Zeros(k) + Decimal(n), 10) == Some(n)
  {
    PadMore(k, n);
    if n < 10 {
      DigitsZeros(k);
      DigitsPush(Zeros(k), 0, n);
    } else {
      DigitsPadded(k, n / 10);
      DigitsPush(Zeros(k) + Decimal(n / 10), n / 10, n % 10);
    }
  }

  lemma DigitIsChar(c: char, d: nat)
    requires DigitValue(c) == Some(d) && d < 10
    ensures c == DigitChar(d)
  {
  }

  lemma DigitsPop(s: string, n: nat)
    requires s != "" && Digits(s, 10) == Some(n)
    ensures Digits(s[..|s| - 1], 10) == Some(n / 10)
    ensures DigitValue(s[|s| - 1]) == Some(n % 10)
  {
    var high, d := Digits(s[..|s| - 1], 10).value, DigitValue(s[|s| - 1]).value;
    assert n == 10 * high + d;
  }

  lemma LastDigit(s: string, n: nat) returns (high: string)
    requires s != "" && Digits(s, 10) == Some(n)
    ensures s == high + [DigitChar(n % 10)] && Digits(high, 10) == Some(n / 10) && |high| < |s|
  {
    DigitsPop(s, n);
    DigitIsChar(s[|s| - 1], n % 10);
    high := s[..|s| - 1];
    PopLast(s);
  }

  lemma PopLast(s: string)
    requires s != ""
    ensures s == s[..|s| - 1] + [s[|s| - 1]]
  {
  }

  lemma PadOne(high: string, k: nat, n: nat) returns (j: nat)
    requires high == Zeros(k) + Decimal(n / 10)
    ensures high + [DigitChar(n % 10)] == Zeros(j) + Decimal(n)
  {
    if n < 10 {
      assert Decimal(0) == "0";
      ZeroLast(k);
      j := k + 1;
    } else {
      j := k;
    }
    PadMore(j, n);
  }

  lemma PadFirst(n: nat)
    requires n < 10
    ensures "" + [DigitChar(n % 10)] == Zeros(0) + Decimal(n)
  {
  }

  lemma {:induction false} DigitsArePadded(s: string, n: nat) returns (k: nat)
    requires s != "" && Digits(s, 10) == Some(n)
    ensures s == Zeros(k) + Decimal(n)
    decreases |s|
  {
    var high := LastDigit(s, n);
    if high == "" {
      k := 0;
      PadFirst(n);
    } else {
      k := DigitsArePadded(high, n / 10);
      k := PadOne(high, k, n);
    }
  }

  /** s is the number n in decimal: a sign or none, any number of zeros, and its digits. */
  predicate Numeral(s: string, n: int, sign: string, zeros: nat) {
    && (sign == "-" || sign == "+" || sign == "") && (if sign == "-" then n <= 0 else n >= 0)
    && s == sign + (Zeros(zeros) + Decimal(if n < 0 then -n else n)) && -MAX_INT_64 - 1 <= n <= MAX_INT_64
  }

  ghost predicate IsNumeral(s: string, n: int) {
    exists sign, zeros :: Numeral(s, n, sign, zeros)
  }

  lemma PaddedIsDigits(k: nat, n: nat)
    ensures var s := Zeros(k) + Decimal(n); s != "" && '0' <= s[0] <= '9'
  {
  }

  lemma UnsignedIsRead(digits: string, n: nat)
    requires digits != "" && '0' <= digits[0] <= '9' && Digits(digits, 10) == Some(n) && n <= MAX_INT_64
    ensures Atoi(digits) == Some(n)
  {
  }

  lemma SignedIsRead(c: char, digits: string, n: nat)
    requires c == '+' || c == '-'
    requires digits != "" && Digits(digits, 10) == Some(n) && (if c == '-' then n <= MAX_INT_64 + 1 else n <= MAX_INT_64)
    ensures Atoi([c] + digits) == Some(if c == '-' then -(n as int) else n)
  {
    assert ([c] + digits)[1..] == digits;
  }

  lemma SignedOrNot(s: string, sign: string, digits: string)
    requires s == sign + digits && (sign == "-" || sign == "+" || sign == "")
    ensures s == if sign == "" then digits else [sign[0]] + digits
  {
  }

  /** The digits of a numeral, and its text as a sign or nothing before them. */
  lemma NumeralParts(s: string, n: int, sign: string, zeros: nat) returns (digits: string, m: nat)
    requires Numeral(s, n, sign, zeros)
    ensures m == (if n < 0 then -n else n) && digits != "" && '0' <= digits[0] <= '9' && Digits(digits, 10) == Some(m)
    ensures s == if sign == "" then digits else [sign[0]] + digits
  {
    m := if n < 0 then -n else n;
    digits := Zeros(zeros) + Decimal(m);
    DigitsPadded(zeros, m);
    PaddedIsDigits(zeros, m);
    SignedOrNot(s, sign, digits);
  }

  lemma NumeralIsRead(s: string, n: int, sign: string, zeros: nat)
    requires Numeral(s, n, sign, zeros)
    ensures Atoi(s) == Some(n)
  {
    var digits, m := NumeralParts(s, n, sign, zeros);
    if sign == "" {
      UnsignedIsRead(digits, m);
    } else {
      SignedIsRead(sign[0], digits, m);
    }
  }

  lemma ReadIsNumeral(s: string, n: int)
    requires Atoi(s) == Some(n)
    ensures IsNumeral(s, n)
  {
    var sign := if s[0] == '+' then "+" else if s[0] == '-' then "-" else "";
    var digits := s[|sign|..];
    assert s == sign + digits;
    var zeros := DigitsArePadded(digits, if n < 0 then -n else n);
    assert Numeral(s, n, sign, zeros);
  }

  /** strconv.Atoi reads exactly the numerals of 64-bit integers. */
  lemma AtoiIff(s: string, n: int)
    ensures Atoi(s) == Some(n) <==> IsNumeral(s, n)
  {
    if Atoi(s) == Some(n) {
      ReadIsNumeral(s, n);
    }
    if sign, zeros :| Numeral(s, n, sign, zeros) {
      NumeralIsRead(s, n, sign, zeros);
    }
  }

  // ------------------------------------------------------------------ hexadecimal numbers

  /** The digit as strconv prints it. */
  function HexDigit(d: nat): char
    requires d < 16
  {
    "0123456789abcdef"[d]
  }

  function Hexadecimal(n: nat): (s: string)
    ensures s != ""
  {
    if n < 16 then [HexDigit(n)] else Hexadecimal(n / 16) + [HexDigit(n % 16)]
  }

  /** A character stands for a digit exactly when it is that digit in one case or the other. */
  lemma HexDigitIff(c: char, d: nat)
    requires d < 16
    ensures DigitValue(c) == Some(d) <==> SameLetter(c, HexDigit(d))
  {
  }

  lemma HexPush(high: string, n: nat, c: char, d: nat)
    requires Digits(high, 16) == Some(n) && d < 16 && DigitValue(c) == Some(d)
    ensures Digits(high + [c], 16) == Some(16 * n + d)
  {
    var s := high + [c];
    assert s[..|s| - 1] == high && s[|s| - 1] == c;
  }

  lemma HexPop(s: string, n: nat)
    requires s != "" && Digits(s, 16) == Some(n)
    ensures Digits(s[..|s| - 1], 16) == Some(n / 16) && DigitValue(s[|s| - 1]) == Some(n % 16)
  {
    var high, d := Digits(s[..|s| - 1], 16).value, DigitValue(s[|s| - 1]).value;
    assert n == 16 * high + d;
  }

  /** s is the number in hexadecimal, with zeros before it and letters of any case. */
  predicate HexText(s: string, n: nat, zeros: nat) {
    SameName(s, Zeros(zeros) + Hexadecimal(n))
  }

  lemma {:induction false} ZeroChars(k: nat)
    ensures |Zeros(k)| == k && forall i :: 0 <= i < k ==> Zeros(k)[i] == '0'
  {
    if k == 0 {
    } else {
      ZeroChars(k - 1);
    }
  }

  lemma HexMore(k: nat, n: nat)
    ensures Zeros(k) + Hexadecimal(n) == (if n < 16 then Zeros(k) else Zeros(k) + Hexadecimal(n / 16)) + [HexDigit(n % 16)]
  {
  }

  lemma SameNamePush(s: string, a: char, t: string, b: char)
    ensures SameName(s + [a], t + [b]) <==> SameName(s, t) && SameLetter(a, b)
  {
    if SameName(s + [a], t + [b]) {
      forall k | 0 <= k < |s|
        ensures SameLetter(s[k], t[k])
      {
        assert (s + [a])[k] == s[k] && (t + [b])[k] == t[k];
      }
      assert (s + [a])[|s|] == a && (t + [b])[|t|] == b;
    }
  }

  lemma {:induction false} ZeroText(s: string)
    ensures SameName(s, Zeros(|s|)) ==> Digits(s, 16) == Some(0)
    decreases |s|
  {
    if s == "" {
    } else if SameName(s, Zeros(|s|)) {
      var high := s[..|s| - 1];
      PopLast(s);
      ZeroLast(|s| - 1);
      SameNamePush(high, s[|s| - 1], Zeros(|s| - 1), '0');
      ZeroText(high);
      HexDigitIff(s[|s| - 1], 0);
      HexPush(high, 0, s[|s| - 1], 0);
    }
  }

  lemma {:induction false} HexIsRead(s: string, n: nat, zeros: nat)
    requires HexText(s, n, zeros)
    ensures s != "" && Digits(s, 16) == Some(n)
    decreases n
  {
    HexMore(zeros, n);
    ZeroChars(zeros);
    var high, c := s[..|s| - 1], s[|s| - 1];
    PopLast(s);
    if n < 16 {
      SameNamePush(high, c, Zeros(zeros), HexDigit(n));
      ZeroText(high);
      HexDigitIff(c, n);
      HexPush(high, 0, c, n);
    } else {
      SameNamePush(high, c, Zeros(zeros) + Hexadecimal(n / 16), HexDigit(n % 16));
      HexIsRead(high, n / 16, zeros);
      HexDigitIff(c, n % 16);
      HexPush(high, n / 16, c, n % 16);
    }
  }

  lemma HexGrows(high: string, c: char, n: nat, k: nat) returns (zeros: nat)
    requires HexText(high, n / 16, k) && SameLetter(c, HexDigit(n % 16))
    ensures HexText(high + [c], n, zeros)
  {
    if n < 16 {
      assert Hexadecimal(0) == "0";
      ZeroLast(k);
      zeros := k + 1;
      SameNamePush(high, c, Zeros(k + 1), HexDigit(n));
    } else {
      zeros := k;
      SameNamePush(high, c, Zeros(k) + Hexadecimal(n / 16), HexDigit(n % 16));
    }
    HexMore(zeros, n);
  }

  lemma {:induction false} ReadIsHex(s: string, n: nat) returns (zeros: nat)
    requires s != "" && Digits(s, 16) == Some(n)
    ensures HexText(s, n, zeros)
    decreases |s|
  {
    var high, c := s[..|s| - 1], s[|s| - 1];
    HexPop(s, n);
    HexDigitIff(c, n % 16);
    PopLast(s);
    if high == "" {
      zeros := 0;
      SameNamePush("", c, "", HexDigit(n));
      assert Zeros(0) + Hexadecimal(n) == "" + [HexDigit(n)];
    } else {
      var k := ReadIsHex(high, n / 16);
      zeros := HexGrows(high, c, n, k);
    }
  }

  ghost predicate IsHexText(s: string, n: nat) {
    exists zeros :: HexText(s, n, zeros)
  }

  lemma FirstHexDigit(s: string, n: nat, zeros: nat)
    requires HexText(s, n, zeros)
    ensures s != "" && s[0] != '+' && s[0] != '-'
  {
    HexIsRead(s, n, zeros);
    ReadHasDigits(s, n, 0);
  }

  lemma {:induction false} ReadHasDigits(s: string, n: nat, k: nat)
    requires Digits(s, 16) == Some(n) && k < |s|
    ensures DigitValue(s[k]).Some?
    decreases |s|
  {
    HexPop(s, n);
    if k < |s| - 1 {
      ReadHasDigits(s[..|s| - 1], n / 16, k);
    }
  }

  /** strconv.ParseInt reads, of texts without a sign, exactly the hexadecimal numbers below 2^63: any
      leading zeros, letters of either case. */
  lemma HexIff(s: string, n: nat)
    ensures ParseInt(s, 16) == Some(n) && s != "" && s[0] != '+' && s[0] != '-' <==> IsHexText(s, n) && n <= MAX_INT_64
  {
    if ParseInt(s, 16) == Some(n) && s != "" && s[0] != '+' && s[0] != '-' {
      var zeros := ReadIsHex(s, n);
    }
    if zeros :| HexText(s, n, zeros) {
      HexIsRead(s, n, zeros);
      FirstHexDigit(s, n, zeros);
    }
  }
}
