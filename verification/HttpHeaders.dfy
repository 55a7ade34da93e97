/** net/http's header map as http-parser.go uses it: canonical keys, values in order of arrival,
    and the printed form with its keys sorted. */
module HttpHeaders {
  import opened Wrappers
  import opened Text

  type Headers = map<string, seq<string>>

  // ------------------------------------------------------------------ keys

  predicate TokenChar(c: char) {
    ('a' <= c <= 'z') || ('A' <= c <= 'Z') || ('0' <= c <= '9') || c in "!#$%&'*+-.^_`|~"
  }

  predicate IsToken(s: string) {
    forall k :: 0 <= k < |s| ==> TokenChar(s[k])
  }

  function ToUpper(c: char): char {
    if 'a' <= c <= 'z' then (c as nat - 32) as char else c
  }

  function ToLower(c: char): char {
    if 'A' <= c <= 'Z' then (c as nat + 32) as char else c
  }

  function ToCase(upper: bool, c: char): char {
    if upper then ToUpper(c) else ToLower(c)
  }

  /** Upper case at the start and after every '-', lower case elsewhere. */
  function Capitalized(s: string, upper: bool): (r: string)
    ensures |r| == |s|
  {
    if s == "" then "" else [ToCase(upper, s[0])] + Capitalized(s[1..], s[0] == '-')
  }

  /** CanonicalMIMEHeaderKey: keys that are no tokens are left alone. */
  function Canonical(key: string): (r: string)
    ensures |r| == |key|
  {
    if IsToken(key) then Capitalized(key, true) else key
  }

  lemma CaseTwice(upper: bool, c: char)
    ensures ToCase(upper, ToCase(upper, c)) == ToCase(upper, c)
    ensures ToCase(upper, c) == '-' <==> c == '-'
    ensures TokenChar(c) ==> TokenChar(ToCase(upper, c))
  {
  }

  lemma {:induction false} CapitalizedTwice(s: string, upper: bool)
    requires IsToken(s)
    ensures IsToken(Capitalized(s, upper))
    ensures Capitalized(Capitalized(s, upper), upper) == Capitalized(s, upper)
  {
    if s == "" {
    } else {
      CaseTwice(upper, s[0]);
      CapitalizedTwice(s[1..], s[0] == '-');
      var r := Capitalized(s, upper);
      assert r[0] == ToCase(upper, s[0]) && r[1..] == Capitalized(s[1..], s[0] == '-');
    }
  }

  /** Canonicalizing twice is canonicalizing once. */
  lemma CanonicalTwice(key: string)
    ensures Canonical(Canonical(key)) == Canonical(key)
  {
    if IsToken(key) {
      CapitalizedTwice(key, true);
    }
  }

  /** In canonical form already. */
  predicate CapitalWords(s: string, upper: bool) {
    s == "" || (ToCase(upper, s[0]) == s[0] && CapitalWords(s[1..], s[0] == '-'))
  }

  lemma {:induction false} CapitalizedIff(s: string, upper: bool)
    ensures CapitalWords(s, upper) <==> Capitalized(s, upper) == s
  {
    if s == "" {
    } else {
      CapitalizedIff(s[1..], s[0] == '-');
      var r := Capitalized(s, upper);
      assert r[0] == ToCase(upper, s[0]) && r[1..] == Capitalized(s[1..], s[0] == '-');
      assert s == [s[0]] + s[1..];
    }
  }

  /** A field name that Add and Get leave as it is. */
  predicate FieldName(k: string) {
    k != "" && IsToken(k) && CapitalWords(k, true)
  }

  lemma FieldNameIsCanonical(k: string)
    requires k != "" && IsToken(k)
    ensures FieldName(k) <==> Canonical(k) == k
  {
    CapitalizedIff(k, true);
  }

  /** The characters of a token in RFC 9110, section 5.6.2: visible ones but for the delimiters. */
  lemma TokenChars(c: char)
    ensures TokenChar(c) <==> '!' <= c <= '~' && c !in "\"(),/:;<=>?@[\\]{}"
  {
  }

  /** A place where a word of a name begins. */
  predicate WordStart(s: string, k: nat)
    requires k < |s|
  {
    k == 0 || s[k - 1] == '-'
  }

  /** Capitals where words begin, small letters elsewhere. */
  predicate Capitals(s: string) {
    forall k :: 0 <= k < |s| ==> if WordStart(s, k) then !('a' <= s[k] <= 'z') else !('A' <= s[k] <= 'Z')
  }

  lemma {:induction false} CapitalizedAt(s: string, upper: bool, k: nat)
    requires k < |s|
    ensures Capitalized(s, upper)[k] == ToCase(if k == 0 then upper else s[k - 1] == '-', s[k])
  {
    if k == 0 {
    } else {
      CapitalizedAt(s[1..], s[0] == '-', k - 1);
    }
  }

  lemma CaseIsLetter(upper: bool, c: char)
    ensures SameLetter(ToCase(upper, c), c) && (ToCase(upper, c) == '-' <==> c == '-')
    ensures if upper then !('a' <= ToCase(upper, c) <= 'z') else !('A' <= ToCase(upper, c) <= 'Z')
  {
  }

  lemma CanonicalAt(s: string, k: nat)
    requires IsToken(s) && k < |s|
    ensures SameLetter(Canonical(s)[k], s[k]) && (Canonical(s)[k] == '-' <==> s[k] == '-')
    ensures if WordStart(s, k) then !('a' <= Canonical(s)[k] <= 'z') else !('A' <= Canonical(s)[k] <= 'Z')
  {
    CapitalizedAt(s, true, k);
    CaseIsLetter(WordStart(s, k), s[k]);
  }

  lemma CanonicalIsName(s: string)
    requires IsToken(s)
    ensures SameName(Canonical(s), s)
  {
    forall k | 0 <= k < |s|
      ensures SameLetter(Canonical(s)[k], s[k])
    {
      CanonicalAt(s, k);
    }
  }

  lemma CapitalsAt(s: string, k: nat)
    requires IsToken(s) && k < |s|
    ensures var r := Canonical(s);
            if WordStart(r, k) then !('a' <= r[k] <= 'z') else !('A' <= r[k] <= 'Z')
  {
    CanonicalAt(s, k);
    if k > 0 { CanonicalAt(s, k - 1); }
  }

  /** The canonical form of a token is the same name with a capital at the start of every word and
      small letters elsewhere. */
  lemma CanonicalIsCapital(s: string)
    requires IsToken(s)
    ensures SameName(Canonical(s), s) && Capitals(Canonical(s))
  {
    CanonicalIsName(s);
    forall k | 0 <= k < |s|
      ensures var r := Canonical(s);
              if WordStart(r, k) then !('a' <= r[k] <= 'z') else !('A' <= r[k] <= 'Z')
    {
      CapitalsAt(s, k);
    }
  }

  lemma SameCase(a: char, b: char, upper: bool)
    requires SameLetter(a, b)
    requires if upper then !('a' <= a <= 'z') && !('a' <= b <= 'z') else !('A' <= a <= 'Z') && !('A' <= b <= 'Z')
    ensures a == b
  {
  }

  lemma LettersAgree(a: char, b: char, c: char)
    requires SameLetter(a, b) && SameLetter(b, c)
    ensures SameLetter(a, c)
  {
  }

  lemma {:induction false} CapitalsAgree(s: string, t: string, k: nat)
    requires SameName(s, t) && Capitals(s) && Capitals(t) && k <= |s|
    ensures s[..k] == t[..k]
  {
    if k == 0 {
    } else {
      CapitalsAgree(s, t, k - 1);
      var n := k - 1;
      assert n > 0 ==> s[n - 1] == s[..n][n - 1] && t[n - 1] == t[..n][n - 1];
      assert WordStart(s, n) == WordStart(t, n);
      SameCase(s[n], t[n], WordStart(s, n));
      assert s[..k] == s[..n] + [s[n]] && t[..k] == t[..n] + [t[n]];
    }
  }

  lemma NamesAgree(s: string, t: string, u: string)
    requires SameName(s, t) && SameName(t, u)
    ensures SameName(s, u) && SameName(t, s)
  {
    forall k | 0 <= k < |s|
      ensures SameLetter(s[k], u[k]) && SameLetter(t[k], s[k])
    {
      LettersAgree(s[k], t[k], u[k]);
    }
  }

  lemma TokenSpellings(s: string, t: string)
    requires SameName(s, t) && IsToken(s)
    ensures IsToken(t)
  {
    forall k | 0 <= k < |t|
      ensures TokenChar(t[k])
    {
      assert TokenChar(s[k]) && SameLetter(s[k], t[k]);
    }
  }

  /** Two tokens have the same canonical form exactly when they are the same name up to the case of
      letters. */
  lemma CanonicalIff(s: string, t: string)
    requires IsToken(s)
    ensures Canonical(s) == Canonical(t) <==> SameName(s, t)
  {
    CanonicalIsCapital(s);
    if SameName(s, t) {
      TokenSpellings(s, t);
      CanonicalIsCapital(t);
      NamesAgree(Canonical(s), s, t);
      NamesAgree(Canonical(t), t, t);
      NamesAgree(Canonical(s), t, Canonical(t));
      CapitalsAgree(Canonical(s), Canonical(t), |s|);
      assert Canonical(s) == Canonical(s)[..|s|] && Canonical(t) == Canonical(t)[..|s|];
    } else if Canonical(s) == Canonical(t) {
      NamesAgree(Canonical(s), s, s);
      if IsToken(t) {
        CanonicalIsCapital(t);
        NamesAgree(s, Canonical(s), t);
      } else {
        TokenSpellings(s, Canonical(s));
      }
    }
  }

  // ------------------------------------------------------------------ the map

  /** Header.Add. */
  function Add(h: Headers, key: string, value: string): Headers {
    var k := Canonical(key);
    h[k := (if k in h then h[k] else []) + [value]]
  }

  /** The first value of a key in canonical form, or the empty string. */
  function Lookup(h: Headers, k: string): string {
    if k in h && h[k] != [] then h[k][0] else ""
  }

  /** Header.Get. */
  function Get(h: Headers, key: string): string {
    Lookup(h, Canonical(key))
  }

  const TRANSFER_ENCODING := "Transfer-Encoding"
  const CONTENT_LENGTH := "Content-Length"

  predicate Lower(s: string) {
    forall k :: 0 <= k < |s| ==> 'a' <= s[k] <= 'z'
  }

  lemma {:induction false} LowerIsCapital(s: string, rest: string)
    requires Lower(s) && CapitalWords(rest, false)
    ensures CapitalWords(s + rest, false)
    decreases |s|
  {
    if s == "" {
      assert s + rest == rest;
    } else {
      LowerIsCapital(s[1..], rest);
      assert (s + rest)[1..] == s[1..] + rest;
    }
  }

  lemma TwoWords(a: char, s: string, b: char, t: string)
    requires 'A' <= a <= 'Z' && Lower(s) && 'A' <= b <= 'Z' && Lower(t)
    ensures FieldName([a] + (s + (['-', b] + t)))
  {
    var last, rest := [b] + t, ['-', b] + t;
    LowerIsCapital(t, "");
    assert t + "" == t && last[1..] == t && rest[1..] == last;
    LowerIsCapital(s, rest);
    var name := [a] + (s + rest);
    assert name[1..] == s + rest;
  }

  lemma TransferName()
    ensures Canonical(TRANSFER_ENCODING) == TRANSFER_ENCODING
  {
    TwoWords('T', "ransfer", 'E', "ncoding");
    assert TRANSFER_ENCODING == ['T'] + ("ransfer" + (['-', 'E'] + "ncoding"));
    FieldNameIsCanonical(TRANSFER_ENCODING);
  }

  lemma LengthName()
    ensures Canonical(CONTENT_LENGTH) == CONTENT_LENGTH
  {
    TwoWords('C', "ontent", 'L', "ength");
    assert CONTENT_LENGTH == ['C'] + ("ontent" + (['-', 'L'] + "ength"));
    FieldNameIsCanonical(CONTENT_LENGTH);
  }

  /** The names http-resolver.go asks for are in canonical form already. */
  lemma FramingNames(h: Headers)
    ensures Get(h, TRANSFER_ENCODING) == Lookup(h, TRANSFER_ENCODING)
    ensures Get(h, CONTENT_LENGTH) == Lookup(h, CONTENT_LENGTH)
  {
    TransferName();
    LengthName();
  }

  /** A field is found under any spelling of its name. */
  lemma GetAnySpelling(h: Headers, k: string, name: string)
    requires k in h && IsToken(k) && Canonical(k) == k && h[k] != [] && SameName(name, k)
    ensures Get(h, name) == h[k][0]
  {
    SpelledBoth(name, k);
    TokenSpellings(k, name);
    CanonicalIff(name, k);
  }

  /** One header line: None where the code runs past the end of the split line. */
  function ParseLine(h: Headers, line: string): Option<Headers> {
    if line == "" then Some(h)
    else
      var kv := SplitN(line, ":", 2);
      if |kv| < 2 then None else Some(Add(h, TrimSpace(kv[0]), TrimSpace(kv[1])))
  }

  /** The lines one after the other. */
  function ParseLines(h: Headers, lines: seq<string>): Option<Headers>
    decreases |lines|
  {
    if lines == [] then Some(h)
    else
      match ParseLine(h, lines[0])
      case None => None
      case Some(g) => ParseLines(g, lines[1..])
  }

  // ------------------------------------------------------------------ printing

  predicate LexLe(a: string, b: string) {
    if a == "" then true
    else if b == "" then false
    else a[0] < b[0] || (a[0] == b[0] && LexLe(a[1..], b[1..]))
  }

  lemma {:induction false} LexTotal(a: string, b: string)
    ensures LexLe(a, b) || LexLe(b, a)
    ensures LexLe(a, b) && LexLe(b, a) ==> a == b
  {
    if a == "" || b == "" || a[0] != b[0] {
    } else {
      LexTotal(a[1..], b[1..]);
      assert a == [a[0]] + a[1..] && b == [b[0]] + b[1..];
    }
  }

  lemma {:induction false} LexTransitive(a: string, b: string, c: string)
    requires LexLe(a, b) && LexLe(b, c)
    ensures LexLe(a, c)
  {
    if a == "" || a[0] != b[0] || b[0] != c[0] {
    } else {
      LexTransitive(a[1..], b[1..], c[1..]);
    }
  }

  /** a starts b, or is smaller than b at the first place where they differ. */
  predicate Before(a: string, b: string) {
    HasPrefix(b, a) || exists k :: 0 <= k < |a| && k < |b| && a[..k] == b[..k] && a[k] < b[k]
  }

  lemma BeforeTail(a: string, b: string)
    requires a != "" && b != "" && a[0] == b[0]
    ensures Before(a, b) <==> Before(a[1..], b[1..])
  {
    assert a == [a[0]] + a[1..] && b == [b[0]] + b[1..];
    if HasPrefix(b, a) { assert b[1..][..|a| - 1] == b[..|a|][1..]; }
    if HasPrefix(b[1..], a[1..]) { assert b[..|a|] == [b[0]] + b[1..][..|a| - 1]; }
    if k :| 0 <= k < |a| && k < |b| && a[..k] == b[..k] && a[k] < b[k] {
      assert k > 0 && a[1..][..k - 1] == a[..k][1..] && b[1..][..k - 1] == b[..k][1..];
      assert a[1..][k - 1] < b[1..][k - 1];
    }
    if k :| 0 <= k < |a[1..]| && k < |b[1..]| && a[1..][..k] == b[1..][..k] && a[1..][k] < b[1..][k] {
      assert a[..k + 1] == [a[0]] + a[1..][..k] && b[..k + 1] == [b[0]] + b[1..][..k];
      assert a[k + 1] < b[k + 1];
    }
  }

  lemma PrefixHead(b: string, a: string)
    requires a != "" && HasPrefix(b, a)
    ensures b != "" && b[0] == a[0]
  {
  }

  lemma {:induction false} LexLeIff(a: string, b: string)
    ensures LexLe(a, b) <==> Before(a, b)
  {
    if a == "" {
      assert b[..0] == a;
    } else if b == "" {
    } else if a[0] == b[0] {
      LexLeIff(a[1..], b[1..]);
      BeforeTail(a, b);
    } else {
      if HasPrefix(b, a) { PrefixHead(b, a); }
      assert a[0] < b[0] ==> a[..0] == b[..0] && a[0] < b[0];
      if k :| 0 <= k < |a| && k < |b| && a[..k] == b[..k] && a[k] < b[k] {
        assert k > 0 ==> a[..k][0] == b[..k][0];
      }
    }
  }

  predicate IsLeast(k: string, keys: set<string>) {
    k in keys && forall x :: x in keys ==> LexLe(k, x)
  }

  lemma {:induction false} LeastExists(keys: set<string>)
    requires keys != {}
    ensures exists k :: IsLeast(k, keys)
    decreases |keys|
  {
    var k :| k in keys;
    LexTotal(k, k);
    if keys == {k} {
      assert IsLeast(k, keys);
    } else {
      LeastExists(keys - {k});
      var other :| IsLeast(other, keys - {k});
      LexTotal(k, other);
      var least := if LexLe(k, other) then k else other;
      forall x | x in keys
        ensures LexLe(least, x)
      {
        if x != k && LexLe(k, other) { LexTransitive(k, other, x); }
      }
      assert IsLeast(least, keys);
    }
  }

  lemma LeastUnique(keys: set<string>, k: string, m: string)
    requires IsLeast(k, keys) && IsLeast(m, keys)
    ensures k == m
  {
    LexTotal(k, m);
  }

  /** The smallest key: the one the sorted order starts with. */
  function Least(keys: set<string>): (k: string)
    requires keys != {}
    ensures IsLeast(k, keys)
  {
    LeastExists(keys);
    assert forall k, m :: IsLeast(k, keys) && IsLeast(m, keys) ==> k == m by {
      forall k, m | IsLeast(k, keys) && IsLeast(m, keys)
        ensures k == m
      {
        LeastUnique(keys, k, m);
      }
    }
    var k :| k in keys && IsLeast(k, keys);
    k
  }

  /** newlines become spaces */
  function Flatten(v: string): (r: string)
    ensures |r| == |v|
    ensures forall k :: 0 <= k < |v| ==> r[k] == if v[k] in "\r\n" then ' ' else v[k]
  {
    seq(|v|, k requires 0 <= k < |v| => if v[k] == '\r' || v[k] == '\n' then ' ' else v[k])
  }

  function PrintLine(key: string, value: string): string {
    key + ": " + TrimString(Flatten(value))
  }

  /** The lines of one key, in the order of its values. */
  function KeyLines(key: string, values: seq<string>): (lines: seq<string>)
  {
    if values == [] then [] else [PrintLine(key, values[0])] + KeyLines(key, values[1..])
  }

  /** Header.Write: the lines in order of keys; keys that are no field names are dropped. */
  function PrintKeys(h: Headers, keys: set<string>): seq<string>
    requires keys <= h.Keys
    decreases |keys|
  {
    if keys == {} then []
    else
      var k := Least(keys);
      (if k != "" && IsToken(k) then KeyLines(k, h[k]) else []) + PrintKeys(h, keys - {k})
  }

  function Print(h: Headers): seq<string> {
    PrintKeys(h, h.Keys)
  }

  /** The lines of some keys of a map, one key after the other. */
  function AllLines(h: Headers, keys: seq<string>): seq<string>
    requires forall k :: k in keys ==> k in h
  {
    if keys == [] then [] else KeyLines(keys[0], h[keys[0]]) + AllLines(h, keys[1..])
  }

  predicate InOrder(keys: seq<string>) {
    forall i, j :: 0 <= i < j < |keys| ==> keys[i] != keys[j] && Before(keys[i], keys[j])
  }

  lemma {:induction false} KeysInOrder(h: Headers, keys: set<string>) returns (sorted: seq<string>)
    requires keys <= h.Keys
    ensures forall k :: k in sorted <==> k in keys && k != "" && IsToken(k)
    ensures InOrder(sorted) && PrintKeys(h, keys) == AllLines(h, sorted)
    decreases |keys|
  {
    if keys == {} {
      sorted := [];
    } else {
      var k := Least(keys);
      var rest := KeysInOrder(h, keys - {k});
      if k != "" && IsToken(k) {
        sorted := [k] + rest;
        assert sorted[1..] == rest;
        forall j | 0 <= j < |rest|
          ensures k != rest[j] && Before(k, rest[j])
        {
          assert rest[j] in rest;
          LexLeIff(k, rest[j]);
        }
      } else {
        sorted := rest;
        assert [] + PrintKeys(h, keys - {k}) == PrintKeys(h, keys - {k});
      }
    }
  }

  /** Header.Write prints the keys that are tokens, each once with all its values, in the order of
      their characters. */
  lemma PrintsInOrder(h: Headers) returns (sorted: seq<string>)
    ensures forall k :: k in sorted <==> k in h && k != "" && IsToken(k)
    ensures InOrder(sorted) && Print(h) == AllLines(h, sorted)
  {
    sorted := KeysInOrder(h, h.Keys);
  }

  // ------------------------------------------------------------------ header lines as key and value

  /** A header line as it is spelled: a key without colon, a colon, a value. */
  datatype Field = Field(key: string, value: string) {
    function Line(): string {
      key + ":" + value
    }
  }

  function Spell(fields: seq<Field>): (lines: seq<string>)
    ensures |lines| == |fields|
  {
    if fields == [] then [] else [fields[0].Line()] + Spell(fields[1..])
  }

  /** The map that the fields add up to, one after the other, their spaces trimmed. */
  function Collect(h: Headers, fields: seq<Field>): Headers
    decreases |fields|
  {
    if fields == [] then h
    else Collect(Add(h, TrimSpace(fields[0].key), TrimSpace(fields[0].value)), fields[1..])
  }

  /** The value of the first field of that name, spaces at its ends taken off; nothing if there is
      none. */
  function FirstValue(fields: seq<Field>, name: string): string {
    if fields == [] then ""
    else if SameName(TrimSpace(fields[0].key), name) then TrimSpace(fields[0].value)
    else FirstValue(fields[1..], name)
  }

  predicate HasValues(h: Headers) {
    forall k :: k in h ==> h[k] != []
  }

  lemma AddedValue(h: Headers, key: string, value: string, name: string)
    requires IsToken(name) && HasValues(h)
    ensures var g := Add(h, key, value);
            && HasValues(g)
            && (Canonical(name) in g <==> Canonical(name) in h || SameName(key, name))
            && Get(g, name) == if Canonical(name) in h then Get(h, name) else if SameName(key, name) then value else ""
  {
    SpelledBoth(key, name);
    CanonicalIff(name, key);
  }

  lemma SpelledBoth(s: string, t: string)
    ensures SameName(s, t) <==> SameName(t, s)
    ensures SameName(s, s)
  {
    if SameName(s, t) || SameName(t, s) {
      forall k | 0 <= k < |s|
        ensures SameLetter(s[k], t[k]) <==> SameLetter(t[k], s[k])
      {
      }
    }
  }

  /** What Get finds in the map of a list of fields, for any spelling of the name: the first of its
      values. */
  lemma {:induction false} CollectedValue(h: Headers, fields: seq<Field>, name: string)
    requires IsToken(name) && HasValues(h)
    ensures Get(Collect(h, fields), name) == if Canonical(name) in h then Get(h, name) else FirstValue(fields, name)
    decreases |fields|
  {
    if fields == [] {
    } else {
      var key, value := TrimSpace(fields[0].key), TrimSpace(fields[0].value);
      AddedValue(h, key, value, name);
      CollectedValue(Add(h, key, value), fields[1..], name);
    }
  }

  /** The same for the headers of a head. */
  lemma FieldIsFound(fields: seq<Field>, name: string)
    requires IsToken(name)
    ensures Get(Collect(map[], fields), name) == FirstValue(fields, name)
  {
    CollectedValue(map[], fields, name);
  }

  predicate ColonFree(fields: seq<Field>) {
    forall f :: f in fields ==> Lacks(f.key, ':')
  }

  /** A line that can stand in a head. */
  predicate HeadLine(line: string) {
    line != "" && Free(line, CRLF)
  }

  predicate HeadLines(lines: seq<string>) {
    forall i :: 0 <= i < |lines| ==> HeadLine(lines[i])
  }

  lemma FieldParses(h: Headers, f: Field)
    requires Lacks(f.key, ':')
    ensures ParseLine(h, f.Line()) == Some(Add(h, TrimSpace(f.key), TrimSpace(f.value)))
  {
    SplitOnce(f.key, ":", f.value);
  }

  lemma {:induction false} FieldsParse(h: Headers, fields: seq<Field>)
    requires ColonFree(fields)
    ensures ParseLines(h, Spell(fields)) == Some(Collect(h, fields))
    decreases |fields|
  {
    if fields == [] {
      assert Spell(fields) == [];
    } else {
      FieldParses(h, fields[0]);
      FieldsParse(Add(h, TrimSpace(fields[0].key), TrimSpace(fields[0].value)), fields[1..]);
    }
  }

  lemma LineIsField(h: Headers, line: string) returns (f: Field)
    requires line != "" && ParseLine(h, line).Some?
    ensures f.Line() == line && Lacks(f.key, ':')
  {
    FreeIff(line, ":");
    CutAtFound(line, ":");
    BeforeFirst(line, ":");
    var i := Index(line, ":").value;
    f := Field(line[..i], line[i + 1..]);
    FreeIsLacks(f.key, ':');
  }

  lemma {:induction false} LinesAreFields(h: Headers, lines: seq<string>) returns (fields: seq<Field>)
    requires HeadLines(lines) && ParseLines(h, lines).Some?
    ensures Spell(fields) == lines && ColonFree(fields)
    decreases |lines|
  {
    if lines == [] {
      fields := [];
    } else {
      assert HeadLine(lines[0]);
      var f := LineIsField(h, lines[0]);
      var rest := LinesAreFields(ParseLine(h, lines[0]).value, lines[1..]);
      fields := [f] + rest;
      assert fields[1..] == rest;
    }
  }

  // ------------------------------------------------------------------ what printing keeps

  /** What a parsed header map is like: keys in canonical form, each with at least one value, and
      trimmed values. */
  predicate Readable(h: Headers) {
    forall k :: k in h ==> Canonical(k) == k && h[k] != [] && AllTrimmed(h[k])
  }

  predicate AllTrimmed(values: seq<string>) {
    forall v :: v in values ==> Trimmed(v)
  }

  lemma AddIsReadable(h: Headers, key: string, value: string)
    requires Readable(h) && Trimmed(value)
    ensures Readable(Add(h, key, value))
  {
    CanonicalTwice(key);
  }

  lemma {:induction false} ParsedIsReadable(h: Headers, lines: seq<string>)
    requires Readable(h) && ParseLines(h, lines).Some?
    ensures Readable(ParseLines(h, lines).value)
    decreases |lines|
  {
    if lines == [] {
      assert ParseLines(h, lines) == Some(h);
    } else {
      if lines[0] != "" {
        var kv := SplitN(lines[0], ":", 2);
        TrimSpaceTrims(kv[1]);
        AddIsReadable(h, TrimSpace(kv[0]), TrimSpace(kv[1]));
      }
      ParsedIsReadable(ParseLine(h, lines[0]).value, lines[1..]);
    }
  }

  /** Keys that are no field names are dropped when a map is printed. */
  predicate Printed(k: string) {
    k != "" && IsToken(k)
  }

  function FlattenAll(values: seq<string>): (flat: seq<string>)
    ensures |flat| == |values|
  {
    if values == [] then [] else [Flatten(values[0])] + FlattenAll(values[1..])
  }

  function SentOf(h: Headers, keys: set<string>): Headers
    requires keys <= h.Keys
  {
    map k | k in keys && Printed(k) :: FlattenAll(h[k])
  }

  /** What is left of a header map after printing and parsing: the field names, in their values
      every line break a space. */
  function Sent(h: Headers): Headers {
    SentOf(h, h.Keys)
  }

  /** A header map that survives printing: canonical field names, each with at least one value, and
      trimmed values on one line. */
  predicate Clean(v: string) {
    Trimmed(v) && Lacks(v, '\r') && Lacks(v, '\n')
  }

  predicate CleanHeaders(h: Headers) {
    forall k :: k in h ==> FieldName(k) && h[k] != [] && AllClean(h[k])
  }

  predicate AllClean(values: seq<string>) {
    forall v :: v in values ==> Clean(v)
  }

  lemma CleanIsFlat(v: string)
    requires Clean(v)
    ensures Flatten(v) == v
  {
  }

  lemma {:induction false} AllCleanIsFlat(values: seq<string>)
    requires AllClean(values)
    ensures FlattenAll(values) == values && AllTrimmed(values)
    decreases |values|
  {
    if values == [] {
      assert FlattenAll(values) == [];
    } else {
      CleanIsFlat(values[0]);
      AllCleanIsFlat(values[1..]);
      assert values == [values[0]] + values[1..];
    }
  }

  /** Clean header maps survive printing as they are. */
  lemma CleanIsSent(h: Headers)
    requires CleanHeaders(h)
    ensures Readable(h) && Sent(h) == h
  {
    forall k | k in h
      ensures Printed(k) && Canonical(k) == k && AllTrimmed(h[k]) && FlattenAll(h[k]) == h[k]
    {
      FieldNameIsCanonical(k);
      AllCleanIsFlat(h[k]);
    }
  }

  // ------------------------------------------------------------------ printing and parsing back

  lemma TokenIsClean(k: string)
    requires Printed(k)
    ensures Lacks(k, ':') && Lacks(k, '\r') && Lacks(k, '\n') && Trimmed(k)
  {
    assert TokenChar(k[0]) && TokenChar(k[|k| - 1]);
  }

  lemma FlatValue(v: string)
    requires Trimmed(v)
    ensures Clean(Flatten(v)) && TrimString(Flatten(v)) == Flatten(v) && TrimSpace(" " + Flatten(v)) == Flatten(v)
  {
    TrimTrimmed(Flatten(v));
  }

  lemma LineOfField(k: string, v: string)
    requires Trimmed(v)
    ensures PrintLine(k, v) == Field(k, " " + Flatten(v)).Line()
  {
    FlatValue(v);
    assert k + ": " + Flatten(v) == k + ":" + (" " + Flatten(v));
  }

  lemma PrintsHeadLine(k: string, v: string)
    requires Printed(k) && Trimmed(v)
    ensures HeadLine(PrintLine(k, v))
  {
    FlatValue(v);
    TokenIsClean(k);
    assert Lacks(": ", '\r');
    LacksIsFree(PrintLine(k, v), CRLF);
  }

  lemma LineParsesBack(h: Headers, k: string, v: string)
    requires Printed(k) && Trimmed(v)
    ensures ParseLine(h, PrintLine(k, v)) == Some(Add(h, k, Flatten(v)))
  {
    LineOfField(k, v);
    FlatValue(v);
    TokenIsClean(k);
    TrimTrimmed(k);
    FieldParses(h, Field(k, " " + Flatten(v)));
  }

  lemma {:induction false} ParseLinesConcat(h: Headers, a: seq<string>, b: seq<string>)
    ensures ParseLines(h, a + b) == match ParseLines(h, a) case None => None case Some(g) => ParseLines(g, b)
    decreases |a|
  {
    if a == [] {
      assert a + b == b;
    } else {
      assert (a + b)[0] == a[0] && (a + b)[1..] == a[1..] + b;
      match ParseLine(h, a[0])
      case None =>
      case Some(g) => ParseLinesConcat(g, a[1..], b);
    }
  }

  lemma ParseCons(h: Headers, line: string, rest: seq<string>, g: Headers)
    requires ParseLine(h, line) == Some(g)
    ensures ParseLines(h, [line] + rest) == ParseLines(g, rest)
  {
    assert ([line] + rest)[1..] == rest;
  }

  lemma ValueParsesBack(h: Headers, k: string, v: string, rest: seq<string>)
    requires FieldName(k) && Trimmed(v)
    ensures ParseLines(h, [PrintLine(k, v)] + rest)
         == ParseLines(h[k := (if k in h then h[k] else []) + [Flatten(v)]], rest)
  {
    LineParsesBack(h, k, v);
    FieldNameIsCanonical(k);
    ParseCons(h, PrintLine(k, v), rest, Add(h, k, Flatten(v)));
  }

  lemma UpdateTwice(h: Headers, k: string, a: seq<string>, b: seq<string>)
    ensures h[k := a][k := b] == h[k := b]
  {
  }

  lemma MoreStep(h: Headers, k: string, had: seq<string>, values: seq<string>)
    requires FieldName(k) && AllTrimmed(values) && values != []
    ensures ParseLines(h[k := had], KeyLines(k, values)) == ParseLines(h[k := had + [Flatten(values[0])]], KeyLines(k, values[1..]))
    ensures AllTrimmed(values[1..]) && had + [Flatten(values[0])] + FlattenAll(values[1..]) == had + FlattenAll(values)
  {
    ValueParsesBack(h[k := had], k, values[0], KeyLines(k, values[1..]));
    UpdateTwice(h, k, had, had + [Flatten(values[0])]);
    assert [Flatten(values[0])] + FlattenAll(values[1..]) == FlattenAll(values);
  }

  /** More values for a key that is there already. */
  lemma {:induction false} MoreValuesParseBack(h: Headers, k: string, had: seq<string>, values: seq<string>)
    requires FieldName(k) && AllTrimmed(values)
    ensures ParseLines(h[k := had], KeyLines(k, values)) == Some(h[k := had + FlattenAll(values)])
    decreases |values|
  {
    if values == [] {
      assert had + [] == had;
    } else {
      MoreStep(h, k, had, values);
      MoreValuesParseBack(h, k, had + [Flatten(values[0])], values[1..]);
    }
  }

  lemma KeyParsesBack(h: Headers, k: string, values: seq<string>)
    requires FieldName(k) && AllTrimmed(values) && values != [] && k !in h
    ensures ParseLines(h, KeyLines(k, values)) == Some(h[k := FlattenAll(values)])
  {
    ValueParsesBack(h, k, values[0], KeyLines(k, values[1..]));
    assert [] + [Flatten(values[0])] == [Flatten(values[0])];
    MoreValuesParseBack(h, k, [Flatten(values[0])], values[1..]);
    assert [Flatten(values[0])] + FlattenAll(values[1..]) == FlattenAll(values);
  }

  lemma SentStep(g: Headers, h: Headers, keys: set<string>, k: string)
    requires keys <= h.Keys && k in keys
    ensures (if Printed(k) then g[k := FlattenAll(h[k])] else g) + SentOf(h, keys - {k}) == g + SentOf(h, keys)
  {
  }

  lemma {:induction false} KeysParseBack(g: Headers, h: Headers, keys: set<string>)
    requires keys <= h.Keys && g.Keys !! keys && Readable(h)
    ensures ParseLines(g, PrintKeys(h, keys)) == Some(g + SentOf(h, keys))
    decreases |keys|
  {
    if keys == {} {
      assert g + SentOf(h, keys) == g;
    } else {
      var k := Least(keys);
      SentStep(g, h, keys, k);
      if Printed(k) {
        FieldNameIsCanonical(k);
        KeyParsesBack(g, k, h[k]);
        KeysParseBack(g[k := FlattenAll(h[k])], h, keys - {k});
        ParseLinesConcat(g, KeyLines(k, h[k]), PrintKeys(h, keys - {k}));
      } else {
        KeysParseBack(g, h, keys - {k});
        assert [] + PrintKeys(h, keys - {k}) == PrintKeys(h, keys - {k});
      }
    }
  }

  lemma {:induction false} KeyPrintsLines(k: string, values: seq<string>)
    requires Printed(k) && AllTrimmed(values)
    ensures HeadLines(KeyLines(k, values))
    decreases |values|
  {
    if values == [] {
      assert KeyLines(k, values) == [];
    } else {
      PrintsHeadLine(k, values[0]);
      KeyPrintsLines(k, values[1..]);
    }
  }

  lemma {:induction false} KeysPrintLines(h: Headers, keys: set<string>)
    requires keys <= h.Keys && Readable(h)
    ensures HeadLines(PrintKeys(h, keys))
    decreases |keys|
  {
    if keys == {} {
      assert PrintKeys(h, keys) == [];
    } else {
      var k := Least(keys);
      if Printed(k) {
        KeyPrintsLines(k, h[k]);
      }
      KeysPrintLines(h, keys - {k});
    }
  }

  lemma PrintsHeadLines(h: Headers)
    requires Readable(h)
    ensures HeadLines(Print(h))
  {
    KeysPrintLines(h, h.Keys);
  }

  lemma SentFromNothing(h: Headers)
    ensures var none: Headers := map[]; none + SentOf(h, h.Keys) == Sent(h)
  {
  }

  /** Parsing the printed lines of a header map gives back its field names, values in order, line
      breaks in them spaces. */
  lemma HeadersParseBack(h: Headers)
    requires Readable(h)
    ensures ParseLines(map[], Print(h)) == Some(Sent(h))
  {
    KeysParseBack(map[], h, h.Keys);
    SentFromNothing(h);
  }

  /** parseHTTPHeaders: the loop over the lines. */
  method ParseHTTPHeaders(lines: seq<string>) returns (headers: Option<Headers>)
    ensures headers == ParseLines(map[], lines)
  {
    var h: Headers := map[];
    for i := 0 to |lines|
      invariant ParseLines(map[], lines) == ParseLines(h, lines[i..])
    {
      assert lines[i..][1..] == lines[i + 1..];
      var line := lines[i];
      if |line| == 0 {
        continue;
      }
      var kv := SplitN(line, ":", 2);
      if |kv| < 2 {
        return None;
      }
      h := Add(h, TrimSpace(kv[0]), TrimSpace(kv[1]));
    }
    return Some(h);
  }
}
