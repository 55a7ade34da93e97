/** broker-resolver.go: from the path of a request to the job it asks for. */
module BrokerResolver {
  import opened Wrappers
  import opened Text
  import opened HttpHeaders
  import opened HttpParser
  import opened HttpFraming
  import BrokerModel

  datatype ContainerInfo = ContainerInfo(image: string, port: int, envs: map<string, string>)

  /** What the parser makes of a path; Panics stands for an environment entry without "=". */
  datatype PathResult =
    | NotDynamic
    | Invalid
    | Panics
    | Dynamic(rewritten: string, yType: bool, info: ContainerInfo)

  /** url.QueryUnescape: None stands for an error. */
  type Unescape = string -> Option<string>

  // ------------------------------------------------------------------ environment entries

  /** One entry after the others; the last value of a name stays, and a value that cannot be decoded
      stays as it is. */
  function Envs(unescape: Unescape, envs: map<string, string>, defs: seq<string>): Option<map<string, string>>
    decreases |defs|
  {
    if defs == [] then Some(envs)
    else
      var kv := SplitN(defs[0], "=", 2);
      if |kv| < 2 then None
      else
        Envs(unescape, envs[kv[0] := Value(unescape, kv[1])], defs[1..])
  }

  function Value(unescape: Unescape, text: string): string {
    match unescape(text) case Some(v) => v case None => text
  }

  method ParseEnvs(unescape: Unescape, envDefs: seq<string>) returns (envs: Option<map<string, string>>)
    ensures envs == Envs(unescape, map[], envDefs)
  {
    var found: map<string, string> := map[];
    for i := 0 to |envDefs|
      invariant Envs(unescape, map[], envDefs) == Envs(unescape, found, envDefs[i..])
    {
      assert envDefs[i..][1..] == envDefs[i + 1..];
      var kv := SplitN(envDefs[i], "=", 2);
      if |kv| < 2 {
        return None;
      }
      var decoded := unescape(kv[1]);
      if decoded.None? {
        found := found[kv[0] := kv[1]];
      } else {
        found := found[kv[0] := decoded.value];
      }
    }
    return Some(found);
  }

  // ------------------------------------------------------------------ paths

  /** The path cut at its first two slashes. */
  function PathParts(path: string): (parts: seq<string>)
    ensures 0 < |parts| <= 3
  {
    SplitN(path, "/", 3)
  }

  lemma TwoPathParts(path: string)
    requires HasPrefix(path, "/")
    ensures |PathParts(path)| >= 2 && PathParts(path)[0] == ""
  {
    assert path == "" + "/" + path[1..];
    IndexAfter("", "/", path[1..]);
  }

  predicate DynamicPrefix(path: string) {
    HasPrefix(path, "/y:") || HasPrefix(path, "/x:")
  }

  lemma PrefixHasSlash(path: string)
    requires DynamicPrefix(path)
    ensures HasPrefix(path, "/")
  {
    assert path[..1] == path[..3][..1];
  }

  /** The fields of a dynamic path: kind, registry, repository, tag, port, environment. */
  function Fields(path: string): (fields: seq<string>)
    requires DynamicPrefix(path)
    ensures |fields| <= 6
  {
    PrefixHasSlash(path);
    TwoPathParts(path);
    SplitN(PathParts(path)[1], ":", 6)
  }

  function Image(registry: string, repository: string, tag: string): string {
    registry + "/" + repository + ":" + tag
  }

  function ParseURLPath(unescape: Unescape, path: string): PathResult {
    if !DynamicPrefix(path) then NotDynamic
    else
      var ps := Fields(path);
      if |ps| < 5 then Invalid
      else
        match Atoi(ps[4])
        case None => Invalid
        case Some(port) =>
          match (if |ps| == 6 then Envs(unescape, map[], Split(ps[5], ";")) else Some(map[]))
          case None => Panics
          case Some(envs) =>
            Dynamic("/" + (if |PathParts(path)| > 2 then PathParts(path)[2] else ""), HasPrefix(path, "/y:"),
                    ContainerInfo(Image(ps[1], ps[2], ps[3]), port, envs))
  }

  /** brokerTargetResolverParseURLPath, statement by statement; ImageOfPath and FormatParsesBack say
      what comes of it. */
  method BrokerTargetResolverParseURLPath(unescape: Unescape, path: string) returns (result: PathResult)
    ensures result == ParseURLPath(unescape, path)
  {
    var yType := HasPrefix(path, "/y:");
    if !yType && !HasPrefix(path, "/x:") {
      return NotDynamic;
    }
    PrefixHasSlash(path);
    TwoPathParts(path);
    var pathParts := SplitN(path, "/", 3);
    var ps := SplitN(pathParts[1], ":", 6);
    if |ps| < 5 {
      return Invalid;
    }
    var port := Atoi(ps[4]);
    if port.None? {
      return Invalid;
    }
    var envs: map<string, string> := map[];
    if |ps| == 6 {
      var found := ParseEnvs(unescape, Split(ps[5], ";"));
      if found.None? {
        return Panics;
      }
      envs := found.value;
    }
    var pathRewrite := "/";
    if |pathParts| > 2 {
      pathRewrite := pathRewrite + pathParts[2];
    }
    return Dynamic(pathRewrite, yType, ContainerInfo(Image(ps[1], ps[2], ps[3]), port.value, envs));
  }

  /** The slot type the resolver asks the broker for. */
  function SlotType(yType: bool, image: string): string {
    (if yType then "y:" else "x:") + image
  }

  // ------------------------------------------------------------------ what a path asks for

  lemma {:induction false} SplitNLacks(s: string, sep: char, n: nat, c: char)
    requires Lacks(s, c)
    ensures forall i :: 0 <= i < |SplitN(s, [sep], n)| ==> Lacks(SplitN(s, [sep], n)[i], c)
    decreases |s|
  {
    if n != 1 && Index(s, [sep]).Some? {
      var i := Index(s, [sep]).value;
      SplitNLacks(s[i + 1..], sep, if n == 0 then 0 else n - 1, c);
    }
  }

  /** All parts lack the separator, but for the last one of a split that ran into its limit. */
  lemma {:induction false} PartsLackSeparator(s: string, sep: char, n: nat, i: nat)
    requires i < |SplitN(s, [sep], n)| && (i < |SplitN(s, [sep], n)| - 1 || n == 0 || |SplitN(s, [sep], n)| < n)
    ensures Lacks(SplitN(s, [sep], n)[i], sep)
    decreases |s|
  {
    if n == 1 || Index(s, [sep]).None? {
      forall k | 0 <= k < |s|
        ensures s[k] != sep
      {
        IndexIsFirst(s, [sep], k);
        assert s[k..k + 1] == [s[k]];
      }
    } else if i == 0 {
      var at := Index(s, [sep]).value;
      forall k | 0 <= k < at
        ensures s[..at][k] != sep
      {
        IndexIsFirst(s, [sep], k);
        assert s[k..k + 1] == [s[k]];
      }
    } else {
      PartsLackSeparator(s[Index(s, [sep]).value + 1..], sep, if n == 0 then 0 else n - 1, i - 1);
    }
  }

  lemma FieldsLackSeparators(path: string)
    requires DynamicPrefix(path) && |Fields(path)| >= 5
    ensures forall i :: 1 <= i <= 3 ==> Lacks(Fields(path)[i], ':') && Lacks(Fields(path)[i], '/')
  {
    PrefixHasSlash(path);
    TwoPathParts(path);
    var middle := PathParts(path)[1];
    PartsLackSeparator(path, '/', 3, 1);
    SplitNLacks(middle, ':', 6, '/');
    PartsLackSeparator(middle, ':', 6, 1);
    PartsLackSeparator(middle, ':', 6, 2);
    PartsLackSeparator(middle, ':', 6, 3);
  }

  /** The image of an accepted path: registry, repository and tag are its second to fourth fields, and
      are what the image is cut into at its first slash and then at the first colon. */
  lemma ImageOfPath(unescape: Unescape, path: string)
    requires ParseURLPath(unescape, path).Dynamic?
    ensures var middle := SplitN(path, "/", 3)[1];
            var fields := SplitN(middle, ":", 6);
            var image := ParseURLPath(unescape, path).info.image;
            && |fields| >= 5 && image == fields[1] + "/" + fields[2] + ":" + fields[3]
            && SplitN(image, "/", 2) == [fields[1], fields[2] + ":" + fields[3]]
            && SplitN(fields[2] + ":" + fields[3], ":", 2) == [fields[2], fields[3]]
  {
    FieldsLackSeparators(path);
    var f := Fields(path);
    SplitOnce(f[1], "/", f[2] + ":" + f[3]);
    SplitOnce(f[2], ":", f[3]);
    assert f[1] + "/" + f[2] + ":" + f[3] == f[1] + "/" + (f[2] + ":" + f[3]);
  }

  lemma ImageInjective(a: string, b: string, c: string, d: string, e: string, f: string)
    requires Lacks(a, '/') && Lacks(b, ':') && Lacks(d, '/') && Lacks(e, ':')
    ensures Image(a, b, c) == Image(d, e, f) <==> a == d && b == e && c == f
  {
    SplitOnce(a, "/", b + ":" + c);
    SplitOnce(d, "/", e + ":" + f);
    assert Image(a, b, c) == a + "/" + (b + ":" + c) && Image(d, e, f) == d + "/" + (e + ":" + f);
    SplitOnce(b, ":", c);
    SplitOnce(e, ":", f);
    if Image(a, b, c) == Image(d, e, f) {
      assert [a, b + ":" + c] == [d, e + ":" + f];
      assert b + ":" + c == e + ":" + f;
      assert [b, c] == [e, f];
    }
  }

  lemma SlotTypeInjective(y: bool, image: string, z: bool, other: string)
    ensures SlotType(y, image) == SlotType(z, other) <==> y == z && image == other
    ensures image != "" ==> BrokerModel.YType(SlotType(y, image)) == y
  {
    assert SlotType(y, image)[2..] == image && SlotType(z, other)[2..] == other;
    assert SlotType(y, image)[..2] == if y then "y:" else "x:";
  }

  ghost predicate SameJob(p: string, q: string)
    requires DynamicPrefix(p) && |Fields(p)| >= 5 && DynamicPrefix(q) && |Fields(q)| >= 5
  {
    && HasPrefix(p, "/y:") == HasPrefix(q, "/y:")
    && Fields(p)[1] == Fields(q)[1] && Fields(p)[2] == Fields(q)[2] && Fields(p)[3] == Fields(q)[3]
  }

  /** Two accepted paths get the same slot type exactly when kind, registry, repository and tag
      agree; port, environment and the rest of the path play no part. */
  lemma JobIdentity(unescape: Unescape, p: string, q: string)
    requires ParseURLPath(unescape, p).Dynamic? && ParseURLPath(unescape, q).Dynamic?
    ensures var a, b := ParseURLPath(unescape, p), ParseURLPath(unescape, q);
            SlotType(a.yType, a.info.image) == SlotType(b.yType, b.info.image) <==> SameJob(p, q)
  {
    FieldsLackSeparators(p);
    FieldsLackSeparators(q);
    var f, g := Fields(p), Fields(q);
    ImageInjective(f[1], f[2], f[3], g[1], g[2], g[3]);
    SlotTypeInjective(HasPrefix(p, "/y:"), Image(f[1], f[2], f[3]), HasPrefix(q, "/y:"), Image(g[1], g[2], g[3]));
  }

  // ------------------------------------------------------------------ writing a path

  /** The job a path stands for, environment values in their encoded form. */
  datatype Job = Job(yType: bool, registry: string, repository: string, tag: string, port: int, envs: seq<(string, string)>)

  function EnvDefs(envs: seq<(string, string)>): (defs: seq<string>)
    ensures |defs| == |envs|
  {
    if envs == [] then [] else [envs[0].0 + "=" + envs[0].1] + EnvDefs(envs[1..])
  }

  function JobFields(job: Job): seq<string> {
    [if job.yType then "y" else "x", job.registry, job.repository, job.tag, Itoa(job.port)]
    + (if job.envs == [] then [] else [Join(EnvDefs(job.envs), ";")])
  }

  /** The path of a job and of a resource of its container. */
  function Format(job: Job, rest: Option<string>): string {
    "/" + Join(JobFields(job), ":") + (if rest.None? then "" else "/" + rest.value)
  }

  predicate Name(s: string) {
    Lacks(s, ':') && Lacks(s, '/')
  }

  predicate EnvName(s: string) {
    Lacks(s, '=') && Lacks(s, ';') && Lacks(s, '/')
  }

  predicate EnvValue(s: string) {
    Lacks(s, ';') && Lacks(s, '/')
  }

  predicate WellFormed(job: Job) {
    && Name(job.registry) && Name(job.repository) && Name(job.tag) && -MAX_INT_64 - 1 <= job.port <= MAX_INT_64
    && forall e :: e in job.envs ==> EnvName(e.0) && EnvValue(e.1)
  }

  /** The environment the encoded entries stand for. */
  function Decoded(unescape: Unescape, envs: map<string, string>, defs: seq<(string, string)>): map<string, string>
    decreases |defs|
  {
    if defs == [] then envs
    else
      var value := if unescape(defs[0].1).Some? then unescape(defs[0].1).value else defs[0].1;
      Decoded(unescape, envs[defs[0].0 := value], defs[1..])
  }

  /** Entry i is the last one of its name. */
  predicate LastOf(defs: seq<(string, string)>, i: nat) {
    i < |defs| && forall h :: i < h < |defs| ==> defs[h].0 != defs[i].0
  }

  lemma {:induction false} OtherEntries(unescape: Unescape, envs: map<string, string>, defs: seq<(string, string)>, name: string)
    requires forall h :: 0 <= h < |defs| ==> defs[h].0 != name
    ensures name in Decoded(unescape, envs, defs) <==> name in envs
    ensures name in envs ==> Decoded(unescape, envs, defs)[name] == envs[name]
    decreases |defs|
  {
    if defs == [] {
    } else {
      var value := if unescape(defs[0].1).Some? then unescape(defs[0].1).value else defs[0].1;
      OtherEntries(unescape, envs[defs[0].0 := value], defs[1..], name);
    }
  }

  /** The container is given, under every name, the last value of that name, decoded if it can be. */
  lemma {:induction false} LastEntryCounts(unescape: Unescape, envs: map<string, string>, defs: seq<(string, string)>, i: nat)
    requires LastOf(defs, i)
    ensures var (name, text) := defs[i];
            && name in Decoded(unescape, envs, defs)
            && (unescape(text).Some? ==> Decoded(unescape, envs, defs)[name] == unescape(text).value)
            && (unescape(text).None? ==> Decoded(unescape, envs, defs)[name] == text)
    decreases |defs|
  {
    var value := if unescape(defs[0].1).Some? then unescape(defs[0].1).value else defs[0].1;
    if i == 0 {
      OtherEntries(unescape, envs[defs[0].0 := value], defs[1..], defs[0].0);
    } else {
      assert defs[1..][i - 1] == defs[i];
      LastEntryCounts(unescape, envs[defs[0].0 := value], defs[1..], i - 1);
    }
  }

  lemma {:induction false} EnvsParseBack(unescape: Unescape, had: map<string, string>, envs: seq<(string, string)>)
    requires forall e :: e in envs ==> EnvName(e.0)
    ensures Envs(unescape, had, EnvDefs(envs)) == Some(Decoded(unescape, had, envs))
    decreases |envs|
  {
    if envs == [] {
    } else {
      SplitOnce(envs[0].0, "=", envs[0].1);
      EnvsParseBack(unescape, had[envs[0].0 := Value(unescape, envs[0].1)], envs[1..]);
    }
  }

  lemma {:induction false} EnvDefsLack(envs: seq<(string, string)>, c: char)
    requires c != '=' && forall e :: e in envs ==> Lacks(e.0, c) && Lacks(e.1, c)
    ensures forall i :: 0 <= i < |envs| ==> Lacks(EnvDefs(envs)[i], c)
    decreases |envs|
  {
    if envs == [] {
    } else {
      EnvDefsLack(envs[1..], c);
    }
  }

  lemma {:induction false} JoinLacks(parts: seq<string>, sep: char, c: char)
    requires sep != c && forall i :: 0 <= i < |parts| ==> Lacks(parts[i], c)
    ensures Lacks(Join(parts, [sep]), c)
    decreases |parts|
  {
    if |parts| <= 1 {
    } else {
      JoinLacks(parts[1..], sep, c);
    }
  }

  /** Splitting with a limit undoes joining; only a part that the limit protects may hold the
      separator. */
  lemma {:induction false} SplitNJoin(parts: seq<string>, sep: char, n: nat)
    requires 0 < |parts| <= n
    requires forall i :: 0 <= i < |parts| && i < n - 1 ==> Lacks(parts[i], sep)
    ensures SplitN(Join(parts, [sep]), [sep], n) == parts
    decreases |parts|
  {
    if |parts| == 1 {
      if n > 1 { IndexNone(parts[0], [sep]); }
    } else {
      var rest := Join(parts[1..], [sep]);
      SplitNJoin(parts[1..], sep, n - 1);
      IndexAfter(parts[0], [sep], rest);
      var all := parts[0] + [sep] + rest;
      assert all[|parts[0]| + 1..] == rest && all[..|parts[0]|] == parts[0];
    }
  }

  lemma FieldsParseBack(job: Job)
    requires WellFormed(job)
    ensures Lacks(Join(JobFields(job), ":"), '/')
    ensures SplitN(Join(JobFields(job), ":"), ":", 6) == JobFields(job)
  {
    var fields := JobFields(job);
    EnvDefsLack(job.envs, '/');
    JoinLacks(EnvDefs(job.envs), ';', '/');
    DecimalDigits(job.port);
    JoinLacks(fields, ':', '/');
    SplitNJoin(fields, ':', 6);
  }

  lemma DecimalDigits(n: int)
    ensures Lacks(Itoa(n), '/') && Lacks(Itoa(n), ':')
  {
    var d := Decimal(if n < 0 then -n else n);
    assert forall k :: 0 <= k < |d| ==> '0' <= d[k] <= '9';
  }

  lemma PathPartsBack(middle: string, rest: Option<string>)
    requires Lacks(middle, '/')
    ensures var path := "/" + middle + (if rest.None? then "" else "/" + rest.value);
            PathParts(path) == ["", middle] + (if rest.None? then [] else [rest.value])
  {
    var parts := ["", middle] + (if rest.None? then [] else [rest.value]);
    SplitNJoin(parts, '/', 3);
    var path := "/" + middle + (if rest.None? then "" else "/" + rest.value);
    if rest.None? {
      assert parts[1..] == [middle];
      assert Join(parts, "/") == "" + "/" + middle == path;
    } else {
      var tail := [middle, rest.value];
      assert parts[1..] == tail && tail[1..] == [rest.value];
      assert Join(tail, "/") == middle + "/" + rest.value;
      assert Join(parts, "/") == "" + "/" + Join(tail, "/") == path;
    }
  }

  lemma JobEnvsParseBack(unescape: Unescape, job: Job)
    requires WellFormed(job) && job.envs != []
    ensures Envs(unescape, map[], Split(Join(EnvDefs(job.envs), ";"), ";")) == Some(Decoded(unescape, map[], job.envs))
  {
    EnvDefsLack(job.envs, ';');
    SplitJoin(EnvDefs(job.envs), ";");
    EnvsParseBack(unescape, map[], job.envs);
  }

  lemma FormatFields(job: Job, rest: Option<string>)
    requires WellFormed(job)
    ensures var path := Format(job, rest);
            && DynamicPrefix(path) && HasPrefix(path, "/y:") == job.yType
            && Fields(path) == JobFields(job)
            && PathParts(path) == ["", Join(JobFields(job), ":")] + (if rest.None? then [] else [rest.value])
  {
    var fields := JobFields(job);
    var middle := Join(fields, ":");
    FieldsParseBack(job);
    PathPartsBack(middle, rest);
    var more := Join(fields[1..], ":");
    assert middle == fields[0] + ":" + more;
    var path := Format(job, rest);
    assert path[0] == '/' && path[1] == fields[0][0] && path[2] == ':';
    assert path[..3] == [path[0], path[1], path[2]];
  }

  /** Formatting a job and parsing the path gives the job back, and the rest of the path after "/". */
  lemma FormatParsesBack(unescape: Unescape, job: Job, rest: Option<string>)
    requires WellFormed(job)
    ensures ParseURLPath(unescape, Format(job, rest))
         == Dynamic("/" + (if rest.None? then "" else rest.value), job.yType,
                    ContainerInfo(job.registry + "/" + job.repository + ":" + job.tag, job.port,
                                  Decoded(unescape, map[], job.envs)))
  {
    FormatFields(job, rest);
    AtoiItoa(job.port);
    if job.envs != [] {
      JobEnvsParseBack(unescape, job);
    }
  }

  // ------------------------------------------------------------------ what the worker is sent

  /** The callback of WrapProxyConnection: the path becomes the container's own path.  A panic ends
      the connection as an error does. */
  function Callback(unescape: Unescape): Request -> Option<Request> {
    (r: Request) =>
      match ParseURLPath(unescape, r.path)
      case NotDynamic => Some(r)
      case Invalid => None
      case Panics => None
      case Dynamic(rewritten, _, _) => Some(r.(path := rewritten))
  }

  /** The path the worker sees. */
  function WorkerPath(path: string): string {
    if !DynamicPrefix(path) then path
    else "/" + (if |PathParts(path)| > 2 then PathParts(path)[2] else "")
  }

  lemma CallbackChangesPath(unescape: Unescape, r: Request)
    ensures Callback(unescape)(r).Some? ==> Callback(unescape)(r).value == r.(path := WorkerPath(r.path))
  {
  }

  /** Requests for other paths pass as they are, those for a job with the container's own path, and
      those whose path names no job are refused. */
  lemma CallbackAnswers(unescape: Unescape, r: Request)
    ensures !HasPrefix(r.path, "/x:") && !HasPrefix(r.path, "/y:") ==> Callback(unescape)(r) == Some(r)
    ensures HasPrefix(r.path, "/x:") || HasPrefix(r.path, "/y:") ==>
              var parts := SplitN(r.path, "/", 3);
              if ParseURLPath(unescape, r.path).Dynamic?
              then Callback(unescape)(r) == Some(r.(path := "/" + if |parts| > 2 then parts[2] else ""))
              else Callback(unescape)(r) == None
  {
  }

  lemma SplitNIsInside(s: string, sep: string, n: nat, i: nat) returns (from: nat)
    requires |sep| > 0 && i < |SplitN(s, sep, n)|
    ensures var part := SplitN(s, sep, n)[i];
            from + |part| <= |s| && s[from..from + |part|] == part && (i > 0 ==> from > 0)
    decreases |s|
  {
    if n == 1 || Index(s, sep).None? || i == 0 {
      from := 0;
    } else {
      var at := Index(s, sep).value + |sep|;
      var inner := SplitNIsInside(s[at..], sep, if n == 0 then 0 else n - 1, i - 1);
      from := at + inner;
      InsideOf(s, at, inner, |SplitN(s, sep, n)[i]|);
    }
  }

  lemma InsideOf(s: string, at: nat, from: nat, n: nat)
    requires at <= |s| && from + n <= |s[at..]|
    ensures s[at..][from..from + n] == s[at + from..at + from + n]
  {
  }

  lemma LacksInside(s: string, from: nat, to: nat, c: char)
    requires from <= to <= |s| && Lacks(s, c)
    ensures Lacks(s[from..to], c)
  {
  }

  lemma FreeInside(s: string, from: nat, to: nat)
    requires from <= to <= |s| && Free(s, CRLF)
    ensures Free(s[from..to], CRLF)
  {
    forall k | 0 <= k <= to - from
      ensures !At(s[from..to], k, CRLF)
    {
      assert !At(s, from + k, CRLF);
      BreakAt(s, from + k);
      BreakAt(s[from..to], k);
    }
  }

  /** Words that a slash follows or precedes do not form a line break with it. */
  lemma SlashIsFree(verb: string, rest: string)
    requires Free(verb, CRLF) && Free(rest, CRLF)
    ensures Free(verb + " /" + rest, CRLF)
  {
    assert Lacks(" /", '\n');
    FreeBefore(verb, " /");
    forall k | 0 <= k <= |verb + " /" + rest|
      ensures !At(verb + " /" + rest, k, CRLF)
    {
      if k >= |verb| + 2 {
        AtShift(verb + " /", rest, CRLF, k);
      } else {
        assert !At(verb + " /", k, CRLF);
        BreakAt(verb + " /", k);
        BreakAt(verb + " /" + rest, k);
      }
    }
  }

  /** A path that can stand in a request line still can when it is cut down to the container's own. */
  lemma WorkerPathIsSpeakable(verb: string, path: string)
    requires Speakable(verb, path)
    ensures Speakable(verb, WorkerPath(path))
  {
    if DynamicPrefix(path) {
      var line := verb + " " + path;
      FreeInside(line, 0, |verb|);
      assert line[..|verb|] == verb;
      var rest := if |PathParts(path)| > 2 then PathParts(path)[2] else "";
      RestIsInside(verb, path);
      SlashIsFree(verb, rest);
      assert verb + " " + WorkerPath(path) == verb + " /" + rest;
    }
  }

  lemma RestIsInside(verb: string, path: string)
    requires Speakable(verb, path)
    ensures var rest := if |PathParts(path)| > 2 then PathParts(path)[2] else "";
            Free(rest, CRLF) && Lacks(rest, ' ')
  {
    var line := verb + " " + path;
    assert line[|verb| + 1..|line|] == path;
    FreeInside(line, |verb| + 1, |line|);
    if |PathParts(path)| > 2 {
      var from := SplitNIsInside(path, "/", 3, 2);
      FreeInside(path, from, from + |PathParts(path)[2]|);
      LacksInside(path, from, from + |PathParts(path)[2]|, ' ');
    }
  }

  /** The request as the worker reads it: the container's own path, and of the headers the field
      names, line breaks in their values become spaces. */
  function WorkersRequest(r: Request): Request {
    r.(path := WorkerPath(r.path), headers := Sent(r.headers))
  }

  lemma ParsedRequestIsPrintable(buff: string, r: Request, l: nat, e: nat)
    requires ParsesAs(buff, r, l, e)
    ensures Speakable(r.verb, r.path) && Versioned(r.version, r.major, r.minor) && Readable(r.headers)
  {
    ReadIsSpeakable(buff, r, l, e);
    DoneParts(buff, r, l, e);
    VersionIff(r.version, r.major, r.minor);
    ParsedIsReadable(map[], Split(buff[l..e], CRLF));
  }

  /** Whatever request the parser accepts, the head the worker is sent reads as that request with the
      container's own path, or else that path has made the line too short. */
  lemma WorkerParsesRequest(unescape: Unescape, buff: string, r: Request, l: nat, e: nat, text: string, m: nat, n: nat)
    requires ParsesAs(buff, r, l, e) && Callback(unescape)(r).Some?
    requires var q := Callback(unescape)(r).value;
             text == NewHead(RequestLine(q, true), q.headers) && m == |RequestLine(q, true)| && n + 4 == |text|
    ensures if |r.verb| + |WorkerPath(r.path)| >= 2 then ParsesAs(text, WorkersRequest(r), m, n)
            else ParseHTTPRequest(text).Malformed?
  {
    CallbackChangesPath(unescape, r);
    ParsedRequestIsPrintable(buff, r, l, e);
    VersionedIsText(r.version, r.major, r.minor);
    WorkerPathIsSpeakable(r.verb, r.path);
    RequestParsesBack(text, r.(path := WorkerPath(r.path)), m, n);
  }

  /** The request that chose the job is the first one the worker is sent, however many bytes had
      been read when the job was chosen. */
  lemma SniffedIsForwarded(unescape: Unescape, buff: string, more: string)
    requires ParseHTTPRequest(buff).Done? && RequestHead(Callback(unescape), ParseHTTPRequest(buff).value).HeadDone?
    ensures HasPrefix(Batch(OnRequest(Callback(unescape)), buff + more), RequestHead(Callback(unescape), ParseHTTPRequest(buff).value).text)
  {
    var rw := OnRequest(Callback(unescape));
    var r := RewriteHead(rw, buff);
    RewriteHeadExtends(rw, buff, more);
    BatchStartsWithHead(rw, buff + more, r);
  }

  lemma BatchStartsWithHead(rw: Rewriter, s: string, r: HeadResult)
    requires r == RewriteHead(rw, s) && r.HeadDone?
    ensures HasPrefix(Batch(rw, s), r.text)
  {
    MessageConsumes(rw);
    var o := OneMessage(rw, s);
    assert o == MessageOf(rw)(s) && HasPrefix(o.out, r.text);
    var tail := if o.complete then Batch(rw, o.rest) else "";
    assert Batch(rw, s) == o.out + tail;
    assert (o.out + tail)[..|r.text|] == o.out[..|r.text|];
  }
}
