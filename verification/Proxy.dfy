/** proxy.go: choosing a target from the first bytes of a client, then copying streams both ways. */
module Proxy {
  import opened Wrappers
  import opened Text
  import opened HttpHeaders
  import opened HttpParser
  import opened HttpFraming
  import opened HttpReader
  import opened Streams

  /** A target that wraps the client's connection, or one that only supplies the first bytes. */
  datatype Target = Wrapping(rewriter: Rewriter) | Plain(headData: string)

  /** What a resolver makes of the bytes so far: an error, no target yet, or a target. */
  datatype Resolution = Refused | Undecided | Resolved(target: Target)

  type Resolver = string -> Resolution

  /** The first target that a resolver names wins; without one the last resolver's answer stands, and
      the errors before it are forgotten. */
  ghost predicate Answer(resolvers: seq<Resolver>, buff: string, word: Resolution) {
    && (word.Resolved? <==> exists i :: 0 <= i < |resolvers| && resolvers[i](buff).Resolved?)
    && (word.Resolved? ==>
          exists i :: 0 <= i < |resolvers| && resolvers[i](buff) == word
                      && forall k :: 0 <= k < i ==> !resolvers[k](buff).Resolved?)
    && (!word.Resolved? ==> word == if resolvers == [] then Undecided else resolvers[|resolvers| - 1](buff))
  }

  /** The loop over the resolvers. */
  method AskResolvers(resolvers: seq<Resolver>, buff: string) returns (word: Resolution)
    ensures Answer(resolvers, buff, word)
  {
    word := Undecided;
    for i := 0 to |resolvers|
      invariant forall k :: 0 <= k < i ==> !resolvers[k](buff).Resolved?
      invariant word == if i == 0 then Undecided else resolvers[i - 1](buff)
    {
      word := resolvers[i](buff);
      if word.Resolved? {
        return;
      }
    }
  }

  /** Why the sniffing loop has found no target. */
  twostate predicate NoTarget(client: Connection, resolvers: seq<Resolver>, rounds: nat, buff: string)
    requires client.Valid()
    reads client
  {
    || client.failures > old(client.failures)
    || (buff != "" && Answer(resolvers, buff, Refused))
    || ((buff == "" || Answer(resolvers, buff, Undecided))
        && (client.Unread() == "" || rounds <= |buff| + (client.vain - old(client.vain))))
  }

  /** One read of the sniffing loop. */
  method ReadHeadBytes(client: Connection, hbuff: array<char>) returns (err: bool, more: string)
    requires client.Valid() && hbuff.Length > 0
    modifies client`pos, client`asked, client`vain, client`dry, client`failures, hbuff
    ensures client.Valid() && more + client.Unread() == old(client.Unread())
    ensures client.asked == old(client.asked) + 1 && client.failures == old(client.failures) + (if err then 1 else 0)
    ensures client.Counted()
  {
    ghost var unread := client.Unread();
    var n: nat;
    n, err := client.Read(hbuff, hbuff.Length);
    more := hbuff[..n];
    Whole(unread, n);
  }

  /** The sniffing loop.  Its iterations are bounded by rounds, which stands for the moment at which
      the run is looked at.  The bytes read so far and those still unread are the client's stream.
      Without a target the client has failed, or the resolvers have refused, or they are undecided and
      every round has taken a byte, asked in vain or found that the client has sent all it will. */
  method SelectTarget(client: Connection, resolvers: seq<Resolver>, rounds: nat)
    returns (target: Option<Target>, buff: string)
    requires client.Valid()
    modifies client`pos, client`asked, client`vain, client`dry, client`failures
    ensures client.Valid() && buff + client.Unread() == old(client.Unread())
    ensures target.Some? ==> buff != "" && Answer(resolvers, buff, Resolved(target.value))
    ensures target.None? ==> NoTarget(client, resolvers, rounds, buff)
    ensures client.Counted()
  {
    buff := "";
    var hbuff := new char[0xfff];
    NothingAfter(client.Unread());
    for round := 0 to rounds
      invariant client.Valid() && buff + client.Unread() == old(client.Unread())
      invariant client.failures == old(client.failures) && client.asked == old(client.asked) + round && client.Counted()
      invariant buff == "" || Answer(resolvers, buff, Undecided)
    {
      var err, more := ReadHeadBytes(client, hbuff);
      Regroup(buff, more, client.Unread());
      NothingAfter(buff);
      if err {
        return None, buff + more;
      }
      if more == "" {
        continue;
      }
      buff := buff + more;
      var word := AskResolvers(resolvers, buff);
      match word {
        case Resolved(t) => return Some(t), buff;
        case Refused => return None, buff;
        case Undecided =>
      }
    }
    return None, buff;
  }

  /** The bytes that were added to a connection. */
  function Added(now: string, before: string): string
    requires HasPrefix(now, before)
  {
    now[|before|..]
  }

  /** One turn of pipe, from a rewriting reader: read is what the reader delivered, of which the
      first m bytes were written. */
  method CopyRewritten(src: HTTPRewriteHeaderWrapper, dst: Connection, buff: array<char>)
    returns (err: bool, ghost read: string, ghost m: nat)
    requires src.Valid() && dst != src.inner.inner && buff != src.buff && buff.Length > 0
    modifies src, src.inner`prefix, src.inner.inner`pos, src.inner.inner`asked, src.inner.inner`vain, src.inner.inner`dry, src.inner.inner`failures, src.inner.inner`closed, src.buff, buff, dst`written
    ensures src.Safe() && src.delivered == old(src.delivered) + read
    ensures m <= |read| && dst.written == old(dst.written) + read[..m]
    ensures !err ==> src.Valid() && m == |read|
    ensures !err ==> src.inner.Counted() && src.Left() + 1 <= old(src.Left()) + 2 * (src.inner.inner.asked - old(src.inner.inner.asked))
    ensures !err && src.Dry() ==> src.delivered == src.rules.whole
  {
    m := 0;
    ghost var taken: nat;
    var n, failed;
    n, failed, taken := src.Read(buff);
    read := buff[..n];
    if failed.Some? || n == 0 {
      assert dst.written + read[..0] == dst.written;
      return failed.Some?, read, 0;
    }
    var written: nat;
    written, err := dst.Write(buff[..n]);
    m := written;
  }

  lemma OneTurn(given: string, sent: string, copied: string, read: string, m: nat)
    requires m <= |read|
    ensures HasPrefix(given + copied + read, given + (copied + read[..m]))
    ensures m == |read| ==> given + copied + read == given + (copied + read[..m])
    ensures sent + copied + read[..m] == sent + (copied + read[..m])
  {
    assert given + copied + read == given + (copied + read[..m]) + read[m..];
  }

  lemma TurnLeft(copied: string, read: string, m: nat, rest: string)
    requires m <= |read|
    ensures HasPrefix(copied + (read + rest), copied + read[..m])
    ensures m == |read| ==> copied + (read + rest) == copied + read[..m] + rest
  {
    assert copied + (read + rest) == copied + read[..m] + (read[m..] + rest);
  }

  /** Once everything has been delivered nothing more is. */
  lemma WholeStays(whole: string, before: string, read: string)
    requires HasPrefix(whole, before + read) && before == whole
    ensures before + read == whole
  {
  }

  /** pipe, from a rewriting reader: what is written is what the reader delivered, up to an error.
      Without an error every round gives a byte, takes a byte, finds a head or chunk line incomplete or
      asks the source; and once there were rounds enough for that, but for those that asked in vain,
      everything that was still due has been written. */
  method PipeRewritten(src: HTTPRewriteHeaderWrapper, dst: Connection, rounds: nat) returns (err: bool)
    requires src.Valid() && dst != src.inner.inner
    modifies src, src.inner`prefix, src.inner.inner`pos, src.inner.inner`asked, src.inner.inner`vain, src.inner.inner`dry, src.inner.inner`failures, src.inner.inner`closed, src.buff, dst`written
    ensures src.Safe() && HasPrefix(dst.written, old(dst.written))
    ensures HasPrefix(src.delivered, old(src.delivered) + Added(dst.written, old(dst.written)))
    ensures !err ==> src.Valid() && src.delivered == old(src.delivered) + Added(dst.written, old(dst.written))
    ensures !err ==> rounds <= old(2 * (|src.rules.whole| + |src.inner.Unread()|) + 1)
                               + 2 * (src.inner.inner.asked - old(src.inner.inner.asked))
    ensures !err && src.Drained() ==> old(src.delivered) + Added(dst.written, old(dst.written)) == src.rules.whole
    ensures !err ==> || old(src.delivered) + Added(dst.written, old(dst.written)) == src.rules.whole
                     || rounds <= old(2 * |src.rules.whole| + 4 * |src.inner.Unread()| + 1)
                                  + 2 * (src.inner.inner.vain - old(src.inner.inner.vain))
    ensures !err ==> src.inner.Counted()
  {
    var buff := new char[0xffff];
    err := false;
    src.AccountsIsSafe();
    src.LeftIsPositive();
    ghost var copied := "";
    assert src.delivered + copied == src.delivered && dst.written + copied == dst.written;
    for round := 0 to rounds
      invariant src.Valid() && src.Safe()
      invariant src.delivered == old(src.delivered) + copied && dst.written == old(dst.written) + copied
      invariant src.Left() + round <= old(src.Left()) + 2 * (src.inner.inner.asked - old(src.inner.inner.asked))
      invariant src.inner.Counted() && (src.inner.inner.dry > old(src.inner.inner.dry) ==> src.delivered == src.rules.whole)
    {
      ghost var read, m;
      ghost var before := src.delivered;
      err, read, m := CopyRewritten(src, dst, buff);
      OneTurn(old(src.delivered), old(dst.written), copied, read, m);
      copied := copied + read[..m];
      if err {
        return;
      }
      if before == src.rules.whole { WholeStays(src.rules.whole, before, read); }
    }
    src.LeftIsPositive();
    if src.Drained() { src.DrainedIsWhole(); }
  }

  /** One turn of pipe, from a bare connection. */
  method CopyPlain(src: Connection, dst: Connection, buff: array<char>)
    returns (err: bool, ghost read: string, ghost m: nat)
    requires src.Valid() && dst != src
    modifies src`pos, src`asked, src`vain, src`dry, src`failures, buff, dst`written
    ensures src.Valid() && old(src.Unread()) == read + src.Unread()
    ensures m <= |read| && dst.written == old(dst.written) + read[..m]
    ensures !err ==> m == |read|
    ensures src.asked == old(src.asked) + 1 && src.Counted()
  {
    m := 0;
    ghost var unread := src.Unread();
    var n, failed := src.Read(buff, buff.Length);
    read := buff[..n];
    assert unread == unread[..n] + unread[n..];
    if failed || n == 0 {
      assert dst.written + read[..0] == dst.written;
      return failed, read, 0;
    }
    var written: nat;
    written, err := dst.Write(buff[..n]);
    m := written;
  }

  /** pipe, from a bare connection.  Without an error every round takes a byte, asks in vain or finds
      that everything has been sent. */
  method PipePlain(src: Connection, dst: Connection, rounds: nat) returns (err: bool)
    requires src.Valid() && dst != src
    modifies src`pos, src`asked, src`vain, src`dry, src`failures, dst`written
    ensures src.Valid() && HasPrefix(dst.written, old(dst.written))
    ensures HasPrefix(old(src.Unread()), Added(dst.written, old(dst.written)))
    ensures !err ==> old(src.Unread()) == Added(dst.written, old(dst.written)) + src.Unread()
    ensures !err ==> || old(src.Unread()) == Added(dst.written, old(dst.written))
                     || rounds <= |old(src.Unread())| + (src.vain - old(src.vain))
    ensures src.Counted()
  {
    var buff := new char[0xffff];
    err := false;
    ghost var copied := "";
    assert copied + src.Unread() == src.Unread() && dst.written + copied == dst.written;
    for round := 0 to rounds
      invariant src.Valid() && old(src.Unread()) == copied + src.Unread() && dst.written == old(dst.written) + copied
      invariant src.asked == old(src.asked) + round && src.Counted()
    {
      ghost var read, m;
      err, read, m := CopyPlain(src, dst, buff);
      OneTurn("", old(dst.written), copied, read, m);
      TurnLeft(copied, read, m, src.Unread());
      copied := copied + read[..m];
      if err {
        return;
      }
    }
  }

  lemma PrefixOfAdded(a: string, b: string, c: string)
    requires HasPrefix(a, b) && HasPrefix(b, "" + c)
    ensures HasPrefix(a, c)
  {
    assert "" + c == c;
    assert a[..|c|] == a[..|b|][..|c|];
  }

  /** The first bytes of a target that does not wrap the connection, then the pipe. */
  method PipeAfter(headData: string, src: Connection, dst: Connection, rounds: nat) returns (err: bool)
    requires src.Valid() && dst != src
    modifies src`pos, src`asked, src`vain, src`dry, src`failures, dst`written
    ensures src.Valid() && HasPrefix(dst.written, old(dst.written))
    ensures HasPrefix(headData + old(src.Unread()), Added(dst.written, old(dst.written)))
    ensures !err ==> || Added(dst.written, old(dst.written)) == headData + old(src.Unread())
                     || rounds <= |old(src.Unread())| + (src.vain - old(src.vain))
    ensures src.Counted()
  {
    ghost var rest, sent := src.Unread(), dst.written;
    var n, short := dst.Write(headData);
    assert Added(dst.written, sent) == headData[..n];
    if short {
      assert (headData + rest)[..n] == headData[..n];
      return true;
    }
    assert headData[..n] == headData;
    ghost var before := dst.written;
    err := PipePlain(src, dst, rounds);
    assert Added(dst.written, sent) == headData + Added(dst.written, before);
    assert (headData + rest)[..|headData| + |Added(dst.written, before)|] == headData + Added(dst.written, before);
  }

  /** proxySelectTargetAndSetupPipe, from client to worker.  With a target that wraps the connection
      the worker is sent a prefix of the rewrite of everything the client sends: the sniffed bytes
      are neither lost nor sent twice.  Without an error it is sent all of that in rounds enough. */
  method SelectTargetAndPipe(client: Connection, worker: Connection, resolvers: seq<Resolver>, connected: bool, rounds: nat)
    returns (target: Option<Target>, ghost sniffed: string, err: bool)
    requires client.Valid() && client != worker
    modifies client, worker`written
    ensures HasPrefix(worker.written, old(worker.written)) && HasPrefix(old(client.Unread()), sniffed)
    ensures var sent := Added(worker.written, old(worker.written));
            match target
            case None => sent == ""
            case Some(Wrapping(rewriter)) => HasPrefix(Batch(rewriter, old(client.Unread())), sent)
            case Some(Plain(headData)) => HasPrefix(headData + old(client.Unread())[|sniffed|..], sent)
    ensures target.Some? ==> sniffed != "" && Answer(resolvers, sniffed, Resolved(target.value))
    ensures target.None? && connected ==> client.Valid() && NoTarget(client, resolvers, rounds, sniffed)
    ensures !err && target.Some? ==>
              var sent, stream := Added(worker.written, old(worker.written)), old(client.Unread());
              match target.value
              case Wrapping(rewriter) =>
                || sent == Batch(rewriter, stream)
                || rounds <= 2 * |Batch(rewriter, stream)| + 4 * |stream| + 1 + 2 * (client.vain - old(client.vain))
              case Plain(headData) =>
                || sent == headData + stream[|sniffed|..]
                || rounds <= |stream| + (client.vain - old(client.vain))
  {
    ghost var stream, sent := client.Unread(), worker.written;
    var buff: string;
    err := false;
    target, buff := SelectTarget(client, resolvers, rounds);
    sniffed := buff;
    if target.None? || !connected {
      return None, sniffed, false;
    }
    match target.value {
      case Wrapping(rewriter) =>
        var replay := new ReadWriterWithPrefixBuffer(client, buff);
        var reader := new HTTPRewriteHeaderWrapper(replay, rewriter);
        err := PipeRewritten(reader, worker, rounds);
        PrefixOfAdded(reader.rules.whole, reader.delivered, Added(worker.written, sent));
        NothingAfter(Added(worker.written, sent));
      case Plain(headData) =>
        assert stream[|buff|..] == client.Unread();
        err := PipeAfter(headData, client, worker, rounds);
    }
  }

  /** Header.Set. */
  function Set(h: Headers, key: string, value: string): Headers {
    h[Canonical(key) := [value]]
  }

  /** The callback of cors.go: a worker that refuses the method is made to agree, and every response
      allows requests from anywhere. */
  function CORSCallback(r: Response): Option<Response> {
    var agreed := if r.statusCode == 405 then r.(statusCode := 200, status := "OK") else r;
    var h := Set(Set(r.headers, "Access-Control-Request-Headers", "Content-Type"), "Access-Control-Allow-Headers", "Content-Type");
    var g := Set(Set(h, "Access-Control-Allow-Origin", "*"), "Access-Control-Allow-Methods", "GET, POST, PATCH, DELETE, OPTIONS");
    Some(agreed.(headers := Set(g, "Access-Control-Allow-Credentials", "true")))
  }

  /** What Get finds after Set. */
  lemma SetThenGet(h: Headers, key: string, value: string, name: string)
    requires IsToken(name)
    ensures Get(Set(h, key, value), name) == if SameName(key, name) then value else Get(h, name)
  {
    SpelledBoth(key, name);
    CanonicalIff(name, key);
  }

  /** What a client finds in the response, whatever the worker sent: the five fields of the callback,
      under any spelling, and all others as they were. */
  lemma CORSAllows(r: Response, name: string)
    requires IsToken(name)
    ensures CORSCallback(r).Some?
    ensures var q := CORSCallback(r).value;
            && q.statusCode == (if r.statusCode == 405 then 200 else r.statusCode)
            && q.status == (if r.statusCode == 405 then "OK" else r.status)
            && q.version == r.version && q.major == r.major && q.minor == r.minor
            && Get(q.headers, name) ==
                 if SameName("access-control-allow-credentials", name) then "true"
                 else if SameName("access-control-allow-methods", name) then "GET, POST, PATCH, DELETE, OPTIONS"
                 else if SameName("access-control-allow-origin", name) then "*"
                 else if SameName("access-control-allow-headers", name) then "Content-Type"
                 else if SameName("access-control-request-headers", name) then "Content-Type"
                 else Get(r.headers, name)
  {
    var h1 := Set(r.headers, "Access-Control-Request-Headers", "Content-Type");
    var h2 := Set(h1, "Access-Control-Allow-Headers", "Content-Type");
    var h3 := Set(h2, "Access-Control-Allow-Origin", "*");
    var h4 := Set(h3, "Access-Control-Allow-Methods", "GET, POST, PATCH, DELETE, OPTIONS");
    SetThenGet(h4, "Access-Control-Allow-Credentials", "true", name);
    SetThenGet(h3, "Access-Control-Allow-Methods", "GET, POST, PATCH, DELETE, OPTIONS", name);
    SetThenGet(h2, "Access-Control-Allow-Origin", "*", name);
    SetThenGet(h1, "Access-Control-Allow-Headers", "Content-Type", name);
    SetThenGet(r.headers, "Access-Control-Request-Headers", "Content-Type", name);
    CredentialsSmall();
    SameAsSmall("Access-Control-Allow-Credentials", "access-control-allow-credentials", name);
    MethodsSmall();
    SameAsSmall("Access-Control-Allow-Methods", "access-control-allow-methods", name);
    OriginSmall();
    SameAsSmall("Access-Control-Allow-Origin", "access-control-allow-origin", name);
    HeadersSmall();
    SameAsSmall("Access-Control-Allow-Headers", "access-control-allow-headers", name);
    RequestSmall();
    SameAsSmall("Access-Control-Request-Headers", "access-control-request-headers", name);
  }

  lemma SameAsSmall(a: string, b: string, name: string)
    requires SameName(a, b)
    ensures SameName(a, name) <==> SameName(b, name)
  {
    SpelledBoth(a, b);
    if SameName(a, name) { NamesAgree(b, a, name); }
    if SameName(b, name) { NamesAgree(a, b, name); }
  }

  lemma CredentialsSmall()
    ensures SameName("Access-Control-Allow-Credentials", "access-control-allow-credentials")
  {
  }

  lemma MethodsSmall()
    ensures SameName("Access-Control-Allow-Methods", "access-control-allow-methods")
  {
  }

  lemma OriginSmall()
    ensures SameName("Access-Control-Allow-Origin", "access-control-allow-origin")
  {
  }

  lemma HeadersSmall()
    ensures SameName("Access-Control-Allow-Headers", "access-control-allow-headers")
  {
  }

  lemma RequestSmall()
    ensures SameName("Access-Control-Request-Headers", "access-control-request-headers")
  {
  }

  /** The other direction, from worker to client: plain, or through the response rewriter of
      cors.go.  The client is sent a prefix of what the worker sends, or of its rewrite, and without an
      error all of it in rounds enough. */
  method PipeBack(worker: Connection, client: Connection, cors: bool, rounds: nat) returns (err: bool)
    requires worker.Valid() && client != worker
    modifies worker, client`written
    ensures HasPrefix(client.written, old(client.written))
    ensures var sent := Added(client.written, old(client.written));
            HasPrefix(if cors then Batch(OnResponse(CORSCallback), old(worker.Unread())) else old(worker.Unread()), sent)
    ensures !err ==>
              var sent, stream := Added(client.written, old(client.written)), old(worker.Unread());
              if cors then
                || sent == Batch(OnResponse(CORSCallback), stream)
                || rounds <= 2 * |Batch(OnResponse(CORSCallback), stream)| + 4 * |stream| + 1 + 2 * (worker.vain - old(worker.vain))
              else sent == stream || rounds <= |stream| + (worker.vain - old(worker.vain))
    ensures !cors ==> worker.Valid()
    ensures !err && !cors ==> old(worker.Unread()) == Added(client.written, old(client.written)) + worker.Unread()
  {
    ghost var sent := client.written;
    if !cors {
      err := PipePlain(worker, client, rounds);
      return;
    }
    NothingAfter(worker.Unread());
    var source := new ReadWriterWithPrefixBuffer(worker, "");
    var reader := new HTTPRewriteHeaderWrapper(source, OnResponse(CORSCallback));
    err := PipeRewritten(reader, client, rounds);
    PrefixOfAdded(reader.rules.whole, reader.delivered, Added(client.written, sent));
    NothingAfter(Added(client.written, sent));
  }
}
