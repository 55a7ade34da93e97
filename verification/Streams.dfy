/** The byte streams between client, proxy and worker: a connection whose peer decides how much each
    read returns, and proxy.go's reader that replays a prefix first. */
module Streams {
  function Min(a: nat, b: nat): nat {
    if a < b then a else b
  }

  /** buff starts with data; the rest of it is as before. */
  twostate predicate Filled(buff: array<char>, data: string)
    reads buff
  {
    |data| <= buff.Length && buff[..|data|] == data
    && forall k :: |data| <= k < buff.Length ==> buff[k] == old(buff[k])
  }

  method CopyInto(buff: array<char>, data: string)
    requires |data| <= buff.Length
    modifies buff
    ensures Filled(buff, data)
  {
    forall k | 0 <= k < |data| {
      buff[k] := data[k];
    }
  }

  class Connection {
    /** Everything the peer ever sends. */
    const stream: string
    var pos: nat
    var written: string
    var closed: bool
    /** How often the connection was asked for bytes, how often it gave none though there were some, how
        often there were none left, and how often it answered with an error. */
    ghost var asked: nat
    ghost var vain: nat
    ghost var dry: nat
    ghost var failures: nat

    constructor (stream: string)
      ensures this.stream == stream && pos == 0 && written == "" && !closed && asked == vain == dry == failures == 0
      ensures Valid() && Unread() == stream
    {
      this.stream, pos, written, closed := stream, 0, "", false;
      asked, vain, dry, failures := 0, 0, 0, 0;
    }

    ghost predicate Valid()
      reads this
    {
      pos <= |stream|
    }

    ghost function Unread(): string
      requires Valid()
      reads this
    {
      stream[pos..]
    }

    /** Every ask that was not in vain and found something left took a byte at least. */
    twostate predicate Counted()
      requires old(Valid()) && Valid()
      reads this
    {
      && |Unread()| <= |old(Unread())| && vain >= old(vain) && dry >= old(dry)
      && asked - old(asked) <= |old(Unread())| - |Unread()| + (vain - old(vain)) + (dry - old(dry))
      && (dry > old(dry) ==> Unread() == "")
    }

    /** Any number of bytes up to the limit, even none, and perhaps an error with them. */
    method Read(buff: array<char>, limit: nat) returns (n: nat, err: bool)
      requires Valid() && limit <= buff.Length
      modifies this`pos, this`asked, this`vain, this`dry, this`failures, buff
      ensures Valid() && n <= limit && n <= |old(Unread())| && Unread() == old(Unread())[n..]
      ensures Filled(buff, old(Unread())[..n])
      ensures asked == old(asked) + 1 && failures == old(failures) + if err then 1 else 0
      ensures Counted() && (dry > old(dry) ==> n == 0)
      ensures n == 0 && old(Unread()) == "" ==> dry > old(dry)
    {
      n :| 0 <= n <= limit && n <= |stream| - pos;
      err := *;
      CopyInto(buff, stream[pos..][..n]);
      vain, dry := vain + (if n == 0 && pos < |stream| then 1 else 0), dry + if pos == |stream| then 1 else 0;
      pos, asked, failures := pos + n, asked + 1, failures + if err then 1 else 0;
    }

    /** A short write reports an error. */
    method Write(data: string) returns (n: nat, err: bool)
      modifies this`written
      ensures n <= |data| && written == old(written) + data[..n] && (n < |data| ==> err)
    {
      n :| 0 <= n <= |data|;
      err := *;
      err := err || n < |data|;
      written := written + data[..n];
    }

    method Close()
      modifies this`closed
      ensures closed
    {
      closed := true;
    }
  }

  class ReadWriterWithPrefixBuffer {
    const inner: Connection
    var prefix: string

    constructor (conn: Connection, prefix: string)
      ensures inner == conn && this.prefix == prefix
    {
      this.inner, this.prefix := conn, prefix;
    }

    ghost predicate Valid()
      reads this, inner
    {
      inner.Valid()
    }

    /** What is still to come: the rest of the prefix, then the rest of the connection. */
    ghost function Unread(): string
      requires Valid()
      reads this, inner
    {
      prefix + inner.Unread()
    }

    /** The same count with the prefix, whose bytes are not asked for. */
    twostate predicate Counted()
      requires old(Valid()) && Valid()
      reads this, inner
    {
      && |Unread()| <= |old(Unread())| && inner.vain >= old(inner.vain) && inner.dry >= old(inner.dry)
      && inner.asked - old(inner.asked) <= |old(Unread())| - |Unread()| + (inner.vain - old(inner.vain)) + (inner.dry - old(inner.dry))
      && (inner.dry > old(inner.dry) ==> Unread() == "")
    }

    method Read(buff: array<char>, limit: nat) returns (n: nat, err: bool)
      requires Valid() && limit <= buff.Length
      modifies this`prefix, inner`pos, inner`asked, inner`vain, inner`dry, inner`failures, buff
      ensures Valid() && n <= limit && n <= |old(Unread())| && Unread() == old(Unread())[n..]
      ensures Filled(buff, old(Unread())[..n])
      ensures n > 0 || limit == 0 || inner.asked > old(inner.asked)
      ensures inner.asked >= old(inner.asked) && (err ==> inner.asked > old(inner.asked))
      ensures inner.failures == old(inner.failures) + if err then 1 else 0
      ensures Counted() && (inner.dry > old(inner.dry) ==> n == 0)
    {
      if |prefix| > 0 {
        n, err := Min(limit, |prefix|), false;
        assert Unread()[..n] == prefix[..n];
        CopyInto(buff, prefix[..n]);
        prefix := prefix[n..];
      } else {
        assert Unread() == inner.Unread();
        n, err := inner.Read(buff, limit);
      }
    }

    method Write(data: string) returns (n: nat, err: bool)
      modifies inner`written
      ensures n <= |data| && inner.written == old(inner.written) + data[..n] && (n < |data| ==> err)
    {
      n, err := inner.Write(data);
    }

    method Close()
      modifies inner`closed
      ensures inner.closed
    {
      inner.Close();
    }
  }
}
