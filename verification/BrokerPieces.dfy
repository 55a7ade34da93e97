/** Inside a step of the broker.  Three kinds of steps of BrokerProtocol write to several queues in one
    go: a visit of the matching loop to a waiter, the reading of a runner's error, and the start of a
    container on port 3.  Here they are taken apart, with clients and runners acting between any two
    pieces, and each send waiting for room in its channel.  As clients and runners only take from what
    the broker adds to and add to what it takes from, nothing comes of that which does not come of the
    whole step followed by what they did. */
module BrokerPieces {
  import opened Wrappers
  import opened BrokerModel
  import opened BrokerProtocol
  import opened BrokerRefinement

  /** A piece of a step. */
  datatype Piece =
    | TestTarget(i: nat, j: nat)                    // target j is tested for waiter i
    | PutBack(i: nat)                               // source i goes back to the pool
    | SendError(i: nat, text: string)               // and its client is told
    | ClearTarget(j: nat)                           // the target whose start failed is cleared
    | TellRunner(i: nat, j: nat, backLink: bool)    // target j is told to start for source i

  predicate PieceOk(s: State, p: Piece) {
    match p
    case TestTarget(i, j) => i < |s.sources| && j < |s.targets|
    case PutBack(i) => i < |s.sources|
    case SendError(i, _) => i < |s.sources|
    case ClearTarget(j) => j < |s.targets|
    case TellRunner(i, j, _) => i < |s.sources| && j < |s.targets|
  }

  function Do(s: State, now: int, p: Piece): (r: State)
    requires PieceOk(s, p)
    ensures |r.sources| == |s.sources| && |r.targets| == |s.targets|
  {
    match p
    case TestTarget(i, j) => if Matches(s.targets[j], s.sources[i]) then Link(s, i, j, now) else s
    case PutBack(i) => Recycle(s, i)
    case SendError(i, text) => WithSource(s, i, s.sources[i].(output := s.sources[i].output + [ErrorMsg(text)]))
    case ClearTarget(j) => WithTarget(s, j, s.targets[j].(state := Free, slotType := "", since := 5))
    case TellRunner(i, j, backLink) => TellToStart(s, j, i, backLink, now)
  }

  /** The channels that a piece sends to are not full. */
  predicate HasRoom(s: State, p: Piece, cap: nat)
    requires PieceOk(s, p)
  {
    match p
    case TestTarget(i, j) => Matches(s.targets[j], s.sources[i]) ==> |s.sources[i].output| < cap
    case PutBack(i) => |s.freeSources| < |s.sources|
    case SendError(i, _) => |s.sources[i].output| < cap
    case ClearTarget(_) => true
    case TellRunner(_, j, _) => |s.targets[j].output| < cap
  }

  predicate AllOk(s: State, pieces: seq<Piece>) {
    forall n :: 0 <= n < |pieces| ==> PieceOk(s, pieces[n])
  }

  function DoAll(s: State, now: int, pieces: seq<Piece>): (r: State)
    requires AllOk(s, pieces)
    ensures |r.sources| == |s.sources| && |r.targets| == |s.targets|
    decreases |pieces|
  {
    if pieces == [] then s else DoAll(Do(s, now, pieces[0]), now, pieces[1..])
  }

  /** The pieces are done one by one, None standing for the next of them, while clients and runners act
      in between. */
  ghost predicate Weaves(cfg: Settings, cap: nat, c: Config, pieces: seq<Piece>, moves: seq<Option<Action>>, d: Config)
    requires AllOk(c.s, pieces)
    decreases |moves|
  {
    if moves == [] then pieces == [] && c == d
    else
      match moves[0]
      case None =>
        pieces != [] && HasRoom(c.s, pieces[0], cap)
        && Weaves(cfg, cap, c.(s := Do(c.s, c.now, pieces[0])), pieces[1..], moves[1..], d)
      case Some(a) =>
        Enabled(c, a) && !a.BrokerStep? && Weaves(cfg, cap, Moved(cfg, c, a), pieces, moves[1..], d)
  }

  /** What clients and runners make of a configuration; the numbers of slots stay. */
  ghost function Moved(cfg: Settings, c: Config, a: Action): (d: Config)
    requires Enabled(c, a) && !a.BrokerStep?
    ensures |d.s.sources| == |c.s.sources| && |d.s.targets| == |c.s.targets|
  {
    Next(cfg, c, a)
  }

  /** What clients and runners did. */
  function Others(moves: seq<Option<Action>>): seq<Action> {
    if moves == [] then []
    else match moves[0]
      case None => Others(moves[1..])
      case Some(a) => [a] + Others(moves[1..])
  }

  // ------------------------------------------------------------------ a piece can be done first

  lemma PopPush<T>(q: seq<T>, m: T)
    requires q != []
    ensures (q + [m])[1..] == q[1..] + [m] && (q + [m])[0] == q[0]
  {
  }

  function After(c: Config, p: Piece): Config
    requires PieceOk(c.s, p)
  {
    c.(s := Do(c.s, c.now, p))
  }

  lemma StillEnabled(cfg: Settings, c: Config, a: Action, p: Piece)
    requires Enabled(c, a) && !a.BrokerStep? && PieceOk(c.s, p)
    ensures Enabled(After(c, p), a)
  {
  }

  predicate OfRunner(a: Action) {
    a.Announce? || a.TakeStart? || a.Answer?
  }

  lemma LinkCommutesWithRunner(cfg: Settings, c: Config, a: Action, p: Piece)
    requires Enabled(c, a) && OfRunner(a) && p.TestTarget? && PieceOk(c.s, p) && SendsReply(c.s, p)
    ensures Enabled(After(c, p), a)
    ensures Next(cfg, After(c, p), a) == After(Moved(cfg, c, a), p)
  {
    assert Next(cfg, After(c, p), a).s.targets == After(Moved(cfg, c, a), p).s.targets;
  }

  lemma ErrorCommutesWithRunner(cfg: Settings, c: Config, a: Action, p: Piece)
    requires Enabled(c, a) && OfRunner(a) && p.SendError? && PieceOk(c.s, p)
    ensures Enabled(After(c, p), a)
    ensures Next(cfg, After(c, p), a) == After(Moved(cfg, c, a), p)
  {
  }

  predicate Writes(a: Action) {
    a.SendAcquire? || a.SendRelease? || a.AnySend?
  }

  predicate Reads(a: Action) {
    a.ReadReply? || a.AnyRead?
  }

  /** The piece sends something to its source. */
  predicate SendsReply(s: State, p: Piece)
    requires PieceOk(s, p)
  {
    match p
    case TestTarget(i, j) => Matches(s.targets[j], s.sources[i])
    case SendError(_, _) => true
    case _ => false
  }

  lemma ReplyCommutesWithGet(cfg: Settings, c: Config, p: Piece)
    requires Enabled(c, GetSlot) && PieceOk(c.s, p) && SendsReply(c.s, p)
    ensures Enabled(After(c, p), GetSlot)
    ensures Next(cfg, After(c, p), GetSlot) == After(Moved(cfg, c, GetSlot), p)
  {
  }

  /** The pool is taken from at one end and added to at the other. */
  lemma PutBackCommutesWithGet(cfg: Settings, c: Config, i: nat)
    requires Enabled(c, GetSlot) && PieceOk(c.s, PutBack(i))
    ensures Enabled(After(c, PutBack(i)), GetSlot)
    ensures Next(cfg, After(c, PutBack(i)), GetSlot) == After(Moved(cfg, c, GetSlot), PutBack(i))
  {
    PopPush(c.s.freeSources, i);
  }

  lemma PutBackCommutesWithRead(cfg: Settings, c: Config, a: Action, i: nat)
    requires Enabled(c, a) && Reads(a) && PieceOk(c.s, PutBack(i))
    ensures Enabled(After(c, PutBack(i)), a)
    ensures Next(cfg, After(c, PutBack(i)), a) == After(Moved(cfg, c, a), PutBack(i))
  {
    assert Next(cfg, After(c, PutBack(i)), a).s.sources == After(Moved(cfg, c, a), PutBack(i)).s.sources;
  }

  lemma PutBackCommutesWithOther(cfg: Settings, c: Config, a: Action, i: nat)
    requires Enabled(c, a) && (Writes(a) || OfRunner(a)) && PieceOk(c.s, PutBack(i))
    ensures Enabled(After(c, PutBack(i)), a)
    ensures Next(cfg, After(c, PutBack(i)), a) == After(Moved(cfg, c, a), PutBack(i))
  {
    assert Next(cfg, After(c, PutBack(i)), a).s.sources == After(Moved(cfg, c, a), PutBack(i)).s.sources;
  }

  lemma PutBackCommutes(cfg: Settings, c: Config, a: Action, i: nat)
    requires Enabled(c, a) && !a.BrokerStep? && PieceOk(c.s, PutBack(i))
    ensures Enabled(After(c, PutBack(i)), a)
    ensures Next(cfg, After(c, PutBack(i)), a) == After(Moved(cfg, c, a), PutBack(i))
  {
    if Reads(a) { PutBackCommutesWithRead(cfg, c, a, i); }
    if Writes(a) || OfRunner(a) { PutBackCommutesWithOther(cfg, c, a, i); }
    if a.GetSlot? { PutBackCommutesWithGet(cfg, c, i); }
  }

  predicate Answers(p: Piece) {
    p.TestTarget? || p.SendError?
  }

  /** What the source of a piece is like after it. */
  function Told(slot: Slot, p: Piece, refInfo: string, now: int): Slot
    requires Answers(p)
  {
    match p
    case TestTarget(_, j) =>
      slot.(opposite := Some(j), state := Run, since := now, output := slot.output + [AcquiredMsg(refInfo)])
    case SendError(_, text) => slot.(output := slot.output + [ErrorMsg(text)])
  }

  function RefInfo(s: State, p: Piece): string
    requires PieceOk(s, p)
  {
    if p.TestTarget? then s.targets[p.j].refInfo else ""
  }

  lemma ToldSources(s: State, now: int, p: Piece)
    requires PieceOk(s, p) && SendsReply(s, p)
    ensures Do(s, now, p).sources == s.sources[p.i := Told(s.sources[p.i], p, RefInfo(s, p), now)]
  {
  }

  lemma ToldPop(slot: Slot, p: Piece, refInfo: string, now: int)
    requires Answers(p) && slot.output != []
    ensures Told(slot, p, refInfo, now).output != []
    ensures Told(slot, p, refInfo, now).output[0] == slot.output[0]
    ensures Pop(Told(slot, p, refInfo, now)) == Told(Pop(slot), p, refInfo, now)
  {
    var m := match p case TestTarget(_, _) => AcquiredMsg(refInfo) case SendError(_, text) => ErrorMsg(text);
    PopPush(slot.output, m);
  }

  lemma ToldPush(slot: Slot, p: Piece, refInfo: string, now: int, m: Message)
    requires Answers(p)
    ensures Push(Told(slot, p, refInfo, now), m) == Told(Push(slot, m), p, refInfo, now)
  {
  }

  lemma Swap<T>(q: seq<T>, i: nat, x: T, h: nat, y: T)
    requires i < |q| && h < |q| && i != h
    ensures q[i := x][h := y] == q[h := y][i := x]
  {
  }

  /** A client's move makes slot a.i of the sources this. */
  function Turned(slot: Slot, a: Action): Slot
    requires Writes(a) || (Reads(a) && slot.output != [])
  {
    match a
    case SendAcquire(_, slotType, info) => Push(slot, AcquireMsg(slotType, info))
    case SendRelease(_) => Push(slot, ReleaseMsg(false))
    case AnySend(_, m) => Push(slot, m)
    case _ => Pop(slot)
  }

  lemma TurnedSources(cfg: Settings, c: Config, a: Action)
    requires Enabled(c, a) && (Writes(a) || Reads(a))
    ensures Next(cfg, c, a).s == c.s.(sources := c.s.sources[a.i := Turned(c.s.sources[a.i], a)])
  {
  }

  lemma ToldTurned(slot: Slot, p: Piece, refInfo: string, now: int, a: Action)
    requires Answers(p) && (Writes(a) || (Reads(a) && slot.output != []))
    ensures Reads(a) ==> Told(slot, p, refInfo, now).output != [] && Told(slot, p, refInfo, now).output[0] == slot.output[0]
    ensures Turned(Told(slot, p, refInfo, now), a) == Told(Turned(slot, a), p, refInfo, now)
  {
    match a
    case SendAcquire(_, slotType, info) => ToldPush(slot, p, refInfo, now, AcquireMsg(slotType, info));
    case SendRelease(_) => ToldPush(slot, p, refInfo, now, ReleaseMsg(false));
    case AnySend(_, m) => ToldPush(slot, p, refInfo, now, m);
    case _ => ToldPop(slot, p, refInfo, now);
  }

  lemma UpdatesCommute(q: seq<Slot>, i: nat, p: Piece, refInfo: string, now: int, a: Action)
    requires Answers(p) && i < |q| && (Writes(a) || Reads(a)) && a.i < |q| && (Reads(a) ==> q[a.i].output != [])
    ensures var told := q[i := Told(q[i], p, refInfo, now)];
            var turned := q[a.i := Turned(q[a.i], a)];
            && (Reads(a) ==> told[a.i].output != [])
            && told[a.i := Turned(told[a.i], a)] == turned[i := Told(turned[i], p, refInfo, now)]
  {
    if a.i == i {
      ToldTurned(q[i], p, refInfo, now, a);
    } else {
      Swap(q, i, Told(q[i], p, refInfo, now), a.i, Turned(q[a.i], a));
    }
  }

  lemma SourcesCommute(cfg: Settings, c: Config, a: Action, p: Piece)
    requires Enabled(c, a) && (Writes(a) || Reads(a)) && PieceOk(c.s, p) && SendsReply(c.s, p)
    requires Enabled(After(c, p), a) && SendsReply(Moved(cfg, c, a).s, p)
    ensures Next(cfg, After(c, p), a).s.sources == After(Moved(cfg, c, a), p).s.sources
  {
    TurnedSources(cfg, c, a);
    TurnedSources(cfg, After(c, p), a);
    ToldSources(c.s, c.now, p);
    ToldSources(Moved(cfg, c, a).s, c.now, p);
    UpdatesCommute(c.s.sources, p.i, p, RefInfo(c.s, p), c.now, a);
  }

  /** What the client of a slot reads first is not what a piece adds. */
  lemma HeadStays(c: Config, a: Action, p: Piece)
    requires Enabled(c, a) && Reads(a) && PieceOk(c.s, p) && SendsReply(c.s, p)
    ensures After(c, p).s.sources[a.i].output != []
    ensures After(c, p).s.sources[a.i].output[0] == c.s.sources[a.i].output[0]
  {
    ToldSources(c.s, c.now, p);
    if a.i == p.i { ToldPop(c.s.sources[p.i], p, RefInfo(c.s, p), c.now); }
  }

  lemma ReplyCommutesWithClient(cfg: Settings, c: Config, a: Action, p: Piece)
    requires Enabled(c, a) && (Writes(a) || Reads(a)) && PieceOk(c.s, p) && SendsReply(c.s, p)
    requires SendsReply(Moved(cfg, c, a).s, p)
    ensures Enabled(After(c, p), a)
    ensures Next(cfg, After(c, p), a) == After(Moved(cfg, c, a), p)
  {
    if Reads(a) { HeadStays(c, a, p); }
    StillEnabled(cfg, c, a, p);
    SourcesCommute(cfg, c, a, p);
    RestCommutes(cfg, c, a, p);
  }

  /** All but the source slots. */
  predicate SameRest(d: Config, e: Config) {
    d == e.(s := e.s.(sources := d.s.sources))
  }

  lemma RestCommutes(cfg: Settings, c: Config, a: Action, p: Piece)
    requires Enabled(c, a) && (Writes(a) || Reads(a)) && PieceOk(c.s, p) && SendsReply(c.s, p)
    requires SendsReply(Moved(cfg, c, a).s, p) && Enabled(After(c, p), a)
    requires Reads(a) ==> After(c, p).s.sources[a.i].output[0] == c.s.sources[a.i].output[0]
    ensures SameRest(Next(cfg, After(c, p), a), After(Moved(cfg, c, a), p))
  {
  }

  lemma ClearCommutes(cfg: Settings, c: Config, a: Action, j: nat)
    requires Enabled(c, a) && !a.BrokerStep? && PieceOk(c.s, ClearTarget(j))
    ensures Enabled(After(c, ClearTarget(j)), a)
    ensures Next(cfg, After(c, ClearTarget(j)), a) == After(Moved(cfg, c, a), ClearTarget(j))
  {
    assert Next(cfg, After(c, ClearTarget(j)), a).s.targets == After(Moved(cfg, c, a), ClearTarget(j)).s.targets;
  }

  lemma TellCommutesWithOwnRead(cfg: Settings, c: Config, a: Action, p: Piece)
    requires Enabled(c, a) && Reads(a) && p.TellRunner? && PieceOk(c.s, p) && a.i == p.i
    ensures Enabled(After(c, p), a)
    ensures Next(cfg, After(c, p), a) == After(Moved(cfg, c, a), p)
  {
    assert Next(cfg, After(c, p), a).s.sources == After(Moved(cfg, c, a), p).s.sources;
  }

  lemma TellCommutesWithRead(cfg: Settings, c: Config, a: Action, p: Piece)
    requires Enabled(c, a) && Reads(a) && p.TellRunner? && PieceOk(c.s, p) && a.i != p.i
    ensures Enabled(After(c, p), a)
    ensures Next(cfg, After(c, p), a) == After(Moved(cfg, c, a), p)
  {
    Swap(c.s.sources, p.i, c.s.sources[p.i].(opposite := Some(p.j)), a.i, Pop(c.s.sources[a.i]));
  }

  lemma TellCommutesWithWrite(cfg: Settings, c: Config, a: Action, p: Piece)
    requires Enabled(c, a) && (Writes(a) || a.GetSlot?) && p.TellRunner? && PieceOk(c.s, p)
    ensures Enabled(After(c, p), a)
    ensures Next(cfg, After(c, p), a) == After(Moved(cfg, c, a), p)
  {
    assert Next(cfg, After(c, p), a).s.sources == After(Moved(cfg, c, a), p).s.sources;
  }

  lemma TellCommutesWithTake(cfg: Settings, c: Config, a: Action, p: Piece)
    requires Enabled(c, a) && a.TakeStart? && p.TellRunner? && PieceOk(c.s, p)
    ensures Enabled(After(c, p), a)
    ensures Next(cfg, After(c, p), a) == After(Moved(cfg, c, a), p)
  {
    if a.j == p.j { PopPush(c.s.targets[p.j].output, StartMsg(c.s.sources[p.i].runInfo)); }
    assert Next(cfg, After(c, p), a).s.targets == After(Moved(cfg, c, a), p).s.targets;
  }

  lemma TellCommutesWithReply(cfg: Settings, c: Config, a: Action, p: Piece)
    requires Enabled(c, a) && (a.Announce? || a.Answer?) && p.TellRunner? && PieceOk(c.s, p)
    ensures Enabled(After(c, p), a)
    ensures Next(cfg, After(c, p), a) == After(Moved(cfg, c, a), p)
  {
    assert Next(cfg, After(c, p), a).s.targets == After(Moved(cfg, c, a), p).s.targets;
  }

  lemma TellCommutes(cfg: Settings, c: Config, a: Action, p: Piece)
    requires Enabled(c, a) && !a.BrokerStep? && p.TellRunner? && PieceOk(c.s, p)
    ensures Enabled(After(c, p), a)
    ensures Next(cfg, After(c, p), a) == After(Moved(cfg, c, a), p)
  {
    if Reads(a) && a.i == p.i { TellCommutesWithOwnRead(cfg, c, a, p); }
    if Reads(a) && a.i != p.i { TellCommutesWithRead(cfg, c, a, p); }
    if Writes(a) || a.GetSlot? { TellCommutesWithWrite(cfg, c, a, p); }
    if a.TakeStart? { TellCommutesWithTake(cfg, c, a, p); }
    if a.Announce? || a.Answer? { TellCommutesWithReply(cfg, c, a, p); }
  }

  /** What the piece tests is not what clients and runners change. */
  lemma TestsStay(cfg: Settings, c: Config, a: Action, p: Piece)
    requires Enabled(c, a) && !a.BrokerStep? && PieceOk(c.s, p)
    ensures SendsReply(Moved(cfg, c, a).s, p) == SendsReply(c.s, p)
  {
    OthersKeepFields(cfg, c, a);
  }

  /** A move of a client or a runner and a piece that comes after it can change places. */
  lemma PieceCommutes(cfg: Settings, c: Config, a: Action, p: Piece)
    requires Enabled(c, a) && !a.BrokerStep? && PieceOk(c.s, p)
    ensures Enabled(After(c, p), a)
    ensures Next(cfg, After(c, p), a) == After(Moved(cfg, c, a), p)
  {
    TestsStay(cfg, c, a, p);
    if p.ClearTarget? {
      ClearCommutes(cfg, c, a, p.j);
    } else if p.TellRunner? {
      TellCommutes(cfg, c, a, p);
    } else if p.PutBack? {
      PutBackCommutes(cfg, c, a, p.i);
    } else if SendsReply(c.s, p) {
      if OfRunner(a) && p.TestTarget? { LinkCommutesWithRunner(cfg, c, a, p); }
      if OfRunner(a) && p.SendError? { ErrorCommutesWithRunner(cfg, c, a, p); }
      if Writes(a) || Reads(a) { ReplyCommutesWithClient(cfg, c, a, p); }
      if a.GetSlot? { ReplyCommutesWithGet(cfg, c, p); }
    }
  }

  function AfterAll(c: Config, pieces: seq<Piece>): Config
    requires AllOk(c.s, pieces)
  {
    c.(s := DoAll(c.s, c.now, pieces))
  }

  lemma {:induction false} PiecesCommute(cfg: Settings, c: Config, a: Action, pieces: seq<Piece>)
    requires Enabled(c, a) && !a.BrokerStep? && AllOk(c.s, pieces)
    ensures Enabled(AfterAll(c, pieces), a)
    ensures Next(cfg, AfterAll(c, pieces), a) == AfterAll(Moved(cfg, c, a), pieces)
    decreases |pieces|
  {
    if pieces == [] {
      assert AfterAll(c, pieces) == c && AfterAll(Moved(cfg, c, a), pieces) == Moved(cfg, c, a);
    } else {
      PieceCommutes(cfg, c, a, pieces[0]);
      PiecesCommute(cfg, After(c, pieces[0]), a, pieces[1..]);
    }
  }

  lemma StepFirst(cfg: Settings, c: Config, a: Action, acts: seq<Action>, d: Config)
    requires Enabled(c, a) && Steps(cfg, Next(cfg, c, a), acts, d)
    ensures Steps(cfg, c, [a] + acts, d)
  {
    OneStep(cfg, c, a);
    StepsConcat(cfg, c, [a], Next(cfg, c, a), acts, d);
  }

  /** However the moves of others fall between the pieces, it comes to the same as all pieces done first
      and the moves after them. */
  lemma {:induction false} PiecesFirst(cfg: Settings, cap: nat, c: Config, pieces: seq<Piece>, moves: seq<Option<Action>>, d: Config)
    requires AllOk(c.s, pieces) && Weaves(cfg, cap, c, pieces, moves, d)
    ensures Steps(cfg, AfterAll(c, pieces), Others(moves), d)
    decreases |moves|
  {
    if moves == [] {
      assert AfterAll(c, pieces) == d;
    } else {
      match moves[0]
      case None => PiecesFirst(cfg, cap, After(c, pieces[0]), pieces[1..], moves[1..], d);
      case Some(a) =>
        PiecesFirst(cfg, cap, Moved(cfg, c, a), pieces, moves[1..], d);
        PiecesCommute(cfg, c, a, pieces);
        StepFirst(cfg, AfterAll(c, pieces), a, Others(moves[1..]), d);
    }
  }

  // ------------------------------------------------------------------ a visit of the matching loop

  /** The rounds of the matching loop for waiter i, from target j on. */
  function Tests(i: nat, j: nat, m: nat): (pieces: seq<Piece>)
    requires j <= m
    ensures |pieces| == m - j && forall n :: 0 <= n < m - j ==> pieces[n] == TestTarget(i, j + n)
    decreases m - j
  {
    if j == m then [] else [TestTarget(i, j)] + Tests(i, j + 1, m)
  }

  lemma {:induction false} TestsMatch(s: State, i: nat, now: int, j: nat)
    requires i < |s.sources| && j <= |s.targets|
    ensures var pieces := Tests(i, j, |s.targets|);
            && AllOk(MatchUpTo(s, i, now, j), pieces)
            && DoAll(MatchUpTo(s, i, now, j), now, pieces) == MatchUpTo(s, i, now, |s.targets|)
    decreases |s.targets| - j
  {
    if j == |s.targets| {
    } else {
      TestsMatch(s, i, now, j + 1);
      assert Do(MatchUpTo(s, i, now, j), now, TestTarget(i, j)) == MatchUpTo(s, i, now, j + 1);
      assert Tests(i, j, |s.targets|)[1..] == Tests(i, j + 1, |s.targets|);
    }
  }

  lemma VisitEffect(cfg: Settings, c: Config, i: nat)
    requires Sized(c) && c.pc == AtMatch(i) && i < |c.s.sources| && c.s.sources[i].state == Wait
    ensures AllOk(c.s, Tests(i, 0, |c.s.targets|))
    ensures Next(cfg, c, SILENT) == AfterAll(c.(pc := AtMatch(i + 1)), Tests(i, 0, |c.s.targets|))
  {
    TestsMatch(c.s, i, c.now, 0);
    assert MatchUpTo(c.s, i, c.now, 0) == c.s;
  }

  /** A visit to a waiter in which clients and runners act between the tests of any two targets, and
      every send waits for room, is the step of the system followed by what they did. */
  lemma VisitIsStep(cfg: Settings, cap: nat, c: Config, i: nat, moves: seq<Option<Action>>, d: Config)
    requires Sized(c) && c.pc == AtMatch(i) && i < |c.s.sources| && c.s.sources[i].state == Wait
    requires Weaves(cfg, cap, c.(pc := AtMatch(i + 1)), Tests(i, 0, |c.s.targets|), moves, d)
    ensures Steps(cfg, c, [SILENT] + Others(moves), d)
  {
    var b, pieces := c.(pc := AtMatch(i + 1)), Tests(i, 0, |c.s.targets|);
    PiecesFirst(cfg, cap, b, pieces, moves, d);
    VisitEffect(cfg, c, i);
    StepFirst(cfg, c, SILENT, Others(moves), d);
  }

  // ------------------------------------------------------------------ a runner's error

  /** What the loop that tells of a failed start does from source k on, and what comes after it. */
  function Tells(s: State, j: nat, t: string, text: string, k: nat): (pieces: seq<Piece>)
    requires j < |s.targets| && k <= |s.sources|
    ensures AllOk(s, pieces)
    decreases |s.sources| - k
  {
    if k == |s.sources| then [ClearTarget(j)]
    else (if WaitsFor(s.sources[k], t) then SentBack(k, text) else []) + Tells(s, j, t, text, k + 1)
  }

  function SentBack(i: nat, text: string): seq<Piece> {
    [PutBack(i), SendError(i, text)]
  }

  lemma {:induction false} TellsOk(s: State, r: State, j: nat, t: string, text: string, k: nat)
    requires j < |s.targets| == |r.targets| && k <= |s.sources| == |r.sources|
    ensures AllOk(r, Tells(s, j, t, text, k))
    decreases |s.sources| - k
  {
    if k == |s.sources| {
    } else {
      TellsOk(s, r, j, t, text, k + 1);
    }
  }

  lemma DoSentBack(s: State, now: int, i: nat, text: string, rest: seq<Piece>)
    requires i < |s.sources| && AllOk(Fail(s, i, text), rest) && AllOk(s, SentBack(i, text) + rest)
    ensures DoAll(s, now, SentBack(i, text) + rest) == DoAll(Fail(s, i, text), now, rest)
  {
    var first, second := PutBack(i), SendError(i, text);
    assert (SentBack(i, text) + rest)[1..] == [second] + rest;
    assert ([second] + rest)[1..] == rest;
    assert Do(Do(s, now, first), now, second) == Fail(s, i, text);
  }

  lemma TellOne(s: State, f: State, j: nat, t: string, text: string, now: int, k: nat)
    requires j < |s.targets| && k < |s.sources| && f == FailWaiters(s, t, text, k)
    ensures var next := FailWaiters(s, t, text, k + 1);
            && AllOk(f, Tells(s, j, t, text, k)) && AllOk(next, Tells(s, j, t, text, k + 1))
            && DoAll(f, now, Tells(s, j, t, text, k)) == DoAll(next, now, Tells(s, j, t, text, k + 1))
  {
    var rest := Tells(s, j, t, text, k + 1);
    TellsOk(s, f, j, t, text, k);
    TellsOk(s, FailWaiters(s, t, text, k + 1), j, t, text, k + 1);
    FailWaitersEffect(s, t, text, k);
    if WaitsFor(s.sources[k], t) {
      DoSentBack(f, now, k, text, rest);
    } else {
      assert [] + rest == rest;
    }
  }

  /** From source k on, given what the first k came to. */
  lemma {:induction false} TellsFail(s: State, f: State, j: nat, t: string, text: string, now: int, k: nat)
    requires j < |s.targets| && k <= |s.sources| && f == FailWaiters(s, t, text, k)
    ensures AllOk(f, Tells(s, j, t, text, k))
    ensures DoAll(f, now, Tells(s, j, t, text, k)) == Do(FailWaiters(s, t, text, |s.sources|), now, ClearTarget(j))
    decreases |s.sources| - k
  {
    if k == |s.sources| {
      DoLast(f, now, ClearTarget(j));
    } else {
      TellOne(s, f, j, t, text, now, k);
      TellsFail(s, FailWaiters(s, t, text, k + 1), j, t, text, now, k + 1);
    }
  }

  lemma DoLast(s: State, now: int, p: Piece)
    requires PieceOk(s, p)
    ensures AllOk(s, [p]) && DoAll(s, now, [p]) == Do(s, now, p)
  {
    assert [p][1..] == [];
  }

  lemma ErrorEffect(cfg: Settings, c: Config, j: nat, rest: Slot, text: string)
    requires Sized(c) && c.pc == AtTargets(j) && j < |c.s.targets|
    requires c.s.targets[j].input != [] && c.s.targets[j].input[0] == ErrorMsg(text)
    requires rest == c.s.targets[j].(input := c.s.targets[j].input[1..])
    ensures var b, pieces := c.(s := WithTarget(c.s, j, rest), pc := AtTargets(j + 1)), Tells(WithTarget(c.s, j, rest), j, rest.slotType, text, 0);
            AllOk(b.s, pieces) && Next(cfg, c, SILENT) == AfterAll(b, pieces)
  {
    var p := WithTarget(c.s, j, rest);
    assert FailWaiters(p, rest.slotType, text, 0) == p;
    TellsFail(p, p, j, rest.slotType, text, c.now, 0);
    ErrorRead(c.s, j, c.now, rest, text);
  }

  lemma ErrorRead(s: State, j: nat, now: int, rest: Slot, text: string)
    requires j < |s.targets| && s.targets[j].input != [] && s.targets[j].input[0] == ErrorMsg(text)
    requires rest == s.targets[j].(input := s.targets[j].input[1..])
    ensures ReadTarget(s, j, now) == Do(FailWaiters(WithTarget(s, j, rest), rest.slotType, text, |s.sources|), now, ClearTarget(j))
  {
  }

  /** The same for the step that reads a runner's error. */
  lemma ErrorIsStep(cfg: Settings, cap: nat, c: Config, j: nat, rest: Slot, moves: seq<Option<Action>>, d: Config)
    requires Sized(c) && c.pc == AtTargets(j) && j < |c.s.targets|
    requires c.s.targets[j].input != [] && c.s.targets[j].input[0].ErrorMsg?
    requires rest == c.s.targets[j].(input := c.s.targets[j].input[1..])
    requires Weaves(cfg, cap, c.(s := WithTarget(c.s, j, rest), pc := AtTargets(j + 1)),
                    Tells(WithTarget(c.s, j, rest), j, rest.slotType, c.s.targets[j].input[0].text, 0), moves, d)
    ensures Steps(cfg, c, [SILENT] + Others(moves), d)
  {
    var text := c.s.targets[j].input[0].text;
    var b := c.(s := WithTarget(c.s, j, rest), pc := AtTargets(j + 1));
    var pieces := Tells(b.s, j, rest.slotType, text, 0);
    PiecesFirst(cfg, cap, b, pieces, moves, d);
    ErrorEffect(cfg, c, j, rest, text);
    StepFirst(cfg, c, SILENT, Others(moves), d);
  }

  // ------------------------------------------------------------------ a start

  /** A start: the runner is told, and for port 3 the client is sent back. */
  function Starts(s: State, j: nat, i: nat, backLink: bool): (pieces: seq<Piece>)
    requires i < |s.sources| && j < |s.targets|
    ensures AllOk(s, pieces)
  {
    [TellRunner(i, j, backLink)] + if OnPort3(s.sources[i]) then SentBack(i, CLOSING_TEXT) else []
  }

  lemma StartsAre(s: State, j: nat, i: nat, backLink: bool, now: int)
    requires i < |s.sources| && j < |s.targets|
    ensures DoAll(s, now, Starts(s, j, i, backLink)) == StartTarget(s, j, i, backLink, now)
  {
    var told := TellToStart(s, j, i, backLink, now);
    if OnPort3(s.sources[i]) {
      var back := SentBack(i, CLOSING_TEXT);
      assert back + [] == back;
      assert DoAll(Fail(told, i, CLOSING_TEXT), now, []) == Fail(told, i, CLOSING_TEXT);
      DoSentBack(told, now, i, CLOSING_TEXT, []);
      assert Starts(s, j, i, backLink)[1..] == back;
    } else {
      assert Starts(s, j, i, backLink) == [TellRunner(i, j, backLink)];
      DoLast(s, now, TellRunner(i, j, backLink));
    }
  }

  /** The same for a round of the first start loop. */
  lemma NewStartIsStep(cfg: Settings, cap: nat, c: Config, pick: string, j: nat, i: nat, moves: seq<Option<Action>>, d: Config)
    requires Sized(c) && c.pc == AtStartNew && CanStartNew(c.s) && MostRequested(c.s, pick)
    requires OldestFree(c.s, |c.s.targets|) == Some(j) && i == StartSource(c.s, pick)
    requires Weaves(cfg, cap, c, Starts(c.s, j, i, true), moves, d)
    ensures Steps(cfg, c, [BrokerStep(pick, 0)] + Others(moves), d)
  {
    PiecesFirst(cfg, cap, c, Starts(c.s, j, i, true), moves, d);
    StartsAre(c.s, j, i, true, c.now);
    StepFirst(cfg, c, BrokerStep(pick, 0), Others(moves), d);
  }

  /** The same for a round of the second start loop. */
  lemma CopyIsStep(cfg: Settings, cap: nat, c: Config, j: nat, i: nat, moves: seq<Option<Action>>, d: Config)
    requires Sized(c) && c.pc == AtStartCopies && CanStartCopy(c.s, c.now, cfg)
    requires OldestRunner(c.s, c.now, |c.s.targets|) == Some(j) && OldestWaiter(c.s, c.now, |c.s.sources|) == Some(i)
    requires Weaves(cfg, cap, c, Starts(c.s, j, i, false), moves, d)
    ensures Steps(cfg, c, [SILENT] + Others(moves), d)
  {
    PiecesFirst(cfg, cap, c, Starts(c.s, j, i, false), moves, d);
    StartsAre(c.s, j, i, false, c.now);
    StepFirst(cfg, c, SILENT, Others(moves), d);
  }
}
