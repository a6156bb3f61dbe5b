/** The read loop of one connection: handshake, then dispatch. */
module Handshake {
  import opened Wire
  import opened Links

  datatype ConnState = Created | Established | Up

  datatype Reaction = Advance(to: ConnState) | Echo | Spawn | Route | Reject

  /** What the read loop does with a message of type `ty`. */
  function React(conn: ConnState, ty: MsgType): Reaction {
    match (conn, ty)
    case (Created, Registered) => Advance(Established)
    case (Established, Ready) => Advance(Up)
    case (_, Keepalive) => Echo
    case (Up, Init) => Spawn
    case (Up, Transaction) => Spawn
    case (Up, Response) => Route
    case (Up, Error) => Route
    case _ => Reject
  }

  function After(conn: ConnState, ty: MsgType): ConnState {
    match React(conn, ty)
    case Advance(to) => to
    case _ => conn
  }

  // ---- the accepted language, stated without the machine ----

  ghost predicate Keepalives(ts: seq<MsgType>) {
    forall i :: 0 <= i < |ts| ==> ts[i] == MsgType.Keepalive
  }

  ghost predicate Traffic(ts: seq<MsgType>) {
    forall i :: 0 <= i < |ts| ==>
      ts[i] in {MsgType.Keepalive, MsgType.Init, MsgType.Transaction, MsgType.Response, MsgType.Error}
  }

  /** Position `i` holds the handshake message `mark` after nothing but keepalives. */
  ghost predicate Marks(ts: seq<MsgType>, i: nat, mark: MsgType) {
    i < |ts| && ts[i] == mark && Keepalives(ts[..i])
  }

  /** From the established state on: keepalives, then READY, then traffic. */
  ghost predicate LegalTail(ts: seq<MsgType>) {
    || Keepalives(ts)
    || exists j: nat :: Marks(ts, j, Ready) && Traffic(ts[j + 1..])
  }

  /** Prefixes of  K* REGISTERED K* READY (K | INIT | TRANSACTION | RESPONSE | ERROR)*. */
  ghost predicate Legal(ts: seq<MsgType>) {
    || Keepalives(ts)
    || exists i: nat :: Marks(ts, i, Registered) && LegalTail(ts[i + 1..])
  }

  ghost predicate LegalFrom(conn: ConnState, ts: seq<MsgType>) {
    match conn
    case Created => Legal(ts)
    case Established => LegalTail(ts)
    case Up => Traffic(ts)
  }

  function Types(ms: seq<InMsg>): (ts: seq<MsgType>)
    ensures |ts| == |ms| && forall i :: 0 <= i < |ms| ==> ts[i] == ms[i].ty
  {
    seq(|ms|, i requires 0 <= i < |ms| => ms[i].ty)
  }

  // ---- the machine ----

  /** Outcome of feeding messages to the loop: the state reached, how many messages were
      read, what the loop itself sent, what it spawned, which transactions it woke, and
      whether it gave up. */
  datatype Driven =
    Driven(conn: ConnState, taken: nat, sends: seq<OutMsg>, spawned: seq<InMsg>, routed: set<TxKey>, rejected: bool)

  /** What the loop sends and spawns on reading `m`. */
  function Sends(conn: ConnState, m: InMsg): seq<OutMsg> {
    match React(conn, m.ty)
    case Echo => [OutEcho(m.key)]
    case Reject => [OutReject(m.key)]
    case _ => []
  }

  function Spawns(conn: ConnState, m: InMsg): seq<InMsg> {
    if React(conn, m.ty).Spawn? then [m] else []
  }

  /** The transaction whose waiter `m` takes out of the pending map. */
  function Routes(conn: ConnState, m: InMsg): set<TxKey> {
    if React(conn, m.ty).Route? then {m.key} else {}
  }

  function Drive(conn: ConnState, ms: seq<InMsg>): (d: Driven)
    ensures d.taken <= |ms| && (d.rejected ==> d.taken > 0)
    decreases |ms|
  {
    if ms == [] then Driven(conn, 0, [], [], {}, false)
    else if React(conn, ms[0].ty).Reject? then Driven(conn, 1, Sends(conn, ms[0]), [], {}, true)
    else Prepend(conn, ms[0], Drive(After(conn, ms[0].ty), ms[1..]))
  }

  /** The loop's result when it read `m` before everything `d` describes. */
  function Prepend(conn: ConnState, m: InMsg, d: Driven): Driven {
    Driven(d.conn, d.taken + 1, Sends(conn, m) + d.sends, Spawns(conn, m) + d.spawned,
           Routes(conn, m) + d.routed, d.rejected)
  }

  lemma MarksStep(ts: seq<MsgType>, i: nat, mark: MsgType)
    requires ts != [] && mark != MsgType.Keepalive
    ensures Marks(ts, 0, mark) <==> ts[0] == mark
    ensures Marks(ts, i + 1, mark) <==> ts[0] == MsgType.Keepalive && Marks(ts[1..], i, mark)
    ensures i + 1 <= |ts| ==> ts[i + 1..] == ts[1..][i..]
  {
    if i + 1 < |ts| {
      assert ts[..i + 1] == [ts[0]] + ts[1..][..i];
      assert Keepalives(ts[..i + 1]) ==> ts[..i + 1][0] == MsgType.Keepalive;
      assert Keepalives(ts[..i + 1]) ==>
        forall n :: 0 <= n < i ==> ts[1..][..i][n] == ts[..i + 1][n + 1];
    }
  }

  lemma KeepalivesStep(ts: seq<MsgType>)
    requires ts != []
    ensures Keepalives(ts) <==> ts[0] == MsgType.Keepalive && Keepalives(ts[1..])
  {
    assert Keepalives(ts) ==> forall i :: 0 <= i < |ts| - 1 ==> ts[1..][i] == ts[i + 1];
    assert ts == [ts[0]] + ts[1..];
  }

  lemma TrafficStep(ts: seq<MsgType>)
    requires ts != []
    ensures Traffic(ts) <==> Traffic(ts[..1]) && Traffic(ts[1..])
  {
    assert ts == ts[..1] + ts[1..];
  }

  lemma TailStep(ts: seq<MsgType>)
    requires ts != []
    ensures LegalTail(ts) <==> if ts[0] == Ready then Traffic(ts[1..])
                               else ts[0] == MsgType.Keepalive && LegalTail(ts[1..])
  {
    KeepalivesStep(ts);
    MarksStep(ts, 0, Ready);
    if ts[0] == Ready && Traffic(ts[1..]) {
      assert Marks(ts, 0, Ready) && Traffic(ts[0 + 1..]);
    }
    if LegalTail(ts) && !Keepalives(ts) {
      var j: nat :| Marks(ts, j, Ready) && Traffic(ts[j + 1..]);
      if j > 0 { MarksStep(ts, j - 1, Ready); }
    }
    if ts[0] == MsgType.Keepalive && LegalTail(ts[1..]) && !Keepalives(ts[1..]) {
      var j: nat :| Marks(ts[1..], j, Ready) && Traffic(ts[1..][j + 1..]);
      MarksStep(ts, j, Ready);
      MarksStep(ts, j + 1, Ready);
      assert Marks(ts, j + 1, Ready) && Traffic(ts[(j + 1) + 1..]);
    }
  }

  lemma HeadStep(ts: seq<MsgType>)
    requires ts != []
    ensures Legal(ts) <==> if ts[0] == Registered then LegalTail(ts[1..])
                           else ts[0] == MsgType.Keepalive && Legal(ts[1..])
  {
    KeepalivesStep(ts);
    MarksStep(ts, 0, Registered);
    if ts[0] == Registered && LegalTail(ts[1..]) {
      assert Marks(ts, 0, Registered) && LegalTail(ts[0 + 1..]);
    }
    if Legal(ts) && !Keepalives(ts) {
      var j: nat :| Marks(ts, j, Registered) && LegalTail(ts[j + 1..]);
      if j > 0 { MarksStep(ts, j - 1, Registered); }
    }
    if ts[0] == MsgType.Keepalive && Legal(ts[1..]) && !Keepalives(ts[1..]) {
      var j: nat :| Marks(ts[1..], j, Registered) && LegalTail(ts[1..][j + 1..]);
      MarksStep(ts, j, Registered);
      MarksStep(ts, j + 1, Registered);
      assert Marks(ts, j + 1, Registered) && LegalTail(ts[(j + 1) + 1..]);
    }
  }

  /** One message of the language, for each state. */
  lemma LegalStep(conn: ConnState, ts: seq<MsgType>)
    requires ts != []
    ensures LegalFrom(conn, ts)
       <==> !React(conn, ts[0]).Reject? && LegalFrom(After(conn, ts[0]), ts[1..])
  {
    match conn
    case Created => HeadStep(ts);
    case Established => TailStep(ts);
    case Up => TrafficStep(ts);
  }

  /** The loop gives up exactly on the first message outside the language: it never
      rejects a legal run, and when it rejects, the messages before the last one it read
      form a legal run while adding that last one does not. */
  lemma {:induction false} DriveAcceptsExactlyLegal(conn: ConnState, ms: seq<InMsg>)
    ensures var d := Drive(conn, ms);
      && (d.rejected <==> !LegalFrom(conn, Types(ms)))
      && (!d.rejected ==> d.taken == |ms|)
      && (d.rejected ==> d.taken > 0 && LegalFrom(conn, Types(ms[..d.taken - 1]))
                         && !LegalFrom(conn, Types(ms[..d.taken])))
    decreases |ms|
  {
    if ms == [] {
      assert LegalFrom(conn, []);
    } else {
      var ts, rest := Types(ms), ms[1..];
      assert ts[1..] == Types(rest);
      LegalStep(conn, ts);
      if React(conn, ms[0].ty).Reject? {
        assert ms[..0] == [] && LegalFrom(conn, Types([]));
        LegalStep(conn, Types(ms[..1]));
      } else {
        var conn' := After(conn, ms[0].ty);
        DriveAcceptsExactlyLegal(conn', rest);
        var d := Drive(conn', rest);
        if d.rejected {
          forall n | 0 <= n <= |rest|
            ensures LegalFrom(conn, Types(ms[..n + 1])) <==> LegalFrom(conn', Types(rest[..n]))
          {
            LegalStep(conn, Types(ms[..n + 1]));
            assert Types(ms[..n + 1])[1..] == Types(rest[..n]);
          }
          assert Drive(conn, ms).taken == d.taken + 1;
          assert d.taken - 1 + 1 == d.taken;
        }
      }
    }
  }

  /** The messages the loop accepted. */
  function Accepted(conn: ConnState, ms: seq<InMsg>): seq<InMsg> {
    var d := Drive(conn, ms);
    ms[..if d.rejected then d.taken - 1 else d.taken]
  }

  lemma AcceptedStep(conn: ConnState, ms: seq<InMsg>)
    requires ms != [] && !React(conn, ms[0].ty).Reject?
    ensures Accepted(conn, ms) == [ms[0]] + Accepted(After(conn, ms[0].ty), ms[1..])
  {
  }

  function Verdict(d: Driven, ms: seq<InMsg>): seq<OutMsg>
    requires d.taken <= |ms| && (d.rejected ==> d.taken > 0)
  {
    if d.rejected then [OutReject(ms[d.taken - 1].key)] else []
  }

  /** What the loop sends is one echo per keepalive accepted, in order, and at most one
      ERROR, which comes last and exactly when the loop gives up; it never registers again. */
  lemma {:induction false} DriveSends(conn: ConnState, ms: seq<InMsg>)
    ensures Drive(conn, ms).sends == Echoes(Accepted(conn, ms)) + Verdict(Drive(conn, ms), ms)
    decreases |ms|
  {
    if ms == [] {
    } else if React(conn, ms[0].ty).Reject? {
      assert Accepted(conn, ms) == [];
    } else {
      var conn' := After(conn, ms[0].ty);
      var d, d' := Drive(conn, ms), Drive(conn', ms[1..]);
      DriveSends(conn', ms[1..]);
      AcceptedStep(conn, ms);
      EchoesStep(conn, ms[0], Accepted(conn', ms[1..]));
      assert Verdict(d, ms) == Verdict(d', ms[1..]);
      Regroup(Sends(conn, ms[0]), Echoes(Accepted(conn', ms[1..])), Verdict(d', ms[1..]));
    }
  }

  lemma Regroup<T>(a: seq<T>, b: seq<T>, c: seq<T>)
    ensures a + (b + c) == (a + b) + c
  {
  }

  /** Tasks are started for the accepted INIT and TRANSACTION messages, all of them and in
      order, and exactly the keys of accepted replies are woken. */
  lemma {:induction false} DriveSpawnsAndRoutes(conn: ConnState, ms: seq<InMsg>)
    ensures Drive(conn, ms).spawned == Starts(Accepted(conn, ms))
    ensures Drive(conn, ms).routed == RepliedKeys(Accepted(conn, ms))
    decreases |ms|
  {
    if ms == [] {
    } else if React(conn, ms[0].ty).Reject? {
      assert Accepted(conn, ms) == [];
    } else {
      var conn' := After(conn, ms[0].ty);
      DriveSpawnsAndRoutes(conn', ms[1..]);
      AcceptedStep(conn, ms);
      StartsStep(conn, ms[0], Accepted(conn', ms[1..]));
    }
  }

  lemma StartsStep(conn: ConnState, m: InMsg, rest: seq<InMsg>)
    requires !React(conn, m.ty).Reject?
    ensures Starts([m] + rest) == Spawns(conn, m) + Starts(rest)
    ensures RepliedKeys([m] + rest) == Routes(conn, m) + RepliedKeys(rest)
  {
    assert ([m] + rest)[1..] == rest;
    assert forall x :: x in [m] + rest <==> x == m || x in rest;
  }

  function Starts(ms: seq<InMsg>): seq<InMsg> {
    if ms == [] then []
    else (if ms[0].ty == Init || ms[0].ty == MsgType.Transaction then [ms[0]] else []) + Starts(ms[1..])
  }

  function RepliedKeys(ms: seq<InMsg>): set<TxKey> {
    set m | m in ms && (m.ty == MsgType.Response || m.ty == MsgType.Error) :: m.key
  }

  lemma EchoesStep(conn: ConnState, m: InMsg, rest: seq<InMsg>)
    requires !React(conn, m.ty).Reject?
    ensures Echoes([m] + rest) == Sends(conn, m) + Echoes(rest)
  {
    assert ([m] + rest)[1..] == rest;
  }

  function Echoes(ms: seq<InMsg>): (out: seq<OutMsg>)
    ensures forall m :: m in out ==> m.OutEcho?
  {
    if ms == [] then []
    else (if ms[0].ty == MsgType.Keepalive then [OutEcho(ms[0].key)] else []) + Echoes(ms[1..])
  }

  /** Reading more messages never takes the state back. */
  function Rank(conn: ConnState): nat {
    match conn case Created => 0 case Established => 1 case Up => 2
  }

  lemma {:induction false} StateOnlyAdvances(conn: ConnState, ms: seq<InMsg>)
    ensures Rank(conn) <= Rank(Drive(conn, ms).conn)
    ensures Drive(conn, ms).spawned != [] ==> Drive(conn, ms).conn == Up
    decreases |ms|
  {
    if ms != [] && !React(conn, ms[0].ty).Reject? {
      StateOnlyAdvances(After(conn, ms[0].ty), ms[1..]);
    }
  }

  /** The loop's result after one more message. */
  function Extend(d: Driven, m: InMsg): Driven {
    Driven(After(d.conn, m.ty), d.taken + 1, d.sends + Sends(d.conn, m),
           d.spawned + Spawns(d.conn, m), d.routed + Routes(d.conn, m), React(d.conn, m.ty).Reject?)
  }

  lemma PrependThenExtend(conn: ConnState, m: InMsg, d: Driven, last: InMsg)
    ensures Extend(Prepend(conn, m, d), last) == Prepend(conn, m, Extend(d, last))
  {
    assert (Sends(conn, m) + d.sends) + Sends(d.conn, last) == Sends(conn, m) + (d.sends + Sends(d.conn, last));
    assert (Spawns(conn, m) + d.spawned) + Spawns(d.conn, last)
        == Spawns(conn, m) + (d.spawned + Spawns(d.conn, last));
    assert (Routes(conn, m) + d.routed) + Routes(d.conn, last) == Routes(conn, m) + (d.routed + Routes(d.conn, last));
  }

  lemma DriveOne(conn: ConnState, m: InMsg)
    ensures Drive(conn, [m]) == Extend(Drive(conn, []), m)
  {
    assert [m][1..] == [];
  }

  lemma {:induction false} DriveSnoc(conn: ConnState, ms: seq<InMsg>, m: InMsg)
    requires !Drive(conn, ms).rejected
    ensures Drive(conn, ms).taken == |ms|
    ensures Drive(conn, ms + [m]) == Extend(Drive(conn, ms), m)
    decreases |ms|
  {
    if ms == [] {
      assert ms + [m] == [m];
      DriveOne(conn, m);
    } else {
      var conn' := After(conn, ms[0].ty);
      DriveSnoc(conn', ms[1..], m);
      assert (ms + [m])[0] == ms[0] && (ms + [m])[1..] == ms[1..] + [m];
      PrependThenExtend(conn, ms[0], Drive(conn', ms[1..]), m);
    }
  }

  /** What one turn of the loop does to the link. Whether the queue is still there makes no
      difference to the loop: a failed send is ignored. */
  ghost predicate Turn(l: Link, l': Link, conn: ConnState, m: InMsg) {
    match React(conn, m.ty)
    case Echo => SentAfterWait(l, l', OutEcho(m.key))
    case Reject => SentAfterWait(l, l', OutReject(m.key))
    case Route => l' == Drop(l, m.key)
    case _ => l' == l
  }

  /** One turn of the loop. */
  method ReadOne(link: PeerLink, d: Driven, m: InMsg) returns (d': Driven)
    requires link.Valid()
    modifies link
    ensures link.Valid() && d' == Extend(d, m)
    ensures Turn(old(link.View()), link.View(), d.conn, m)
    ensures link.sent == old(link.sent) + (if link.closed then [] else Sends(d.conn, m))
    ensures link.pending == old(link.pending) - Routes(d.conn, m) && link.closed == old(link.closed)
  {
    d' := d.(taken := d.taken + 1, rejected := false);
    match React(d.conn, m.ty)
    case Advance(to) =>
      d' := d'.(conn := to);
    case Echo =>
      var _ := link.SendAwaited(OutEcho(m.key));
      d' := d'.(sends := d.sends + [OutEcho(m.key)]);
    case Spawn =>
      d' := d'.(spawned := d.spawned + [m]);
    case Route =>
      var _ := link.RouteResponse(m.key);
      d' := d'.(routed := d.routed + {m.key});
    case Reject =>
      var _ := link.SendAwaited(OutReject(m.key));
      d' := d'.(sends := d.sends + [OutReject(m.key)], rejected := true);
  }

  lemma OneMore(conn: ConnState, ms: seq<InMsg>, n: nat)
    requires n < |ms| && !Drive(conn, ms[..n]).rejected
    ensures Drive(conn, ms[..n + 1]) == Extend(Drive(conn, ms[..n]), ms[n])
  {
    DriveSnoc(conn, ms[..n], ms[n]);
    assert ms[..n] + [ms[n]] == ms[..n + 1];
  }

  /** The loop's state after reading the first `n` messages. */
  function Upto(ms: seq<InMsg>, n: nat): Driven {
    Drive(Created, ms[..if n < |ms| then n else |ms|])
  }

  /** What it got to send by then when the peer stops listening after `heard` messages. */
  function Heard(ms: seq<InMsg>, n: nat, heard: nat): seq<OutMsg> {
    Upto(ms, if n < heard then n else heard).sends
  }

  lemma HeardMore(ms: seq<InMsg>, n: nat, heard: nat)
    requires n < |ms| && !Upto(ms, n).rejected
    ensures Upto(ms, n + 1) == Extend(Upto(ms, n), ms[n])
    ensures Heard(ms, n + 1, heard) == Heard(ms, n, heard) + if n < heard then Sends(Upto(ms, n).conn, ms[n]) else []
  {
    OneMore(Created, ms, n);
  }

  lemma BooksOneMore(before: map<TxKey, nat>, d: Driven, m: InMsg, registered: seq<OutMsg>, a: seq<OutMsg>,
                     b: seq<OutMsg>)
    ensures before - d.routed - Routes(d.conn, m) == before - Extend(d, m).routed
    ensures registered + a + b == registered + (a + b)
  {
  }

  /** After a rejection the rest does not matter. */
  lemma HeardAll(ms: seq<InMsg>, n: nat, heard: nat)
    requires n <= |ms| && (n == |ms| || Upto(ms, n).rejected)
    ensures Upto(ms, n) == Drive(Created, ms)
    ensures Heard(ms, n, heard) == Heard(ms, |ms|, heard)
  {
    if n == |ms| {
      assert ms[..n] == ms;
    } else {
      DrivePrefix(Created, ms, n);
      if n < heard {
        var h := if heard < |ms| then heard else |ms|;
        assert ms[..h][..n] == ms[..n];
        DrivePrefix(Created, ms[..h], n);
      }
    }
  }

  /** The loop itself, over the messages that arrive before the stream ends; the peer stops
      listening after `heard` of them, if ever. Replies take the waiters of their
      transactions out of the pending map and nothing else touches it. */
  method RunConnection(link: PeerLink, inbound: seq<InMsg>, heard: nat) returns (d: Driven)
    requires link.Valid()
    modifies link
    ensures link.Valid()
    ensures old(link.closed) ==> d == Driven(Created, 0, [], [], {}, false) && link.sent == old(link.sent)
    ensures !old(link.closed) ==>
      d == Drive(Created, inbound) && link.sent == old(link.sent) + [OutRegister] + Heard(inbound, |inbound|, heard)
    ensures link.pending == old(link.pending) - d.routed
  {
    d := Driven(Created, 0, [], [], {}, false);
    var ok := link.SendAwaited(OutRegister);
    if !ok {
      return;
    }
    ghost var registered := link.sent;
    while d.taken < |inbound| && !d.rejected
      invariant link.Valid() && d.taken <= |inbound|
      invariant link.closed <==> heard < d.taken
      invariant d == Upto(inbound, d.taken)
      invariant link.sent == registered + Heard(inbound, d.taken, heard)
      invariant link.pending == old(link.pending) - d.routed
      decreases |inbound| - d.taken
    {
      if d.taken == heard {
        link.Close();
      }
      HeardMore(inbound, d.taken, heard);
      BooksOneMore(old(link.pending), d, inbound[d.taken], registered, Heard(inbound, d.taken, heard),
                   Sends(d.conn, inbound[d.taken]));
      d := ReadOne(link, d, inbound[d.taken]);
    }
    HeardAll(inbound, d.taken, heard);
  }

  /** Messages after a rejected one are never looked at. */
  lemma {:induction false} DrivePrefix(conn: ConnState, ms: seq<InMsg>, n: nat)
    requires n <= |ms| && Drive(conn, ms[..n]).rejected
    ensures Drive(conn, ms) == Drive(conn, ms[..n])
    decreases |ms|
  {
    assert n > 0 && ms[..n][0] == ms[0] && ms[..n][1..] == ms[1..][..n - 1];
    if !React(conn, ms[0].ty).Reject? {
      DrivePrefix(After(conn, ms[0].ty), ms[1..], n - 1);
    }
  }
}
