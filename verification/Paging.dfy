/** Paged query iterators: a batch buffer on the shim's side of a scan the peer serves in
    pieces of its own choosing. */
module Paging {
  import opened Wire
  import opened Utf8
  import opened CompositeKeys

  datatype Kv = Kv(key: string, value: Bytes)
  datatype QueryResponse = QueryResponse(results: seq<Bytes>, hasMore: bool)

  /** Requests of one query as the peer sees them. */
  datatype QueryCall = RangeCall(from: string, to: string) | NextCall | CloseCall

  /** The peer's end of one query: its answers to the range request and the NEXT requests to
      come, its answer to CLOSE, and the requests it has received. */
  datatype Cursor = Cursor(script: seq<Result<QueryResponse>>, onClose: Result<()>, log: seq<QueryCall>)

  class PeerCursor {
    var script: seq<Result<QueryResponse>>
    var onClose: Result<()>
    var log: seq<QueryCall>

    constructor (script: seq<Result<QueryResponse>>, onClose: Result<()>)
      ensures View() == Cursor(script, onClose, [])
    {
      this.script, this.onClose, log := script, onClose, [];
    }

    function View(): Cursor
      reads this
    {
      Cursor(script, onClose, log)
    }

    method Fetch(call: QueryCall) returns (r: Result<QueryResponse>)
      modifies this
      ensures r == Answer(old(View())) && View() == Asked(old(View()), call)
    {
      log := log + [call];
      if script == [] {
        r := Err(PeerError([]));
      } else {
        r := script[0];
        script := script[1..];
      }
    }

    method Close() returns (r: Result<()>)
      modifies this
      ensures r == onClose && View() == old(View()).(log := old(log) + [CloseCall])
    {
      log := log + [CloseCall];
      r := onClose;
    }
  }

  function Answer(p: Cursor): Result<QueryResponse> {
    if p.script == [] then Err(PeerError([])) else p.script[0]
  }

  function Asked(p: Cursor, call: QueryCall): Cursor {
    p.(log := p.log + [call], script := if p.script == [] then [] else p.script[1..])
  }

  function AfterNext(p: Cursor): Cursor {
    Asked(p, NextCall)
  }

  /** The shim's end. */
  datatype Iter = Iter(batch: seq<Bytes>, hasMore: bool, closed: bool)

  datatype Stepped<T> = Stepped(result: Result<T>, it: Iter, peer: Cursor)

  /** Everything that could still be handed out, counted with one extra per fetch. */
  function Supply(rs: seq<Result<QueryResponse>>): nat {
    if rs == [] then 0
    else 1 + (if rs[0].Ok? then |rs[0].value.results| else 0) + Supply(rs[1..])
  }

  function NextRaw(it: Iter, p: Cursor): (s: Stepped<Option<Bytes>>)
    ensures s.result.Ok? && s.result.value.Some? ==>
      |s.it.batch| + Supply(s.peer.script) < |it.batch| + Supply(p.script)
    decreases |p.script|
  {
    if it.batch != [] then Stepped(Ok(Some(it.batch[0])), it.(batch := it.batch[1..]), p)
    else if !it.hasMore || it.closed then Stepped(Ok(None), it, p)
    else
      match Answer(p)
      case Err(e) => Stepped(Err(e), it, AfterNext(p))
      case Ok(resp) => NextRaw(it.(batch := resp.results, hasMore := resp.hasMore), AfterNext(p))
  }

  function CloseRaw(it: Iter, p: Cursor): Stepped<()> {
    if it.closed then Stepped(Ok(()), it, p)
    else Stepped(p.onClose, it.(closed := true), p.(log := p.log + [CloseCall]))
  }

  function Decoded(decode: Bytes -> Option<Kv>, b: Bytes): Result<Kv> {
    match decode(b) case Some(kv) => Ok(kv) case None => Err(DecodeError)
  }

  /** Drain, then close; an error on the way leaves the iterator open. */
  function Collect(decode: Bytes -> Option<Kv>, it: Iter, p: Cursor): Stepped<seq<Kv>>
    decreases |it.batch| + Supply(p.script)
  {
    var s := NextRaw(it, p);
    match s.result
    case Err(e) => Stepped(Err(e), s.it, s.peer)
    case Ok(None) =>
      var t := CloseRaw(s.it, s.peer);
      Stepped(if t.result.Ok? then Ok([]) else Err(t.result.error), t.it, t.peer)
    case Ok(Some(b)) =>
      match Decoded(decode, b)
      case Err(e) => Stepped(Err(e), s.it, s.peer)
      case Ok(kv) =>
        var t := Collect(decode, s.it, s.peer);
        t.(result := if t.result.Ok? then Ok([kv] + t.result.value) else t.result)
  }

  class QueryIter {
    const peer: PeerCursor
    const decode: Bytes -> Option<Kv>
    var batch: seq<Bytes>
    var hasMore: bool
    var closed: bool

    constructor (peer: PeerCursor, decode: Bytes -> Option<Kv>, first: QueryResponse)
      ensures this.peer == peer && this.decode == decode
      ensures View() == Iter(first.results, first.hasMore, false)
    {
      this.peer, this.decode := peer, decode;
      batch, hasMore, closed := first.results, first.hasMore, false;
    }

    function View(): Iter
      reads this
    {
      Iter(batch, hasMore, closed)
    }

    method Next() returns (r: Result<Option<Bytes>>)
      modifies this, peer
      ensures Stepped(r, View(), peer.View()) == NextRaw(old(View()), old(peer.View()))
    {
      ghost var goal := NextRaw(View(), peer.View());
      while true
        invariant NextRaw(View(), peer.View()) == goal
        decreases |peer.script|, |batch|, if hasMore then 1 else 0
      {
        if batch != [] {
          r := Ok(Some(batch[0]));
          batch := batch[1..];
          return;
        }
        if !hasMore || closed {
          return Ok(None);
        }
        ghost var it, p := View(), peer.View();
        var reply := peer.Fetch(NextCall);
        if reply.Err? {
          return Err(reply.error);
        }
        batch := reply.value.results;
        hasMore := reply.value.hasMore;
        assert NextRaw(it, p) == NextRaw(View(), peer.View());
      }
    }

    method Close() returns (r: Result<()>)
      modifies this, peer
      ensures Stepped(r, View(), peer.View()) == CloseRaw(old(View()), old(peer.View()))
    {
      if closed {
        return Ok(());
      }
      closed := true;
      r := peer.Close();
    }

    method CollectRemaining() returns (r: Result<seq<Kv>>)
      modifies this, peer
      ensures Stepped(r, View(), peer.View()) == Collect(decode, old(View()), old(peer.View()))
    {
      var out: seq<Kv> := [];
      ghost var goal := Collect(decode, View(), peer.View());
      assert goal.result.Ok? ==> [] + goal.result.value == goal.result.value;
      while true
        invariant Rejoin(out, Collect(decode, View(), peer.View())) == goal
        decreases |batch| + Supply(peer.script)
      {
        ghost var it, p := View(), peer.View();
        var b := Next();
        if b.Err? {
          return Err(b.error);
        }
        if b.value.None? {
          var t := Close();
          assert out + [] == out;
          return if t.Ok? then Ok(out) else Err(t.error);
        }
        match Decoded(decode, b.value.value)
        case Err(e) =>
          return Err(e);
        case Ok(kv) =>
          var rest := Collect(decode, View(), peer.View());
          assert rest.result.Ok? ==> out + ([kv] + rest.result.value) == (out + [kv]) + rest.result.value;
          out := out + [kv];
      }
    }
  }

  // ---- opening a query ----

  /** A whole range query: the request, and all its records collected. */
  function QueryAll(decode: Bytes -> Option<Kv>, p: Cursor, from: string, to: string): (Result<seq<Kv>>, Cursor) {
    var asked := Asked(p, RangeCall(from, to));
    match Answer(p)
    case Err(e) => (Err(e), asked)
    case Ok(first) => var s := Collect(decode, Iter(first.results, first.hasMore, false), asked); (s.result, s.peer)
  }

  method StateByRange(peer: PeerCursor, decode: Bytes -> Option<Kv>, from: string, to: string)
    returns (r: Result<QueryIter>)
    modifies peer
    ensures peer.View() == Asked(old(peer.View()), RangeCall(from, to))
    ensures match Answer(old(peer.View()))
            case Err(e) => r == Err(e)
            case Ok(first) => r.Ok? && fresh(r.value) && r.value.peer == peer && r.value.decode == decode
                              && r.value.View() == Iter(first.results, first.hasMore, false)
  {
    var first := peer.Fetch(RangeCall(from, to));
    if first.Err? {
      return Err(first.error);
    }
    var iter := new QueryIter(peer, decode, first.value);
    r := Ok(iter);
  }

  /** A partial key that cannot be printed is refused before the peer is asked. */
  method StateByPartialCompositeKey(peer: PeerCursor, decode: Bytes -> Option<Kv>, objectType: string,
                                    attributes: seq<string>)
    returns (r: Result<QueryIter>)
    modifies peer
    ensures match PartialRange(objectType, attributes)
            case Err(e) => r == Err(e) && peer.View() == old(peer.View())
            case Ok((from, to)) =>
              && peer.View() == Asked(old(peer.View()), RangeCall(from, to))
              && match Answer(old(peer.View()))
                 case Err(e) => r == Err(e)
                 case Ok(first) => r.Ok? && fresh(r.value) && r.value.peer == peer && r.value.decode == decode
                                   && r.value.View() == Iter(first.results, first.hasMore, false)
  {
    var prefix := CreateCompositeKey(objectType, attributes);
    if prefix.Err? {
      return Err(prefix.error);
    }
    r := StateByRange(peer, decode, prefix.value, prefix.value + [MAX]);
  }

  function Rejoin(out: seq<Kv>, s: Stepped<seq<Kv>>): Stepped<seq<Kv>> {
    s.(result := if s.result.Ok? then Ok(out + s.result.value) else s.result)
  }

  // ---- paging equals direct scan ----

  function Flatten(rs: seq<QueryResponse>): seq<Bytes> {
    if rs == [] then [] else rs[0].results + Flatten(rs[1..])
  }

  function AllOk(rs: seq<QueryResponse>): seq<Result<QueryResponse>> {
    if rs == [] then [] else [Ok(rs[0])] + AllOk(rs[1..])
  }

  /** Any way to cut a scan into answers: every answer but the last announces more; empty
      answers are allowed anywhere. */
  predicate Cuts(rs: seq<QueryResponse>, items: seq<Bytes>) {
    && rs != [] && Flatten(rs) == items
    && forall i :: 0 <= i < |rs| ==> (rs[i].hasMore <==> i < |rs| - 1)
  }

  function Nexts(n: nat): seq<QueryCall> {
    if n == 0 then [] else [NextCall] + Nexts(n - 1)
  }

  lemma {:induction false} NextsSnoc(n: nat)
    ensures Nexts(n) + [NextCall] == Nexts(n + 1)
  {
    if n > 0 {
      NextsSnoc(n - 1);
      assert Nexts(n) + [NextCall] == [NextCall] + (Nexts(n - 1) + [NextCall]);
    }
  }

  /** Requests logged by a drain of `rest` further answers. */
  function DrainLog(log: seq<QueryCall>, rest: nat): seq<QueryCall> {
    log + Nexts(rest) + [CloseCall]
  }

  predicate Decodes(decode: Bytes -> Option<Kv>, encode: Kv -> Bytes, kvs: seq<Kv>) {
    forall i :: 0 <= i < |kvs| ==> decode(encode(kvs[i])) == Some(kvs[i])
  }

  function Encoded(encode: Kv -> Bytes, kvs: seq<Kv>): (bs: seq<Bytes>)
    ensures |bs| == |kvs| && forall i :: 0 <= i < |kvs| ==> bs[i] == encode(kvs[i])
  {
    seq(|kvs|, i requires 0 <= i < |kvs| => encode(kvs[i]))
  }

  lemma CutsTail(rs: seq<QueryResponse>)
    requires Cuts(rs, Flatten(rs)) && |rs| > 1
    ensures Cuts(rs[1..], Flatten(rs[1..]))
  {
    forall i | 0 <= i < |rs| - 1
      ensures rs[1..][i].hasMore <==> i < |rs| - 2
    {
      assert rs[1..][i] == rs[i + 1];
    }
  }

  lemma CollectItem(decode: Bytes -> Option<Kv>, it: Iter, p: Cursor, kv: Kv)
    requires it.batch != [] && decode(it.batch[0]) == Some(kv)
    ensures var t := Collect(decode, it.(batch := it.batch[1..]), p);
      t.result.Ok? ==> Collect(decode, it, p) == t.(result := Ok([kv] + t.result.value))
  {
  }

  lemma CollectFetch(decode: Bytes -> Option<Kv>, it: Iter, p: Cursor, resp: QueryResponse)
    requires it.batch == [] && it.hasMore && !it.closed && Answer(p) == Ok(resp)
    ensures Collect(decode, it, p) == Collect(decode, it.(batch := resp.results, hasMore := resp.hasMore), AfterNext(p))
  {
    assert NextRaw(it, p) == NextRaw(it.(batch := resp.results, hasMore := resp.hasMore), AfterNext(p));
  }

  /** Taking the first buffered record off both sides. */
  lemma ItemTail(decode: Bytes -> Option<Kv>, encode: Kv -> Bytes, kvs: seq<Kv>, batch: seq<Bytes>, later: seq<Bytes>)
    requires batch != [] && Encoded(encode, kvs) == batch + later && Decodes(decode, encode, kvs)
    ensures kvs != [] && decode(batch[0]) == Some(kvs[0]) && [kvs[0]] + kvs[1..] == kvs
    ensures Encoded(encode, kvs[1..]) == batch[1..] + later && Decodes(decode, encode, kvs[1..])
  {
    assert (batch + later)[0] == batch[0] && (batch + later)[1..] == batch[1..] + later;
    assert Encoded(encode, kvs)[1..] == Encoded(encode, kvs[1..]);
    assert forall i :: 0 <= i < |kvs| - 1 ==> kvs[1..][i] == kvs[i + 1];
  }

  /** The iterator and the peer's cursor when `batch` is what is left of answer `rs[0]`. */
  function IterAt(rs: seq<QueryResponse>, batch: seq<Bytes>): Iter
    requires rs != []
  {
    Iter(batch, rs[0].hasMore, false)
  }

  function CursorAt(rs: seq<QueryResponse>, log: seq<QueryCall>): Cursor
    requires rs != []
  {
    Cursor(AllOk(rs[1..]), Ok(()), log)
  }

  lemma {:induction false} CollectDrains(decode: Bytes -> Option<Kv>, encode: Kv -> Bytes, rs: seq<QueryResponse>,
                                         batch: seq<Bytes>, kvs: seq<Kv>, log: seq<QueryCall>)
    requires Cuts(rs, Flatten(rs)) && Decodes(decode, encode, kvs)
    requires Encoded(encode, kvs) == batch + Flatten(rs[1..])
    ensures Collect(decode, IterAt(rs, batch), CursorAt(rs, log))
         == Stepped(Ok(kvs), Iter([], false, true), Cursor([], Ok(()), DrainLog(log, |rs| - 1)))
    decreases |rs|, |batch|
  {
    if batch != [] {
      ItemTail(decode, encode, kvs, batch, Flatten(rs[1..]));
      CollectDrains(decode, encode, rs, batch[1..], kvs[1..], log);
      CollectItem(decode, IterAt(rs, batch), CursorAt(rs, log), kvs[0]);
    } else if |rs| == 1 {
      assert rs[1..] == [] && kvs == [];
      assert DrainLog(log, 0) == log + [CloseCall];
    } else {
      var tail := rs[1..];
      CutsTail(rs);
      assert [] + Flatten(tail) == tail[0].results + Flatten(tail[1..]);
      CollectDrains(decode, encode, tail, tail[0].results, kvs, log + [NextCall]);
      CollectFetch(decode, IterAt(rs, []), CursorAt(rs, log), tail[0]);
      assert AfterNext(CursorAt(rs, log)) == CursorAt(tail, log + [NextCall]);
      DrainLogShift(log, |tail| - 1);
    }
  }

  lemma DrainLogShift(log: seq<QueryCall>, n: nat)
    ensures DrainLog(log + [NextCall], n) == DrainLog(log, n + 1)
  {
    assert Nexts(n + 1) == [NextCall] + Nexts(n);
  }

  /** The records of an ordered store that a range selects, in order. */
  function Scan(store: seq<Kv>, from: string, to: string): seq<Kv> {
    if store == [] then []
    else (if InRange(store[0].key, from, to) then [store[0]] else []) + Scan(store[1..], from, to)
  }

  /** A query whose answer is cut as `rs` yields exactly the records cut, in order, after the
      range request, one NEXT per further answer, and a single CLOSE. */
  lemma CutsAreCollected(decode: Bytes -> Option<Kv>, encode: Kv -> Bytes, kvs: seq<Kv>, from: string, to: string,
                         rs: seq<QueryResponse>)
    requires Decodes(decode, encode, kvs) && Cuts(rs, Encoded(encode, kvs))
    ensures QueryAll(decode, Cursor(AllOk(rs), Ok(()), []), from, to)
         == (Ok(kvs), Cursor([], Ok(()), [RangeCall(from, to)] + Nexts(|rs| - 1) + [CloseCall]))
  {
    var log := [RangeCall(from, to)];
    assert rs[0].results + Flatten(rs[1..]) == Flatten(rs);
    CollectDrains(decode, encode, rs, rs[0].results, kvs, log);
    assert Asked(Cursor(AllOk(rs), Ok(()), []), RangeCall(from, to)) == CursorAt(rs, log) by {
      assert [] + log == log;
    }
  }

  /** For every store, range, and way to cut the answer, the query returns exactly the
      records in range, in order. Automatic induction is off: the proof is the call below. */
  lemma {:induction false} PagingEqualsScan(decode: Bytes -> Option<Kv>, encode: Kv -> Bytes, store: seq<Kv>,
                                            from: string, to: string, rs: seq<QueryResponse>)
    requires Decodes(decode, encode, Scan(store, from, to))
    requires Cuts(rs, Encoded(encode, Scan(store, from, to)))
    ensures QueryAll(decode, Cursor(AllOk(rs), Ok(()), []), from, to)
         == (Ok(Scan(store, from, to)), Cursor([], Ok(()), [RangeCall(from, to)] + Nexts(|rs| - 1) + [CloseCall]))
  {
    CutsAreCollected(decode, encode, Scan(store, from, to), from, to, rs);
  }

  // ---- answers that go wrong ----

  predicate DecodesAs(decode: Bytes -> Option<Kv>, bs: seq<Bytes>, kvs: seq<Kv>) {
    |bs| == |kvs| && forall i :: 0 <= i < |bs| ==> decode(bs[i]) == Some(kvs[i])
  }

  /** Answers that all announce more. */
  predicate Continuing(rs: seq<QueryResponse>) {
    forall i :: 0 <= i < |rs| ==> rs[i].hasMore
  }

  lemma {:induction false} RejoinTwice(a: seq<Kv>, b: seq<Kv>, s: Stepped<seq<Kv>>)
    ensures Rejoin(a, Rejoin(b, s)) == Rejoin(a + b, s)
    ensures Rejoin([], s) == s
  {
    if s.result.Ok? {
      assert a + (b + s.result.value) == a + b + s.result.value;
      assert [] + s.result.value == s.result.value;
    }
  }

  /** Records that decode come out first. */
  lemma {:induction false} CollectGood(decode: Bytes -> Option<Kv>, good: seq<Bytes>, kvs: seq<Kv>, rest: seq<Bytes>,
                                       more: bool, p: Cursor)
    requires DecodesAs(decode, good, kvs)
    ensures Collect(decode, Iter(good + rest, more, false), p)
         == Rejoin(kvs, Collect(decode, Iter(rest, more, false), p))
    decreases |good|
  {
    if good == [] {
      assert good + rest == rest;
      RejoinTwice([], [], Collect(decode, Iter(rest, more, false), p));
    } else {
      CollectGood(decode, good[1..], kvs[1..], rest, more, p);
      var b := good + rest;
      assert b[0] == good[0] && b[1..] == good[1..] + rest && [kvs[0]] + kvs[1..] == kvs;
      RejoinTwice([kvs[0]], kvs[1..], Collect(decode, Iter(rest, more, false), p));
    }
  }

  lemma {:induction false} GoodSplit(decode: Bytes -> Option<Kv>, a: seq<Bytes>, b: seq<Bytes>, kvs: seq<Kv>)
    requires DecodesAs(decode, a + b, kvs)
    ensures DecodesAs(decode, a, kvs[..|a|]) && DecodesAs(decode, b, kvs[|a|..]) && kvs[..|a|] + kvs[|a|..] == kvs
  {
    assert forall i :: 0 <= i < |a| ==> (a + b)[i] == a[i];
    assert forall i :: 0 <= i < |b| ==> (a + b)[i + |a|] == b[i];
  }

  /** The iterator with an empty buffer after the answers of `n` NEXT requests. */
  function CursorAfter(tail: seq<Result<QueryResponse>>, onClose: Result<()>, log: seq<QueryCall>, n: nat): Cursor {
    Cursor(tail, onClose, log + Nexts(n))
  }

  lemma {:induction false} LogShift(log: seq<QueryCall>, n: nat)
    ensures log + [NextCall] + Nexts(n) == log + Nexts(n + 1)
  {
    assert Nexts(n + 1) == [NextCall] + Nexts(n);
  }

  /** Answers that announce more and decode are all handed out before anything after them. */
  lemma {:induction false} CollectContinuing(decode: Bytes -> Option<Kv>, rs: seq<QueryResponse>, kvs: seq<Kv>,
                                             tail: seq<Result<QueryResponse>>, onClose: Result<()>,
                                             log: seq<QueryCall>)
    requires Continuing(rs) && DecodesAs(decode, Flatten(rs), kvs)
    ensures Collect(decode, Iter([], true, false), Cursor(AllOk(rs) + tail, onClose, log))
         == Rejoin(kvs, Collect(decode, Iter([], true, false), CursorAfter(tail, onClose, log, |rs|)))
    decreases |rs|
  {
    if rs == [] {
      assert AllOk(rs) + tail == tail && log + Nexts(0) == log;
      RejoinTwice([], [], Collect(decode, Iter([], true, false), Cursor(tail, onClose, log)));
    } else {
      var batch, rest, p := rs[0].results, rs[1..], Cursor(AllOk(rs) + tail, onClose, log);
      GoodSplit(decode, batch, Flatten(rest), kvs);
      assert p.script[0] == Ok(rs[0]) && p.script[1..] == AllOk(rest) + tail;
      CollectFetch(decode, Iter([], true, false), p, rs[0]);
      assert batch + [] == batch;
      CollectGood(decode, batch, kvs[..|batch|], [], true, AfterNext(p));
      CollectContinuing(decode, rest, kvs[|batch|..], tail, onClose, log + [NextCall]);
      LogShift(log, |rest|);
      RejoinTwice(kvs[..|batch|], kvs[|batch|..],
                  Collect(decode, Iter([], true, false), CursorAfter(tail, onClose, log, |rs|)));
    }
  }

  /** Opening a query whose first answer announces more is a fetch, but for the request. */
  function OpenedAs(s: Stepped<seq<Kv>>): (Result<seq<Kv>>, Cursor) {
    (s.result, s.peer)
  }

  lemma {:induction false} QueryContinuing(decode: Bytes -> Option<Kv>, rs: seq<QueryResponse>, kvs: seq<Kv>,
                                           tail: seq<Result<QueryResponse>>, onClose: Result<()>,
                                           from: string, to: string)
    requires rs != [] && Continuing(rs) && DecodesAs(decode, Flatten(rs), kvs)
    ensures QueryAll(decode, Cursor(AllOk(rs) + tail, onClose, []), from, to)
         == OpenedAs(Rejoin(kvs, Collect(decode, Iter([], true, false),
                                         CursorAfter(tail, onClose, [RangeCall(from, to)], |rs| - 1))))
  {
    var batch, rest, log := rs[0].results, rs[1..], [RangeCall(from, to)];
    var p := Cursor(AllOk(rs) + tail, onClose, []);
    GoodSplit(decode, batch, Flatten(rest), kvs);
    assert p.script[0] == Ok(rs[0]) && p.script[1..] == AllOk(rest) + tail && [] + log == log;
    assert batch + [] == batch;
    CollectGood(decode, batch, kvs[..|batch|], [], true, Cursor(AllOk(rest) + tail, onClose, log));
    CollectContinuing(decode, rest, kvs[|batch|..], tail, onClose, log);
    RejoinTwice(kvs[..|batch|], kvs[|batch|..],
                Collect(decode, Iter([], true, false), CursorAfter(tail, onClose, log, |rest|)));
  }

  /** A failing answer fails the query with that very error, after any number of good ones:
      no further request is sent, and in particular no CLOSE. */
  lemma {:induction false} PeerErrorFailsTheQuery(decode: Bytes -> Option<Kv>, rs: seq<QueryResponse>, kvs: seq<Kv>,
                                                  e: Failure, rest: seq<Result<QueryResponse>>, onClose: Result<()>,
                                                  from: string, to: string)
    requires Continuing(rs) && DecodesAs(decode, Flatten(rs), kvs)
    ensures QueryAll(decode, Cursor(AllOk(rs) + [Err(e)] + rest, onClose, []), from, to)
         == (Err(e), Cursor(rest, onClose, [RangeCall(from, to)] + Nexts(|rs|)))
  {
    var tail, log := [Err(e)] + rest, [RangeCall(from, to)];
    assert AllOk(rs) + [Err(e)] + rest == AllOk(rs) + tail;
    assert tail[0] == Err(e) && tail[1..] == rest && [] + log == log;
    if rs == [] {
      assert AllOk(rs) + tail == tail && log + Nexts(0) == log;
    } else {
      QueryContinuing(decode, rs, kvs, tail, onClose, from, to);
      ErrorStops(decode, e, rest, onClose, log + Nexts(|rs| - 1));
      NextsSnoc(|rs| - 1);
      assert log + Nexts(|rs| - 1) + [NextCall] == log + Nexts(|rs|);
    }
  }

  /** The iterator stays open, with nothing buffered. */
  lemma {:induction false} ErrorStops(decode: Bytes -> Option<Kv>, e: Failure, rest: seq<Result<QueryResponse>>,
                                      onClose: Result<()>, log: seq<QueryCall>)
    ensures Collect(decode, Iter([], true, false), Cursor([Err(e)] + rest, onClose, log))
         == Stepped(Err(e), Iter([], true, false), Cursor(rest, onClose, log + [NextCall]))
  {
    var p := Cursor([Err(e)] + rest, onClose, log);
    assert p.script[0] == Err(e) && p.script[1..] == rest;
  }

  lemma {:induction false} CollectBad(decode: Bytes -> Option<Kv>, good: seq<Bytes>, kvs: seq<Kv>, bad: Bytes,
                                      later: seq<Bytes>, more: bool, p: Cursor)
    requires DecodesAs(decode, good, kvs) && decode(bad) == None
    ensures Collect(decode, Iter(good + [bad] + later, more, false), p)
         == Stepped(Err(DecodeError), Iter(later, more, false), p)
  {
    var rest := [bad] + later;
    assert good + [bad] + later == good + rest && rest[0] == bad && rest[1..] == later;
    CollectGood(decode, good, kvs, rest, more, p);
  }

  /** The first record that does not decode fails the query with DecodeError, wherever it is
      and whatever follows; again nothing more is sent. */
  lemma {:induction false} BadRecordFailsTheQuery(decode: Bytes -> Option<Kv>, rs: seq<QueryResponse>, kvs: seq<Kv>,
                                                  good: seq<Bytes>, more: seq<Kv>, bad: Bytes, later: seq<Bytes>,
                                                  hasMore: bool, rest: seq<Result<QueryResponse>>,
                                                  onClose: Result<()>, from: string, to: string)
    requires Continuing(rs) && DecodesAs(decode, Flatten(rs), kvs)
    requires DecodesAs(decode, good, more) && decode(bad) == None
    ensures var last := QueryResponse(good + [bad] + later, hasMore);
      QueryAll(decode, Cursor(AllOk(rs) + [Ok(last)] + rest, onClose, []), from, to)
        == (Err(DecodeError), Cursor(rest, onClose, [RangeCall(from, to)] + Nexts(|rs|)))
  {
    var last := QueryResponse(good + [bad] + later, hasMore);
    var tail, log := [Ok(last)] + rest, [RangeCall(from, to)];
    assert AllOk(rs) + [Ok(last)] + rest == AllOk(rs) + tail;
    assert tail[0] == Ok(last) && tail[1..] == rest && [] + log == log;
    if rs == [] {
      assert AllOk(rs) + tail == tail && log + Nexts(0) == log;
      CollectBad(decode, good, more, bad, later, hasMore, Cursor(rest, onClose, log));
    } else {
      QueryContinuing(decode, rs, kvs, tail, onClose, from, to);
      var p := CursorAfter(tail, onClose, log, |rs| - 1);
      CollectFetch(decode, Iter([], true, false), p, last);
      CollectBad(decode, good, more, bad, later, hasMore, AfterNext(p));
      NextsSnoc(|rs| - 1);
      assert log + Nexts(|rs| - 1) + [NextCall] == log + Nexts(|rs|);
    }
  }

  lemma {:induction false} CollectLast(decode: Bytes -> Option<Kv>, batch: seq<Bytes>, kvs: seq<Kv>, p: Cursor)
    requires DecodesAs(decode, batch, kvs)
    ensures Collect(decode, Iter(batch, false, false), p)
         == Stepped(if p.onClose.Ok? then Ok(kvs) else Err(p.onClose.error), Iter([], false, true),
                    p.(log := p.log + [CloseCall]))
  {
    assert batch + [] == batch;
    CollectGood(decode, batch, kvs, [], false, p);
    assert kvs + [] == kvs;
  }

  lemma {:induction false} CloseAfterMore(decode: Bytes -> Option<Kv>, front: seq<QueryResponse>, got: seq<Kv>,
                                          last: QueryResponse, kvs: seq<Kv>, rest: seq<Result<QueryResponse>>,
                                          onClose: Result<()>, from: string, to: string)
    requires front != [] && Continuing(front) && DecodesAs(decode, Flatten(front), got)
    requires !last.hasMore && DecodesAs(decode, last.results, kvs)
    ensures QueryAll(decode, Cursor(AllOk(front) + ([Ok(last)] + rest), onClose, []), from, to)
         == (if onClose.Ok? then Ok(got + kvs) else Err(onClose.error),
             Cursor(rest, onClose, [RangeCall(from, to)] + Nexts(|front|) + [CloseCall]))
  {
    var n, log, tail := |front|, [RangeCall(from, to)], [Ok(last)] + rest;
    assert tail[0] == Ok(last) && tail[1..] == rest;
    QueryContinuing(decode, front, got, tail, onClose, from, to);
    var p := CursorAfter(tail, onClose, log, n - 1);
    CollectFetch(decode, Iter([], true, false), p, last);
    CollectLast(decode, last.results, kvs, AfterNext(p));
    NextsSnoc(n - 1);
    assert log + Nexts(n - 1) + [NextCall] == log + Nexts(n);
  }

  /** When everything was fetched and decoded, one CLOSE is sent, and its refusal fails the
      query although all records are there. */
  lemma {:induction false} CloseDecides(decode: Bytes -> Option<Kv>, rs: seq<QueryResponse>, kvs: seq<Kv>,
                                        rest: seq<Result<QueryResponse>>, onClose: Result<()>, from: string, to: string)
    requires Cuts(rs, Flatten(rs)) && DecodesAs(decode, Flatten(rs), kvs)
    ensures QueryAll(decode, Cursor(AllOk(rs) + rest, onClose, []), from, to)
         == (if onClose.Ok? then Ok(kvs) else Err(onClose.error),
             Cursor(rest, onClose, [RangeCall(from, to)] + Nexts(|rs| - 1) + [CloseCall]))
  {
    var n, log := |rs| - 1, [RangeCall(from, to)];
    var front, last := rs[..n], rs[n];
    assert rs == front + [last] && [] + log == log;
    FlattenSnoc(front, last);
    AllOkSnoc(front, last);
    GoodSplit(decode, Flatten(front), last.results, kvs);
    assert AllOk(rs) + rest == AllOk(front) + ([Ok(last)] + rest);
    if front == [] {
      var tail := [Ok(last)] + rest;
      assert AllOk(front) + tail == tail && tail[0] == Ok(last) && tail[1..] == rest;
      CollectLast(decode, last.results, kvs, Cursor(rest, onClose, log));
      assert log + Nexts(0) == log;
    } else {
      CloseAfterMore(decode, front, kvs[..|Flatten(front)|], last, kvs[|Flatten(front)|..], rest, onClose, from, to);
    }
  }

  lemma {:induction false} FlattenSnoc(rs: seq<QueryResponse>, r: QueryResponse)
    ensures Flatten(rs + [r]) == Flatten(rs) + r.results
  {
    if rs == [] {
      assert rs + [r] == [r] && [r][1..] == [];
    } else {
      FlattenSnoc(rs[1..], r);
      assert (rs + [r])[0] == rs[0] && (rs + [r])[1..] == rs[1..] + [r];
    }
  }

  lemma {:induction false} AllOkSnoc(rs: seq<QueryResponse>, r: QueryResponse)
    ensures AllOk(rs + [r]) == AllOk(rs) + [Ok(r)]
  {
    if rs == [] {
      assert rs + [r] == [r] && [r][1..] == [];
    } else {
      AllOkSnoc(rs[1..], r);
      assert (rs + [r])[0] == rs[0] && (rs + [r])[1..] == rs[1..] + [r];
    }
  }

  /** A complete, decodable, closable answer: the only way to an Ok result. */
  ghost predicate Complete(decode: Bytes -> Option<Kv>, p: Cursor, rs: seq<QueryResponse>, kvs: seq<Kv>) {
    && |rs| <= |p.script| && p.script[..|rs|] == AllOk(rs)
    && Cuts(rs, Flatten(rs)) && DecodesAs(decode, Flatten(rs), kvs) && p.onClose.Ok?
  }

  lemma {:induction false} OkCollects(decode: Bytes -> Option<Kv>, it: Iter, p: Cursor) returns (rs: seq<QueryResponse>)
    requires !it.closed && Collect(decode, it, p).result.Ok?
    ensures |rs| <= |p.script| && p.script[..|rs|] == AllOk(rs) && p.onClose.Ok?
    ensures var all := [QueryResponse(it.batch, it.hasMore)] + rs;
      Cuts(all, Flatten(all)) && DecodesAs(decode, Flatten(all), Collect(decode, it, p).result.value)
    decreases |it.batch| + Supply(p.script), if it.hasMore then 1 else 0
  {
    var kvs := Collect(decode, it, p).result.value;
    if it.batch != [] {
      var it' := it.(batch := it.batch[1..]);
      rs := OkCollects(decode, it', p);
      OkItem(decode, it, rs, kvs, Collect(decode, it', p).result.value);
    } else if !it.hasMore {
      rs := [];
      assert [QueryResponse([], false)][1..] == [];
    } else {
      var r := Answer(p).value;
      CollectFetch(decode, it, p, r);
      var more := OkCollects(decode, Iter(r.results, r.hasMore, false), AfterNext(p));
      rs := [r] + more;
      assert rs[0] == r && rs[1..] == more;
      assert QueryResponse(r.results, r.hasMore) == r;
      OkFetch(rs);
      assert p.script[..|rs|] == [Ok(r)] + p.script[1..][..|more|];
    }
  }

  lemma {:induction false} OkItem(decode: Bytes -> Option<Kv>, it: Iter, rs: seq<QueryResponse>, kvs: seq<Kv>,
                                  later: seq<Kv>)
    requires it.batch != [] && decode(it.batch[0]).Some? && kvs == [decode(it.batch[0]).value] + later
    requires var rest := [QueryResponse(it.batch[1..], it.hasMore)] + rs;
      Cuts(rest, Flatten(rest)) && DecodesAs(decode, Flatten(rest), later)
    ensures var all := [QueryResponse(it.batch, it.hasMore)] + rs;
      Cuts(all, Flatten(all)) && DecodesAs(decode, Flatten(all), kvs)
  {
    var rest, all := [QueryResponse(it.batch[1..], it.hasMore)] + rs, [QueryResponse(it.batch, it.hasMore)] + rs;
    assert rest[1..] == rs == all[1..];
    assert Flatten(all) == [it.batch[0]] + Flatten(rest) by {
      assert it.batch == [it.batch[0]] + it.batch[1..];
    }
    assert forall i :: 1 <= i < |all| ==> all[i] == rest[i];
    assert all[0].hasMore == rest[0].hasMore;
  }

  lemma {:induction false} OkFetch(rs: seq<QueryResponse>)
    requires rs != [] && Cuts(rs, Flatten(rs))
    ensures var all := [QueryResponse([], true)] + rs;
      Cuts(all, Flatten(all)) && Flatten(all) == Flatten(rs)
  {
    var all := [QueryResponse([], true)] + rs;
    assert all[1..] == rs;
    assert forall i :: 1 <= i < |all| ==> all[i] == rs[i - 1];
  }

  lemma {:induction false} CompleteQuery(decode: Bytes -> Option<Kv>, p: Cursor, rs: seq<QueryResponse>, kvs: seq<Kv>,
                                         from: string, to: string)
    requires p.log == [] && Complete(decode, p, rs, kvs)
    ensures QueryAll(decode, p, from, to).0 == Ok(kvs)
  {
    assert p == Cursor(AllOk(rs) + p.script[|rs|..], p.onClose, []);
    CloseDecides(decode, rs, kvs, p.script[|rs|..], p.onClose, from, to);
  }

  /** Whatever the peer answers: a query yields records if and only if the answers up to the
      first that announces no more are all good, everything in them decodes to these records,
      and CLOSE is accepted. */
  lemma {:induction false} OkIffComplete(decode: Bytes -> Option<Kv>, p: Cursor, kvs: seq<Kv>, from: string, to: string)
    requires p.log == []
    ensures QueryAll(decode, p, from, to).0 == Ok(kvs) <==> exists rs :: Complete(decode, p, rs, kvs)
  {
    if QueryAll(decode, p, from, to).0 == Ok(kvs) {
      var r, asked := Answer(p).value, Asked(p, RangeCall(from, to));
      var more := OkCollects(decode, Iter(r.results, r.hasMore, false), asked);
      var rs := [r] + more;
      assert QueryResponse(r.results, r.hasMore) == r && rs[0] == r && rs[1..] == more;
      assert p.script[..|rs|] == [Ok(r)] + p.script[1..][..|more|];
      assert Complete(decode, p, rs, kvs);
    } else if exists rs :: Complete(decode, p, rs, kvs) {
      var rs :| Complete(decode, p, rs, kvs);
      CompleteQuery(decode, p, rs, kvs, from, to);
    }
  }

  // ---- one call of next ----

  predicate AllEmpty(rs: seq<QueryResponse>) {
    forall i :: 0 <= i < |rs| ==> rs[i] == QueryResponse([], true)
  }

  /** Empty answers that announce more are passed over; what comes after them decides: an
      error is reported and leaves the iterator as it was, a record is handed out, and an
      empty last answer ends the results. */
  lemma {:induction false} NextPassesEmptyAnswers(rs: seq<QueryResponse>, tail: seq<Result<QueryResponse>>,
                                                  onClose: Result<()>, log: seq<QueryCall>)
    requires AllEmpty(rs) && tail != [] && tail[0] != Ok(QueryResponse([], true))
    ensures var s := NextRaw(Iter([], true, false), Cursor(AllOk(rs) + tail, onClose, log));
      && s.peer == Cursor(tail[1..], onClose, log + Nexts(|rs| + 1))
      && (tail[0].Err? ==> s.result == Err(tail[0].error) && s.it == Iter([], true, false))
      && (tail[0].Ok? && tail[0].value.results != [] ==>
            && s.result == Ok(Some(tail[0].value.results[0]))
            && s.it == Iter(tail[0].value.results[1..], tail[0].value.hasMore, false))
      && (tail[0].Ok? && tail[0].value == QueryResponse([], false) ==>
            s.result == Ok(None) && s.it == Iter([], false, false))
    decreases |rs|
  {
    if rs == [] {
      assert AllOk(rs) + tail == tail;
      NextsSnoc(0);
      assert Nexts(1) == [NextCall];
    } else {
      var p := Cursor(AllOk(rs) + tail, onClose, log);
      assert p.script[0] == Ok(rs[0]) && p.script[1..] == AllOk(rs[1..]) + tail;
      NextPassesEmptyAnswers(rs[1..], tail, onClose, log + [NextCall]);
      LogShift(log, |rs|);
    }
  }

  // ---- how many fetches ----

  /** Answers filled greedily with `b` records each. */
  function Greedy(items: seq<Bytes>, b: nat): (rs: seq<QueryResponse>)
    requires b > 0
    ensures rs != []
  {
    if |items| <= b then [QueryResponse(items, false)]
    else [QueryResponse(items[..b], true)] + Greedy(items[b..], b)
  }

  /** A greedy peer cuts correctly, and the number of its answers is the number of records
      divided by the batch size, rounded up; an empty scan still takes one answer. So the
      shim sends one NEXT less than that. */
  lemma {:induction false} GreedyFetches(items: seq<Bytes>, b: nat)
    requires b > 0
    ensures Cuts(Greedy(items, b), items)
    ensures var answers := |Greedy(items, b)|;
      if items == [] then answers == 1 else (answers - 1) * b < |items| <= answers * b
    decreases |items|
  {
    var rs := Greedy(items, b);
    if |items| <= b {
      assert rs[1..] == [] && Flatten(rs) == items;
    } else {
      GreedyFetches(items[b..], b);
      var tail := Greedy(items[b..], b);
      assert rs[1..] == tail && Flatten(rs) == items[..b] + items[b..] == items;
      assert forall i :: 1 <= i < |rs| ==> rs[i] == tail[i - 1];
      assert (|rs| - 1) * b == (|tail| - 1) * b + b && |rs| * b == |tail| * b + b;
    }
  }

  /** Fetches needed for `n` records in batches of `b`: the number of batches, rounded up,
      less the one that came with the query. */
  function Fetches(n: nat, b: nat): nat
    requires b > 0
  {
    if n == 0 then 0 else (n + b - 1) / b - 1
  }

  lemma RoundedUp(n: nat, b: nat, q: nat)
    requires b > 0 && q > 0 && (q - 1) * b < n <= q * b
    ensures (n + b - 1) / b == q
  {
    var m := n + b - 1;
    SameQuotient(b, m / b, m % b, q, m - q * b);
  }

  /** Division with remainder has one answer. */
  lemma SameQuotient(b: nat, q: int, r: nat, q': int, r': nat)
    requires r < b && r' < b && q * b + r == q' * b + r'
    ensures q == q'
  {
    assert (q - q') * b == r' - r;
    if q > q' {
      AtLeastOnce(q - q', b);
    } else if q < q' {
      AtLeastOnce(q' - q, b);
    }
  }

  lemma AtLeastOnce(n: nat, b: nat)
    requires n > 0
    ensures n * b >= b
  {
    assert n * b == (n - 1) * b + b;
  }

  /** Collecting from a greedy peer sends exactly the fetches needed and one CLOSE. */
  lemma GreedyDrain(decode: Bytes -> Option<Kv>, encode: Kv -> Bytes, kvs: seq<Kv>, b: nat, from: string, to: string)
    requires b > 0 && Decodes(decode, encode, kvs)
    ensures QueryAll(decode, Cursor(AllOk(Greedy(Encoded(encode, kvs), b)), Ok(()), []), from, to)
         == (Ok(kvs), Cursor([], Ok(()), [RangeCall(from, to)] + Nexts(Fetches(|kvs|, b)) + [CloseCall]))
  {
    var rs := Greedy(Encoded(encode, kvs), b);
    GreedyFetches(Encoded(encode, kvs), b);
    CutsAreCollected(decode, encode, kvs, from, to, rs);
    if kvs != [] {
      RoundedUp(|kvs|, b, |rs|);
    }
  }

  // ---- close discipline ----

  datatype Op = DoNext | DoClose

  datatype Session =
    Session(outputs: seq<Result<Option<Bytes>>>, closes: seq<Result<()>>, it: Iter, peer: Cursor)

  /** Any interleaving of `next` and `close` calls; `outputs` are the results of `next`, and
      `closes` those of `close`. */
  function RunOps(it: Iter, p: Cursor, ops: seq<Op>): Session
    decreases |ops|
  {
    if ops == [] then Session([], [], it, p)
    else
      match ops[0]
      case DoNext =>
        var s := NextRaw(it, p);
        var rest := RunOps(s.it, s.peer, ops[1..]);
        rest.(outputs := [s.result] + rest.outputs)
      case DoClose =>
        var s := CloseRaw(it, p);
        var rest := RunOps(s.it, s.peer, ops[1..]);
        rest.(closes := [s.result] + rest.closes)
  }

  lemma {:induction false} NextsAdd(m: nat, n: nat)
    ensures Nexts(m) + Nexts(n) == Nexts(m + n)
  {
    if m > 0 {
      NextsAdd(m - 1, n);
      assert Nexts(m) + Nexts(n) == [NextCall] + (Nexts(m - 1) + Nexts(n));
    }
  }

  /** After closing, `next` hands out what was buffered and then nothing. */
  function Buffered(batch: seq<Bytes>, n: nat): seq<Result<Option<Bytes>>> {
    if n == 0 then []
    else if batch == [] then [Ok(None)] + Buffered([], n - 1)
    else [Ok(Some(batch[0]))] + Buffered(batch[1..], n - 1)
  }

  function CountNext(ops: seq<Op>): nat {
    if ops == [] then 0 else (if ops[0].DoNext? then 1 else 0) + CountNext(ops[1..])
  }

  function CountClose(ops: seq<Op>): nat {
    if ops == [] then 0 else (if ops[0].DoClose? then 1 else 0) + CountClose(ops[1..])
  }

  function Agreed(n: nat): seq<Result<()>> {
    if n == 0 then [] else [Ok(())] + Agreed(n - 1)
  }

  lemma {:induction false} ClosedSession(it: Iter, p: Cursor, ops: seq<Op>)
    requires it.closed
    ensures var s := RunOps(it, p, ops);
      && s.peer == p && s.it.closed && s.outputs == Buffered(it.batch, CountNext(ops))
      && s.closes == Agreed(CountClose(ops))
    decreases |ops|
  {
    if ops != [] {
      ClosedSession(if ops[0].DoNext? then NextRaw(it, p).it else it, p, ops[1..]);
    }
  }

  function LogAfter(log: seq<QueryCall>, n: nat, close: bool): seq<QueryCall> {
    log + Nexts(n) + if close then [CloseCall] else []
  }

  lemma LogAfterTwice(log: seq<QueryCall>, m: nat, n: nat, close: bool)
    ensures LogAfter(LogAfter(log, m, false), n, close) == LogAfter(log, m + n, close)
  {
    NextsAdd(m, n);
    var end := if close then [CloseCall] else [];
    assert log + Nexts(m) + [] + Nexts(n) + end == log + (Nexts(m) + Nexts(n)) + end;
  }

  lemma {:induction false} NextRawLog(it: Iter, p: Cursor) returns (n: nat)
    ensures NextRaw(it, p).it.closed == it.closed
    ensures NextRaw(it, p).peer.log == LogAfter(p.log, n, false)
    decreases |p.script|
  {
    n := 0;
    if it.batch == [] && it.hasMore && !it.closed {
      NextsSnoc(0);
      assert AfterNext(p).log == LogAfter(p.log, 1, false);
      n := 1;
      if Answer(p).Ok? {
        var resp := Answer(p).value;
        var m := NextRawLog(it.(batch := resp.results, hasMore := resp.hasMore), AfterNext(p));
        LogAfterTwice(p.log, 1, m, false);
        n := 1 + m;
      }
    }
  }

  lemma InTail(ops: seq<Op>)
    requires ops != [] && ops[0].DoNext?
    ensures DoClose in ops <==> DoClose in ops[1..]
  {
    assert ops == [ops[0]] + ops[1..];
  }

  lemma {:induction false} NextKeepsCloseAnswer(it: Iter, p: Cursor)
    ensures NextRaw(it, p).peer.onClose == p.onClose
    decreases |p.script|
  {
    if it.batch == [] && it.hasMore && !it.closed && Answer(p).Ok? {
      NextKeepsCloseAnswer(it.(batch := Answer(p).value.results, hasMore := Answer(p).value.hasMore), AfterNext(p));
    }
  }

  /** The peer sees some NEXT requests and then at most one CLOSE, whatever the
      interleaving; it sees the CLOSE exactly when `close` was called. The first `close`
      reports the peer's answer, the later ones are agreed. */
  lemma {:induction false} CloseDiscipline(it: Iter, p: Cursor, ops: seq<Op>) returns (n: nat)
    requires !it.closed
    ensures RunOps(it, p, ops).it.closed <==> DoClose in ops
    ensures RunOps(it, p, ops).peer.log == LogAfter(p.log, n, DoClose in ops)
    ensures CountClose(ops) == 0 ==> DoClose !in ops && RunOps(it, p, ops).closes == []
    ensures CountClose(ops) > 0 ==> RunOps(it, p, ops).closes == [p.onClose] + Agreed(CountClose(ops) - 1)
    decreases |ops|
  {
    n := 0;
    if ops == [] {
    } else if ops[0].DoClose? {
      var s := CloseRaw(it, p);
      ClosedSession(s.it, s.peer, ops[1..]);
    } else {
      var s := NextRaw(it, p);
      var m := NextRawLog(it, p);
      NextKeepsCloseAnswer(it, p);
      n := CloseDiscipline(s.it, s.peer, ops[1..]);
      InTail(ops);
      LogAfterTwice(p.log, m, n, DoClose in ops);
      n := m + n;
    }
  }

  // ---- partial composite key queries, end to end ----

  /** The key starts with `p` and does not go on with the largest scalar. */
  predicate Under(key: string, p: string) {
    p <= key && (|key| == |p| || key[|p|] < MAX)
  }

  function UnderPrefix(store: seq<Kv>, p: string): seq<Kv> {
    if store == [] then []
    else (if Under(store[0].key, p) then [store[0]] else []) + UnderPrefix(store[1..], p)
  }

  /** Whatever the store holds, the byte range of a partial key selects the keys under its
      prefix. */
  lemma PartialRangeIsPrefix(key: string, t: string, attrs: seq<string>)
    requires Create(t, attrs).Ok?
    ensures var (from, to) := PartialRange(t, attrs).value; InRange(key, from, to) <==> Under(key, from)
  {
    var p := Create(t, attrs).value;
    ByteOrderIsTextOrder(key, p);
    ByteOrderIsTextOrder(key, p + [MAX]);
    PrefixInterval(key, p);
  }

  lemma {:induction false} ScanIsPrefix(store: seq<Kv>, t: string, attrs: seq<string>)
    requires Create(t, attrs).Ok?
    ensures var (from, to) := PartialRange(t, attrs).value; Scan(store, from, to) == UnderPrefix(store, from)
  {
    if store != [] {
      PartialRangeIsPrefix(store[0].key, t, attrs);
      ScanIsPrefix(store[1..], t, attrs);
    }
  }

  /** Where a stored key comes from: a simple key does not start with the delimiter, a
      composite one was built by the printer. */
  datatype Origin = Simple | Composite(objectType: string, attributes: seq<string>)

  predicate HasOrigin(key: string, o: Origin) {
    match o
    case Simple => key == "" || key[0] != NUL
    case Composite(t, attrs) => Create(t, attrs) == Ok(key)
  }

  predicate HaveOrigins(store: seq<Kv>, origins: seq<Origin>) {
    |store| == |origins| && forall i :: 0 <= i < |store| ==> HasOrigin(store[i].key, origins[i])
  }

  /** The composite records of the given type whose attributes extend the given ones. */
  function Extending(store: seq<Kv>, origins: seq<Origin>, t: string, attrs: seq<string>): seq<Kv>
    requires |store| == |origins|
  {
    if store == [] then []
    else
      (if origins[0].Composite? && origins[0].objectType == t && attrs <= origins[0].attributes then [store[0]] else [])
      + Extending(store[1..], origins[1..], t, attrs)
  }

  /** Simple keys are under no partial key, composite ones under those they extend. */
  lemma UnderByOrigin(key: string, o: Origin, t: string, attrs: seq<string>)
    requires HasOrigin(key, o) && Create(t, attrs).Ok?
    ensures Under(key, Create(t, attrs).value)
       <==> o.Composite? && o.objectType == t && attrs <= o.attributes
  {
    match o
    case Simple =>
    case Composite(u, brs) =>
      PartialQueryIsExact(t, attrs, u, brs);
      PartialRangeIsPrefix(key, t, attrs);
  }

  lemma {:induction false} PrefixIsExtending(store: seq<Kv>, origins: seq<Origin>, t: string, attrs: seq<string>)
    requires HaveOrigins(store, origins) && Create(t, attrs).Ok?
    ensures UnderPrefix(store, Create(t, attrs).value) == Extending(store, origins, t, attrs)
  {
    if store != [] {
      assert HasOrigin(store[0].key, origins[0]);
      UnderByOrigin(store[0].key, origins[0], t, attrs);
      assert HaveOrigins(store[1..], origins[1..]);
      PrefixIsExtending(store[1..], origins[1..], t, attrs);
    }
  }

  /** Over any store, a partial key query returns, through any paging, the records under the
      printed prefix, in key order; over simple and composite keys these are the records
      whose object type is the given one and whose attributes extend the given list. */
  lemma PartialQueryThroughPaging(decode: Bytes -> Option<Kv>, encode: Kv -> Bytes, store: seq<Kv>,
                                  t: string, attrs: seq<string>, rs: seq<QueryResponse>)
    requires Create(t, attrs).Ok?
    requires Decodes(decode, encode, UnderPrefix(store, Create(t, attrs).value))
    requires Cuts(rs, Encoded(encode, UnderPrefix(store, Create(t, attrs).value)))
    ensures var (from, to) := PartialRange(t, attrs).value;
      QueryAll(decode, Cursor(AllOk(rs), Ok(()), []), from, to).0 == Ok(UnderPrefix(store, from))
    ensures forall origins :: HaveOrigins(store, origins) ==>
      UnderPrefix(store, Create(t, attrs).value) == Extending(store, origins, t, attrs)
  {
    var (from, to) := PartialRange(t, attrs).value;
    ScanIsPrefix(store, t, attrs);
    PagingEqualsScan(decode, encode, store, from, to, rs);
    forall origins | HaveOrigins(store, origins)
      ensures UnderPrefix(store, from) == Extending(store, origins, t, attrs)
    {
      PrefixIsExtending(store, origins, t, attrs);
    }
  }
}
