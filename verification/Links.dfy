/** The handle every stub and iterator shares: the map of in-flight requests and the
    bounded queue towards the peer. The functions describe one atomic action each; the
    class performs the same actions in place. */
module Links {
  import opened Wire

  /** `sent` remembers everything that ever entered the queue `out`. */
  datatype Link = Link(pending: map<TxKey, nat>, out: seq<OutMsg>, closed: bool, sent: seq<OutMsg>)

  /** The instant at which awaiting a send ends: there is room, or nobody listens. */
  predicate CanSend(l: Link, capacity: nat) {
    l.closed || |l.out| < capacity
  }

  /** While a send waits, the peer may take any number of the oldest messages. */
  ghost predicate Drained(l: Link, l': Link) {
    l' == l.(out := l'.out) && exists n: nat :: n <= |l.out| && l'.out == l.out[n..]
  }

  /** The effect of one awaited send, however much the peer took meanwhile. */
  ghost predicate SentAfterWait(l: Link, l': Link, m: OutMsg) {
    exists room: Link :: Drained(l, room) && l' == Push(room, m)
  }

  function Push(l: Link, m: OutMsg): Link {
    if l.closed then l else l.(out := l.out + [m], sent := l.sent + [m])
  }

  function Insert(l: Link, key: TxKey, call: nat): Link {
    l.(pending := l.pending[key := call])
  }

  function Drop(l: Link, key: TxKey): Link {
    l.(pending := l.pending - {key})
  }

  function Waiter(l: Link, key: TxKey): Option<nat> {
    if key in l.pending then Some(l.pending[key]) else None
  }

  class PeerLink {
    const capacity: nat
    var pending: map<TxKey, nat>
    var out: seq<OutMsg>
    var closed: bool
    var sent: seq<OutMsg>

    ghost predicate Valid()
      reads this
    {
      capacity > 0 && |out| <= capacity
    }

    function View(): Link
      reads this
    {
      Link(pending, out, closed, sent)
    }

    constructor (capacity: nat)
      requires capacity > 0
      ensures Valid() && this.capacity == capacity
      ensures View() == Link(map[], [], false, [])
    {
      this.capacity := capacity;
      pending, out, closed, sent := map[], [], false, [];
    }

    /** First half of a ledger request: refuse a second request for the key, or
        register the waiter. */
    method TryRegister(key: TxKey, call: nat) returns (ok: bool)
      requires Valid()
      modifies this`pending
      ensures Valid()
      ensures ok <==> Waiter(old(View()), key).None?
      ensures View() == if ok then Insert(old(View()), key, call) else old(View())
      ensures ok ==> Waiter(View(), key) == Some(call)
    {
      ok := key !in pending;
      if ok {
        pending := pending[key := call];
      }
    }

    /** The waiting part of a send: it ends once there is room, or nobody listens. */
    method AwaitRoom()
      requires Valid()
      modifies this`out
      ensures Valid() && CanSend(View(), capacity)
      ensures Drained(old(View()), View())
    {
      var n: nat :| n <= |out| && (closed || |out| - n < capacity);
      out := out[n..];
    }

    /** Enqueue a message; reports whether the queue was still open. */
    method Send(m: OutMsg) returns (ok: bool)
      requires Valid() && CanSend(View(), capacity)
      modifies this`out, this`sent
      ensures Valid()
      ensures ok == !closed
      ensures View() == Push(old(View()), m)
    {
      ok := !closed;
      if ok {
        out := out + [m];
        sent := sent + [m];
      }
    }

    /** A whole send: wait, then enqueue. */
    method SendAwaited(m: OutMsg) returns (ok: bool)
      requires Valid()
      modifies this`out, this`sent
      ensures Valid() && ok == !closed && SentAfterWait(old(View()), View(), m)
      ensures sent == Push(old(View()), m).sent
    {
      AwaitRoom();
      ghost var room := View();
      ok := Send(m);
      assert Drained(old(View()), room) && View() == Push(room, m);
    }

    /** The peer stops listening: what is still queued is lost. */
    method Close()
      requires Valid()
      modifies this`closed, this`out
      ensures Valid() && View() == old(View()).(closed := true, out := [])
    {
      closed, out := true, [];
    }

    /** Second half of a ledger request: enqueue it, and withdraw the waiter when the
        queue is gone. */
    method SendRequest(key: TxKey, call: nat, req: Request) returns (ok: bool)
      requires Valid() && CanSend(View(), capacity)
      modifies this
      ensures Valid()
      ensures ok == !old(closed)
      ensures View() == if ok then Push(old(View()), OutRequest(key, call, req)) else Drop(old(View()), key)
    {
      ok := Send(OutRequest(key, call, req));
      if !ok {
        DropPending(key);
      }
    }

    /** Take the waiter out of the map, whoever it is; the caller wakes it. */
    method RouteResponse(key: TxKey) returns (woken: Option<nat>)
      requires Valid()
      modifies this`pending
      ensures Valid()
      ensures woken == Waiter(old(View()), key)
      ensures View() == Drop(old(View()), key)
      ensures Waiter(View(), key).None?
    {
      woken := None;
      if key in pending {
        woken := Some(pending[key]);
      }
      pending := pending - {key};
    }

    method DropPending(key: TxKey)
      requires Valid()
      modifies this`pending
      ensures Valid() && View() == Drop(old(View()), key)
    {
      pending := pending - {key};
    }
  }
}
