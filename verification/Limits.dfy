/** Where the protocol stops short of what its comments and documentation suggest, and
    exactly when. */
module Limits {
  import opened Wire
  import opened Links
  import opened Handshake
  import opened Protocol
  import opened Projection
  import opened Flow
  import opened Safety

  // ---- replies reach the call they answer, and only that call ----

  function SlotOf(s: State, k: TxKey): Option<Reply> {
    if IsRunning(s, k) && s.tasks[k].phase.holder.Some? then s.tasks[k].phase.holder.value.slot else None
  }

  predicate AwaitsReply(s: State, k: TxKey, n: nat) {
    HolderIn(s, k, Sent) && s.tasks[k].phase.holder.value.call == n && s.tasks[k].phase.holder.value.slot.None?
  }

  predicate IsReply(m: InMsg) {
    m.ty == MsgType.Response || m.ty == MsgType.Error
  }

  lemma DeliverySlot(s: State, k: TxKey)
    requires KeyPath(s, k) && s.conn.Up? && s.inbound != [] && IsReply(s.inbound[0]) && s.inbound[0].key == k
    ensures var m, s' := s.inbound[0], ApplyReaderTake(s);
      && SlotOf(s', k) == (if AwaitsReply(s, k, m.call) then Some(ReplyOf(m)) else SlotOf(s, k))
      && Waiter(s'.link, k).None?
  {
    ReplyLeads(s, k);
    RoutedViews(s, k);
  }

  /** A reply read by the loop wakes the call it answers if and only if that call still
      waits, with that very reply; no other slot of any transaction changes. */
  lemma DeliveryIsExact(c: Config, s: State, k: TxKey)
    requires Reachable(c, s) && Enabled(c, s, ReaderTake) && s.conn.Up? && IsReply(s.inbound[0])
    ensures var m, s' := s.inbound[0], Apply(c, s, ReaderTake);
      SlotOf(s', k) == if m.key == k && AwaitsReply(s, k, m.call) then Some(ReplyOf(m)) else SlotOf(s, k)
    ensures s.inbound[0].key == k ==> Waiter(Apply(c, s, ReaderTake).link, k).None?
  {
    ReachableInv(c, s);
    assert KeyPath(s, k);
    if s.inbound[0].key == k {
      DeliverySlot(s, k);
    } else {
      TakeUntouched(s, k);
    }
  }

  /** At most one ledger request of a transaction is between enqueue and reply, whatever is
      cancelled; and while the handler runs, its waiter is registered. */
  lemma SingleFlight(c: Config, s: State, k: TxKey)
    requires Reachable(c, s)
    ensures |FlowOf(s, k)| <= 1
    ensures FlowOf(s, k) != [] && IsRunning(s, k) ==> Waiter(s.link, k) == Some(FlowOf(s, k)[0].call)
    ensures HolderIn(s, k, Sent) && SlotOf(s, k).None? ==>
      Waiter(s.link, k) == Some(s.tasks[k].phase.holder.value.call) && (s.link.closed || FlowOf(s, k) != [])
  {
    ReachableInv(c, s);
    assert KeyPath(s, k);
  }

  lemma QueueStep(c: Config, s: State, e: Event)
    requires c.capacity > 0 && Enabled(c, s, e) && |s.link.out| <= c.capacity
    ensures |Apply(c, s, e).link.out| <= c.capacity
  {
    if e.ReaderTake? {
      TakeQueues(s);
    } else if !e.PeerAnswer? && !e.QueueClose? && !e.ReaderWrite? && !e.Enqueue? && !e.TaskSend? && !e.PeerSend?
              && !e.PeerDrain? {
      QuietFlow(c, s, e);
    }
  }

  lemma {:induction false} QueueRun(c: Config, s: State, es: seq<Event>)
    requires c.capacity > 0 && IsRun(c, s, es) && |s.link.out| <= c.capacity
    ensures |Final(c, s, es).link.out| <= c.capacity
    decreases |es|
  {
    if es != [] {
      QueueStep(c, s, es[0]);
      QueueRun(c, Apply(c, s, es[0]), es[1..]);
    }
  }

  /** The queue never holds more than its capacity. */
  lemma QueueIsBounded(c: Config, s: State)
    requires Reachable(c, s) && c.capacity > 0
    ensures |s.link.out| <= c.capacity
  {
    var es :| IsRun(c, Fresh(), es) && Final(c, Fresh(), es) == s;
    QueueRun(c, Fresh(), es);
  }

  /** Entries exist only while user code runs or has just ended; the terminal message is
      queued after the entry is gone. */
  lemma NoPendingLeak(c: Config, s: State, k: TxKey)
    requires Reachable(c, s) && k in s.link.pending
    ensures k in s.tasks && (s.tasks[k].phase.Running? || s.tasks[k].phase.Ended?)
  {
    ReachableInv(c, s);
    assert KeyPath(s, k);
  }

  // ---- a call cancelled while it waits for room wedges its transaction ----

  /** An entry whose request never reached the queue and whose caller is gone. */
  ghost predicate Wedged(s: State, k: TxKey) {
    && IsRunning(s, k) && Waiter(s.link, k).Some? && FlowOf(s, k) == []
    && (s.tasks[k].phase.holder.Some? ==> s.tasks[k].phase.holder.value.stage.Entered?)
  }

  /** Giving up on a registered call before its reply is routed leaves the entry behind;
      the transaction is wedged exactly when no request or reply is under way that could
      clear it, as is always so for a call that still waits for room. */
  lemma CancelWedges(c: Config, s: State, k: TxKey)
    requires Reachable(c, s) && (HolderIn(s, k, Waiting) || (HolderIn(s, k, Sent) && SlotOf(s, k).None?))
    ensures var n := s.tasks[k].phase.holder.value.call;
      && Enabled(c, s, Cancel(k, n)) && Waiter(Apply(c, s, Cancel(k, n)).link, k) == Some(n)
      && (Wedged(Apply(c, s, Cancel(k, n)), k) <==> HolderIn(s, k, Waiting) || FlowOf(s, k) == [])
  {
    ReachableInv(c, s);
    assert KeyPath(s, k);
    var n := s.tasks[k].phase.holder.value.call;
    assert FlowOf(Apply(c, s, Cancel(k, n)), k) == FlowOf(s, k);
  }

  lemma WedgedStep(c: Config, s: State, e: Event, k: TxKey)
    requires Inv(s) && Enabled(c, s, e) && Wedged(s, k)
    ensures var s' := Apply(c, s, e);
      Wedged(s', k) || (k in s'.tasks && s'.tasks[k].phase.Ended?)
    ensures e == CheckInsert(k) ==>
      Apply(c, s, e).returned ==
        s.returned + [Returned(s.tasks[k].phase.holder.value.call, k, Refused(AlreadyInFlight))]
    ensures e != Enqueue(k) && e != Receive(k)
  {
    if Target(s, e) != Some(k) {
      WedgedOther(c, s, e, k);
    } else if e.PeerAnswer? {
      AnswerAsksOwner(c, s, e.index);
    } else if e.ReaderTake? {
      WedgedTake(c, s, k);
    } else {
      WedgedOwn(c, s, e, k);
    }
  }

  lemma WedgedOther(c: Config, s: State, e: Event, k: TxKey)
    requires Inv(s) && Enabled(c, s, e) && Wedged(s, k) && Target(s, e) != Some(k)
    ensures Wedged(Apply(c, s, e), k)
  {
    OthersUntouched(c, s, e, k);
    if e.QueueClose? {
      CloseFlow(c, s, k);
    } else {
      FlowOther(c, s, e, k);
    }
  }

  lemma WedgedOwn(c: Config, s: State, e: Event, k: TxKey)
    requires Enabled(c, s, e) && Wedged(s, k) && Target(s, e) == Some(k) && !e.PeerAnswer? && !e.ReaderTake?
    ensures var s' := Apply(c, s, e);
      && e != Enqueue(k) && e != Receive(k)
      && (Wedged(s', k) || (k in s'.tasks && s'.tasks[k].phase.Ended?))
      && (e == CheckInsert(k) ==>
            s'.returned ==
              s.returned + [Returned(s.tasks[k].phase.holder.value.call, k, Refused(AlreadyInFlight))])
  {
    WedgedViews(c, s, e, k);
    FlowStep(c, s, e, k);
  }

  lemma WedgedViews(c: Config, s: State, e: Event, k: TxKey)
    requires Enabled(c, s, e) && Wedged(s, k) && Target(s, e) == Some(k) && !e.PeerAnswer? && !e.ReaderTake?
    ensures var s' := Apply(c, s, e);
      && e != Enqueue(k) && e != Receive(k)
      && Waiter(s'.link, k).Some? && k in s'.tasks
      && (s'.tasks[k].phase.Ended?
          || (s'.tasks[k].phase.Running?
              && (s'.tasks[k].phase.holder.Some? ==> s'.tasks[k].phase.holder.value.stage.Entered?)))
      && (e == CheckInsert(k) ==>
            s'.returned ==
              s.returned + [Returned(s.tasks[k].phase.holder.value.call, k, Refused(AlreadyInFlight))])
  {
  }

  lemma WedgedTake(c: Config, s: State, k: TxKey)
    requires Inv(s) && Enabled(c, s, ReaderTake) && Wedged(s, k) && s.inbound[0].key == k
    ensures Wedged(ApplyReaderTake(s), k)
  {
    assert KeyPath(s, k) && KeyStart(s, k);
    TakeFlow(s, s.(inbound := s.inbound[1..]), k);
    assert InItem(s.inbound[0], k) == [];
    PassFlow(s, k);
    NewTaskOnlyOnce(s, k);
    PassPhase(s, k);
  }

  lemma PassPhase(s: State, k: TxKey)
    requires s.inbound != [] && !React(s.conn, s.inbound[0].ty).Route?
    requires !(StartsTx(s.inbound[0]) && s.inbound[0].key == k)
    ensures PhaseOf(ApplyReaderTake(s), k) == PhaseOf(s, k)
  {
  }

  predicate EndsHandler(e: Event, k: TxKey) {
    e == UserPanic(k) || (e.UserReturn? && e.key == k)
  }

  predicate HandlerGoesOn(es: seq<Event>, k: TxKey) {
    forall i :: 0 <= i < |es| ==> !EndsHandler(es[i], k)
  }

  predicate NeverServed(es: seq<Event>, k: TxKey) {
    forall i :: 0 <= i < |es| ==> es[i] != Enqueue(k) && es[i] != Receive(k)
  }

  lemma ConsRuns(es: seq<Event>, k: TxKey)
    requires es != []
    ensures HandlerGoesOn(es, k) ==> !EndsHandler(es[0], k) && HandlerGoesOn(es[1..], k)
    ensures es[0] != Enqueue(k) && es[0] != Receive(k) && NeverServed(es[1..], k) ==> NeverServed(es, k)
  {
    assert es == [es[0]] + es[1..];
  }

  /** From then on, for as long as the handler runs, every ledger call of the transaction is
      refused: none is enqueued and none is answered. */
  lemma {:induction false} WedgedUntilTheEnd(c: Config, s: State, es: seq<Event>, k: TxKey)
    requires Inv(s) && IsRun(c, s, es) && Wedged(s, k) && HandlerGoesOn(es, k)
    ensures Wedged(Final(c, s, es), k) && NeverServed(es, k)
    decreases |es|
  {
    if es != [] {
      ConsRuns(es, k);
      WedgedStep(c, s, es[0], k);
      InvStep(c, s, es[0]);
      StaysRunning(c, s, es[0], k);
      WedgedUntilTheEnd(c, Apply(c, s, es[0]), es[1..], k);
    }
  }

  lemma StaysRunning(c: Config, s: State, e: Event, k: TxKey)
    requires Inv(s) && Enabled(c, s, e) && IsRunning(s, k) && !EndsHandler(e, k)
    ensures IsRunning(Apply(c, s, e), k)
  {
    assert KeyStart(s, k);
    if Target(s, e) != Some(k) {
      OthersUntouched(c, s, e, k);
    } else if e.ReaderTake? {
      NewTaskOnlyOnce(s, k);
    }
  }

  lemma NewTaskOnlyOnce(s: State, k: TxKey)
    requires KeyStart(s, k) && k in s.tasks && s.inbound != []
    ensures !(StartsTx(s.inbound[0]) && s.inbound[0].key == k)
  {
    assert Collect(s.inbound, AsStart(k)) == AsStart(k)(s.inbound[0]) + Collect(s.inbound[1..], AsStart(k));
  }

  // ---- such a run exists ----

  lemma ReachStep(c: Config, s: State, e: Event) returns (s': State)
    requires Reachable(c, s) && Enabled(c, s, e)
    ensures s' == Apply(c, s, e) && Reachable(c, s')
  {
    s' := Apply(c, s, e);
    var es :| IsRun(c, Fresh(), es) && Final(c, Fresh(), es) == s;
    RunSnoc(c, Fresh(), es, e);
  }

  lemma {:induction false} RunSnoc(c: Config, s: State, es: seq<Event>, e: Event)
    requires IsRun(c, s, es) && Enabled(c, Final(c, s, es), e)
    ensures IsRun(c, s, es + [e]) && Final(c, s, es + [e]) == Apply(c, Final(c, s, es), e)
    decreases |es|
  {
    if es == [] {
      assert es + [e] == [e] && [e][1..] == [];
    } else {
      RunSnoc(c, Apply(c, s, es[0]), es[1..], e);
      assert (es + [e])[0] == es[0] && (es + [e])[1..] == es[1..] + [e];
    }
  }

  lemma FreshReachable(c: Config)
    ensures Reachable(c, Fresh())
  {
    assert IsRun(c, Fresh(), []) && Final(c, Fresh(), []) == Fresh();
  }

  function Plain(ty: MsgType, k: TxKey): InMsg {
    InMsg(ty, k, TxInput(Some([]), true, 2), 0, [])
  }

  lemma HandshakeDone(c: Config, k: TxKey) returns (s: State)
    requires c.capacity > 0
    ensures Reachable(c, s) && s.conn.Up? && s.reader.Reading?
    ensures s.link == Link(map[], [OutRegister], false, [OutRegister])
    ensures s.inbound == [] && s.inbox == [] && s.tasks == map[] && s.started == {} && s.returned == []
  {
    FreshReachable(c);
    s := ReachStep(c, Fresh(), ReaderWrite);
    s := ReachStep(c, s, PeerSend(Plain(Registered, k)));
    s := ReachStep(c, s, ReaderTake);
    s := ReachStep(c, s, PeerSend(Plain(Ready, k)));
    s := ReachStep(c, s, ReaderTake);
  }

  /** Then one transaction accepted and started. */
  lemma OneTaskRunning(c: Config, k: TxKey) returns (s: State)
    requires c.capacity > 0
    ensures Reachable(c, s) && IsRunning(s, k) && s.tasks[k].phase == Running([], None, 2, None)
    ensures s.link == Link(map[], [OutRegister], false, [OutRegister])
    ensures s.reader.Reading? && s.inbound == [] && s.inbox == [] && s.returned == []
  {
    s := HandshakeDone(c, k);
    s := ReachStep(c, s, PeerSend(Plain(MsgType.Transaction, k)));
    s := ReachStep(c, s, ReaderTake);
    s := ReachStep(c, s, TaskStart(k));
  }

  /** Two calls on one stub, the first registered and waiting for room in the queue. */
  lemma OneCallWaiting(c: Config, k: TxKey, q: Request) returns (s: State, n: nat)
    requires c.capacity > 0
    ensures Reachable(c, s) && IsRunning(s, k) && s.returned == [] && s.reader.Reading?
    ensures s.inbound == [] && s.inbox == []
    ensures s.link == Link(map[k := n], [OutRegister], false, [OutRegister])
    ensures s.tasks[k].phase == Running([Ticket(n + 1, q)], Some(Holder(n, q, Waiting, None)), 0, None)
  {
    s := OneTaskRunning(c, k);
    n := s.next;
    s := ReachStep(c, s, Issue(k, q));
    s := ReachStep(c, s, Issue(k, q));
    s := ReachStep(c, s, GateAcquire(k));
    s := ReachStep(c, s, CheckInsert(k));
  }

  /** The same, with the first call's request sent. */
  lemma OneCallSent(c: Config, k: TxKey, q: Request) returns (s: State, n: nat)
    requires c.capacity > 0
    ensures Reachable(c, s) && IsRunning(s, k) && s.returned == [] && s.link.pending == map[k := n]
    ensures s.tasks[k].phase == Running([Ticket(n + 1, q)], Some(Holder(n, q, Sent, None)), 0, None)
    ensures s.reader.Reading? && !s.link.closed && FlowOf(s, k) != [] && s.inbound == [] && s.inbox == []
  {
    s, n := OneCallWaiting(c, k, q);
    s := ReachStep(c, s, PeerDrain);
    PushFlow(s, ApplyEnqueue(s, k), OutRequest(k, n, q), k);
    s := ReachStep(c, s, Enqueue(k));
  }

  /** The refusal that the gate is meant to exclude does happen: the first call is cancelled
      while it waits for room, and the second is refused. */
  lemma CancelledCallBlocksTheNext(c: Config, k: TxKey) returns (s: State)
    requires c.capacity > 0
    ensures Reachable(c, s)
    ensures |s.returned| == 1 && s.returned[0].key == k && s.returned[0].outcome == Refused(AlreadyInFlight)
  {
    var n: nat;
    s, n := OneCallWaiting(c, k, Request(MsgType.GetState, []));
    s := ReachStep(c, s, Cancel(k, n));
    s := ReachStep(c, s, GateAcquire(k));
    s := ReachStep(c, s, CheckInsert(k));
  }
}
