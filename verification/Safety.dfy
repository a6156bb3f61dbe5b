/** What every reachable state of the protocol satisfies, whatever is cancelled, panics,
    or interleaves: the path of each request, the acceptance of transactions, and the
    messages each transaction sends. */
module Safety {
  import opened Wire
  import opened Links
  import opened Handshake
  import opened Protocol
  import opened Projection
  import opened Flow

  // ---- the path of requests ----

  ghost predicate ItemOk(k: TxKey, x: Item, calls: map<nat, Status>) {
    && x.call in calls
    && match x
       case Asked(n, q) => calls[n] == Open(k, q) || calls[n] == Orphan(k, q)
       case Replied(n, r) => calls[n].key == k && (calls[n].Over? || (calls[n].Effected? && calls[n].reply == r))
  }

  ghost predicate TicketsOk(k: TxKey, ts: seq<Ticket>, calls: map<nat, Status>) {
    && (forall i :: 0 <= i < |ts| ==> ts[i].call in calls && calls[ts[i].call] == Open(k, ts[i].req))
    && (forall i, j :: 0 <= i < j < |ts| ==> ts[i].call < ts[j].call)
  }

  ghost predicate HolderOk(k: TxKey, h: Holder, f: seq<Item>, entry: Option<nat>, closed: bool,
                           calls: map<nat, Status>)
  {
    && h.call in calls
    && match h.stage
       case Entered =>
         && h.slot.None? && calls[h.call] == Open(k, h.req)
         && (entry.Some? ==> entry.value < h.call)
       case Waiting =>
         && h.slot.None? && calls[h.call] == Open(k, h.req)
         && entry == Some(h.call) && f == []
       case Sent =>
         if h.slot.None? then
           && entry == Some(h.call)
           && if f == [] then closed && calls[h.call] == Open(k, h.req)
              else if f[0].Asked? then f[0] == Asked(h.call, h.req) && calls[h.call] == Open(k, h.req)
              else calls[h.call] == Effected(k, h.req, f[0].reply)
         else
           entry.None? && f == [] && calls[h.call] == Effected(k, h.req, h.slot.value)
  }

  ghost predicate PathOk(k: TxKey, f: seq<Item>, entry: Option<nat>, phase: Option<Phase>, closed: bool,
                         calls: map<nat, Status>)
  {
    && |f| <= 1
    && (f != [] ==> ItemOk(k, f[0], calls))
    && (entry.Some? ==> entry.value in calls && calls[entry.value].key == k)
    && match phase
       case None => f == [] && entry.None?
       case Some(Starting) => f == [] && entry.None?
       case Some(Running(ts, h, _, _)) =>
         && (f != [] ==> entry == Some(f[0].call))
         && TicketsOk(k, ts, calls)
         && (h.Some? ==> HolderOk(k, h.value, f, entry, closed, calls)
                         && forall i :: 0 <= i < |ts| ==> h.value.call < ts[i].call)
         && (entry.Some? ==> forall i :: 0 <= i < |ts| ==> entry.value < ts[i].call)
       case Some(Ended(_, _)) => f != [] ==> entry == Some(f[0].call)
       case Some(_) => entry.None?
  }

  function PhaseOf(s: State, k: TxKey): Option<Phase> {
    if k in s.tasks then Some(s.tasks[k].phase) else None
  }

  ghost predicate KeyPath(s: State, k: TxKey) {
    PathOk(k, FlowOf(s, k), Waiter(s.link, k), PhaseOf(s, k), s.link.closed, s.calls)
  }

  // ---- acceptance ----

  predicate StartsTx(m: InMsg) {
    m.ty == MsgType.Init || m.ty == MsgType.Transaction
  }

  function AsStart(k: TxKey): InMsg -> seq<InMsg> {
    (m: InMsg) => if StartsTx(m) && m.key == k then [m] else []
  }

  /** The peer starts a key at most once, so the message and the task never coexist. */
  ghost predicate KeyStart(s: State, k: TxKey) {
    |Collect(s.inbound, AsStart(k))| + (if k in s.tasks then 1 else 0) <= (if k in s.started then 1 else 0)
  }

  // ---- everything together ----

  ghost predicate CallsBelow(s: State) {
    forall n :: n in s.calls ==> n < s.next
  }

  ghost predicate Inv(s: State) {
    && CallsBelow(s)
    && (s.conn.Up? || s.tasks == map[])
    && (forall k :: KeyStart(s, k))
    && (forall k :: KeyPath(s, k))
  }

  lemma FreshInv()
    ensures Inv(Fresh())
  {
    forall k ensures KeyPath(Fresh(), k) {
      assert FlowOf(Fresh(), k) == [];
    }
  }

  // ---- preservation: acceptance ----

  /** Most events neither carry a start message nor accept one. */
  lemma StartsUntouched(c: Config, s: State, e: Event, k: TxKey)
    requires Enabled(c, s, e) && !e.PeerSend? && !e.PeerAnswer? && !e.ReaderTake?
    ensures var s' := Apply(c, s, e);
      s'.inbound == s.inbound && s'.started == s.started && (k in s'.tasks <==> k in s.tasks)
  {
  }

  lemma StartTake(s: State, k: TxKey)
    requires s.inbound != [] && KeyStart(s, k)
    ensures KeyStart(ApplyReaderTake(s), k)
  {
    var m := s.inbound[0];
    assert Collect(s.inbound, AsStart(k)) == AsStart(k)(m) + Collect(s.inbound[1..], AsStart(k));
    TakeKeys(s, k);
  }

  lemma TakeKeys(s: State, k: TxKey)
    requires s.inbound != []
    ensures var s' := ApplyReaderTake(s); var m := s.inbound[0];
      && s'.inbound == s.inbound[1..] && s'.started == s.started
      && (k in s'.tasks <==> k in s.tasks || (React(s.conn, m.ty).Spawn? && m.key == k))
  {
  }

  lemma StartStep(c: Config, s: State, e: Event, k: TxKey)
    requires Enabled(c, s, e) && KeyStart(s, k)
    ensures KeyStart(Apply(c, s, e), k)
  {
    if e.PeerSend? {
      CollectSnoc(s.inbound, e.msg, AsStart(k));
    } else if e.PeerAnswer? {
      CollectSnoc(s.inbound, ApplyPeerAnswer(c, s, e.index).inbound[|s.inbound|], AsStart(k));
    } else if e.ReaderTake? {
      StartTake(s, k);
    } else {
      StartsUntouched(c, s, e, k);
    }
  }

  // ---- preservation: paths ----

  /** Nothing a key depends on changed, except perhaps other keys' calls. */
  lemma PathFrame(s: State, s': State, k: TxKey)
    requires KeyPath(s, k)
    requires FlowOf(s', k) == FlowOf(s, k) && Waiter(s'.link, k) == Waiter(s.link, k)
    requires PhaseOf(s', k) == PhaseOf(s, k) && (s.link.closed ==> s'.link.closed)
    requires forall n :: n in s.calls && s.calls[n].key == k ==> n in s'.calls && s'.calls[n] == s.calls[n]
    ensures KeyPath(s', k)
  {
  }

  /** The key an event acts on. */
  function Target(s: State, e: Event): Option<TxKey> {
    match e
    case TaskStart(k) => Some(k)
    case GateAcquire(k) => Some(k)
    case CheckInsert(k) => Some(k)
    case Enqueue(k) => Some(k)
    case Receive(k) => Some(k)
    case DropEntry(k) => Some(k)
    case TaskSend(k) => Some(k)
    case Issue(k, _) => Some(k)
    case SetEvent(k, _, _) => Some(k)
    case Cancel(k, _) => Some(k)
    case UserReturn(k, _) => Some(k)
    case UserPanic(k) => Some(k)
    case ReaderTake => if s.inbound != [] then Some(s.inbound[0].key) else None
    case PeerAnswer(i) => if i < |s.inbox| && s.inbox[i].OutRequest? then Some(s.inbox[i].key) else None
    case _ => None
  }

  /** Events leave the task and the pending entry of other transactions alone. */
  lemma OthersUntouched(c: Config, s: State, e: Event, k: TxKey)
    requires Enabled(c, s, e) && Target(s, e) != Some(k)
    ensures var s' := Apply(c, s, e);
      && Waiter(s'.link, k) == Waiter(s.link, k) && PhaseOf(s', k) == PhaseOf(s, k)
      && (s.link.closed ==> s'.link.closed)
  {
    if e.ReaderTake? {
      TakeUntouched(s, k);
    }
  }

  lemma TakeUntouched(s: State, k: TxKey)
    requires s.inbound != [] && s.inbound[0].key != k
    ensures var s' := ApplyReaderTake(s);
      && Waiter(s'.link, k) == Waiter(s.link, k) && PhaseOf(s', k) == PhaseOf(s, k)
      && s'.link.closed == s.link.closed
  {
  }

  lemma FlowOther(c: Config, s: State, e: Event, k: TxKey)
    requires Enabled(c, s, e) && Target(s, e) != Some(k) && !e.QueueClose?
    ensures FlowOf(Apply(c, s, e), k) == FlowOf(s, k)
  {
    if e.PeerAnswer? {
      AnswerFlow(c, s, e.index, k);
    } else {
      FlowStep(c, s, e, k);
    }
  }

  lemma PathOther(c: Config, s: State, e: Event, k: TxKey)
    requires Inv(s) && Enabled(c, s, e) && Target(s, e) != Some(k) && !e.QueueClose?
    ensures KeyPath(Apply(c, s, e), k)
  {
    FlowOther(c, s, e, k);
    OthersUntouched(c, s, e, k);
    CallsFrame(c, s, e, k);
    assert KeyPath(s, k);
    PathFrame(s, Apply(c, s, e), k);
  }

  /** A request with the peer belongs, in the books, to the transaction it names. */
  lemma AnswerAsksOwner(c: Config, s: State, i: nat)
    requires Inv(s) && Enabled(c, s, PeerAnswer(i))
    ensures var m := s.inbox[i];
      && FlowOf(s, m.key) == [Asked(m.call, m.req)]
      && m.call in s.calls
      && (s.calls[m.call] == Open(m.key, m.req) || s.calls[m.call] == Orphan(m.key, m.req))
  {
    var m := s.inbox[i];
    AnswerFlow(c, s, i, m.key);
    assert KeyPath(s, m.key);
    assert Asked(m.call, m.req) in FlowOf(s, m.key);
  }

  /** The gate settles at most the call inside it. */
  lemma GateCalls(c: Config, s: State, e: Event)
    requires Enabled(c, s, e) && (e.CheckInsert? || e.Enqueue? || e.Receive?)
    requires KeyPath(s, e.key)
    ensures var n := s.tasks[e.key].phase.holder.value.call; var s' := Apply(c, s, e);
      && n in s.calls && s.calls[n].key == e.key && s'.next == s.next
      && (s'.calls == s.calls || (s'.calls.Keys == s.calls.Keys && s'.calls == s.calls[n := s'.calls[n]]))
  {
  }

  lemma CancelCalls(c: Config, s: State, k: TxKey, call: nat)
    requires Enabled(c, s, Cancel(k, call)) && KeyPath(s, k)
    ensures call in s.calls && s.calls[call].key == k
  {
  }

  /** Events leave the calls of other transactions alone. */
  lemma CallsFrame(c: Config, s: State, e: Event, k: TxKey)
    requires Inv(s) && Enabled(c, s, e) && Target(s, e) != Some(k)
    ensures var s' := Apply(c, s, e);
      forall n :: n in s.calls && s.calls[n].key == k ==> n in s'.calls && s'.calls[n] == s.calls[n]
  {
    if e.CheckInsert? || e.Enqueue? || e.Receive? {
      assert KeyPath(s, e.key);
      GateCalls(c, s, e);
    } else if e.Cancel? {
      assert KeyPath(s, e.key);
      CancelCalls(c, s, e.key, e.call);
    } else if e.PeerAnswer? {
      AnswerAsksOwner(c, s, e.index);
    } else {
      OtherCalls(c, s, e, k);
    }
  }

  lemma OtherCalls(c: Config, s: State, e: Event, k: TxKey)
    requires CallsBelow(s) && Enabled(c, s, e) && Target(s, e) != Some(k)
    requires !e.CheckInsert? && !e.Enqueue? && !e.Receive? && !e.Cancel? && !e.PeerAnswer?
    ensures var s' := Apply(c, s, e);
      forall n :: n in s.calls && s.calls[n].key == k ==> n in s'.calls && s'.calls[n] == s.calls[n]
  {
  }

  // ---- preservation: the key an event acts on ----

  lemma TaskStartPath(c: Config, s: State, k: TxKey)
    requires KeyPath(s, k) && k in s.tasks && s.tasks[k].phase.Starting?
    ensures KeyPath(ApplyTaskStart(c, s, k), k)
  {
    assert FlowOf(ApplyTaskStart(c, s, k), k) == FlowOf(s, k);
  }

  lemma GateAcquirePath(s: State, k: TxKey)
    requires KeyPath(s, k) && IsRunning(s, k) && s.tasks[k].phase.holder.None? && s.tasks[k].phase.tickets != []
    ensures KeyPath(ApplyGateAcquire(s, k), k)
  {
    var s' := ApplyGateAcquire(s, k);
    assert FlowOf(s', k) == FlowOf(s, k);
    assert TicketsOk(k, s.tasks[k].phase.tickets[1..], s.calls);
  }

  lemma RefusedOk(k: TxKey, f: seq<Item>, entry: Option<nat>, p: Phase, closed: bool, calls: map<nat, Status>)
    requires p.Running? && p.holder.Some? && p.holder.value.stage.Entered?
    requires PathOk(k, f, entry, Some(p), closed, calls)
    ensures PathOk(k, f, entry, Some(p.(holder := None)), closed,
                   calls[p.holder.value.call := Over(k, p.holder.value.req)])
  {
  }

  lemma InsertedOk(k: TxKey, f: seq<Item>, p: Phase, closed: bool, calls: map<nat, Status>)
    requires p.Running? && p.holder.Some? && p.holder.value.stage.Entered?
    requires PathOk(k, f, None, Some(p), closed, calls)
    ensures PathOk(k, f, Some(p.holder.value.call), Some(p.(holder := Some(p.holder.value.(stage := Waiting)))),
                   closed, calls)
  {
  }

  lemma CheckInsertPath(s: State, k: TxKey)
    requires KeyPath(s, k) && HolderIn(s, k, Entered)
    ensures KeyPath(ApplyCheckInsert(s, k), k)
  {
    assert FlowOf(ApplyCheckInsert(s, k), k) == FlowOf(s, k);
    var p := s.tasks[k].phase;
    if Waiter(s.link, k).Some? {
      RefusedOk(k, FlowOf(s, k), Waiter(s.link, k), p, s.link.closed, s.calls);
    } else {
      InsertedOk(k, FlowOf(s, k), p, s.link.closed, s.calls);
    }
  }

  lemma EnqueuePath(s: State, k: TxKey)
    requires KeyPath(s, k) && HolderIn(s, k, Waiting)
    ensures KeyPath(ApplyEnqueue(s, k), k)
  {
    var h := s.tasks[k].phase.holder.value;
    if !s.link.closed {
      PushFlow(s, ApplyEnqueue(s, k), OutRequest(k, h.call, h.req), k);
    } else {
      assert FlowOf(ApplyEnqueue(s, k), k) == FlowOf(s, k);
    }
  }

  lemma ReceivePath(s: State, k: TxKey)
    requires KeyPath(s, k) && HolderIn(s, k, Sent)
    requires s.tasks[k].phase.holder.value.slot.Some? || SenderDropped(s.link, k, s.tasks[k].phase.holder.value.call)
    ensures KeyPath(ApplyReceive(s, k), k)
  {
    assert FlowOf(ApplyReceive(s, k), k) == FlowOf(s, k);
  }

  lemma DropEntryPath(s: State, k: TxKey)
    requires KeyPath(s, k) && k in s.tasks && s.tasks[k].phase.Ended?
    ensures KeyPath(ApplyDropEntry(s, k), k)
  {
    assert FlowOf(ApplyDropEntry(s, k), k) == FlowOf(s, k);
  }

  lemma TaskSendPath(s: State, k: TxKey)
    requires KeyPath(s, k) && k in s.tasks && s.tasks[k].phase.Finishing?
    ensures KeyPath(ApplyTaskSend(s, k), k)
  {
    PushFlow(s, ApplyTaskSend(s, k), OutTerminal(k, s.tasks[k].phase.terminal), k);
  }

  lemma IssuedTickets(k: TxKey, ts: seq<Ticket>, calls: map<nat, Status>, n: nat, q: Request)
    requires TicketsOk(k, ts, calls) && forall m :: m in calls ==> m < n
    ensures TicketsOk(k, ts + [Ticket(n, q)], calls[n := Open(k, q)])
  {
  }

  lemma IssuedOk(k: TxKey, f: seq<Item>, entry: Option<nat>, p: Phase, closed: bool, calls: map<nat, Status>,
                 n: nat, q: Request, work: nat)
    requires p.Running? && PathOk(k, f, entry, Some(p), closed, calls)
    requires forall m :: m in calls ==> m < n
    ensures PathOk(k, f, entry, Some(p.(tickets := p.tickets + [Ticket(n, q)], work := work)), closed,
                   calls[n := Open(k, q)])
  {
    IssuedTickets(k, p.tickets, calls, n, q);
  }

  lemma IssuePath(s: State, k: TxKey, q: Request)
    requires KeyPath(s, k) && CallsBelow(s) && IsRunning(s, k) && s.tasks[k].phase.work > 0
    ensures KeyPath(ApplyIssue(s, k, q), k)
  {
    var p := s.tasks[k].phase;
    assert FlowOf(ApplyIssue(s, k, q), k) == FlowOf(s, k);
    IssuedOk(k, FlowOf(s, k), Waiter(s.link, k), p, s.link.closed, s.calls, s.next, q, p.work - 1);
  }

  lemma SetEventPath(s: State, k: TxKey, name: string, payload: Bytes)
    requires KeyPath(s, k) && IsRunning(s, k) && s.tasks[k].phase.work > 0
    ensures KeyPath(ApplySetEvent(s, k, name, payload), k)
  {
    assert FlowOf(ApplySetEvent(s, k, name, payload), k) == FlowOf(s, k);
  }

  /** Dropping one waiting call keeps the others, in order. */
  lemma {:induction false} WithoutOk(k: TxKey, ts: seq<Ticket>, call: nat, calls: map<nat, Status>)
    requires TicketsOk(k, ts, calls)
    ensures TicketsOk(k, Without(ts, call), calls)
    ensures forall t :: t in Without(ts, call) ==> t in ts && t.call != call
  {
    if ts != [] && ts[0].call != call {
      WithoutOk(k, ts[1..], call, calls);
      var rest := Without(ts[1..], call);
      forall j | 0 <= j < |rest|
        ensures ts[0].call < rest[j].call
      {
        assert rest[j] in ts[1..];
      }
    }
  }

  lemma {:induction false} WithoutAbove(ts: seq<Ticket>, call: nat, bound: nat)
    requires forall i :: 0 <= i < |ts| ==> bound < ts[i].call
    ensures forall i :: 0 <= i < |Without(ts, call)| ==> bound < Without(ts, call)[i].call
  {
    if ts != [] && ts[0].call != call {
      WithoutAbove(ts[1..], call, bound);
    }
  }

  lemma CancelTickets(k: TxKey, ts: seq<Ticket>, call: nat, calls: map<nat, Status>)
    requires TicketsOk(k, ts, calls) && call in calls
    ensures TicketsOk(k, Without(ts, call), calls[call := Abandoned(calls[call])])
  {
    WithoutOk(k, ts, call, calls);
    var rest := Without(ts, call);
    forall i | 0 <= i < |rest|
      ensures rest[i].call != call
    {
      assert rest[i] in rest;
    }
  }

  lemma CancelPath(s: State, k: TxKey, call: nat)
    requires KeyPath(s, k) && IsRunning(s, k) && Waits(s.tasks[k].phase, call)
    ensures KeyPath(ApplyCancel(s, k, call), k)
  {
    assert FlowOf(ApplyCancel(s, k, call), k) == FlowOf(s, k);
    var p := s.tasks[k].phase;
    if p.holder.Some? && p.holder.value.call == call {
      CancelHolderPath(s, k);
    } else {
      CancelTicketPath(s, k, call);
    }
  }

  lemma CancelHolderPath(s: State, k: TxKey)
    requires KeyPath(s, k) && IsRunning(s, k) && s.tasks[k].phase.holder.Some?
    ensures KeyPath(ApplyCancel(s, k, s.tasks[k].phase.holder.value.call), k)
  {
    assert FlowOf(ApplyCancel(s, k, s.tasks[k].phase.holder.value.call), k) == FlowOf(s, k);
  }

  lemma CancelTicketPath(s: State, k: TxKey, call: nat)
    requires KeyPath(s, k) && IsRunning(s, k) && Waits(s.tasks[k].phase, call)
    requires !(s.tasks[k].phase.holder.Some? && s.tasks[k].phase.holder.value.call == call)
    ensures KeyPath(ApplyCancel(s, k, call), k)
  {
    var p := s.tasks[k].phase;
    assert FlowOf(ApplyCancel(s, k, call), k) == FlowOf(s, k);
    var i: nat :| i < |p.tickets| && TicketAt(p.tickets, i, call);
    CancelTickets(k, p.tickets, call, s.calls);
    if Waiter(s.link, k).Some? {
      WithoutAbove(p.tickets, call, Waiter(s.link, k).value);
    }
    if p.holder.Some? {
      WithoutAbove(p.tickets, call, p.holder.value.call);
    }
  }

  lemma UserReturnPath(s: State, k: TxKey, response: TxResponse)
    requires KeyPath(s, k) && IsRunning(s, k)
    ensures KeyPath(ApplyUserReturn(s, k, response), k)
  {
    assert FlowOf(ApplyUserReturn(s, k, response), k) == FlowOf(s, k);
  }

  lemma UserPanicPath(c: Config, s: State, k: TxKey)
    requires KeyPath(s, k) && IsRunning(s, k)
    ensures KeyPath(ApplyUserPanic(c, s, k), k)
  {
    assert FlowOf(ApplyUserPanic(c, s, k), k) == FlowOf(s, k);
  }

  /** A routed reply leaves the flow; if its waiter is still inside the gate, it fills its slot. */
  lemma RoutedViews(s: State, k: TxKey)
    requires s.inbound != [] && s.inbound[0].key == k && React(s.conn, s.inbound[0].ty).Route?
    ensures var s' := ApplyReaderTake(s);
      && Waiter(s'.link, k).None?
      && PhaseOf(s', k) == if k in s.tasks && Waiter(s.link, k).Some?
                           then Some(Fill(s.tasks[k].phase, Waiter(s.link, k).value, ReplyOf(s.inbound[0])))
                           else PhaseOf(s, k)
  {
  }

  lemma OnlyItem(f: seq<Item>, x: Item, rest: seq<Item>)
    requires f == [x] + rest && |f| <= 1
    ensures f == [x] && rest == []
  {
  }

  lemma RoutedFlow(s: State, k: TxKey)
    requires KeyPath(s, k) && s.inbound != [] && s.inbound[0].key == k && React(s.conn, s.inbound[0].ty).Route?
    ensures FlowOf(s, k) == [Replied(s.inbound[0].call, ReplyOf(s.inbound[0]))]
    ensures FlowOf(ApplyReaderTake(s), k) == []
  {
    var s' := ApplyReaderTake(s);
    TakeQueues(s);
    TakeFlow(s, s', k);
    assert |FlowOf(s, k)| <= 1;
    OnlyItem(FlowOf(s, k), Replied(s.inbound[0].call, ReplyOf(s.inbound[0])), FlowOf(s', k));
  }

  lemma RoutedOk(k: TxKey, f: seq<Item>, entry: Option<nat>, p: Phase, closed: bool, calls: map<nat, Status>)
    requires PathOk(k, f, entry, Some(p), closed, calls) && f != [] && f[0].Replied?
    ensures PathOk(k, [], None, Some(if entry.Some? then Fill(p, entry.value, f[0].reply) else p), closed, calls)
  {
  }

  lemma RoutedPath(s: State, k: TxKey)
    requires KeyPath(s, k) && s.inbound != [] && s.inbound[0].key == k && React(s.conn, s.inbound[0].ty).Route?
    ensures KeyPath(ApplyReaderTake(s), k)
  {
    RoutedFlow(s, k);
    RoutedViews(s, k);
    RoutedRest(s);
    assert k in s.tasks;
    RoutedOk(k, FlowOf(s, k), Waiter(s.link, k), s.tasks[k].phase, s.link.closed, s.calls);
  }

  lemma RoutedRest(s: State)
    requires s.inbound != [] && React(s.conn, s.inbound[0].ty).Route?
    ensures var s' := ApplyReaderTake(s); s'.calls == s.calls && s'.link.closed == s.link.closed
  {
  }

  lemma SpawnPath(s: State, k: TxKey)
    requires KeyPath(s, k) && KeyStart(s, k) && s.inbound != [] && s.inbound[0].key == k
    requires React(s.conn, s.inbound[0].ty).Spawn? && (s.conn.Up? || s.tasks == map[])
    ensures KeyPath(ApplyReaderTake(s), k)
  {
    assert Collect(s.inbound, AsStart(k)) == AsStart(k)(s.inbound[0]) + Collect(s.inbound[1..], AsStart(k));
    PassFlow(s, k);
  }

  lemma ReaderTakePath(s: State, k: TxKey)
    requires KeyPath(s, k) && KeyStart(s, k) && s.inbound != [] && s.inbound[0].key == k
    requires s.conn.Up? || s.tasks == map[]
    ensures KeyPath(ApplyReaderTake(s), k)
  {
    match React(s.conn, s.inbound[0].ty)
    case Route => RoutedPath(s, k);
    case Spawn => SpawnPath(s, k);
    case _ => ReaderPassPath(s, k);
  }

  /** Messages the loop does not route carry no reply of a live transaction. */
  lemma PassFlow(s: State, k: TxKey)
    requires KeyPath(s, k) && s.inbound != [] && !React(s.conn, s.inbound[0].ty).Route?
    requires s.conn.Up? || s.tasks == map[]
    ensures var s' := ApplyReaderTake(s);
      FlowOf(s', k) == FlowOf(s, k) && Waiter(s'.link, k) == Waiter(s.link, k)
  {
    TakeQueues(s);
    TakeFlow(s, ApplyReaderTake(s), k);
    assert k in s.tasks || FlowOf(s, k) == [];
    assert InItem(s.inbound[0], k) == [];
  }

  lemma TakeQueues(s: State)
    requires s.inbound != []
    ensures var s' := ApplyReaderTake(s);
      && s'.inbound == s.inbound[1..] && s'.inbox == s.inbox && s'.link.out == s.link.out
      && (!React(s.conn, s.inbound[0].ty).Route? ==> s'.link == s.link)
  {
  }

  lemma ReaderPassPath(s: State, k: TxKey)
    requires KeyPath(s, k) && s.inbound != []
    requires !React(s.conn, s.inbound[0].ty).Route? && !React(s.conn, s.inbound[0].ty).Spawn?
    requires s.conn.Up? || s.tasks == map[]
    ensures KeyPath(ApplyReaderTake(s), k)
  {
    PassFlow(s, k);
    PathFrame(s, ApplyReaderTake(s), k);
  }

  lemma PeerAnswerPath(c: Config, s: State, i: nat, k: TxKey)
    requires Inv(s) && Enabled(c, s, PeerAnswer(i)) && s.inbox[i].key == k
    ensures KeyPath(ApplyPeerAnswer(c, s, i), k)
  {
    assert KeyPath(s, k);
    AnswerFlow(c, s, i, k);
    AnswerAsksOwner(c, s, i);
  }

  lemma QueueClosePath(c: Config, s: State, k: TxKey)
    requires KeyPath(s, k) && Enabled(c, s, QueueClose)
    ensures KeyPath(Apply(c, s, QueueClose), k)
  {
    CloseFlow(c, s, k);
  }

  lemma PathTarget(c: Config, s: State, e: Event, k: TxKey)
    requires Inv(s) && Enabled(c, s, e) && Target(s, e) == Some(k)
    ensures KeyPath(Apply(c, s, e), k)
  {
    assert KeyPath(s, k) && KeyStart(s, k);
    match e
    case TaskStart(_) => TaskStartPath(c, s, k);
    case GateAcquire(_) => GateAcquirePath(s, k);
    case CheckInsert(_) => CheckInsertPath(s, k);
    case Enqueue(_) => EnqueuePath(s, k);
    case Receive(_) => ReceivePath(s, k);
    case DropEntry(_) => DropEntryPath(s, k);
    case TaskSend(_) => TaskSendPath(s, k);
    case Issue(_, q) => IssuePath(s, k, q);
    case SetEvent(_, name, payload) => SetEventPath(s, k, name, payload);
    case Cancel(_, call) => CancelPath(s, k, call);
    case UserReturn(_, response) => UserReturnPath(s, k, response);
    case UserPanic(_) => UserPanicPath(c, s, k);
    case ReaderTake => ReaderTakePath(s, k);
    case PeerAnswer(i) => PeerAnswerPath(c, s, i, k);
    case _ =>
  }

  lemma BooksStep(c: Config, s: State, e: Event)
    requires Inv(s) && Enabled(c, s, e)
    ensures CallsBelow(Apply(c, s, e))
  {
    if e.CheckInsert? || e.Enqueue? || e.Receive? {
      assert KeyPath(s, e.key);
      GateCalls(c, s, e);
    } else {
      NumbersKept(c, s, e);
    }
  }

  lemma NumbersKept(c: Config, s: State, e: Event)
    requires CallsBelow(s) && Enabled(c, s, e) && !e.CheckInsert? && !e.Enqueue? && !e.Receive?
    ensures CallsBelow(Apply(c, s, e))
  {
  }

  lemma UpStep(c: Config, s: State, e: Event)
    requires Enabled(c, s, e) && (s.conn.Up? || s.tasks == map[])
    ensures var s' := Apply(c, s, e); s'.conn.Up? || s'.tasks == map[]
  {
  }

  lemma InvStep(c: Config, s: State, e: Event)
    requires Inv(s) && Enabled(c, s, e)
    ensures Inv(Apply(c, s, e))
  {
    var s' := Apply(c, s, e);
    BooksStep(c, s, e);
    UpStep(c, s, e);
    forall k ensures KeyStart(s', k) {
      assert KeyStart(s, k);
      StartStep(c, s, e, k);
    }
    forall k ensures KeyPath(s', k) {
      assert KeyPath(s, k);
      if e.QueueClose? {
        QueueClosePath(c, s, k);
      } else if Target(s, e) == Some(k) {
        PathTarget(c, s, e, k);
      } else {
        PathOther(c, s, e, k);
      }
    }
  }

  /** The invariant holds after every run, whatever is cancelled or panics. */
  lemma {:induction false} InvRun(c: Config, s: State, es: seq<Event>)
    requires Inv(s) && IsRun(c, s, es)
    ensures Inv(Final(c, s, es))
    decreases |es|
  {
    if es != [] {
      InvStep(c, s, es[0]);
      InvRun(c, Apply(c, s, es[0]), es[1..]);
    }
  }

  ghost predicate Reachable(c: Config, s: State) {
    exists es :: IsRun(c, Fresh(), es) && Final(c, Fresh(), es) == s
  }

  lemma ReachableInv(c: Config, s: State)
    requires Reachable(c, s)
    ensures Inv(s)
  {
    var es :| IsRun(c, Fresh(), es) && Final(c, Fresh(), es) == s;
    FreshInv();
    InvRun(c, Fresh(), es);
  }
}
