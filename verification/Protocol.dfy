/** The multiplexed protocol as a labelled transition system. One connection, any number
    of transactions, any number of concurrent stub calls in each. Every event is one
    atomic action of the shim, of user code, or of the peer, and events interleave freely.

    The fields `taken`, `ledger`, `returned`, `calls` and `link.sent` only record what
    happened: no guard and no other field depends on them, apart from the peer, whose
    answers are a function of the requests it has executed so far. */
module Protocol {
  import opened Wire
  import opened Links
  import opened Handshake
  import opened Utf8

  // ---- state ----

  /** The read loop: each writing state waits for room in the queue. */
  datatype Reader = Registering | Reading | Echoing(key: TxKey) | Rejecting(key: TxKey) | Stopped

  /** A stub call waiting for the transaction's gate. */
  datatype Ticket = Ticket(call: nat, req: Request)

  /** The call inside the gate: not yet registered; registered and waiting for room in
      the queue; or sent and waiting on its one-shot channel, which `slot` models. */
  datatype Stage = Entered | Waiting | Sent
  datatype Holder = Holder(call: nat, req: Request, stage: Stage, slot: Option<Reply>)

  datatype Phase =
    | Starting
    | Running(tickets: seq<Ticket>, holder: Option<Holder>, work: nat, event: Option<ChaincodeEvent>)
    | Ended(response: TxResponse, event: Option<ChaincodeEvent>)
    | Finishing(terminal: Terminal)
    | Done(terminal: Terminal, delivered: bool)

  datatype Task = Task(input: TxInput, phase: Phase)

  datatype Outcome = Answered(reply: Reply) | Refused(why: Failure)

  /** One executed request, in the order the peer executed them. */
  datatype Exec = Exec(call: nat, key: TxKey, req: Request, reply: Reply)

  /** One stub call that came back to user code. */
  datatype Returned = Returned(call: nat, key: TxKey, outcome: Outcome)

  /** Life of a call: issued; executed while the caller waits; abandoned by its caller
      before being executed; over. */
  datatype Status =
    | Open(key: TxKey, req: Request)
    | Effected(key: TxKey, req: Request, reply: Reply)
    | Orphan(key: TxKey, req: Request)
    | Over(key: TxKey, req: Request)

  datatype State = State(
    conn: ConnState,
    reader: Reader,
    link: Link,
    inbox: seq<OutMsg>,      // requests the peer has received and not answered
    inbound: seq<InMsg>,     // messages on their way to the read loop
    tasks: map<TxKey, Task>,
    accepted: seq<TxKey>,    // keys of `tasks` in the order of acceptance
    started: set<TxKey>,     // keys the peer has used on this connection
    next: nat,
    taken: seq<InMsg>,
    ledger: seq<Exec>,
    returned: seq<Returned>,
    calls: map<nat, Status>)

  /** `answer` is the peer: its reply to a request given everything executed before. */
  datatype Config = Config(
    capacity: nat,
    metadata: Option<TxResponse>,
    panicked: TxResponse,
    answer: (seq<Exec>, TxKey, Request) -> Reply)

  function Fresh(): State {
    State(Created, Registering, Link(map[], [], false, []), [], [], map[], [], {}, 0, [], [], [], map[])
  }

  // ---- events ----

  datatype Event =
    // the shim
    | ReaderWrite
    | ReaderTake
    | TaskStart(key: TxKey)
    | GateAcquire(key: TxKey)
    | CheckInsert(key: TxKey)
    | Enqueue(key: TxKey)
    | Receive(key: TxKey)
    | DropEntry(key: TxKey)
    | TaskSend(key: TxKey)
    // user code
    | Issue(key: TxKey, req: Request)
    | SetEvent(key: TxKey, name: string, payload: Bytes)
    | Cancel(key: TxKey, call: nat)
    | UserReturn(key: TxKey, response: TxResponse)
    | UserPanic(key: TxKey)
    // the peer and the stream
    | PeerSend(msg: InMsg)
    | PeerDrain
    | PeerAnswer(index: nat)
    | StreamEnd
    | QueueClose

  /** How a spawned task treats its input, in the order the task checks. */
  datatype Routing = BadInput | ServeMetadata(response: TxResponse) | BadProposal | RunHandler

  const METADATA_NAMESPACE: string := "org.hyperledger.fabric"
  const METADATA_NAME: string := "GetMetadata"
  const METADATA_FUNCTION: string := METADATA_NAMESPACE + [':'] + METADATA_NAME

  /** The whole first argument, byte for byte, is the system function's name. */
  predicate AsksForMetadata(args: seq<Bytes>) {
    args != [] && args[0] == Encode(METADATA_FUNCTION)
  }

  function RoutingOf(c: Config, input: TxInput): Routing {
    if input.args.None? then BadInput
    else if AsksForMetadata(input.args.value) && c.metadata.Some? then ServeMetadata(c.metadata.value)
    else if !input.proposalOk then BadProposal
    else RunHandler
  }

  predicate IsRunning(s: State, key: TxKey) {
    key in s.tasks && s.tasks[key].phase.Running?
  }

  predicate HolderIn(s: State, key: TxKey, stage: Stage) {
    IsRunning(s, key) && s.tasks[key].phase.holder.Some? && s.tasks[key].phase.holder.value.stage == stage
  }

  /** The one-shot sender of the waiting call is gone without having sent. */
  predicate SenderDropped(l: Link, key: TxKey, call: nat) {
    Waiter(l, key) != Some(call)
  }

  predicate TicketAt(tickets: seq<Ticket>, i: nat, call: nat) {
    i < |tickets| && tickets[i].call == call
  }

  predicate Waits(p: Phase, call: nat)
    requires p.Running?
  {
    || (p.holder.Some? && p.holder.value.call == call)
    || exists i: nat | i < |p.tickets| :: TicketAt(p.tickets, i, call)
  }

  predicate Enabled(c: Config, s: State, e: Event) {
    match e
    case ReaderWrite =>
      (s.reader.Registering? || s.reader.Echoing? || s.reader.Rejecting?) && CanSend(s.link, c.capacity)
    case ReaderTake => s.reader.Reading? && s.inbound != []
    case TaskStart(k) => k in s.tasks && s.tasks[k].phase.Starting?
    case GateAcquire(k) => IsRunning(s, k) && s.tasks[k].phase.holder.None? && s.tasks[k].phase.tickets != []
    case CheckInsert(k) => HolderIn(s, k, Entered)
    case Enqueue(k) => HolderIn(s, k, Waiting) && CanSend(s.link, c.capacity)
    case Receive(k) =>
      HolderIn(s, k, Sent)
      && (s.tasks[k].phase.holder.value.slot.Some? || SenderDropped(s.link, k, s.tasks[k].phase.holder.value.call))
    case DropEntry(k) => k in s.tasks && s.tasks[k].phase.Ended?
    case TaskSend(k) => k in s.tasks && s.tasks[k].phase.Finishing? && CanSend(s.link, c.capacity)
    case Issue(k, _) => IsRunning(s, k) && s.tasks[k].phase.work > 0
    case SetEvent(k, _, _) => IsRunning(s, k) && s.tasks[k].phase.work > 0
    case Cancel(k, call) => IsRunning(s, k) && Waits(s.tasks[k].phase, call)
    case UserReturn(k, _) => IsRunning(s, k) && s.tasks[k].phase.holder.None? && s.tasks[k].phase.tickets == []
    case UserPanic(k) => IsRunning(s, k)
    // The peer invents no replies and starts each transaction once.
    case PeerSend(m) =>
      && m.ty != MsgType.Response && m.ty != MsgType.Error
      && (m.ty == MsgType.Init || m.ty == MsgType.Transaction ==> m.key !in s.started)
    case PeerDrain => s.link.out != []
    // The peer answers requests in any order across transactions, in order within one.
    case PeerAnswer(i) =>
      && i < |s.inbox| && s.inbox[i].OutRequest?
      && forall j :: 0 <= j < i ==> !(s.inbox[j].OutRequest? && s.inbox[j].key == s.inbox[i].key)
    case StreamEnd => s.reader.Reading?
    case QueueClose => !s.link.closed
  }

  // ---- effects ----

  function SetPhase(s: State, k: TxKey, p: Phase): State
    requires k in s.tasks
  {
    s.(tasks := s.tasks[k := s.tasks[k].(phase := p)])
  }

  function Settle(s: State, h: Holder, key: TxKey, outcome: Outcome): State {
    s.(returned := s.returned + [Returned(h.call, key, outcome)], calls := s.calls[h.call := Over(key, h.req)])
  }

  function Abandoned(st: Status): Status {
    match st
    case Open(k, q) => Orphan(k, q)
    case Effected(k, q, _) => Over(k, q)
    case _ => st
  }

  function AbandonAll(calls: map<nat, Status>, key: TxKey): map<nat, Status> {
    map x | x in calls :: if calls[x].key == key then Abandoned(calls[x]) else calls[x]
  }

  function ReplyOf(m: InMsg): Reply {
    Reply(m.ty == MsgType.Response, m.payload)
  }

  /** Hand a routed reply to the receiver, if the call that owns the entry still waits. */
  function Fill(p: Phase, call: nat, r: Reply): Phase {
    if p.Running? && p.holder.Some? && p.holder.value.call == call then
      p.(holder := Some(p.holder.value.(slot := Some(r))))
    else p
  }

  function Deliver(s: State, key: TxKey, r: Reply): State {
    var s1 := s.(link := Drop(s.link, key));
    match Waiter(s.link, key)
    case Some(call) => if key in s.tasks then SetPhase(s1, key, Fill(s.tasks[key].phase, call, r)) else s1
    case None => s1
  }

  function WriteOf(r: Reader): (m: OutMsg)
    requires r.Registering? || r.Echoing? || r.Rejecting?
  {
    match r case Registering => OutRegister case Echoing(k) => OutEcho(k) case Rejecting(k) => OutReject(k)
  }

  function ApplyReaderWrite(s: State): State
    requires s.reader.Registering? || s.reader.Echoing? || s.reader.Rejecting?
  {
    s.(link := Push(s.link, WriteOf(s.reader)),
       reader := match s.reader
                 case Registering => if s.link.closed then Stopped else Reading
                 case Rejecting(_) => Stopped
                 case _ => Reading)
  }

  function ApplyReaderTake(s: State): State
    requires s.inbound != []
  {
    var m := s.inbound[0];
    var s1 := s.(inbound := s.inbound[1..], taken := s.taken + [m], conn := After(s.conn, m.ty));
    match React(s.conn, m.ty)
    case Advance(_) => s1
    case Echo => s1.(reader := Echoing(m.key))
    case Spawn =>
      s1.(tasks := s.tasks[m.key := Task(m.input, Starting)], accepted := s.accepted + [m.key])
    case Route => Deliver(s1, m.key, ReplyOf(m))
    case Reject => s1.(reader := Rejecting(m.key))
  }

  /** Where a task goes from its input: straight to a terminal message, or into user code. */
  function StartPhase(c: Config, input: TxInput): Phase {
    match RoutingOf(c, input)
    case ServeMetadata(response) => Finishing(Completion(response, None))
    case RunHandler => Running([], None, input.work, None)
    case _ => Finishing(Failed)
  }

  function ApplyTaskStart(c: Config, s: State, k: TxKey): State
    requires k in s.tasks
  {
    SetPhase(s, k, StartPhase(c, s.tasks[k].input))
  }

  function ApplyGateAcquire(s: State, k: TxKey): State
    requires IsRunning(s, k) && s.tasks[k].phase.tickets != []
  {
    var p := s.tasks[k].phase;
    SetPhase(s, k, p.(tickets := p.tickets[1..],
                      holder := Some(Holder(p.tickets[0].call, p.tickets[0].req, Entered, None))))
  }

  function ApplyCheckInsert(s: State, k: TxKey): State
    requires HolderIn(s, k, Entered)
  {
    var p := s.tasks[k].phase;
    var h := p.holder.value;
    if Waiter(s.link, k).Some? then
      Settle(SetPhase(s, k, p.(holder := None)), h, k, Refused(AlreadyInFlight))
    else
      SetPhase(s.(link := Insert(s.link, k, h.call)), k, p.(holder := Some(h.(stage := Waiting))))
  }

  function ApplyEnqueue(s: State, k: TxKey): State
    requires HolderIn(s, k, Waiting)
  {
    var p := s.tasks[k].phase;
    var h := p.holder.value;
    if s.link.closed then
      Settle(SetPhase(s.(link := Drop(s.link, k)), k, p.(holder := None)), h, k, Refused(ConnectionClosed))
    else
      SetPhase(s.(link := Push(s.link, OutRequest(k, h.call, h.req))), k, p.(holder := Some(h.(stage := Sent))))
  }

  function ApplyReceive(s: State, k: TxKey): State
    requires HolderIn(s, k, Sent)
  {
    var p := s.tasks[k].phase;
    var h := p.holder.value;
    Settle(SetPhase(s, k, p.(holder := None)), h, k,
           if h.slot.Some? then Answered(h.slot.value) else Refused(ConnectionClosed))
  }

  function ApplyDropEntry(s: State, k: TxKey): State
    requires k in s.tasks && s.tasks[k].phase.Ended?
  {
    var p := s.tasks[k].phase;
    SetPhase(s.(link := Drop(s.link, k)), k, Finishing(Completion(p.response, p.event)))
  }

  function ApplyTaskSend(s: State, k: TxKey): State
    requires k in s.tasks && s.tasks[k].phase.Finishing?
  {
    var t := s.tasks[k].phase.terminal;
    SetPhase(s.(link := Push(s.link, OutTerminal(k, t))), k, Done(t, !s.link.closed))
  }

  function ApplyIssue(s: State, k: TxKey, q: Request): State
    requires IsRunning(s, k) && s.tasks[k].phase.work > 0
  {
    var p := s.tasks[k].phase;
    SetPhase(s, k, p.(tickets := p.tickets + [Ticket(s.next, q)], work := p.work - 1))
      .(next := s.next + 1, calls := s.calls[s.next := Open(k, q)])
  }

  /** A second event replaces the first; an unnamed one is refused. */
  function ApplySetEvent(s: State, k: TxKey, name: string, payload: Bytes): State
    requires IsRunning(s, k) && s.tasks[k].phase.work > 0
  {
    var p := s.tasks[k].phase;
    SetPhase(s, k, p.(work := p.work - 1,
                      event := if name == "" then p.event else Some(ChaincodeEvent(k.txid, name, payload))))
  }

  /** The caller drops the future of one call, which may be the one inside the gate. */
  function ApplyCancel(s: State, k: TxKey, call: nat): State
    requires IsRunning(s, k)
  {
    var p := s.tasks[k].phase;
    SetPhase(s, k,
      if p.holder.Some? && p.holder.value.call == call then p.(holder := None)
      else p.(tickets := Without(p.tickets, call)))
      .(calls := if call in s.calls then s.calls[call := Abandoned(s.calls[call])] else s.calls)
  }

  function Without(tickets: seq<Ticket>, call: nat): seq<Ticket> {
    if tickets == [] then []
    else if tickets[0].call == call then tickets[1..]
    else [tickets[0]] + Without(tickets[1..], call)
  }

  function ApplyUserReturn(s: State, k: TxKey, response: TxResponse): State
    requires IsRunning(s, k)
  {
    SetPhase(s, k, Ended(response, s.tasks[k].phase.event))
  }

  /** A panic drops every future of the handler; the event set so far survives. */
  function ApplyUserPanic(c: Config, s: State, k: TxKey): State
    requires IsRunning(s, k)
  {
    SetPhase(s, k, Ended(c.panicked, s.tasks[k].phase.event)).(calls := AbandonAll(s.calls, k))
  }

  function ApplyPeerSend(s: State, m: InMsg): State {
    s.(inbound := s.inbound + [m],
       started := if m.ty == MsgType.Init || m.ty == MsgType.Transaction then s.started + {m.key} else s.started)
  }

  function ApplyPeerDrain(s: State): State
    requires s.link.out != []
  {
    var m := s.link.out[0];
    s.(link := s.link.(out := s.link.out[1..]), inbox := if m.OutRequest? then s.inbox + [m] else s.inbox)
  }

  function ReplyTo(c: Config, s: State, m: OutMsg): Reply
    requires m.OutRequest?
  {
    c.answer(s.ledger, m.key, m.req)
  }

  /** Execute one request against the ledger and send the answer. */
  function ApplyPeerAnswer(c: Config, s: State, i: nat): State
    requires i < |s.inbox| && s.inbox[i].OutRequest?
  {
    var m := s.inbox[i];
    var r := ReplyTo(c, s, m);
    s.(inbox := s.inbox[..i] + s.inbox[i + 1..],
       inbound := s.inbound + [InMsg(if r.ok then MsgType.Response else MsgType.Error, m.key,
                                     TxInput(None, false, 0), m.call, r.payload)],
       ledger := s.ledger + [Exec(m.call, m.key, m.req, r)],
       calls := if m.call !in s.calls then s.calls
                else match s.calls[m.call]
                     case Open(k, q) => s.calls[m.call := Effected(k, q, r)]
                     case Orphan(k, q) => s.calls[m.call := Over(k, q)]
                     case _ => s.calls)
  }

  function Apply(c: Config, s: State, e: Event): State
    requires Enabled(c, s, e)
  {
    match e
    case ReaderWrite => ApplyReaderWrite(s)
    case ReaderTake => ApplyReaderTake(s)
    case TaskStart(k) => ApplyTaskStart(c, s, k)
    case GateAcquire(k) => ApplyGateAcquire(s, k)
    case CheckInsert(k) => ApplyCheckInsert(s, k)
    case Enqueue(k) => ApplyEnqueue(s, k)
    case Receive(k) => ApplyReceive(s, k)
    case DropEntry(k) => ApplyDropEntry(s, k)
    case TaskSend(k) => ApplyTaskSend(s, k)
    case Issue(k, q) => ApplyIssue(s, k, q)
    case SetEvent(k, name, payload) => ApplySetEvent(s, k, name, payload)
    case Cancel(k, call) => ApplyCancel(s, k, call)
    case UserReturn(k, response) => ApplyUserReturn(s, k, response)
    case UserPanic(k) => ApplyUserPanic(c, s, k)
    case PeerSend(m) => ApplyPeerSend(s, m)
    case PeerDrain => ApplyPeerDrain(s)
    case PeerAnswer(i) => ApplyPeerAnswer(c, s, i)
    case StreamEnd => s.(reader := Stopped)
    case QueueClose => s.(link := s.link.(closed := true, out := []))
  }

  // ---- runs ----

  ghost predicate IsRun(c: Config, s: State, es: seq<Event>)
    decreases |es|
  {
    es == [] || (Enabled(c, s, es[0]) && IsRun(c, Apply(c, s, es[0]), es[1..]))
  }

  ghost function Final(c: Config, s: State, es: seq<Event>): State
    requires IsRun(c, s, es)
    decreases |es|
  {
    if es == [] then s else Final(c, Apply(c, s, es[0]), es[1..])
  }
}
