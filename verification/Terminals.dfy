/** What the shim sends on behalf of each transaction, and the handshake inside a run. */
module Terminals {
  import opened Wire
  import opened Links
  import opened Handshake
  import opened Protocol
  import opened Projection
  import opened Safety

  /** The messages the task of key `k` puts on the queue. */
  function AsTaskMsg(k: TxKey): OutMsg -> seq<OutMsg> {
    (m: OutMsg) => if (m.OutRequest? || m.OutTerminal?) && m.key == k then [m] else []
  }

  function TaskMsgs(s: State, k: TxKey): seq<OutMsg> {
    Collect(s.link.sent, AsTaskMsg(k))
  }

  predicate AllRequests(ms: seq<OutMsg>) {
    forall i :: 0 <= i < |ms| ==> ms[i].OutRequest?
  }

  /** Requests, then the terminal message, then nothing. */
  predicate EndsWith(ms: seq<OutMsg>, last: OutMsg) {
    ms != [] && ms[|ms| - 1] == last && AllRequests(ms[..|ms| - 1])
  }

  ghost predicate KeyTerminal(s: State, k: TxKey) {
    match PhaseOf(s, k)
    case None => TaskMsgs(s, k) == []
    case Some(Starting) => TaskMsgs(s, k) == []
    case Some(Done(t, true)) => EndsWith(TaskMsgs(s, k), OutTerminal(k, t))
    case Some(Done(_, false)) => s.link.closed && AllRequests(TaskMsgs(s, k))
    case _ => AllRequests(TaskMsgs(s, k))
  }

  /** The kind of terminal message each input calls for. */
  ghost predicate Fits(c: Config, input: TxInput, t: Terminal) {
    match RoutingOf(c, input)
    case ServeMetadata(response) => t == Completion(response, None)
    case RunHandler => t.Completion?
    case _ => t == Failed
  }

  ghost predicate KeyOutcome(c: Config, s: State, k: TxKey) {
    k in s.tasks ==>
      match s.tasks[k].phase
      case Starting => true
      case Finishing(t) => Fits(c, s.tasks[k].input, t)
      case Done(t, _) => Fits(c, s.tasks[k].input, t)
      case _ => RoutingOf(c, s.tasks[k].input).RunHandler?
  }

  lemma SentGrows(c: Config, s: State, e: Event)
    requires Enabled(c, s, e)
    ensures var s' := Apply(c, s, e);
      match e
      case ReaderWrite => s'.link.sent == Push(s.link, WriteOf(s.reader)).sent
      case Enqueue(k) =>
        var h := s.tasks[k].phase.holder.value;
        s'.link.sent == Push(s.link, OutRequest(k, h.call, h.req)).sent
      case TaskSend(k) => s'.link.sent == Push(s.link, OutTerminal(k, s.tasks[k].phase.terminal)).sent
      case _ => s'.link.sent == s.link.sent
  {
  }

  lemma TerminalOther(c: Config, s: State, e: Event, k: TxKey)
    requires Enabled(c, s, e) && Target(s, e) != Some(k)
    ensures TaskMsgs(Apply(c, s, e), k) == TaskMsgs(s, k)
  {
    SentGrows(c, s, e);
    match e
    case ReaderWrite => CollectSnoc(s.link.sent, WriteOf(s.reader), AsTaskMsg(k));
    case Enqueue(key) =>
      var h := s.tasks[key].phase.holder.value;
      CollectSnoc(s.link.sent, OutRequest(key, h.call, h.req), AsTaskMsg(k));
    case TaskSend(key) =>
      CollectSnoc(s.link.sent, OutTerminal(key, s.tasks[key].phase.terminal), AsTaskMsg(k));
    case _ =>
  }

  lemma TerminalEnqueue(s: State, k: TxKey)
    requires HolderIn(s, k, Waiting) && KeyTerminal(s, k)
    ensures KeyTerminal(ApplyEnqueue(s, k), k)
  {
    var h := s.tasks[k].phase.holder.value;
    CollectSnoc(s.link.sent, OutRequest(k, h.call, h.req), AsTaskMsg(k));
  }

  lemma TerminalSend(s: State, k: TxKey)
    requires k in s.tasks && s.tasks[k].phase.Finishing? && KeyTerminal(s, k)
    ensures KeyTerminal(ApplyTaskSend(s, k), k)
  {
    var m := OutTerminal(k, s.tasks[k].phase.terminal);
    CollectSnoc(s.link.sent, m, AsTaskMsg(k));
    assert (TaskMsgs(s, k) + [m])[..|TaskMsgs(s, k)|] == TaskMsgs(s, k);
  }

  lemma TerminalTarget(c: Config, s: State, e: Event, k: TxKey)
    requires Enabled(c, s, e) && Target(s, e) == Some(k) && !e.ReaderTake? && !e.PeerAnswer?
    requires KeyTerminal(s, k)
    ensures KeyTerminal(Apply(c, s, e), k)
  {
    match e
    case Enqueue(_) => TerminalEnqueue(s, k);
    case TaskSend(_) => TerminalSend(s, k);
    case _ => SentGrows(c, s, e);
  }

  /** Reading a message sends nothing and moves a task only by accepting it or by handing
      a reply to its handler. */
  lemma TakePhase(c: Config, s: State, k: TxKey)
    requires Enabled(c, s, ReaderTake) && KeyStart(s, k)
    ensures var s' := ApplyReaderTake(s);
      && s'.link.sent == s.link.sent
      && (k !in s.tasks ==> PhaseOf(s', k).None? || PhaseOf(s', k) == Some(Starting))
      && (k in s.tasks ==> k in s'.tasks && s'.tasks[k].input == s.tasks[k].input
                           && (s'.tasks[k].phase == s.tasks[k].phase
                               || (s.tasks[k].phase.Running? && s'.tasks[k].phase.Running?)))
  {
    var m := s.inbound[0];
    assert Collect(s.inbound, AsStart(k)) == AsStart(k)(m) + Collect(s.inbound[1..], AsStart(k));
  }

  lemma TerminalStep(c: Config, s: State, e: Event, k: TxKey)
    requires Inv(s) && Enabled(c, s, e) && KeyTerminal(s, k)
    ensures KeyTerminal(Apply(c, s, e), k)
  {
    assert KeyStart(s, k);
    if Target(s, e) != Some(k) {
      TerminalOther(c, s, e, k);
      OthersUntouched(c, s, e, k);
    } else if e.ReaderTake? {
      TakePhase(c, s, k);
    } else if e.PeerAnswer? {
      assert TaskMsgs(Apply(c, s, e), k) == TaskMsgs(s, k);
    } else {
      TerminalTarget(c, s, e, k);
    }
  }

  lemma OutcomeStep(c: Config, s: State, e: Event, k: TxKey)
    requires Inv(s) && Enabled(c, s, e) && KeyOutcome(c, s, k)
    ensures KeyOutcome(c, Apply(c, s, e), k)
  {
    assert KeyStart(s, k);
    if Target(s, e) != Some(k) {
      InputsUntouched(c, s, e, k);
    } else if e.ReaderTake? {
      TakePhase(c, s, k);
    }
  }

  lemma InputsUntouched(c: Config, s: State, e: Event, k: TxKey)
    requires Enabled(c, s, e) && Target(s, e) != Some(k)
    ensures var s' := Apply(c, s, e);
      (k in s'.tasks <==> k in s.tasks) && (k in s.tasks ==> s'.tasks[k] == s.tasks[k])
  {
  }

  // ---- registration and handshake ----

  predicate Registers(sent: seq<OutMsg>) {
    forall i :: 0 <= i < |sent| ==> (sent[i] == OutRegister <==> i == 0)
  }

  predicate RejectsOnce(sent: seq<OutMsg>) {
    forall i, j :: 0 <= i < j < |sent| ==> !(sent[i].OutReject? && sent[j].OutReject?)
  }

  predicate Rejects(sent: seq<OutMsg>) {
    exists i :: 0 <= i < |sent| && sent[i].OutReject?
  }

  ghost predicate SentOk(s: State) {
    && (s.reader.Registering? ==> s.link.sent == [] && s.tasks == map[])
    && (!s.reader.Registering? && s.link.sent == [] ==> s.link.closed && s.reader.Stopped? && s.tasks == map[])
    && Registers(s.link.sent) && RejectsOnce(s.link.sent)
    && (Rejects(s.link.sent) ==> s.reader.Stopped? && Drive(Created, s.taken).rejected)
  }

  ghost predicate TakenOk(s: State) {
    var d := Drive(Created, s.taken);
    && d.conn == s.conn && d.taken == |s.taken|
    && (s.reader.Registering? || s.reader.Reading? || s.reader.Echoing? ==> !d.rejected)
    && (s.reader.Rejecting? ==> d.rejected && s.reader.key == s.taken[|s.taken| - 1].key)
  }

  lemma RegisterSent(s: State)
    requires SentOk(s) && s.reader.Registering?
    ensures SentOk(ApplyReaderWrite(s))
  {
  }

  lemma ReaderWriteSent(s: State)
    requires SentOk(s) && TakenOk(s) && (s.reader.Echoing? || s.reader.Rejecting?)
    ensures SentOk(ApplyReaderWrite(s))
  {
    var sent := s.link.sent;
    if sent != [] && !s.link.closed {
      assert forall i :: 0 <= i < |sent| ==> (sent + [WriteOf(s.reader)])[i] == sent[i];
    }
  }

  lemma OthersSent(c: Config, s: State, e: Event)
    requires Enabled(c, s, e) && SentOk(s) && !e.ReaderWrite? && !e.ReaderTake? && !e.StreamEnd?
    ensures SentOk(Apply(c, s, e))
  {
    SentGrows(c, s, e);
    TakenKept(c, s, e);
    if s.tasks == map[] {
      NoTasksYet(c, s, e);
    }
  }

  lemma NoTasksYet(c: Config, s: State, e: Event)
    requires Enabled(c, s, e) && s.tasks == map[] && !e.ReaderTake?
    ensures Apply(c, s, e).tasks == map[] && !e.Enqueue? && !e.TaskSend?
  {
  }

  lemma SentStep(c: Config, s: State, e: Event)
    requires Enabled(c, s, e) && SentOk(s) && TakenOk(s)
    ensures SentOk(Apply(c, s, e))
  {
    match e
    case ReaderWrite =>
      if s.reader.Registering? {
        RegisterSent(s);
      } else {
        ReaderWriteSent(s);
      }
    case ReaderTake => SentGrows(c, s, e);
    case StreamEnd => SentGrows(c, s, e);
    case _ => OthersSent(c, s, e);
  }

  lemma TakenKept(c: Config, s: State, e: Event)
    requires Enabled(c, s, e)
    ensures !e.ReaderTake? ==> var s' := Apply(c, s, e); s'.taken == s.taken && s'.conn == s.conn
    ensures !e.ReaderTake? && !e.ReaderWrite? && !e.StreamEnd? ==> Apply(c, s, e).reader == s.reader
  {
  }

  lemma TakenByReader(s: State)
    requires s.reader.Reading? && s.inbound != [] && TakenOk(s)
    ensures TakenOk(ApplyReaderTake(s))
  {
    DriveSnoc(Created, s.taken, s.inbound[0]);
    TakeMoves(s);
  }

  lemma TakeMoves(s: State)
    requires s.inbound != []
    ensures var m, s' := s.inbound[0], ApplyReaderTake(s);
      && s'.taken == s.taken + [m] && s'.conn == After(s.conn, m.ty)
      && s'.reader == match React(s.conn, m.ty)
                      case Echo => Echoing(m.key)
                      case Reject => Rejecting(m.key)
                      case _ => s.reader
  {
  }

  lemma TakenStep(c: Config, s: State, e: Event)
    requires Enabled(c, s, e) && TakenOk(s)
    ensures TakenOk(Apply(c, s, e))
  {
    if e.ReaderTake? {
      TakenByReader(s);
    } else {
      TakenKept(c, s, e);
    }
  }

  ghost predicate TermInv(c: Config, s: State) {
    && Inv(s) && SentOk(s) && TakenOk(s)
    && (forall k :: KeyTerminal(s, k))
    && (forall k :: KeyOutcome(c, s, k))
  }

  lemma TermInvStep(c: Config, s: State, e: Event)
    requires TermInv(c, s) && Enabled(c, s, e)
    ensures TermInv(c, Apply(c, s, e))
  {
    InvStep(c, s, e);
    SentStep(c, s, e);
    TakenStep(c, s, e);
    forall k ensures KeyTerminal(Apply(c, s, e), k) {
      TerminalStep(c, s, e, k);
    }
    forall k ensures KeyOutcome(c, Apply(c, s, e), k) {
      OutcomeStep(c, s, e, k);
    }
  }

  lemma {:induction false} TermInvRun(c: Config, s: State, es: seq<Event>)
    requires TermInv(c, s) && IsRun(c, s, es)
    ensures TermInv(c, Final(c, s, es))
    decreases |es|
  {
    if es != [] {
      TermInvStep(c, s, es[0]);
      TermInvRun(c, Apply(c, s, es[0]), es[1..]);
    }
  }

  lemma ReachableTermInv(c: Config, s: State)
    requires Reachable(c, s)
    ensures TermInv(c, s)
  {
    var es :| IsRun(c, Fresh(), es) && Final(c, Fresh(), es) == s;
    FreshInv();
    TermInvRun(c, Fresh(), es);
  }

  // ---- results ----

  predicate OfTask(m: OutMsg, k: TxKey) {
    (m.OutRequest? || m.OutTerminal?) && m.key == k
  }

  /** Exactly one terminal message per accepted transaction once its task is done and the
      queue is open, of the kind its input calls for; at most one in any case; none for a
      key that was never accepted; and no ledger request follows it. */
  lemma OneTerminalPerTransaction(c: Config, s: State, k: TxKey)
    requires Reachable(c, s)
    ensures k !in s.tasks ==> forall i :: 0 <= i < |s.link.sent| ==> !OfTask(s.link.sent[i], k)
    ensures forall i, j :: 0 <= i < j < |s.link.sent| && OfTask(s.link.sent[i], k) && OfTask(s.link.sent[j], k)
              ==> s.link.sent[i].OutRequest?
    ensures k in s.tasks && !s.link.closed ==>
      (s.tasks[k].phase.Done? <==>
        exists i :: 0 <= i < |s.link.sent| && OfTask(s.link.sent[i], k) && s.link.sent[i].OutTerminal?)
    ensures forall i :: 0 <= i < |s.link.sent| && OfTask(s.link.sent[i], k) && s.link.sent[i].OutTerminal?
              ==> k in s.tasks && Fits(c, s.tasks[k].input, s.link.sent[i].terminal)
  {
    ReachableTermInv(c, s);
    assert KeyTerminal(s, k) && KeyOutcome(c, s, k);
    var ms := TaskMsgs(s, k);
    InProjection(s.link.sent, k);
    RequestsFirst(s.link.sent, k);
    if ms != [] {
      FromProjection(s.link.sent, ms[|ms| - 1], k);
    }
  }

  lemma InProjection(sent: seq<OutMsg>, k: TxKey)
    ensures forall i :: 0 <= i < |sent| && OfTask(sent[i], k) ==> sent[i] in Collect(sent, AsTaskMsg(k))
  {
    forall i | 0 <= i < |sent| && OfTask(sent[i], k)
      ensures sent[i] in Collect(sent, AsTaskMsg(k))
    {
      CollectSplit(sent, i, AsTaskMsg(k));
      assert sent[i] in AsTaskMsg(k)(sent[i]);
    }
  }

  /** In the queue's history as in the projection, only the last message is not a request. */
  lemma RequestsFirst(sent: seq<OutMsg>, k: TxKey)
    requires var ms := Collect(sent, AsTaskMsg(k)); ms == [] || AllRequests(ms[..|ms| - 1])
    ensures forall i, j :: 0 <= i < j < |sent| && OfTask(sent[i], k) && OfTask(sent[j], k) ==> sent[i].OutRequest?
  {
    forall i, j | 0 <= i < j < |sent| && OfTask(sent[i], k) && OfTask(sent[j], k)
      ensures sent[i].OutRequest?
    {
      var ms := Collect(sent, AsTaskMsg(k));
      CollectEarlier(sent, i, j, AsTaskMsg(k), sent[i]);
      var p :| 0 <= p < |ms| - 1 && ms[p] == sent[i];
      assert ms[..|ms| - 1][p] == sent[i];
    }
  }

  lemma {:induction false} FromProjection(sent: seq<OutMsg>, m: OutMsg, k: TxKey)
    requires m in Collect(sent, AsTaskMsg(k))
    ensures m in sent && OfTask(m, k)
  {
    if sent != [] && m !in AsTaskMsg(k)(sent[0]) {
      FromProjection(sent[1..], m, k);
    }
  }
}
