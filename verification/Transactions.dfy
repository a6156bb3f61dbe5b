/** The two ends of a transaction's task, as code over the shared link, and the event that
    rides on its last message. */
module Transactions {
  import opened Wire
  import opened Links
  import opened Protocol
  import opened Safety
  import opened Limits
  import opened Terminals
  import opened ReadLoop
  import opened Utf8
  import opened Handshake

  /** The slot shared between the stub and the task. */
  class EventSlot {
    var event: Option<ChaincodeEvent>

    constructor ()
      ensures event == None
    {
      event := None;
    }

    method SetEvent(txid: string, name: string, payload: Bytes) returns (r: Result<()>)
      modifies this
      ensures r.Ok? <==> name != ""
      ensures event == if name == "" then old(event) else Some(ChaincodeEvent(txid, name, payload))
    {
      if name == "" {
        return Err(InvalidArgument);
      }
      event := Some(ChaincodeEvent(txid, name, payload));
      r := Ok(());
    }

    method Take() returns (e: Option<ChaincodeEvent>)
      modifies this
      ensures e == old(event) && event == None
    {
      e := event;
      event := None;
    }
  }

  /** Wait for room and send the transaction's last message. */
  method SendTerminal(link: PeerLink, key: TxKey, t: Terminal)
    requires link.Valid()
    modifies link
    ensures link.Valid() && SentAfterWait(old(link.View()), link.View(), OutTerminal(key, t))
  {
    var _ := link.SendAwaited(OutTerminal(key, t));
  }

  /** What happens before user code: decode, serve metadata, build the stub, in that order.
      Without a stub the transaction is over, with the terminal message its input calls for. */
  method StartTransaction(c: Config, link: PeerLink, key: TxKey, input: TxInput) returns (slot: EventSlot?)
    requires link.Valid()
    modifies link
    ensures link.Valid()
    ensures slot != null <==> StartPhase(c, input).Running?
    ensures slot != null ==> fresh(slot) && slot.event == None && link.View() == old(link.View())
    ensures slot == null ==>
      SentAfterWait(old(link.View()), link.View(), OutTerminal(key, StartPhase(c, input).terminal))
  {
    slot := null;
    if input.args.None? {
      SendTerminal(link, key, Failed);
      return;
    }
    if AsksForMetadata(input.args.value) {
      if c.metadata.Some? {
        SendTerminal(link, key, Completion(c.metadata.value, None));
        return;
      }
    }
    if !input.proposalOk {
      SendTerminal(link, key, Failed);
      return;
    }
    slot := new EventSlot();
  }

  /** What happens after user code returned or panicked: forget the pending entry, take the
      event, send COMPLETED. The entry is gone before the message is queued. */
  method FinishTransaction(link: PeerLink, key: TxKey, slot: EventSlot, response: TxResponse)
    requires link.Valid()
    modifies link, slot
    ensures link.Valid() && slot.event == None && Waiter(link.View(), key).None?
    ensures SentAfterWait(Drop(old(link.View()), key), link.View(),
                          OutTerminal(key, Completion(response, old(slot.event))))
  {
    link.DropPending(key);
    var event := slot.Take();
    SendTerminal(link, key, Completion(response, event));
  }

  // ---- what the last message says, over whole runs ----

  /** What a handler has decided so far: the event it named last, and how it ended. */
  datatype Fate = Fate(event: Option<ChaincodeEvent>, response: Option<TxResponse>)

  function Later(c: Config, e: Event, k: TxKey, before: Fate): Fate {
    match e
    case SetEvent(key, name, payload) =>
      if key == k && name != "" then before.(event := Some(ChaincodeEvent(k.txid, name, payload))) else before
    case UserReturn(key, response) => if key == k then before.(response := Some(response)) else before
    case UserPanic(key) => if key == k then before.(response := Some(c.panicked)) else before
    case _ => before
  }

  /** Read off a run: the last named event, and the response returned or put in for a panic. */
  function FateOf(c: Config, es: seq<Event>, k: TxKey, before: Fate): Fate {
    if es == [] then before else FateOf(c, es[1..], k, Later(c, es[0], k, before))
  }

  /** The terminal message an input and a handler's fate call for. */
  predicate Befits(c: Config, input: TxInput, fate: Fate, t: Terminal) {
    match RoutingOf(c, input)
    case ServeMetadata(response) => fate == Fate(None, None) && t == Completion(response, None)
    case RunHandler => fate.response.Some? && t == Completion(fate.response.value, fate.event)
    case _ => fate == Fate(None, None) && t == Failed
  }

  /** The transaction's fate so far, wherever it currently is kept. */
  ghost predicate Carries(c: Config, s: State, k: TxKey, fate: Fate) {
    match PhaseOf(s, k)
    case None => fate == Fate(None, None)
    case Some(Starting) => fate == Fate(None, None)
    case Some(Running(_, _, _, x)) => fate == Fate(x, None) && RoutingOf(c, s.tasks[k].input).RunHandler?
    case Some(Ended(r, x)) => fate == Fate(x, Some(r)) && RoutingOf(c, s.tasks[k].input).RunHandler?
    case Some(Finishing(t)) => Befits(c, s.tasks[k].input, fate, t)
    case Some(Done(t, _)) => Befits(c, s.tasks[k].input, fate, t)
  }

  lemma CarriesOther(c: Config, s: State, e: Event, k: TxKey, fate: Fate)
    requires Enabled(c, s, e) && Target(s, e) != Some(k) && Carries(c, s, k, fate)
    ensures Carries(c, Apply(c, s, e), k, Later(c, e, k, fate))
  {
    OthersUntouched(c, s, e, k);
    InputsUntouched(c, s, e, k);
  }

  lemma CarriesTake(c: Config, s: State, k: TxKey, fate: Fate)
    requires Enabled(c, s, ReaderTake) && KeyStart(s, k) && Carries(c, s, k, fate)
    ensures Carries(c, ApplyReaderTake(s), k, fate)
  {
    TakePhase(c, s, k);
    if IsRunning(s, k) {
      TakeKeepsEvent(s, k);
    }
  }

  lemma TakeKeepsEvent(s: State, k: TxKey)
    requires s.inbound != [] && KeyStart(s, k) && IsRunning(s, k)
    ensures IsRunning(ApplyReaderTake(s), k) && ApplyReaderTake(s).tasks[k].phase.event == s.tasks[k].phase.event
  {
    NewTaskOnlyOnce(s, k);
  }

  lemma CarriesGate(c: Config, s: State, e: Event, k: TxKey, fate: Fate)
    requires Enabled(c, s, e) && Target(s, e) == Some(k) && Carries(c, s, k, fate)
    requires e.GateAcquire? || e.CheckInsert? || e.Enqueue? || e.Receive? || e.Cancel? || e.Issue? || e.PeerAnswer?
    ensures Carries(c, Apply(c, s, e), k, fate)
  {
  }

  lemma CarriesTask(c: Config, s: State, e: Event, k: TxKey, fate: Fate)
    requires Enabled(c, s, e) && Target(s, e) == Some(k) && Carries(c, s, k, fate)
    requires e.TaskStart? || e.SetEvent? || e.UserReturn? || e.UserPanic? || e.DropEntry? || e.TaskSend?
    ensures Carries(c, Apply(c, s, e), k, Later(c, e, k, fate))
  {
  }

  lemma CarriesStep(c: Config, s: State, e: Event, k: TxKey, fate: Fate)
    requires Inv(s) && Enabled(c, s, e) && Carries(c, s, k, fate)
    ensures Carries(c, Apply(c, s, e), k, Later(c, e, k, fate))
  {
    assert KeyStart(s, k);
    if Target(s, e) != Some(k) {
      CarriesOther(c, s, e, k, fate);
    } else if e.ReaderTake? {
      CarriesTake(c, s, k, fate);
    } else if e.TaskStart? || e.SetEvent? || e.UserReturn? || e.UserPanic? || e.DropEntry? || e.TaskSend? {
      CarriesTask(c, s, e, k, fate);
    } else {
      CarriesGate(c, s, e, k, fate);
    }
  }

  lemma {:induction false} CarriesRun(c: Config, s: State, es: seq<Event>, k: TxKey, fate: Fate)
    requires Inv(s) && IsRun(c, s, es) && Carries(c, s, k, fate)
    ensures Carries(c, Final(c, s, es), k, FateOf(c, es, k, fate))
    decreases |es|
  {
    if es != [] {
      CarriesStep(c, s, es[0], k, fate);
      InvStep(c, s, es[0]);
      CarriesRun(c, Apply(c, s, es[0]), es[1..], k, Later(c, es[0], k, fate));
    }
  }

  lemma FrontAt(ms: seq<OutMsg>, j: nat)
    requires j < |ms|
    ensures j == |ms| - 1 || ms[..|ms| - 1][j] == ms[j]
  {
  }

  /** A terminal message on the queue is the one its finished task recorded. */
  lemma SentTerminal(s: State, k: TxKey, t: Terminal)
    requires KeyTerminal(s, k) && OutTerminal(k, t) in s.link.sent
    ensures k in s.tasks && s.tasks[k].phase == Done(t, true)
  {
    var ms := TaskMsgs(s, k);
    InProjection(s.link.sent, k);
    var i :| 0 <= i < |s.link.sent| && s.link.sent[i] == OutTerminal(k, t);
    assert OfTask(s.link.sent[i], k);
    var j :| 0 <= j < |ms| && ms[j] == OutTerminal(k, t);
    FrontAt(ms, j);
  }

  /** Every terminal message ever sent says what became of its transaction: ERROR when the
      input or the proposal did not decode, the document when it was asked for, and otherwise
      COMPLETED with the handler's own response, or the panic's, and the event it named last.
      The input is that of the message that started the transaction. */
  lemma TerminalTellsTheOutcome(c: Config, es: seq<Event>, k: TxKey, t: Terminal)
    requires IsRun(c, Fresh(), es) && OutTerminal(k, t) in Final(c, Fresh(), es).link.sent
    ensures var s := Final(c, Fresh(), es);
      && k in s.tasks && Befits(c, s.tasks[k].input, FateOf(c, es, k, Fate(None, None)), t)
      && LastInput(Starts(Accepted(Created, s.taken)), k) == Some(s.tasks[k].input)
  {
    var s := Final(c, Fresh(), es);
    RunIsAnyRun(c, Fresh(), es);
    TasksComeFromMessages(c, es, k);
    FreshInv();
    CarriesRun(c, Fresh(), es, k, Fate(None, None));
    TermInvRun(c, Fresh(), es);
    assert KeyTerminal(s, k);
    SentTerminal(s, k, t);
  }

  /** The shim answers for the contract: the whole first argument is the system function's
      name and there is a document. */
  predicate AnsweredByShim(c: Config, args: seq<Bytes>, system: string) {
    args != [] && args[0] == Encode(system) && c.metadata.Some?
  }

  /** The terminal message an input calls for, in the order the shim looks at it: one that does
      not decode, a metadata query with a document, and a proposal that does not decode never
      reach the handler; in every other case, without arguments as well, the handler ran. */
  predicate CalledFor(c: Config, input: TxInput, system: string, fate: Fate, t: Terminal) {
    if input.args.None? then t == Failed && fate == Fate(None, None)
    else if AnsweredByShim(c, input.args.value, system) then
      t == Completion(c.metadata.value, None) && fate == Fate(None, None)
    else if !input.proposalOk then t == Failed && fate == Fate(None, None)
    else fate.response.Some? && t == Completion(fate.response.value, fate.event)
  }

  lemma BefitsIsCalledFor(c: Config, input: TxInput, system: string, fate: Fate, t: Terminal)
    requires system == METADATA_FUNCTION
    ensures Befits(c, input, fate, t) <==> CalledFor(c, input, system, fate, t)
  {
  }

  lemma SystemNameSpelled(system: string)
    requires system == "org.hyperledger.fabric:GetMetadata"
    ensures system == METADATA_FUNCTION
  {
  }

  /** Over whole runs, what the terminal message is, read off the input and the handler's own
      deeds alone: the document for a metadata query, ERROR for what does not decode, and
      otherwise COMPLETED as the handler ended. */
  lemma TerminalByInput(c: Config, es: seq<Event>, k: TxKey, t: Terminal, system: string)
    requires IsRun(c, Fresh(), es) && OutTerminal(k, t) in Final(c, Fresh(), es).link.sent
    requires system == "org.hyperledger.fabric:GetMetadata"
    ensures k in Final(c, Fresh(), es).tasks
    ensures CalledFor(c, Final(c, Fresh(), es).tasks[k].input, system, FateOf(c, es, k, Fate(None, None)), t)
  {
    TerminalTellsTheOutcome(c, es, k, t);
    SystemNameSpelled(system);
    BefitsIsCalledFor(c, Final(c, Fresh(), es).tasks[k].input, system, FateOf(c, es, k, Fate(None, None)), t);
  }
}
