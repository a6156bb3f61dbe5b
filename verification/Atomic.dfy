/** The machine a chaincode author has in mind: each stub call takes effect in one atomic
    step, at a moment between its invocation and its return. The multiplexed protocol
    refines it. */
module Atomic {
  import opened Wire
  import opened Links
  import opened Protocol
  import opened Safety

  datatype AState = AState(next: nat, calls: map<nat, Status>, ledger: seq<Exec>, returned: seq<Returned>)

  datatype AEvent =
    | Invoke(key: TxKey, req: Request)
    | Execute(call: nat)
    | Return(call: nat)
    | Fail(call: nat, why: Failure)
    | Abandon(call: nat)
    | Crash(key: TxKey)

  predicate AEnabled(a: AState, e: AEvent) {
    match e
    case Invoke(_, _) => a.next !in a.calls
    case Execute(n) => n in a.calls && (a.calls[n].Open? || a.calls[n].Orphan?)
    case Return(n) => n in a.calls && a.calls[n].Effected?
    case Fail(n, _) => n in a.calls && a.calls[n].Open?
    case Abandon(n) => n in a.calls
    case Crash(_) => true
  }

  function AApply(c: Config, a: AState, e: AEvent): AState
    requires AEnabled(a, e)
  {
    match e
    case Invoke(k, q) => a.(next := a.next + 1, calls := a.calls[a.next := Open(k, q)])
    case Execute(n) =>
      var st := a.calls[n];
      var r := c.answer(a.ledger, st.key, st.req);
      a.(ledger := a.ledger + [Exec(n, st.key, st.req, r)],
         calls := a.calls[n := if st.Open? then Effected(st.key, st.req, r) else Over(st.key, st.req)])
    case Return(n) =>
      a.(returned := a.returned + [Returned(n, a.calls[n].key, Answered(a.calls[n].reply))],
         calls := a.calls[n := Over(a.calls[n].key, a.calls[n].req)])
    case Fail(n, why) =>
      a.(returned := a.returned + [Returned(n, a.calls[n].key, Refused(why))],
         calls := a.calls[n := Over(a.calls[n].key, a.calls[n].req)])
    case Abandon(n) => a.(calls := a.calls[n := Abandoned(a.calls[n])])
    case Crash(k) => a.(calls := AbandonAll(a.calls, k))
  }

  ghost predicate IsARun(c: Config, a: AState, es: seq<AEvent>)
    decreases |es|
  {
    es == [] || (AEnabled(a, es[0]) && IsARun(c, AApply(c, a, es[0]), es[1..]))
  }

  ghost function AFinal(c: Config, a: AState, es: seq<AEvent>): AState
    requires IsARun(c, a, es)
    decreases |es|
  {
    if es == [] then a else AFinal(c, AApply(c, a, es[0]), es[1..])
  }

  // ---- what the atomic machine guarantees ----

  ghost predicate ExecutedAs(a: AState, n: nat, k: TxKey, r: Reply) {
    exists i :: 0 <= i < |a.ledger| && a.ledger[i].call == n && a.ledger[i].key == k && a.ledger[i].reply == r
  }

  /** The ledger is a sequential execution in which no call occurs twice, and every entry
      is the execution of the request its call asked for. */
  ghost predicate LedgerOk(c: Config, a: AState) {
    && (forall i :: 0 <= i < |a.ledger| ==>
          a.ledger[i].reply == c.answer(a.ledger[..i], a.ledger[i].key, a.ledger[i].req))
    && (forall i, j :: 0 <= i < j < |a.ledger| ==> a.ledger[i].call != a.ledger[j].call)
    && (forall i :: 0 <= i < |a.ledger| ==> EntryOk(a.calls, a.ledger[i]))
    && (forall n :: n in a.calls && a.calls[n].Effected? ==> ExecutedAs(a, n, a.calls[n].key, a.calls[n].reply))
  }

  predicate EntryOk(calls: map<nat, Status>, x: Exec) {
    && x.call in calls && calls[x.call].key == x.key && calls[x.call].req == x.req
    && (calls[x.call].Effected? || calls[x.call].Over?)
  }

  /** Every successful call took its reply from the ledger; refused calls never got there. */
  ghost predicate ReturnOk(a: AState, x: Returned) {
    && x.call in a.calls && a.calls[x.call].Over? && a.calls[x.call].key == x.key
    && match x.outcome
       case Answered(r) => ExecutedAs(a, x.call, x.key, r)
       case Refused(_) => forall j :: 0 <= j < |a.ledger| ==> a.ledger[j].call != x.call
  }

  ghost predicate ReturnsOk(a: AState) {
    && (forall i :: 0 <= i < |a.returned| ==> ReturnOk(a, a.returned[i]))
    && (forall i, j :: 0 <= i < j < |a.returned| ==> a.returned[i].call != a.returned[j].call)
  }

  ghost predicate AInv(c: Config, a: AState) {
    LedgerOk(c, a) && ReturnsOk(a) && forall n :: n in a.calls ==> n < a.next
  }

  lemma ExecutedGrows(a: AState, a': AState)
    requires a.ledger <= a'.ledger
    ensures forall n, k, r :: ExecutedAs(a, n, k, r) ==> ExecutedAs(a', n, k, r)
  {
    forall n, k, r | ExecutedAs(a, n, k, r)
      ensures ExecutedAs(a', n, k, r)
    {
      var i :| 0 <= i < |a.ledger| && a.ledger[i].call == n && a.ledger[i].key == k && a.ledger[i].reply == r;
      assert a'.ledger[i] == a.ledger[i];
    }
  }

  lemma AExecuteLedger(c: Config, a: AState, n: nat)
    requires AInv(c, a) && AEnabled(a, Execute(n))
    ensures LedgerOk(c, AApply(c, a, Execute(n)))
  {
    var a' := AApply(c, a, Execute(n));
    ExecutedGrows(a, a');
    assert forall i :: 0 <= i < |a.ledger| ==> a'.ledger[..i] == a.ledger[..i];
    assert a'.ledger[..|a.ledger|] == a.ledger;
    var x := a'.ledger[|a.ledger|];
    assert x.call == n;
    assert ExecutedAs(a', n, x.key, x.reply);
    assert forall i :: 0 <= i < |a.ledger| ==> EntryOk(a.calls, a.ledger[i]);
  }

  lemma AExecuteReturns(c: Config, a: AState, n: nat)
    requires AInv(c, a) && AEnabled(a, Execute(n))
    ensures ReturnsOk(AApply(c, a, Execute(n)))
  {
    var a' := AApply(c, a, Execute(n));
    ExecutedGrows(a, a');
    forall i | 0 <= i < |a'.returned|
      ensures ReturnOk(a', a'.returned[i])
    {
      assert ReturnOk(a, a.returned[i]);
    }
  }

  lemma OtherLedger(c: Config, a: AState, e: AEvent)
    requires AInv(c, a) && AEnabled(a, e) && !e.Execute?
    ensures LedgerOk(c, AApply(c, a, e))
  {
    var a' := AApply(c, a, e);
    ExecutedGrows(a, a');
    forall i | 0 <= i < |a'.ledger|
      ensures EntryOk(a'.calls, a'.ledger[i])
    {
      assert EntryOk(a.calls, a.ledger[i]);
    }
  }

  lemma OtherReturns(c: Config, a: AState, e: AEvent)
    requires AInv(c, a) && AEnabled(a, e) && !e.Execute?
    ensures ReturnsOk(AApply(c, a, e))
  {
    var a' := AApply(c, a, e);
    ExecutedGrows(a, a');
    assert forall j :: 0 <= j < |a.ledger| ==> EntryOk(a.calls, a.ledger[j]);
    forall i | 0 <= i < |a'.returned|
      ensures ReturnOk(a', a'.returned[i])
      ensures i < |a.returned| || forall j :: 0 <= j < |a.returned| ==> a'.returned[j].call != a'.returned[i].call
    {
      assert forall j :: 0 <= j < |a.returned| ==> ReturnOk(a, a.returned[j]);
    }
  }

  lemma AInvStep(c: Config, a: AState, e: AEvent)
    requires AInv(c, a) && AEnabled(a, e)
    ensures AInv(c, AApply(c, a, e))
  {
    if e.Execute? {
      AExecuteLedger(c, a, e.call);
      AExecuteReturns(c, a, e.call);
    } else {
      OtherLedger(c, a, e);
      OtherReturns(c, a, e);
    }
  }

  lemma {:induction false} AInvRun(c: Config, a: AState, es: seq<AEvent>)
    requires AInv(c, a) && IsARun(c, a, es)
    ensures AInv(c, AFinal(c, a, es))
    decreases |es|
  {
    if es != [] {
      AInvStep(c, a, es[0]);
      AInvRun(c, AApply(c, a, es[0]), es[1..]);
    }
  }

  // ---- refinement ----

  function AbsOf(s: State): AState {
    AState(s.next, s.calls, s.ledger, s.returned)
  }

  /** What one protocol event looks like from the atomic machine: usually nothing. The
      peer's answer is the call's atomic step. */
  function AbsEvents(s: State, e: Event): seq<AEvent> {
    match e
    case Issue(k, q) => [Invoke(k, q)]
    case PeerAnswer(i) => if i < |s.inbox| && s.inbox[i].OutRequest? then [Execute(s.inbox[i].call)] else []
    case CheckInsert(k) =>
      if HolderIn(s, k, Entered) && Waiter(s.link, k).Some?
      then [Fail(s.tasks[k].phase.holder.value.call, AlreadyInFlight)] else []
    case Enqueue(k) =>
      if HolderIn(s, k, Waiting) && s.link.closed
      then [Fail(s.tasks[k].phase.holder.value.call, ConnectionClosed)] else []
    case Receive(k) => if HolderIn(s, k, Sent) then [Return(s.tasks[k].phase.holder.value.call)] else []
    case Cancel(_, n) => [Abandon(n)]
    case UserPanic(k) => [Crash(k)]
    case _ => []
  }

  function AbsTrace(c: Config, s: State, es: seq<Event>): seq<AEvent>
    decreases |es|
  {
    if es == [] || !Enabled(c, s, es[0]) then []
    else AbsEvents(s, es[0]) + AbsTrace(c, Apply(c, s, es[0]), es[1..])
  }

  lemma QuietStep(c: Config, s: State, e: Event)
    requires Enabled(c, s, e) && AbsEvents(s, e) == []
    ensures AbsOf(Apply(c, s, e)) == AbsOf(s)
  {
  }

  lemma SimulateCall(c: Config, s: State, e: Event, k: TxKey)
    requires Inv(s) && Enabled(c, s, e)
    requires e == CheckInsert(k) || e == Enqueue(k) || e == Receive(k)
    requires AbsEvents(s, e) != []
    ensures |AbsEvents(s, e)| == 1 && AEnabled(AbsOf(s), AbsEvents(s, e)[0])
    ensures AbsOf(Apply(c, s, e)) == AApply(c, AbsOf(s), AbsEvents(s, e)[0])
  {
    assert KeyPath(s, k);
  }

  lemma SimulateCancel(c: Config, s: State, k: TxKey, n: nat)
    requires Inv(s) && Enabled(c, s, Cancel(k, n))
    ensures n in s.calls
    ensures AbsOf(Apply(c, s, Cancel(k, n))) == AApply(c, AbsOf(s), Abandon(n))
  {
    assert KeyPath(s, k);
  }

  /** One protocol event is one atomic event or none. */
  lemma Simulate(c: Config, s: State, e: Event)
    requires Inv(s) && Enabled(c, s, e)
    ensures IsARun(c, AbsOf(s), AbsEvents(s, e))
    ensures AFinal(c, AbsOf(s), AbsEvents(s, e)) == AbsOf(Apply(c, s, e))
  {
    var es := AbsEvents(s, e);
    if es == [] {
      QuietStep(c, s, e);
    } else {
      assert |es| == 1 && es[1..] == [];
      assert AEnabled(AbsOf(s), es[0]) && AbsOf(Apply(c, s, e)) == AApply(c, AbsOf(s), es[0]) by {
        match e
        case CheckInsert(k) => SimulateCall(c, s, e, k);
        case Enqueue(k) => SimulateCall(c, s, e, k);
        case Receive(k) => SimulateCall(c, s, e, k);
        case Cancel(k, n) => SimulateCancel(c, s, k, n);
        case PeerAnswer(i) => AnswerAsksOwner(c, s, i);
        case _ =>
      }
      OneStep(c, AbsOf(s), es[0]);
    }
  }

  lemma OneStep(c: Config, a: AState, e: AEvent)
    requires AEnabled(a, e)
    ensures IsARun(c, a, [e]) && AFinal(c, a, [e]) == AApply(c, a, e)
  {
    assert [e][1..] == [];
  }

  lemma {:induction false} RunAppend(c: Config, a: AState, xs: seq<AEvent>, ys: seq<AEvent>)
    requires IsARun(c, a, xs) && IsARun(c, AFinal(c, a, xs), ys)
    ensures IsARun(c, a, xs + ys) && AFinal(c, a, xs + ys) == AFinal(c, AFinal(c, a, xs), ys)
    decreases |xs|
  {
    if xs == [] {
      assert xs + ys == ys;
    } else {
      RunAppend(c, AApply(c, a, xs[0]), xs[1..], ys);
      assert (xs + ys)[0] == xs[0] && (xs + ys)[1..] == xs[1..] + ys;
    }
  }

  /** Every run of the protocol, with any interleaving, cancellation and panic, is a run of
      the atomic machine that returns the same outcomes to the same calls in the same
      order and leaves the same ledger. */
  lemma {:induction false} Refinement(c: Config, s: State, es: seq<Event>)
    requires Inv(s) && IsRun(c, s, es)
    ensures IsARun(c, AbsOf(s), AbsTrace(c, s, es))
    ensures AFinal(c, AbsOf(s), AbsTrace(c, s, es)) == AbsOf(Final(c, s, es))
    decreases |es|
  {
    if es != [] {
      var s' := Apply(c, s, es[0]);
      Simulate(c, s, es[0]);
      InvStep(c, s, es[0]);
      Refinement(c, s', es[1..]);
      RunAppend(c, AbsOf(s), AbsEvents(s, es[0]), AbsTrace(c, s', es[1..]));
    }
  }

  lemma RunsAtomic(c: Config, es: seq<Event>)
    requires IsRun(c, Fresh(), es)
    ensures AInv(c, AbsOf(Final(c, Fresh(), es)))
  {
    FreshInv();
    Refinement(c, Fresh(), es);
    AInvRun(c, AbsOf(Fresh()), AbsTrace(c, Fresh(), es));
  }

  // ---- what was asked ----

  datatype Asking = Asking(key: TxKey, req: Request)

  /** The requests handlers made over a run, in order; calls are numbered by position. */
  function Issues(es: seq<Event>): seq<Asking> {
    if es == [] then [] else IssueOf(es[0]) + Issues(es[1..])
  }

  function IssueOf(e: Event): seq<Asking> {
    if e.Issue? then [Asking(e.key, e.req)] else []
  }

  ghost predicate Recorded(a: AState, asked: seq<Asking>) {
    && |asked| == a.next
    && (forall n: nat :: n in a.calls <==> n < a.next)
    && (forall n :: n in a.calls ==> Asking(a.calls[n].key, a.calls[n].req) == asked[n])
  }

  function AskedBy(e: AEvent): seq<Asking> {
    if e.Invoke? then [Asking(e.key, e.req)] else []
  }

  lemma RecordedStep(c: Config, a: AState, e: AEvent, asked: seq<Asking>)
    requires AEnabled(a, e) && Recorded(a, asked)
    ensures Recorded(AApply(c, a, e), asked + AskedBy(e))
  {
  }

  lemma RecordedEvent(c: Config, s: State, e: Event, asked: seq<Asking>)
    requires Inv(s) && Enabled(c, s, e) && Recorded(AbsOf(s), asked)
    ensures Recorded(AbsOf(Apply(c, s, e)), asked + IssueOf(e))
  {
    Simulate(c, s, e);
    var xs := AbsEvents(s, e);
    if xs == [] {
      assert asked + IssueOf(e) == asked;
    } else {
      assert |xs| == 1 && xs == [xs[0]] && AskedBy(xs[0]) == IssueOf(e);
      OneStep(c, AbsOf(s), xs[0]);
      RecordedStep(c, AbsOf(s), xs[0], asked);
    }
  }

  lemma Rebracket(asked: seq<Asking>, e: Event, es: seq<Event>)
    ensures Issues([e] + es) == IssueOf(e) + Issues(es)
    ensures asked + IssueOf(e) + Issues(es) == asked + Issues([e] + es)
  {
    assert ([e] + es)[1..] == es;
  }

  lemma {:induction false} RecordedRun(c: Config, s: State, es: seq<Event>, asked: seq<Asking>)
    requires Inv(s) && IsRun(c, s, es) && Recorded(AbsOf(s), asked)
    ensures Recorded(AbsOf(Final(c, s, es)), asked + Issues(es))
    decreases |es|
  {
    if es == [] {
      assert asked + Issues(es) == asked;
    } else {
      var e, rest, s' := es[0], es[1..], Apply(c, s, es[0]);
      RecordedEvent(c, s, e, asked);
      InvStep(c, s, e);
      RecordedRun(c, s', rest, asked + IssueOf(e));
      Rebracket(asked, e, rest);
      assert [e] + rest == es && Final(c, s, es) == Final(c, s', rest);
    }
  }

  /** The one execution a reply came from. */
  ghost predicate TookReply(c: Config, ledger: seq<Exec>, call: nat, asked: Asking, r: Reply) {
    exists j :: 0 <= j < |ledger| && ledger[j] == Exec(call, asked.key, asked.req, r)
      && r == c.answer(ledger[..j], asked.key, asked.req)
      && forall m :: 0 <= m < |ledger| && m != j ==> ledger[m].call != call
  }

  lemma ReturnedAsAsked(c: Config, a: AState, asked: seq<Asking>, x: Returned)
    requires LedgerOk(c, a) && ReturnOk(a, x) && Recorded(a, asked)
    ensures x.call < |asked| && x.key == asked[x.call].key
    ensures x.outcome.Answered? ==> TookReply(c, a.ledger, x.call, asked[x.call], x.outcome.reply)
  {
    if x.outcome.Answered? {
      var j :| 0 <= j < |a.ledger| && a.ledger[j].call == x.call && a.ledger[j].key == x.key
               && a.ledger[j].reply == x.outcome.reply;
      assert EntryOk(a.calls, a.ledger[j]);
      assert a.ledger[j] == Exec(x.call, x.key, asked[x.call].req, x.outcome.reply);
    }
  }

  lemma RunRecorded(c: Config, es: seq<Event>)
    requires IsRun(c, Fresh(), es)
    ensures Recorded(AbsOf(Final(c, Fresh(), es)), Issues(es))
  {
    FreshInv();
    RecordedRun(c, Fresh(), es, []);
    assert [] + Issues(es) == Issues(es);
  }

  /** No reply is ever misdelivered: a call that came back with a reply was executed exactly
      once, with the request it had made and on behalf of the transaction that made it, and
      that execution produced that reply; a call that came back refused was never executed. */
  lemma RepliesMatchExecutions(c: Config, es: seq<Event>, i: nat)
    requires IsRun(c, Fresh(), es) && i < |Final(c, Fresh(), es).returned|
    ensures var s := Final(c, Fresh(), es); var x := s.returned[i];
      && x.call < |Issues(es)| && x.key == Issues(es)[x.call].key
      && match x.outcome
         case Answered(r) => TookReply(c, s.ledger, x.call, Issues(es)[x.call], r)
         case Refused(_) => forall j :: 0 <= j < |s.ledger| ==> s.ledger[j].call != x.call
  {
    RunsAtomic(c, es);
    RunRecorded(c, es);
    var a := AbsOf(Final(c, Fresh(), es));
    assert ReturnOk(a, a.returned[i]);
    ReturnedAsAsked(c, a, Issues(es), a.returned[i]);
  }
}
