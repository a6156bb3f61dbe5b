/** No call gets lost: as long as nobody gives up on it, a call that has not come back is
    inside the gate or queued in front of it. */
module Accounts {
  import opened Wire
  import opened Protocol
  import opened Safety
  import opened Limits

  /** Issued, and neither come back nor given up on. */
  predicate Pending(st: Status) {
    st.Open? || st.Effected?
  }

  ghost predicate WaitsIn(s: State, k: TxKey, n: nat) {
    IsRunning(s, k) && Waits(s.tasks[k].phase, n)
  }

  ghost predicate Accounted(s: State, n: nat) {
    n in s.calls && Pending(s.calls[n]) ==> WaitsIn(s, s.calls[n].key, n)
  }

  lemma NotIssuedStays(c: Config, s: State, e: Event, n: nat)
    requires Inv(s) && Enabled(c, s, e) && n !in s.calls
    ensures n in Apply(c, s, e).calls ==> e.Issue? && n == s.next
  {
    match e
    case CheckInsert(k) =>
      assert KeyPath(s, k);
      GateCalls(c, s, e);
    case Enqueue(k) =>
      assert KeyPath(s, k);
      GateCalls(c, s, e);
    case Receive(k) =>
      assert KeyPath(s, k);
      GateCalls(c, s, e);
    case Cancel(k, call) =>
      assert KeyPath(s, k);
      CancelCalls(c, s, k, call);
    case _ =>
  }

  lemma IssueAccounted(c: Config, s: State, k: TxKey, q: Request, n: nat)
    requires Enabled(c, s, Issue(k, q)) && (n == s.next || (n in s.calls && WaitsIn(s, k, n)))
    ensures WaitsIn(Apply(c, s, Issue(k, q)), k, n)
  {
    var p, p' := s.tasks[k].phase, Apply(c, s, Issue(k, q)).tasks[k].phase;
    if n == s.next {
      assert TicketAt(p'.tickets, |p.tickets|, n);
    } else if !(p.holder.Some? && p.holder.value.call == n) {
      var i: nat :| i < |p.tickets| && TicketAt(p.tickets, i, n);
      assert TicketAt(p'.tickets, i, n);
    }
  }

  lemma AcquireAccounted(c: Config, s: State, k: TxKey, n: nat)
    requires Enabled(c, s, GateAcquire(k)) && WaitsIn(s, k, n)
    ensures WaitsIn(Apply(c, s, GateAcquire(k)), k, n)
  {
    var p, p' := s.tasks[k].phase, Apply(c, s, GateAcquire(k)).tasks[k].phase;
    var i: nat :| i < |p.tickets| && TicketAt(p.tickets, i, n);
    if i > 0 {
      assert TicketAt(p'.tickets, i - 1, n);
    }
  }

  /** The call inside the gate comes back, or goes on to its next stage. */
  lemma GateAccounted(c: Config, s: State, e: Event, k: TxKey, n: nat)
    requires KeyPath(s, k) && Enabled(c, s, e) && (e == CheckInsert(k) || e == Enqueue(k) || e == Receive(k))
    requires WaitsIn(s, k, n) && n in s.calls
    ensures n in Apply(c, s, e).calls
    ensures Pending(Apply(c, s, e).calls[n]) ==> WaitsIn(Apply(c, s, e), k, n)
  {
    var p, p' := s.tasks[k].phase, Apply(c, s, e).tasks[k].phase;
    if p.holder.value.call != n {
      var i: nat :| i < |p.tickets| && TicketAt(p.tickets, i, n);
      assert TicketAt(p'.tickets, i, n);
    }
  }

  lemma {:induction false} WithoutKeeps(ts: seq<Ticket>, call: nat, i: nat, n: nat)
    requires TicketAt(ts, i, n) && n != call
    ensures exists j: nat :: TicketAt(Without(ts, call), j, n)
  {
    if ts[0].call == call {
      assert Without(ts, call) == ts[1..];
      assert TicketAt(Without(ts, call), i - 1, n);
    } else if i == 0 {
      assert TicketAt(Without(ts, call), 0, n);
    } else {
      WithoutKeeps(ts[1..], call, i - 1, n);
      var j: nat :| TicketAt(Without(ts[1..], call), j, n);
      assert TicketAt(Without(ts, call), j + 1, n);
    }
  }

  lemma CancelAccounted(c: Config, s: State, k: TxKey, call: nat, n: nat)
    requires KeyPath(s, k) && Enabled(c, s, Cancel(k, call)) && WaitsIn(s, k, n) && n in s.calls
    ensures n in Apply(c, s, Cancel(k, call)).calls
    ensures Pending(Apply(c, s, Cancel(k, call)).calls[n]) ==> WaitsIn(Apply(c, s, Cancel(k, call)), k, n)
  {
    var p, s' := s.tasks[k].phase, Apply(c, s, Cancel(k, call));
    CancelCalls(c, s, k, call);
    if n != call {
      if !(p.holder.Some? && p.holder.value.call == n) {
        var i: nat :| i < |p.tickets| && TicketAt(p.tickets, i, n);
        WithoutKeeps(p.tickets, call, i, n);
        if p.holder.Some? && p.holder.value.call == call {
          assert TicketAt(s'.tasks[k].phase.tickets, i, n);
        } else {
          var j: nat :| TicketAt(Without(p.tickets, call), j, n);
          assert TicketAt(s'.tasks[k].phase.tickets, j, n);
        }
      }
    }
  }

  lemma SameGate(p: Phase, p': Phase, n: nat)
    requires p.Running? && p'.Running? && p'.tickets == p.tickets && Waits(p, n)
    requires p.holder.None? <==> p'.holder.None?
    requires p.holder.Some? ==> p'.holder.value.call == p.holder.value.call
    ensures Waits(p', n)
  {
    if !(p.holder.Some? && p.holder.value.call == n) {
      var i: nat :| i < |p.tickets| && TicketAt(p.tickets, i, n);
      assert TicketAt(p'.tickets, i, n);
    }
  }

  lemma TakeAccounted(s: State, k: TxKey, n: nat)
    requires KeyStart(s, k) && s.inbound != [] && WaitsIn(s, k, n)
    ensures WaitsIn(ApplyReaderTake(s), k, n) && ApplyReaderTake(s).calls == s.calls
  {
    TakeGate(s, k);
    SameGate(s.tasks[k].phase, ApplyReaderTake(s).tasks[k].phase, n);
  }

  lemma TakeGate(s: State, k: TxKey)
    requires KeyStart(s, k) && s.inbound != [] && IsRunning(s, k)
    ensures var s' := ApplyReaderTake(s);
      && s'.calls == s.calls && IsRunning(s', k)
      && var p, p' := s.tasks[k].phase, s'.tasks[k].phase;
         && p'.tickets == p.tickets && (p.holder.None? <==> p'.holder.None?)
         && (p.holder.Some? ==> p'.holder.value.call == p.holder.value.call)
  {
    NewTaskOnlyOnce(s, k);
  }

  /** Setting an event and an answer by the peer leave the gate alone; a handler that ends has
      nobody waiting, or gives everybody up. */
  lemma QuietAccounted(c: Config, s: State, e: Event, k: TxKey, n: nat)
    requires KeyPath(s, k) && Enabled(c, s, e) && Target(s, e) == Some(k) && WaitsIn(s, k, n) && n in s.calls
    requires s.calls[n].key == k
    requires e.SetEvent? || e.PeerAnswer? || e.UserReturn? || e.UserPanic?
    ensures n in Apply(c, s, e).calls
    ensures Pending(Apply(c, s, e).calls[n]) ==> WaitsIn(Apply(c, s, e), k, n)
  {
    if e.SetEvent? || e.PeerAnswer? {
      SameGate(s.tasks[k].phase, Apply(c, s, e).tasks[k].phase, n);
    }
  }

  lemma OwnAccounted(c: Config, s: State, e: Event, k: TxKey, n: nat)
    requires Inv(s) && Enabled(c, s, e) && Target(s, e) == Some(k) && n in s.calls && s.calls[n].key == k
    requires WaitsIn(s, k, n)
    ensures n in Apply(c, s, e).calls
    ensures Pending(Apply(c, s, e).calls[n]) ==> WaitsIn(Apply(c, s, e), k, n)
  {
    assert KeyPath(s, k) && KeyStart(s, k);
    if e.CheckInsert? || e.Enqueue? || e.Receive? {
      GateAccounted(c, s, e, k, n);
    } else {
      match e
      case GateAcquire(_) => AcquireAccounted(c, s, k, n);
      case Issue(_, q) => IssueAccounted(c, s, k, q, n);
      case Cancel(_, call) => CancelAccounted(c, s, k, call, n);
      case ReaderTake => TakeAccounted(s, k, n);
      case _ => QuietAccounted(c, s, e, k, n);
    }
  }

  /** Who asked does not change, and what is given up or over stays so. */
  lemma StatusMoves(c: Config, s: State, e: Event, n: nat)
    requires Inv(s) && Enabled(c, s, e) && n in s.calls
    ensures n in Apply(c, s, e).calls && Apply(c, s, e).calls[n].key == s.calls[n].key
    ensures Pending(Apply(c, s, e).calls[n]) ==> Pending(s.calls[n])
  {
    if Target(s, e) != Some(s.calls[n].key) {
      CallsFrame(c, s, e, s.calls[n].key);
    } else {
      OwnStatus(c, s, e, n);
    }
  }

  lemma OwnStatus(c: Config, s: State, e: Event, n: nat)
    requires Inv(s) && Enabled(c, s, e) && n in s.calls && Target(s, e) == Some(s.calls[n].key)
    ensures n in Apply(c, s, e).calls && Apply(c, s, e).calls[n].key == s.calls[n].key
    ensures Pending(Apply(c, s, e).calls[n]) ==> Pending(s.calls[n])
  {
    assert KeyPath(s, s.calls[n].key);
    if e.CheckInsert? || e.Enqueue? || e.Receive? {
      GateStatus(c, s, e, n);
    } else if e.PeerAnswer? {
      AnswerAsksOwner(c, s, e.index);
    } else if e.ReaderTake? {
      TakenCalls(s);
    }
  }

  lemma GateStatus(c: Config, s: State, e: Event, n: nat)
    requires Enabled(c, s, e) && (e.CheckInsert? || e.Enqueue? || e.Receive?) && KeyPath(s, e.key) && n in s.calls
    ensures n in Apply(c, s, e).calls && Apply(c, s, e).calls[n].key == s.calls[n].key
    ensures Pending(Apply(c, s, e).calls[n]) ==> Pending(s.calls[n])
  {
    GateCalls(c, s, e);
  }

  lemma TakenCalls(s: State)
    requires s.inbound != []
    ensures ApplyReaderTake(s).calls == s.calls
  {
  }

  lemma AccountedStep(c: Config, s: State, e: Event, n: nat)
    requires Inv(s) && Enabled(c, s, e) && Accounted(s, n)
    ensures Accounted(Apply(c, s, e), n)
  {
    if n !in s.calls {
      NotIssuedStays(c, s, e, n);
      if e.Issue? && n == s.next {
        IssueAccounted(c, s, e.key, e.req, n);
      }
    } else {
      StatusMoves(c, s, e, n);
      if Pending(s.calls[n]) {
        var k := s.calls[n].key;
        if Target(s, e) == Some(k) {
          OwnAccounted(c, s, e, k, n);
        } else {
          OthersUntouched(c, s, e, k);
        }
      }
    }
  }

  lemma {:induction false} AccountedRun(c: Config, s: State, es: seq<Event>, n: nat)
    requires Inv(s) && IsRun(c, s, es) && Accounted(s, n)
    ensures Accounted(Final(c, s, es), n)
    decreases |es|
  {
    if es != [] {
      AccountedStep(c, s, es[0], n);
      InvStep(c, s, es[0]);
      AccountedRun(c, Apply(c, s, es[0]), es[1..], n);
    }
  }

  /** In every reachable state, a call that was issued and has neither come back nor been
      given up on waits in the gate of its own, still running, transaction: the holder, or
      queued in front of it. */
  lemma NoCallIsLost(c: Config, s: State, n: nat)
    requires Reachable(c, s) && n in s.calls && Pending(s.calls[n])
    ensures WaitsIn(s, s.calls[n].key, n)
  {
    var es :| IsRun(c, Fresh(), es) && Final(c, Fresh(), es) == s;
    FreshInv();
    AccountedRun(c, Fresh(), es, n);
  }

  /** Without a pending call there is no status but these: over a run, the calls that are over
      or given up are exactly those that came back or whose callers left. */
  lemma GivenUpOnlyByCaller(c: Config, s: State, e: Event, n: nat)
    requires Inv(s) && Enabled(c, s, e) && n in s.calls && Pending(s.calls[n])
    ensures var s' := Apply(c, s, e);
      && n in s'.calls
      && (!Pending(s'.calls[n]) ==>
            || e == Cancel(s.calls[n].key, n) || e == UserPanic(s.calls[n].key)
            || (|s'.returned| == |s.returned| + 1 && s'.returned[|s.returned|].call == n))
  {
    StatusMoves(c, s, e, n);
    if Target(s, e) != Some(s.calls[n].key) {
      CallsFrame(c, s, e, s.calls[n].key);
    } else {
      OwnLeaves(c, s, e, n);
    }
  }

  lemma OwnLeaves(c: Config, s: State, e: Event, n: nat)
    requires Inv(s) && Enabled(c, s, e) && n in s.calls && Pending(s.calls[n])
    requires Target(s, e) == Some(s.calls[n].key)
    ensures var s' := Apply(c, s, e);
      && n in s'.calls
      && (!Pending(s'.calls[n]) ==>
            || e == Cancel(s.calls[n].key, n) || e == UserPanic(s.calls[n].key)
            || (|s'.returned| == |s.returned| + 1 && s'.returned[|s.returned|].call == n))
  {
    match e
    case CheckInsert(k) => assert KeyPath(s, k);
    case Enqueue(k) => assert KeyPath(s, k);
    case Receive(k) => assert KeyPath(s, k);
    case PeerAnswer(i) => AnswerAsksOwner(c, s, i);
    case ReaderTake => TakenCalls(s);
    case _ =>
  }
}
