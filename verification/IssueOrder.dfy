/** What each handler is told, over every run: the replies to its own requests, in the order
    it issued them and the peer executed them, except those whose callers gave up. */
module IssueOrder {
  import opened Wire
  import opened Links
  import opened Handshake
  import opened Protocol
  import opened Projection
  import opened Flow
  import opened Safety

  datatype Seen = Seen(call: nat, reply: Reply)

  function AsExec(k: TxKey): Exec -> seq<Seen> {
    (x: Exec) => if x.key == k then [Seen(x.call, x.reply)] else []
  }

  function AsAnswer(k: TxKey): Returned -> seq<Seen> {
    (x: Returned) => if x.key == k && x.outcome.Answered? then [Seen(x.call, x.outcome.reply)] else []
  }

  /** What the peer executed for `k`, and what the handler of `k` was told, in order. */
  function Executed(s: State, k: TxKey): seq<Seen> {
    Collect(s.ledger, AsExec(k))
  }

  function Told(s: State, k: TxKey): seq<Seen> {
    Collect(s.returned, AsAnswer(k))
  }

  predicate Rising(xs: seq<Seen>) {
    forall i, j :: 0 <= i < j < |xs| ==> xs[i].call < xs[j].call
  }

  predicate Below(xs: seq<Seen>, call: nat) {
    forall i :: 0 <= i < |xs| ==> xs[i].call < call
  }

  // ---- leaving out the calls whose callers gave up ----

  function Kept(xs: seq<Seen>, gone: set<nat>): seq<Seen> {
    if xs == [] then []
    else
      var last := xs[|xs| - 1];
      Kept(xs[..|xs| - 1], gone) + (if last.call in gone then [] else [last])
  }

  lemma KeptSnoc(xs: seq<Seen>, x: Seen, gone: set<nat>)
    ensures Kept(xs + [x], gone) == Kept(xs, gone) + (if x.call in gone then [] else [x])
  {
    assert (xs + [x])[..|xs|] == xs;
  }

  lemma {:induction false} KeptMember(xs: seq<Seen>, gone: set<nat>, x: Seen)
    ensures x in Kept(xs, gone) <==> x in xs && x.call !in gone
  {
    if xs != [] {
      var front, last := xs[..|xs| - 1], xs[|xs| - 1];
      KeptMember(front, gone, x);
      assert xs == front + [last];
    }
  }

  lemma {:induction false} KeptRising(xs: seq<Seen>, gone: set<nat>)
    requires Rising(xs)
    ensures Rising(Kept(xs, gone))
  {
    if xs != [] {
      var front, last := xs[..|xs| - 1], xs[|xs| - 1];
      KeptRising(front, gone);
      var ys := Kept(front, gone);
      forall i | 0 <= i < |ys|
        ensures ys[i].call < last.call
      {
        KeptMember(front, gone, ys[i]);
        var j :| 0 <= j < |front| && front[j] == ys[i];
        assert xs[j].call < xs[|xs| - 1].call;
      }
    }
  }

  lemma {:induction false} KeptNone(xs: seq<Seen>)
    ensures Kept(xs, {}) == xs
  {
    if xs != [] {
      KeptNone(xs[..|xs| - 1]);
    }
  }

  /** One more caller gives up. */
  lemma {:induction false} KeptTwice(xs: seq<Seen>, gone: set<nat>, n: nat)
    ensures Kept(xs, gone + {n}) == Kept(Kept(xs, gone), {n})
  {
    if xs != [] {
      var front, last := xs[..|xs| - 1], xs[|xs| - 1];
      KeptTwice(front, gone, n);
      if last.call in gone {
        assert Kept(xs, gone) == Kept(front, gone);
      } else {
        KeptSnoc(Kept(front, gone), last, {n});
      }
    }
  }

  lemma {:induction false} KeptWhole(xs: seq<Seen>, n: nat)
    requires forall i :: 0 <= i < |xs| ==> xs[i].call != n
    ensures Kept(xs, {n}) == xs
  {
    if xs != [] {
      KeptWhole(xs[..|xs| - 1], n);
    }
  }

  /** The caller of a request not yet executed gives up. */
  lemma LeaveEarly(done: seq<Seen>, gone: set<nat>, n: nat)
    requires Below(done, n)
    ensures Kept(done, gone + {n}) == Kept(done, gone)
  {
    KeptTwice(done, gone, n);
    var xs := Kept(done, gone);
    forall i | 0 <= i < |xs|
      ensures xs[i].call != n
    {
      KeptMember(done, gone, xs[i]);
    }
    KeptWhole(xs, n);
  }

  /** The caller of the newest executed request gives up. */
  lemma LeaveLate(done: seq<Seen>, told: seq<Seen>, x: Seen, gone: set<nat>)
    requires Rising(done) && Kept(done, gone) == told + [x]
    ensures Kept(done, gone + {x.call}) == told
  {
    KeptTwice(done, gone, x.call);
    KeptRising(done, gone);
    KeptSnoc(told, x, {x.call});
    forall i | 0 <= i < |told|
      ensures told[i].call != x.call
    {
      assert (told + [x])[i].call < (told + [x])[|told|].call;
    }
    KeptWhole(told, x.call);
  }

  // ---- the account of one transaction ----

  /** Executed, but not yet handed to the call that waits for it. */
  function Lag(f: seq<Item>, h: Option<Holder>): seq<Seen> {
    if h.None? then []
    else if h.value.slot.Some? then [Seen(h.value.call, h.value.slot.value)]
    else if f != [] && f[0].Replied? && f[0].call == h.value.call then [Seen(f[0].call, f[0].reply)]
    else []
  }

  /** The gate's side: calls still to be served come after everything executed, nobody in it
      has given up, and what travels without its caller belongs to one who has. */
  ghost predicate GateOk(f: seq<Item>, ts: seq<Ticket>, h: Option<Holder>, done: seq<Seen>, gone: set<nat>) {
    && (forall i :: 0 <= i < |ts| ==> Below(done, ts[i].call) && ts[i].call !in gone)
    && (h.Some? ==> h.value.call !in gone && (Lag(f, h) == [] ==> Below(done, h.value.call)))
    && (f != [] && !(h.Some? && h.value.call == f[0].call) ==> f[0].call in gone)
  }

  ghost predicate OrderOk(f: seq<Item>, phase: Option<Phase>, done: seq<Seen>, told: seq<Seen>, gone: set<nat>) {
    match phase
    case None => done == [] && told == [] && gone == {}
    case Some(Starting) => done == [] && told == [] && gone == {}
    case Some(Running(ts, h, _, _)) => Kept(done, gone) == told + Lag(f, h) && GateOk(f, ts, h, done, gone)
    case Some(_) =>
      && told <= Kept(done, gone)
      && |Kept(done, gone)| + (if f != [] && f[0].Asked? && f[0].call !in gone then 1 else 0) <= |told| + 1
  }

  ghost predicate KnownOk(f: seq<Item>, done: seq<Seen>, gone: set<nat>, next: nat) {
    && Rising(done) && Below(done, next) && (forall n :: n in gone ==> n < next)
    && (f != [] && f[0].Asked? ==> Below(done, f[0].call))
  }

  ghost predicate KeyOrder(s: State, k: TxKey, gone: set<nat>) {
    && OrderOk(FlowOf(s, k), PhaseOf(s, k), Executed(s, k), Told(s, k), gone)
    && KnownOk(FlowOf(s, k), Executed(s, k), gone, s.next)
  }

  // ---- events that leave the history of the transaction alone ----

  lemma HistoryKept(c: Config, s: State, e: Event)
    requires Enabled(c, s, e)
    ensures !e.PeerAnswer? ==> Apply(c, s, e).ledger == s.ledger
    ensures !e.CheckInsert? && !e.Enqueue? && !e.Receive? ==> Apply(c, s, e).returned == s.returned
    ensures Apply(c, s, e).next == if e.Issue? then s.next + 1 else s.next
  {
  }

  lemma ReturnsOne(c: Config, s: State, e: Event)
    requires Enabled(c, s, e) && (e.CheckInsert? || e.Enqueue? || e.Receive?)
    ensures var s' := Apply(c, s, e);
      && (s'.returned == s.returned
          || (|s'.returned| == |s.returned| + 1 && s'.returned == s.returned + [s'.returned[|s.returned|]]
              && s'.returned[|s.returned|].key == e.key
              && (!e.Receive? ==> s'.returned[|s.returned|].outcome.Refused?)))
  {
  }

  /** What the handler of `k` is told changes only when one of its calls receives. */
  lemma ToldKept(c: Config, s: State, e: Event, k: TxKey)
    requires Enabled(c, s, e) && (e != Receive(k))
    ensures Told(Apply(c, s, e), k) == Told(s, k)
  {
    HistoryKept(c, s, e);
    if e.CheckInsert? || e.Enqueue? || e.Receive? {
      ReturnsOne(c, s, e);
      var s' := Apply(c, s, e);
      if s'.returned != s.returned {
        CollectSnoc(s.returned, s'.returned[|s.returned|], AsAnswer(k));
      }
    }
  }

  lemma ExecutedKept(c: Config, s: State, e: Event, k: TxKey)
    requires Enabled(c, s, e) && !(e.PeerAnswer? && s.inbox[e.index].key == k)
    ensures Executed(Apply(c, s, e), k) == Executed(s, k)
  {
    HistoryKept(c, s, e);
    if e.PeerAnswer? {
      var m := s.inbox[e.index];
      CollectSnoc(s.ledger, Exec(m.call, m.key, m.req, ReplyTo(c, s, m)), AsExec(k));
    }
  }

  /** Nothing the account depends on changed. */
  lemma SameOrder(s: State, s': State, k: TxKey, gone: set<nat>)
    requires KeyOrder(s, k, gone) && FlowOf(s', k) == FlowOf(s, k) && s'.next >= s.next
    requires Executed(s', k) == Executed(s, k) && Told(s', k) == Told(s, k)
    requires PhaseOf(s', k) == PhaseOf(s, k) || (PhaseOf(s, k).None? && PhaseOf(s', k) == Some(Starting))
    ensures KeyOrder(s', k, gone)
  {
  }

  lemma OrderOther(c: Config, s: State, e: Event, k: TxKey, gone: set<nat>)
    requires Inv(s) && KeyOrder(s, k, gone) && Enabled(c, s, e) && Target(s, e) != Some(k) && !e.QueueClose?
    ensures KeyOrder(Apply(c, s, e), k, gone)
  {
    OtherHistory(c, s, e, k);
    OthersUntouched(c, s, e, k);
    FlowOther(c, s, e, k);
    SameOrder(s, Apply(c, s, e), k, gone);
  }

  lemma OtherHistory(c: Config, s: State, e: Event, k: TxKey)
    requires Enabled(c, s, e) && Target(s, e) != Some(k)
    ensures var s' := Apply(c, s, e);
      Executed(s', k) == Executed(s, k) && Told(s', k) == Told(s, k) && s'.next >= s.next
  {
    HistoryKept(c, s, e);
    ToldKept(c, s, e, k);
    ExecutedKept(c, s, e, k);
  }

  /** Losing the queue loses requests, never replies. */
  lemma ShorterFlow(f: seq<Item>, f': seq<Item>, phase: Option<Phase>, done: seq<Seen>, told: seq<Seen>,
                    gone: set<nat>)
    requires OrderOk(f, phase, done, told, gone) && (f' == f || (f' == [] && f[0].Asked?))
    ensures OrderOk(f', phase, done, told, gone)
  {
  }

  lemma CloseOrder(c: Config, s: State, k: TxKey, gone: set<nat>)
    requires KeyPath(s, k) && KeyOrder(s, k, gone) && Enabled(c, s, QueueClose)
    ensures KeyOrder(Apply(c, s, QueueClose), k, gone)
  {
    var s' := Apply(c, s, QueueClose);
    CloseFlow(c, s, k);
    OtherHistory(c, s, QueueClose, k);
    assert |FlowOf(s, k)| <= 1;
    ShorterFlow(FlowOf(s, k), FlowOf(s', k), PhaseOf(s, k), Executed(s, k), Told(s, k), gone);
  }

  // ---- events of the transaction itself, on its account alone ----

  lemma AcquiredOrder(f: seq<Item>, p: Phase, done: seq<Seen>, told: seq<Seen>, gone: set<nat>)
    requires p.Running? && p.holder.None? && p.tickets != [] && OrderOk(f, Some(p), done, told, gone)
    ensures var t := p.tickets[0];
      OrderOk(f, Some(p.(tickets := p.tickets[1..], holder := Some(Holder(t.call, t.req, Entered, None)))),
              done, told, gone)
  {
    var t := p.tickets[0];
    assert f != [] ==> f[0].call in gone;
    assert Lag(f, Some(Holder(t.call, t.req, Entered, None))) == [];
    assert told + [] == told;
  }

  /** The holder leaves with nothing executed on its behalf. */
  lemma RefusedOrder(f: seq<Item>, p: Phase, done: seq<Seen>, told: seq<Seen>, gone: set<nat>)
    requires p.Running? && p.holder.Some? && OrderOk(f, Some(p), done, told, gone)
    requires Lag(f, p.holder) == [] && (f != [] ==> f[0].call != p.holder.value.call)
    ensures OrderOk(f, Some(p.(holder := None)), done, told, gone)
  {
  }

  lemma AdvancedOrder(f: seq<Item>, p: Phase, stage: Stage, done: seq<Seen>, told: seq<Seen>, gone: set<nat>)
    requires p.Running? && p.holder.Some? && OrderOk(f, Some(p), done, told, gone)
    ensures OrderOk(f, Some(p.(holder := Some(p.holder.value.(stage := stage)))), done, told, gone)
  {
    assert Lag(f, Some(p.holder.value.(stage := stage))) == Lag(f, p.holder);
  }

  lemma AskedOrder(p: Phase, q: Request, done: seq<Seen>, told: seq<Seen>, gone: set<nat>)
    requires p.Running? && p.holder.Some? && p.holder.value.slot.None? && OrderOk([], Some(p), done, told, gone)
    ensures OrderOk([Asked(p.holder.value.call, q)], Some(p), done, told, gone)
    ensures Below(done, p.holder.value.call)
  {
  }

  lemma ReceivedOrder(p: Phase, done: seq<Seen>, told: seq<Seen>, gone: set<nat>)
    requires p.Running? && p.holder.Some? && p.holder.value.slot.Some? && OrderOk([], Some(p), done, told, gone)
    ensures OrderOk([], Some(p.(holder := None)), done,
                    told + [Seen(p.holder.value.call, p.holder.value.slot.value)], gone)
  {
    var x := Seen(p.holder.value.call, p.holder.value.slot.value);
    assert told + [x] + [] == told + [x];
  }

  lemma IssuedOrder(f: seq<Item>, p: Phase, done: seq<Seen>, told: seq<Seen>, gone: set<nat>, n: nat,
                    q: Request, work: nat)
    requires p.Running? && OrderOk(f, Some(p), done, told, gone) && Below(done, n) && n !in gone
    ensures OrderOk(f, Some(p.(tickets := p.tickets + [Ticket(n, q)], work := work)), done, told, gone)
  {
  }

  /** A routed reply goes to the slot of the call that waits for it, or to nobody. */
  lemma DeliveredOrder(f: seq<Item>, p: Phase, done: seq<Seen>, told: seq<Seen>, gone: set<nat>)
    requires p.Running? && |f| == 1 && f[0].Replied? && OrderOk(f, Some(p), done, told, gone)
    requires p.holder.Some? && p.holder.value.call == f[0].call ==> p.holder.value.slot.None?
    ensures OrderOk([], Some(Fill(p, f[0].call, f[0].reply)), done, told, gone)
  {
  }

  lemma EndedOrder(f: seq<Item>, p: Phase, p': Phase, done: seq<Seen>, told: seq<Seen>, gone: set<nat>)
    requires p.Running? && p'.Ended? && OrderOk(f, Some(p), done, told, gone)
    requires p.holder.Some? && p.holder.value.slot.Some? ==> f == []
    ensures OrderOk(f, Some(p'), done, told, gone)
  {
  }

  /** The newest executed request is added to the account of its transaction. */
  lemma ExecutedRunning(call: nat, q: Request, r: Reply, p: Phase, done: seq<Seen>, told: seq<Seen>, gone: set<nat>)
    requires p.Running? && OrderOk([Asked(call, q)], Some(p), done, told, gone)
    requires forall i :: 0 <= i < |p.tickets| ==> call < p.tickets[i].call
    requires p.holder.Some? ==>
      p.holder.value.slot.None? && (p.holder.value.call == call || call < p.holder.value.call)
    ensures OrderOk([Replied(call, r)], Some(p), done + [Seen(call, r)], told, gone)
  {
    KeptSnoc(done, Seen(call, r), gone);
    assert Lag([Asked(call, q)], p.holder) == [];
    assert told + [] == told;
  }

  lemma ExecutedKnown(call: nat, q: Request, r: Reply, done: seq<Seen>, gone: set<nat>, next: nat)
    requires KnownOk([Asked(call, q)], done, gone, next) && call < next
    ensures KnownOk([Replied(call, r)], done + [Seen(call, r)], gone, next)
  {
  }

  lemma ExecutedEnded(call: nat, q: Request, r: Reply, p: Phase, done: seq<Seen>, told: seq<Seen>, gone: set<nat>)
    requires !p.Running? && !p.Starting? && OrderOk([Asked(call, q)], Some(p), done, told, gone)
    ensures OrderOk([Replied(call, r)], Some(p), done + [Seen(call, r)], told, gone)
  {
    KeptSnoc(done, Seen(call, r), gone);
  }

  /** The caller of the holding call gives up. */
  lemma HolderLeaves(f: seq<Item>, p: Phase, done: seq<Seen>, told: seq<Seen>, gone: set<nat>)
    requires p.Running? && p.holder.Some? && OrderOk(f, Some(p), done, told, gone) && Rising(done)
    requires forall i :: 0 <= i < |p.tickets| ==> p.holder.value.call < p.tickets[i].call
    ensures OrderOk(f, Some(p.(holder := None)), done, told, gone + {p.holder.value.call})
  {
    var n := p.holder.value.call;
    if Lag(f, p.holder) == [] {
      LeaveEarly(done, gone, n);
    } else {
      LeaveLate(done, told, Lag(f, p.holder)[0], gone);
      assert told + [] == told;
    }
  }

  /** The caller of a queued call gives up. */
  lemma TicketLeaves(f: seq<Item>, p: Phase, ts: seq<Ticket>, n: nat, done: seq<Seen>, told: seq<Seen>,
                     gone: set<nat>)
    requires p.Running? && OrderOk(f, Some(p), done, told, gone) && Below(done, n)
    requires p.holder.Some? ==> p.holder.value.call != n
    requires forall t :: t in ts ==> t in p.tickets && t.call != n
    ensures OrderOk(f, Some(p.(tickets := ts)), done, told, gone + {n})
  {
    LeaveEarly(done, gone, n);
    forall i | 0 <= i < |ts|
      ensures Below(done, ts[i].call) && ts[i].call !in gone + {n}
    {
      assert ts[i] in ts;
    }
  }

  // ---- the same on states ----

  /** Events that touch neither the flow nor the history of their transaction. */
  predicate Internal(e: Event) {
    e.TaskStart? || e.GateAcquire? || e.CheckInsert? || e.DropEntry? || e.Issue? || e.SetEvent? || e.Cancel?
    || e.UserReturn? || e.UserPanic?
  }

  lemma InternalViews(c: Config, s: State, e: Event, k: TxKey)
    requires Enabled(c, s, e) && Internal(e)
    ensures var s' := Apply(c, s, e);
      && FlowOf(s', k) == FlowOf(s, k) && Executed(s', k) == Executed(s, k) && Told(s', k) == Told(s, k)
      && s'.next == if e.Issue? then s.next + 1 else s.next
  {
    HistoryKept(c, s, e);
    ToldKept(c, s, e, k);
    FlowStep(c, s, e, k);
  }

  lemma CheckInsertOrder(c: Config, s: State, k: TxKey, gone: set<nat>)
    requires KeyPath(s, k) && KeyOrder(s, k, gone) && Enabled(c, s, CheckInsert(k))
    ensures KeyOrder(Apply(c, s, CheckInsert(k)), k, gone)
  {
    InternalViews(c, s, CheckInsert(k), k);
    var p := s.tasks[k].phase;
    if Waiter(s.link, k).Some? {
      RefusedOrder(FlowOf(s, k), p, Executed(s, k), Told(s, k), gone);
    } else {
      AdvancedOrder(FlowOf(s, k), p, Waiting, Executed(s, k), Told(s, k), gone);
    }
  }

  lemma TicketBelow(p: Phase, f: seq<Item>, done: seq<Seen>, told: seq<Seen>, gone: set<nat>, n: nat)
    requires p.Running? && OrderOk(f, Some(p), done, told, gone) && Waits(p, n)
    requires !(p.holder.Some? && p.holder.value.call == n)
    ensures Below(done, n)
  {
    var i: nat :| i < |p.tickets| && TicketAt(p.tickets, i, n);
  }

  lemma CancelOrder(c: Config, s: State, k: TxKey, n: nat, gone: set<nat>)
    requires Inv(s) && KeyOrder(s, k, gone) && Enabled(c, s, Cancel(k, n))
    ensures KeyOrder(Apply(c, s, Cancel(k, n)), k, gone + {n})
  {
    assert KeyPath(s, k);
    InternalViews(c, s, Cancel(k, n), k);
    CancelKnown(c, s, k, n);
    var p, f, done, told := s.tasks[k].phase, FlowOf(s, k), Executed(s, k), Told(s, k);
    if p.holder.Some? && p.holder.value.call == n {
      HolderLeaves(f, p, done, told, gone);
    } else {
      TicketBelow(p, f, done, told, gone, n);
      WithoutOk(k, p.tickets, n, s.calls);
      TicketLeaves(f, p, Without(p.tickets, n), n, done, told, gone);
    }
  }

  lemma CancelKnown(c: Config, s: State, k: TxKey, n: nat)
    requires Inv(s) && Enabled(c, s, Cancel(k, n))
    ensures n < s.next
  {
    assert KeyPath(s, k);
  }

  lemma StartOrder(c: Config, s: State, k: TxKey, gone: set<nat>)
    requires KeyPath(s, k) && KeyOrder(s, k, gone) && Enabled(c, s, TaskStart(k))
    ensures KeyOrder(Apply(c, s, TaskStart(k)), k, gone)
  {
    InternalViews(c, s, TaskStart(k), k);
  }

  lemma GateOrder(c: Config, s: State, k: TxKey, gone: set<nat>)
    requires KeyOrder(s, k, gone) && Enabled(c, s, GateAcquire(k))
    ensures KeyOrder(Apply(c, s, GateAcquire(k)), k, gone)
  {
    InternalViews(c, s, GateAcquire(k), k);
    AcquiredOrder(FlowOf(s, k), s.tasks[k].phase, Executed(s, k), Told(s, k), gone);
  }

  lemma IssueCallOrder(c: Config, s: State, k: TxKey, q: Request, gone: set<nat>)
    requires KeyOrder(s, k, gone) && Enabled(c, s, Issue(k, q))
    ensures KeyOrder(Apply(c, s, Issue(k, q)), k, gone)
  {
    InternalViews(c, s, Issue(k, q), k);
    var p := s.tasks[k].phase;
    IssuedOrder(FlowOf(s, k), p, Executed(s, k), Told(s, k), gone, s.next, q, p.work - 1);
  }

  lemma EventOrder(c: Config, s: State, k: TxKey, e: Event, gone: set<nat>)
    requires KeyOrder(s, k, gone) && Enabled(c, s, e) && (e.SetEvent? || e.DropEntry?) && e.key == k
    ensures KeyOrder(Apply(c, s, e), k, gone)
  {
    InternalViews(c, s, e, k);
  }

  lemma EndOrder(c: Config, s: State, k: TxKey, e: Event, gone: set<nat>)
    requires KeyPath(s, k) && KeyOrder(s, k, gone) && Enabled(c, s, e)
    requires (e.UserReturn? || e.UserPanic?) && e.key == k
    ensures KeyOrder(Apply(c, s, e), k, gone)
  {
    InternalViews(c, s, e, k);
    EndedOrder(FlowOf(s, k), s.tasks[k].phase, Apply(c, s, e).tasks[k].phase, Executed(s, k), Told(s, k), gone);
  }

  lemma EnqueueOrder(c: Config, s: State, k: TxKey, gone: set<nat>)
    requires KeyPath(s, k) && KeyOrder(s, k, gone) && Enabled(c, s, Enqueue(k))
    ensures KeyOrder(Apply(c, s, Enqueue(k)), k, gone)
  {
    var p, h := s.tasks[k].phase, s.tasks[k].phase.holder.value;
    assert FlowOf(s, k) == [] && h.slot.None?;
    FlowStep(c, s, Enqueue(k), k);
    HistoryKept(c, s, Enqueue(k));
    ToldKept(c, s, Enqueue(k), k);
    if s.link.closed {
      RefusedOrder([], p, Executed(s, k), Told(s, k), gone);
    } else {
      AskedOrder(p, h.req, Executed(s, k), Told(s, k), gone);
      AdvancedOrder([Asked(h.call, h.req)], p, Sent, Executed(s, k), Told(s, k), gone);
    }
  }

  lemma ReceiveOrder(c: Config, s: State, k: TxKey, gone: set<nat>)
    requires KeyPath(s, k) && KeyOrder(s, k, gone) && Enabled(c, s, Receive(k))
    ensures KeyOrder(Apply(c, s, Receive(k)), k, gone)
  {
    var p, h, s' := s.tasks[k].phase, s.tasks[k].phase.holder.value, Apply(c, s, Receive(k));
    assert h.slot.Some? && FlowOf(s, k) == [];
    FlowStep(c, s, Receive(k), k);
    HistoryKept(c, s, Receive(k));
    CollectSnoc(s.returned, Returned(h.call, k, Answered(h.slot.value)), AsAnswer(k));
    ReceivedOrder(p, Executed(s, k), Told(s, k), gone);
  }

  lemma TaskSendOrder(c: Config, s: State, k: TxKey, gone: set<nat>)
    requires KeyOrder(s, k, gone) && Enabled(c, s, TaskSend(k))
    ensures KeyOrder(Apply(c, s, TaskSend(k)), k, gone)
  {
    FlowStep(c, s, TaskSend(k), k);
    HistoryKept(c, s, TaskSend(k));
  }

  lemma DeliverOrder(c: Config, s: State, k: TxKey, gone: set<nat>)
    requires KeyPath(s, k) && KeyOrder(s, k, gone) && Enabled(c, s, ReaderTake) && s.inbound[0].key == k
    requires React(s.conn, s.inbound[0].ty).Route?
    ensures KeyOrder(ApplyReaderTake(s), k, gone)
  {
    HistoryKept(c, s, ReaderTake);
    RoutedFlow(s, k);
    RoutedViews(s, k);
    if IsRunning(s, k) {
      DeliveredOrder(FlowOf(s, k), s.tasks[k].phase, Executed(s, k), Told(s, k), gone);
    }
  }

  lemma PassOrder(c: Config, s: State, k: TxKey, gone: set<nat>)
    requires KeyPath(s, k) && KeyStart(s, k) && KeyOrder(s, k, gone) && (s.conn.Up? || s.tasks == map[])
    requires Enabled(c, s, ReaderTake) && !React(s.conn, s.inbound[0].ty).Route?
    ensures KeyOrder(ApplyReaderTake(s), k, gone)
  {
    PassFlow(s, k);
    NewTask(s, k);
    HistoryKept(c, s, ReaderTake);
    SameOrder(s, ApplyReaderTake(s), k, gone);
  }

  /** Outside routing, reading a message changes a task only by creating it. */
  lemma NewTask(s: State, k: TxKey)
    requires KeyStart(s, k) && s.inbound != [] && !React(s.conn, s.inbound[0].ty).Route?
    ensures var s' := ApplyReaderTake(s);
      PhaseOf(s', k) == PhaseOf(s, k) || (PhaseOf(s, k).None? && PhaseOf(s', k) == Some(Starting))
  {
    var m := s.inbound[0];
    assert Collect(s.inbound, AsStart(k)) == AsStart(k)(m) + Collect(s.inbound[1..], AsStart(k));
  }

  lemma AnswerViews(c: Config, s: State, i: nat, k: TxKey)
    requires Inv(s) && Enabled(c, s, PeerAnswer(i)) && s.inbox[i].key == k
    ensures var m, s' := s.inbox[i], ApplyPeerAnswer(c, s, i); var r := ReplyTo(c, s, m);
      && FlowOf(s, k) == [Asked(m.call, m.req)] && FlowOf(s', k) == [Replied(m.call, r)]
      && Executed(s', k) == Executed(s, k) + [Seen(m.call, r)] && Told(s', k) == Told(s, k)
      && PhaseOf(s', k) == PhaseOf(s, k) && s'.next == s.next && m.call < s.next
  {
    var m := s.inbox[i];
    AnswerFlow(c, s, i, k);
    AnswerAsksOwner(c, s, i);
    CollectSnoc(s.ledger, Exec(m.call, m.key, m.req, ReplyTo(c, s, m)), AsExec(k));
  }

  lemma AnswerOrder(c: Config, s: State, i: nat, k: TxKey, gone: set<nat>)
    requires Inv(s) && KeyOrder(s, k, gone) && Enabled(c, s, PeerAnswer(i)) && s.inbox[i].key == k
    ensures KeyOrder(ApplyPeerAnswer(c, s, i), k, gone)
  {
    var m := s.inbox[i];
    AnswerViews(c, s, i, k);
    assert KeyPath(s, k);
    var r, p, done, told := ReplyTo(c, s, m), s.tasks[k].phase, Executed(s, k), Told(s, k);
    ExecutedKnown(m.call, m.req, r, done, gone, s.next);
    if IsRunning(s, k) {
      ExecutedRunning(m.call, m.req, r, p, done, told, gone);
    } else {
      ExecutedEnded(m.call, m.req, r, p, done, told, gone);
    }
  }

  lemma InternalOrder(c: Config, s: State, e: Event, k: TxKey, gone: set<nat>)
    requires KeyPath(s, k) && KeyOrder(s, k, gone) && Enabled(c, s, e) && Internal(e) && e.key == k && !e.Cancel?
    ensures KeyOrder(Apply(c, s, e), k, gone)
  {
    match e
    case TaskStart(_) => StartOrder(c, s, k, gone);
    case GateAcquire(_) => GateOrder(c, s, k, gone);
    case CheckInsert(_) => CheckInsertOrder(c, s, k, gone);
    case Issue(_, q) => IssueCallOrder(c, s, k, q, gone);
    case UserReturn(_, _) => EndOrder(c, s, k, e, gone);
    case UserPanic(_) => EndOrder(c, s, k, e, gone);
    case _ => EventOrder(c, s, k, e, gone);
  }

  lemma TakeOrder(c: Config, s: State, k: TxKey, gone: set<nat>)
    requires KeyPath(s, k) && KeyStart(s, k) && KeyOrder(s, k, gone) && (s.conn.Up? || s.tasks == map[])
    requires Enabled(c, s, ReaderTake) && s.inbound[0].key == k
    ensures KeyOrder(ApplyReaderTake(s), k, gone)
  {
    if React(s.conn, s.inbound[0].ty).Route? {
      DeliverOrder(c, s, k, gone);
    } else {
      PassOrder(c, s, k, gone);
    }
  }

  lemma OrderTarget(c: Config, s: State, e: Event, k: TxKey, gone: set<nat>)
    requires Inv(s) && KeyOrder(s, k, gone) && Enabled(c, s, e) && Target(s, e) == Some(k) && !e.Cancel?
    ensures KeyOrder(Apply(c, s, e), k, gone)
  {
    assert KeyPath(s, k) && KeyStart(s, k);
    if Internal(e) {
      InternalOrder(c, s, e, k, gone);
    } else {
      match e
      case Enqueue(_) => EnqueueOrder(c, s, k, gone);
      case Receive(_) => ReceiveOrder(c, s, k, gone);
      case TaskSend(_) => TaskSendOrder(c, s, k, gone);
      case PeerAnswer(i) => AnswerOrder(c, s, i, k, gone);
      case _ => TakeOrder(c, s, k, gone);
    }
  }

  // ---- over runs ----

  /** The calls of `k` whose callers gave up on them. */
  function Gone(es: seq<Event>, k: TxKey): set<nat> {
    if es == [] then {} else WithLeft(Gone(es[1..], k), es[0], k)
  }

  function WithLeft(gone: set<nat>, e: Event, k: TxKey): set<nat> {
    if e.Cancel? && e.key == k then gone + {e.call} else gone
  }

  lemma OrderKept(c: Config, s: State, e: Event, k: TxKey, gone: set<nat>)
    requires Inv(s) && KeyOrder(s, k, gone) && Enabled(c, s, e) && !(e.Cancel? && e.key == k)
    ensures KeyOrder(Apply(c, s, e), k, gone)
  {
    if Target(s, e) == Some(k) {
      OrderTarget(c, s, e, k, gone);
    } else if e.QueueClose? {
      assert KeyPath(s, k);
      CloseOrder(c, s, k, gone);
    } else {
      OrderOther(c, s, e, k, gone);
    }
  }

  lemma OrderStep(c: Config, s: State, e: Event, k: TxKey, gone: set<nat>)
    requires Inv(s) && KeyOrder(s, k, gone) && Enabled(c, s, e)
    ensures KeyOrder(Apply(c, s, e), k, WithLeft(gone, e, k))
  {
    if e.Cancel? && e.key == k {
      CancelOrder(c, s, k, e.call, gone);
    } else {
      OrderKept(c, s, e, k, gone);
    }
  }

  lemma GoneOneMore(gone: set<nat>, es: seq<Event>, k: TxKey)
    requires es != []
    ensures WithLeft(gone, es[0], k) + Gone(es[1..], k) == gone + Gone(es, k)
  {
  }

  lemma {:induction false} OrderRun(c: Config, s: State, es: seq<Event>, k: TxKey, gone: set<nat>)
    requires Inv(s) && KeyOrder(s, k, gone) && IsRun(c, s, es)
    ensures KeyOrder(Final(c, s, es), k, gone + Gone(es, k))
    decreases |es|
  {
    if es == [] {
      assert gone + Gone(es, k) == gone;
    } else {
      var e, s' := es[0], Apply(c, s, es[0]);
      OrderStep(c, s, e, k, gone);
      InvStep(c, s, e);
      OrderRun(c, s', es[1..], k, WithLeft(gone, e, k));
      GoneOneMore(gone, es, k);
      assert Final(c, s, es) == Final(c, s', es[1..]);
    }
  }

  lemma FreshOrder(k: TxKey)
    ensures KeyOrder(Fresh(), k, {})
  {
  }

  lemma GoneFromStart(es: seq<Event>, k: TxKey)
    ensures {} + Gone(es, k) == Gone(es, k)
  {
  }

  /** The account of `k` over a whole run. */
  lemma RunOrder(c: Config, es: seq<Event>, k: TxKey)
    requires IsRun(c, Fresh(), es)
    ensures KeyOrder(Final(c, Fresh(), es), k, Gone(es, k))
  {
    FreshInv();
    FreshOrder(k);
    GoneFromStart(es, k);
    OrderRun(c, Fresh(), es, k, {});
  }

  lemma AccountAhead(f: seq<Item>, phase: Option<Phase>, done: seq<Seen>, told: seq<Seen>, gone: set<nat>)
    requires OrderOk(f, phase, done, told, gone) && Rising(done)
    ensures told <= Kept(done, gone) && |Kept(done, gone)| <= |told| + 1
    ensures Rising(told) && (gone == {} ==> Kept(done, gone) == done)
  {
    KeptRising(done, gone);
    KeptNone(done);
    var due := Kept(done, gone);
    assert told <= due;
    assert forall i :: 0 <= i < |told| ==> told[i] == due[i];
  }

  /** Over every run, each transaction is told exactly the replies to those of its own
      requests that were executed and whose callers did not give up, in the order it issued
      them and the peer executed them, missing at most the newest. */
  lemma OwnRepliesInIssueOrder(c: Config, es: seq<Event>, k: TxKey)
    requires IsRun(c, Fresh(), es)
    ensures var s := Final(c, Fresh(), es); var due := Kept(Executed(s, k), Gone(es, k));
      && Told(s, k) <= due && |due| <= |Told(s, k)| + 1
      && Rising(Executed(s, k)) && Rising(Told(s, k))
      && (Gone(es, k) == {} ==> due == Executed(s, k))
  {
    RunOrder(c, es, k);
    var s := Final(c, Fresh(), es);
    AccountAhead(FlowOf(s, k), PhaseOf(s, k), Executed(s, k), Told(s, k), Gone(es, k));
  }
}
