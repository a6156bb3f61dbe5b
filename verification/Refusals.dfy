/** When the refusal that the stub's gate is meant to exclude happens: exactly when some
    caller gave up on a registered call whose reply has not been routed since. */
module Refusals {
  import opened Wire
  import opened Links
  import opened Handshake
  import opened Protocol
  import opened Projection
  import opened Flow
  import opened Safety
  import opened Limits

  /** The pending entry that belongs to the call inside the gate. */
  function OwnEntry(h: Option<Holder>): Option<nat> {
    if h.Some? && (h.value.stage.Waiting? || (h.value.stage.Sent? && h.value.slot.None?)) then Some(h.value.call)
    else None
  }

  /** The caller of a registered call of `k` gives up before the reply is routed. */
  predicate Deserts(s: State, e: Event, k: TxKey) {
    e.Cancel? && e.key == k && IsRunning(s, k) && OwnEntry(s.tasks[k].phase.holder) == Some(e.call)
  }

  predicate Routes(s: State, e: Event, k: TxKey) {
    e.ReaderTake? && s.inbound != [] && s.inbound[0].key == k && React(s.conn, s.inbound[0].ty).Route?
  }

  /** The deserted call of `k`, until a reply for `k` is routed. */
  function DesertedAfter(s: State, e: Event, k: TxKey, left: Option<nat>): Option<nat> {
    if Deserts(s, e, k) then Some(e.call) else if Routes(s, e, k) then None else left
  }

  ghost function Deserted(c: Config, s: State, es: seq<Event>, k: TxKey, left: Option<nat>): Option<nat>
    requires IsRun(c, s, es)
    decreases |es|
  {
    if es == [] then left
    else Deserted(c, Apply(c, s, es[0]), es[1..], k, DesertedAfter(s, es[0], k, left))
  }

  /** The pending entry belongs to the deserted call or, without one, to the call inside. */
  ghost predicate EntryOk(entry: Option<nat>, phase: Option<Phase>, left: Option<nat>) {
    match phase
    case None => left.None?
    case Some(Starting) => left.None?
    case Some(Running(_, h, _, _)) => if left.Some? then entry == left && OwnEntry(h).None? else entry == OwnEntry(h)
    case Some(_) => true
  }

  ghost predicate KeyEntry(s: State, k: TxKey, left: Option<nat>) {
    EntryOk(Waiter(s.link, k), PhaseOf(s, k), left)
  }

  lemma EntryOther(c: Config, s: State, e: Event, k: TxKey, left: Option<nat>)
    requires KeyEntry(s, k, left) && Enabled(c, s, e) && Target(s, e) != Some(k)
    ensures KeyEntry(Apply(c, s, e), k, DesertedAfter(s, e, k, left))
  {
    OthersUntouched(c, s, e, k);
  }

  lemma FilledEntry(p: Phase, call: nat, r: Reply)
    requires p.Running? && (OwnEntry(p.holder).Some? ==> OwnEntry(p.holder) == Some(call))
    requires p.holder.Some? ==> !p.holder.value.stage.Waiting?
    ensures Fill(p, call, r).Running? && OwnEntry(Fill(p, call, r).holder).None?
  {
  }

  /** While a reply for `k` is under way, no call of `k` waits for room. */
  lemma NoneWaits(s: State, k: TxKey)
    requires KeyPath(s, k) && s.inbound != [] && s.inbound[0].key == k && React(s.conn, s.inbound[0].ty).Route?
    ensures !HolderIn(s, k, Waiting)
  {
    ReplyLeads(s, k);
  }

  lemma EntryRouted(s: State, k: TxKey, left: Option<nat>)
    requires KeyPath(s, k) && KeyEntry(s, k, left) && s.inbound != [] && s.inbound[0].key == k
    requires React(s.conn, s.inbound[0].ty).Route?
    ensures KeyEntry(ApplyReaderTake(s), k, None)
  {
    RoutedViews(s, k);
    NoneWaits(s, k);
    if IsRunning(s, k) && Waiter(s.link, k).Some? {
      FilledEntry(s.tasks[k].phase, Waiter(s.link, k).value, ReplyOf(s.inbound[0]));
    }
  }

  lemma EntryPassed(s: State, k: TxKey, left: Option<nat>)
    requires KeyStart(s, k) && KeyPath(s, k) && KeyEntry(s, k, left) && s.inbound != []
    requires s.inbound[0].key == k && !React(s.conn, s.inbound[0].ty).Route?
    ensures KeyEntry(ApplyReaderTake(s), k, left)
  {
    TakeQueues(s);
    if k in s.tasks {
      NewTaskOnlyOnce(s, k);
      PassPhase(s, k);
    }
  }

  lemma EntryTake(s: State, k: TxKey, left: Option<nat>)
    requires KeyPath(s, k) && KeyStart(s, k) && KeyEntry(s, k, left) && s.inbound != [] && s.inbound[0].key == k
    ensures KeyEntry(ApplyReaderTake(s), k, DesertedAfter(s, ReaderTake, k, left))
  {
    if React(s.conn, s.inbound[0].ty).Route? {
      EntryRouted(s, k, left);
    } else {
      EntryPassed(s, k, left);
    }
  }

  lemma EntryGate(c: Config, s: State, e: Event, k: TxKey, left: Option<nat>)
    requires KeyPath(s, k) && KeyEntry(s, k, left) && Enabled(c, s, e) && Target(s, e) == Some(k)
    requires e.GateAcquire? || e.CheckInsert? || e.Enqueue? || e.Receive?
    ensures KeyEntry(Apply(c, s, e), k, left)
  {
  }

  lemma EntryRest(c: Config, s: State, e: Event, k: TxKey, left: Option<nat>)
    requires KeyPath(s, k) && KeyEntry(s, k, left) && Enabled(c, s, e) && Target(s, e) == Some(k)
    requires !e.ReaderTake? && !e.GateAcquire? && !e.CheckInsert? && !e.Enqueue? && !e.Receive?
    ensures KeyEntry(Apply(c, s, e), k, DesertedAfter(s, e, k, left))
  {
  }

  lemma EntryStep(c: Config, s: State, e: Event, k: TxKey, left: Option<nat>)
    requires Inv(s) && KeyEntry(s, k, left) && Enabled(c, s, e)
    ensures KeyEntry(Apply(c, s, e), k, DesertedAfter(s, e, k, left))
  {
    assert KeyPath(s, k) && KeyStart(s, k);
    if Target(s, e) != Some(k) {
      EntryOther(c, s, e, k, left);
    } else if e.ReaderTake? {
      EntryTake(s, k, left);
    } else if e.GateAcquire? || e.CheckInsert? || e.Enqueue? || e.Receive? {
      EntryGate(c, s, e, k, left);
    } else {
      EntryRest(c, s, e, k, left);
    }
  }

  lemma {:induction false} EntryRun(c: Config, s: State, es: seq<Event>, k: TxKey, left: Option<nat>)
    requires Inv(s) && KeyEntry(s, k, left) && IsRun(c, s, es)
    ensures KeyEntry(Final(c, s, es), k, Deserted(c, s, es, k, left))
    decreases |es|
  {
    if es != [] {
      EntryStep(c, s, es[0], k, left);
      InvStep(c, s, es[0]);
      EntryRun(c, Apply(c, s, es[0]), es[1..], k, DesertedAfter(s, es[0], k, left));
    }
  }

  /** After any run, a call of `k` that reaches the registration check is refused if and only
      if some caller of `k` deserted a registered call and no reply for `k` was routed since. */
  lemma RefusedIffDeserted(c: Config, es: seq<Event>, k: TxKey)
    requires IsRun(c, Fresh(), es) && Enabled(c, Final(c, Fresh(), es), CheckInsert(k))
    ensures var s := Final(c, Fresh(), es);
      Refusals(Apply(c, s, CheckInsert(k)), k) != Refusals(s, k) <==> Deserted(c, Fresh(), es, k, None).Some?
  {
    FreshInv();
    EntryRun(c, Fresh(), es, k, None);
    var s := Final(c, Fresh(), es);
    CheckedOne(c, s, k, Deserted(c, Fresh(), es, k, None));
  }

  // ---- all refusals of a run ----

  function AsRefusal(k: TxKey): Returned -> seq<nat> {
    (x: Returned) => if x.key == k && x.outcome == Refused(AlreadyInFlight) then [x.call] else []
  }

  /** The calls of `k` that were refused as already in flight, in order. */
  function Refusals(s: State, k: TxKey): seq<nat> {
    Collect(s.returned, AsRefusal(k))
  }

  lemma CheckedOne(c: Config, s: State, k: TxKey, left: Option<nat>)
    requires Enabled(c, s, CheckInsert(k)) && KeyEntry(s, k, left)
    ensures Refusals(Apply(c, s, CheckInsert(k)), k) ==
      Refusals(s, k) + if left.Some? then [s.tasks[k].phase.holder.value.call] else []
  {
    var h := s.tasks[k].phase.holder.value;
    CollectSnoc(s.returned, Returned(h.call, k, Refused(AlreadyInFlight)), AsRefusal(k));
  }

  lemma OtherReturn(c: Config, s: State, e: Event, k: TxKey)
    requires Enabled(c, s, e) && e != CheckInsert(k)
    ensures Apply(c, s, e).returned == s.returned
         || exists x :: Apply(c, s, e).returned == s.returned + [x] && AsRefusal(k)(x) == []
  {
    var s' := Apply(c, s, e);
    if e.CheckInsert? || e.Enqueue? || e.Receive? {
      if s'.returned != s.returned {
        assert s'.returned == s.returned + [s'.returned[|s.returned|]];
      }
    }
  }

  lemma NotChecked(c: Config, s: State, e: Event, k: TxKey)
    requires Enabled(c, s, e) && e != CheckInsert(k)
    ensures Refusals(Apply(c, s, e), k) == Refusals(s, k)
  {
    OtherReturn(c, s, e, k);
    var s' := Apply(c, s, e);
    if s'.returned != s.returned {
      var x :| s'.returned == s.returned + [x] && AsRefusal(k)(x) == [];
      CollectSnoc(s.returned, x, AsRefusal(k));
    }
  }

  /** The calls that reached the check while a deserted call was outstanding, in order. */
  ghost function Blocked(c: Config, s: State, es: seq<Event>, k: TxKey, left: Option<nat>): seq<nat>
    requires IsRun(c, s, es)
    decreases |es|
  {
    if es == [] then []
    else
      BlockedAt(s, es[0], k, left) + Blocked(c, Apply(c, s, es[0]), es[1..], k, DesertedAfter(s, es[0], k, left))
  }

  function BlockedAt(s: State, e: Event, k: TxKey, left: Option<nat>): seq<nat> {
    if e == CheckInsert(k) && HolderIn(s, k, Entered) && left.Some? then [s.tasks[k].phase.holder.value.call]
    else []
  }

  lemma RefusalStep(c: Config, s: State, e: Event, k: TxKey, left: Option<nat>)
    requires KeyEntry(s, k, left) && Enabled(c, s, e)
    ensures Refusals(Apply(c, s, e), k) == Refusals(s, k) + BlockedAt(s, e, k, left)
  {
    if e == CheckInsert(k) {
      CheckedOne(c, s, k, left);
    } else {
      NotChecked(c, s, e, k);
    }
  }

  lemma Regroup(a: seq<nat>, b: seq<nat>, c: seq<nat>)
    ensures a + b + c == a + (b + c)
  {
  }

  lemma {:induction false} RefusalsOverRun(c: Config, s: State, es: seq<Event>, k: TxKey, left: Option<nat>)
    requires Inv(s) && KeyEntry(s, k, left) && IsRun(c, s, es)
    ensures Refusals(Final(c, s, es), k) == Refusals(s, k) + Blocked(c, s, es, k, left)
    decreases |es|
  {
    if es != [] {
      var e, s' := es[0], Apply(c, s, es[0]);
      EntryStep(c, s, e, k, left);
      InvStep(c, s, e);
      RefusalsOverRun(c, s', es[1..], k, DesertedAfter(s, e, k, left));
      RefusalStep(c, s, e, k, left);
      Regroup(Refusals(s, k), BlockedAt(s, e, k, left), Blocked(c, s', es[1..], k, DesertedAfter(s, e, k, left)));
    }
  }

  /** Over every run, the refused calls of a transaction are exactly those that reached the
      check while a deserted call was outstanding. */
  lemma RefusalsAreBlockedCalls(c: Config, es: seq<Event>, k: TxKey)
    requires IsRun(c, Fresh(), es)
    ensures Refusals(Final(c, Fresh(), es), k) == Blocked(c, Fresh(), es, k, None)
  {
    FreshInv();
    RefusalsOverRun(c, Fresh(), es, k, None);
  }

  /** Nobody deserts a registered call of `k` along the run; all other cancellations, of
      this transaction and of others, are allowed. */
  ghost predicate Loyal(c: Config, s: State, es: seq<Event>, k: TxKey)
    requires IsRun(c, s, es)
    decreases |es|
  {
    es == [] || (!Deserts(s, es[0], k) && Loyal(c, Apply(c, s, es[0]), es[1..], k))
  }

  lemma {:induction false} LoyalBlocksNobody(c: Config, s: State, es: seq<Event>, k: TxKey)
    requires IsRun(c, s, es) && Loyal(c, s, es, k)
    ensures Blocked(c, s, es, k, None) == []
    decreases |es|
  {
    if es != [] {
      LoyalBlocksNobody(c, Apply(c, s, es[0]), es[1..], k);
    }
  }

  /** So the gate keeps its promise to every transaction whose callers see their registered
      calls through. */
  lemma LoyalCallsAreNeverRefused(c: Config, es: seq<Event>, k: TxKey)
    requires IsRun(c, Fresh(), es) && Loyal(c, Fresh(), es, k)
    ensures Refusals(Final(c, Fresh(), es), k) == []
  {
    RefusalsAreBlockedCalls(c, es, k);
    LoyalBlocksNobody(c, Fresh(), es, k);
  }

  // ---- both kinds of desertion occur ----

  lemma SameFlow(c: Config, s: State, e: Event, k: TxKey)
    requires Enabled(c, s, e) && (e.Cancel? || e.GateAcquire? || e.CheckInsert?)
    ensures FlowOf(Apply(c, s, e), k) == FlowOf(s, k)
  {
    FlowStep(c, s, e, k);
  }

  lemma FirstRefusal(s: State, s': State, k: TxKey, n: nat)
    requires s.returned == [] && s'.returned == s.returned + [Returned(n, k, Refused(AlreadyInFlight))]
    ensures Refusals(s', k) == [n]
  {
    assert s'.returned == [Returned(n, k, Refused(AlreadyInFlight))];
    CollectOne(Returned(n, k, Refused(AlreadyInFlight)), AsRefusal(k));
  }

  /** The next call enters the gate, with the first one gone and its request under way. */
  lemma NextCallEnters(c: Config, k: TxKey, q: Request) returns (s: State, n: nat)
    requires c.capacity > 0
    ensures Reachable(c, s) && s.returned == [] && Waiter(s.link, k) == Some(n) && FlowOf(s, k) != []
    ensures IsRunning(s, k) && s.tasks[k].phase.holder == Some(Holder(n + 1, q, Entered, None))
  {
    s, n := OneCallSent(c, k, q);
    SameFlow(c, s, Cancel(k, n), k);
    s := ReachStep(c, s, Cancel(k, n));
    SameFlow(c, s, GateAcquire(k), k);
    s := ReachStep(c, s, GateAcquire(k));
  }

  /** A call that timed out after it was sent blocks the next one as well, while its request
      is still under way. */
  lemma TimedOutCallBlocksTheNext(c: Config, k: TxKey) returns (s: State, n: nat)
    requires c.capacity > 0
    ensures Reachable(c, s) && Refusals(s, k) == [n + 1]
    ensures Waiter(s.link, k) == Some(n) && FlowOf(s, k) != [] && !Wedged(s, k)
  {
    s, n := NextCallEnters(c, k, Request(MsgType.GetState, []));
    SameFlow(c, s, CheckInsert(k), k);
    FirstRefusal(s, Apply(c, s, CheckInsert(k)), k, n + 1);
    s := ReachStep(c, s, CheckInsert(k));
  }
}
