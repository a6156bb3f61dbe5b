/** Deadlock freedom: a well-founded measure that every event except a new message from the
    peer decreases, and a description of the states in which nothing can move. */
module Progress {
  import opened Wire
  import opened Handshake
  import opened Protocol
  import opened Flow
  import opened Safety
  import opened Limits
  import opened Terminals

  // ---- weights ----

  function Total<M>(q: seq<M>, w: M -> nat): nat {
    if q == [] then 0 else w(q[0]) + Total(q[1..], w)
  }

  lemma {:induction false} TotalAppend<M>(a: seq<M>, b: seq<M>, w: M -> nat)
    ensures Total(a + b, w) == Total(a, w) + Total(b, w)
  {
    if a == [] {
      assert a + b == b;
    } else {
      TotalAppend(a[1..], b, w);
      assert (a + b)[0] == a[0] && (a + b)[1..] == a[1..] + b;
    }
  }

  lemma TotalSnoc<M>(q: seq<M>, m: M, w: M -> nat)
    ensures Total(q + [m], w) == Total(q, w) + w(m)
  {
    TotalAppend(q, [m], w);
    assert [m][1..] == [];
  }

  function InWeight(m: InMsg): nat {
    match m.ty
    case Init => 8 + 9 * m.input.work
    case Transaction => 8 + 9 * m.input.work
    case Response => 2
    case Error => 2
    case _ => 3
  }

  function OutWeight(m: OutMsg): nat {
    if m.OutRequest? then 4 else 1
  }

  function ReaderWeight(r: Reader): nat {
    match r
    case Registering => 3 case Reading => 1 case Echoing(_) => 3 case Rejecting(_) => 2 case Stopped => 0
  }

  function HolderWeight(h: Option<Holder>): nat {
    match h
    case None => 0
    case Some(x) => match x.stage case Entered => 7 case Waiting => 6 case Sent => 1
  }

  function TaskWeight(t: Task): nat {
    match t.phase
    case Starting => 7 + 9 * t.input.work
    case Running(ts, h, work, _) => 6 + 9 * work + 8 * |ts| + HolderWeight(h)
    case Ended(_, _) => 5
    case Finishing(_) => 3
    case Done(_, _) => 0
  }

  function TasksWeight(keys: seq<TxKey>, tasks: map<TxKey, Task>): nat {
    if keys == [] then 0
    else (if keys[0] in tasks then TaskWeight(tasks[keys[0]]) else 0) + TasksWeight(keys[1..], tasks)
  }

  function Measure(s: State): nat {
    Total(s.inbound, InWeight) + 3 * |s.inbox| + Total(s.link.out, OutWeight)
    + ReaderWeight(s.reader) + TasksWeight(s.accepted, s.tasks) + (if s.link.closed then 0 else 1)
  }

  // ---- the list of accepted transactions ----

  predicate Distinct(keys: seq<TxKey>) {
    forall i, j :: 0 <= i < j < |keys| ==> keys[i] != keys[j]
  }

  ghost predicate AcceptedOk(s: State) {
    && Distinct(s.accepted)
    && (forall k :: k in s.accepted <==> k in s.tasks)
    && (forall i :: 0 <= i < |s.inbox| ==> s.inbox[i].OutRequest?)
  }

  lemma {:induction false} TasksFrame(keys: seq<TxKey>, tasks: map<TxKey, Task>, k: TxKey, t: Task)
    requires k !in keys
    ensures TasksWeight(keys, tasks[k := t]) == TasksWeight(keys, tasks)
  {
    if keys != [] {
      TasksFrame(keys[1..], tasks, k, t);
    }
  }

  lemma {:induction false} TasksUpdate(keys: seq<TxKey>, tasks: map<TxKey, Task>, k: TxKey, t: Task)
    requires Distinct(keys) && k in keys && k in tasks
    ensures TasksWeight(keys, tasks[k := t]) + TaskWeight(tasks[k]) == TasksWeight(keys, tasks) + TaskWeight(t)
  {
    assert Distinct(keys[1..]) by {
      assert forall i :: 0 <= i < |keys| - 1 ==> keys[1..][i] == keys[i + 1];
    }
    if keys[0] == k {
      assert k !in keys[1..];
      TasksFrame(keys[1..], tasks, k, t);
    } else {
      TasksUpdate(keys[1..], tasks, k, t);
    }
  }

  lemma {:induction false} TasksSnoc(keys: seq<TxKey>, tasks: map<TxKey, Task>, k: TxKey)
    requires k in tasks
    ensures TasksWeight(keys + [k], tasks) == TasksWeight(keys, tasks) + TaskWeight(tasks[k])
  {
    if keys == [] {
      assert keys + [k] == [k] && [k][1..] == [];
    } else {
      TasksSnoc(keys[1..], tasks, k);
      assert (keys + [k])[0] == keys[0] && (keys + [k])[1..] == keys[1..] + [k];
    }
  }

  lemma SpawnAccepted(s: State)
    requires s.inbound != [] && KeyStart(s, s.inbound[0].key) && AcceptedOk(s)
    requires React(s.conn, s.inbound[0].ty).Spawn?
    ensures AcceptedOk(ApplyReaderTake(s))
  {
    var m := s.inbound[0];
    if m.key in s.tasks { NewTaskOnlyOnce(s, m.key); }
    assert m.key !in s.accepted;
  }

  lemma OtherAccepted(s: State)
    requires AcceptedOk(s) && s.inbound != [] && !React(s.conn, s.inbound[0].ty).Spawn?
    ensures AcceptedOk(ApplyReaderTake(s))
  {
    TakeQueues(s);
  }

  lemma AcceptedStep(c: Config, s: State, e: Event)
    requires Inv(s) && AcceptedOk(s) && Enabled(c, s, e)
    ensures AcceptedOk(Apply(c, s, e))
  {
    if e.ReaderTake? {
      assert KeyStart(s, s.inbound[0].key);
      if React(s.conn, s.inbound[0].ty).Spawn? {
        SpawnAccepted(s);
      } else {
        OtherAccepted(s);
      }
    } else {
      AcceptedKept(c, s, e);
    }
  }

  lemma AcceptedKept(c: Config, s: State, e: Event)
    requires AcceptedOk(s) && Enabled(c, s, e) && !e.ReaderTake?
    ensures var s' := Apply(c, s, e);
      && s'.accepted == s.accepted && s'.tasks.Keys == s.tasks.Keys
      && forall i :: 0 <= i < |s'.inbox| ==> s'.inbox[i].OutRequest?
  {
  }

  // ---- the measure ----

  predicate TaskEvent(e: Event) {
    e.TaskStart? || e.GateAcquire? || e.CheckInsert? || e.Receive? || e.DropEntry? || e.Issue? || e.SetEvent?
    || e.Cancel? || e.UserReturn? || e.UserPanic?
  }

  lemma TaskEventShape(c: Config, s: State, e: Event)
    requires Enabled(c, s, e) && TaskEvent(e)
    ensures var s' := Apply(c, s, e);
      && s'.inbound == s.inbound && s'.inbox == s.inbox && s'.link.out == s.link.out
      && s'.reader == s.reader && s'.accepted == s.accepted && s'.link.closed == s.link.closed
      && e.key in s.tasks && e.key in s'.tasks && s'.tasks == s.tasks[e.key := s'.tasks[e.key]]
  {
  }

  lemma {:induction false} WithoutShorter(ts: seq<Ticket>, call: nat)
    ensures |Without(ts, call)| <= |ts|
    ensures (exists i: nat | i < |ts| :: TicketAt(ts, i, call)) ==> |Without(ts, call)| < |ts|
  {
    if ts != [] && ts[0].call != call {
      WithoutShorter(ts[1..], call);
      if i: nat :| i < |ts| && TicketAt(ts, i, call) {
        assert TicketAt(ts[1..], i - 1, call);
      }
    }
  }

  lemma TaskEventLightens(c: Config, s: State, e: Event)
    requires Enabled(c, s, e) && TaskEvent(e)
    ensures e.key in s.tasks && e.key in Apply(c, s, e).tasks
    ensures TaskWeight(Apply(c, s, e).tasks[e.key]) < TaskWeight(s.tasks[e.key])
  {
    if e.Cancel? {
      WithoutShorter(s.tasks[e.key].phase.tickets, e.call);
    }
  }

  lemma SpawnLightens(s: State)
    requires Inv(s) && AcceptedOk(s) && s.reader.Reading? && s.inbound != []
    requires React(s.conn, s.inbound[0].ty).Spawn?
    ensures Measure(ApplyReaderTake(s)) < Measure(s)
  {
    var m, s' := s.inbound[0], ApplyReaderTake(s);
    assert KeyStart(s, m.key);
    if m.key in s.tasks { NewTaskOnlyOnce(s, m.key); }
    TasksFrame(s.accepted, s.tasks, m.key, Task(m.input, Starting));
    TasksSnoc(s.accepted, s'.tasks, m.key);
    assert s'.link == s.link && s'.inbox == s.inbox && s'.reader == s.reader;
  }

  lemma RouteLightens(s: State)
    requires AcceptedOk(s) && s.reader.Reading? && s.inbound != []
    requires React(s.conn, s.inbound[0].ty).Route?
    ensures Measure(ApplyReaderTake(s)) < Measure(s)
  {
    var m, s' := s.inbound[0], ApplyReaderTake(s);
    TakeQueues(s);
    RouteShape(s);
    if m.key in s.tasks {
      RouteWeight(s);
      TasksUpdate(s.accepted, s.tasks, m.key, s'.tasks[m.key]);
    }
  }

  lemma RouteShape(s: State)
    requires s.inbound != [] && React(s.conn, s.inbound[0].ty).Route?
    ensures var s' := ApplyReaderTake(s);
      && s'.reader == s.reader && s'.accepted == s.accepted && s'.link.closed == s.link.closed
      && (s.inbound[0].key !in s.tasks ==> s'.tasks == s.tasks)
  {
  }

  lemma ReaderTakeLightens(s: State)
    requires Inv(s) && AcceptedOk(s) && s.reader.Reading? && s.inbound != []
    ensures Measure(ApplyReaderTake(s)) < Measure(s)
  {
    match React(s.conn, s.inbound[0].ty)
    case Spawn => SpawnLightens(s);
    case Route => RouteLightens(s);
    case _ =>
  }

  /** Filling a slot moves no weight. */
  lemma RouteWeight(s: State)
    requires s.inbound != [] && React(s.conn, s.inbound[0].ty).Route? && s.inbound[0].key in s.tasks
    ensures var k, s' := s.inbound[0].key, ApplyReaderTake(s);
      && k in s'.tasks && s'.tasks == s.tasks[k := s'.tasks[k]]
      && TaskWeight(s'.tasks[k]) == TaskWeight(s.tasks[k])
  {
  }

  lemma EnqueueLightens(c: Config, s: State, k: TxKey)
    requires AcceptedOk(s) && Enabled(c, s, Enqueue(k))
    ensures Measure(ApplyEnqueue(s, k)) < Measure(s)
  {
    var h, s' := s.tasks[k].phase.holder.value, ApplyEnqueue(s, k);
    TotalSnoc(s.link.out, OutRequest(k, h.call, h.req), OutWeight);
    TasksUpdate(s.accepted, s.tasks, k, s'.tasks[k]);
    assert s'.tasks == s.tasks[k := s'.tasks[k]];
  }

  lemma TaskSendLightens(c: Config, s: State, k: TxKey)
    requires AcceptedOk(s) && Enabled(c, s, TaskSend(k))
    ensures Measure(ApplyTaskSend(s, k)) < Measure(s)
  {
    var s' := ApplyTaskSend(s, k);
    TotalSnoc(s.link.out, OutTerminal(k, s.tasks[k].phase.terminal), OutWeight);
    TasksUpdate(s.accepted, s.tasks, k, s'.tasks[k]);
    assert s'.tasks == s.tasks[k := s'.tasks[k]];
  }

  lemma TaskEventMeasure(c: Config, s: State, e: Event)
    requires AcceptedOk(s) && Enabled(c, s, e) && TaskEvent(e)
    ensures Measure(Apply(c, s, e)) < Measure(s)
  {
    TaskEventShape(c, s, e);
    TaskEventLightens(c, s, e);
    TasksUpdate(s.accepted, s.tasks, e.key, Apply(c, s, e).tasks[e.key]);
  }

  lemma WriteLightens(s: State)
    requires s.reader.Registering? || s.reader.Echoing? || s.reader.Rejecting?
    ensures Measure(ApplyReaderWrite(s)) < Measure(s)
  {
    TotalSnoc(s.link.out, WriteOf(s.reader), OutWeight);
  }

  lemma DrainLightens(s: State)
    requires s.link.out != []
    ensures Measure(ApplyPeerDrain(s)) < Measure(s)
  {
  }

  lemma AnswerLightens(c: Config, s: State, i: nat)
    requires i < |s.inbox| && s.inbox[i].OutRequest?
    ensures Measure(ApplyPeerAnswer(c, s, i)) < Measure(s)
  {
    TotalSnoc(s.inbound, ApplyPeerAnswer(c, s, i).inbound[|s.inbound|], InWeight);
  }

  lemma QueueEventMeasure(c: Config, s: State, e: Event)
    requires Enabled(c, s, e)
    requires e.ReaderWrite? || e.PeerDrain? || e.PeerAnswer? || e.StreamEnd? || e.QueueClose?
    ensures Measure(Apply(c, s, e)) < Measure(s)
  {
    match e
    case ReaderWrite => WriteLightens(s);
    case PeerDrain => DrainLightens(s);
    case PeerAnswer(i) => AnswerLightens(c, s, i);
    case _ =>
  }

  /** Every event but a new message from the peer makes the state lighter. */
  lemma EveryEventLightens(c: Config, s: State, e: Event)
    requires Inv(s) && AcceptedOk(s) && Enabled(c, s, e) && !e.PeerSend?
    ensures Measure(Apply(c, s, e)) < Measure(s)
  {
    if TaskEvent(e) {
      TaskEventMeasure(c, s, e);
    } else {
      match e
      case ReaderTake => ReaderTakeLightens(s);
      case Enqueue(k) => EnqueueLightens(c, s, k);
      case TaskSend(k) => TaskSendLightens(c, s, k);
      case _ => QueueEventMeasure(c, s, e);
    }
  }

  lemma PeerSendWeighs(c: Config, s: State, m: InMsg)
    requires Enabled(c, s, PeerSend(m))
    ensures Measure(Apply(c, s, PeerSend(m))) == Measure(s) + InWeight(m)
  {
    TotalSnoc(s.inbound, m, InWeight);
  }

  /** What the peer's own messages add to the length of a run. */
  function Fuel(es: seq<Event>): nat {
    if es == [] then 0 else (if es[0].PeerSend? then 1 + InWeight(es[0].msg) else 0) + Fuel(es[1..])
  }

  /** No run is longer than the messages the peer puts in can feed: between two of them the
      protocol comes to rest. */
  lemma {:induction false} RunsAreBounded(c: Config, s: State, es: seq<Event>)
    requires Inv(s) && AcceptedOk(s) && IsRun(c, s, es)
    ensures |es| + Measure(Final(c, s, es)) <= Measure(s) + Fuel(es)
    ensures AcceptedOk(Final(c, s, es))
    decreases |es|
  {
    if es != [] {
      InvStep(c, s, es[0]);
      AcceptedStep(c, s, es[0]);
      RunsAreBounded(c, Apply(c, s, es[0]), es[1..]);
      if es[0].PeerSend? {
        PeerSendWeighs(c, s, es[0].msg);
      } else {
        EveryEventLightens(c, s, es[0]);
      }
    }
  }

  // ---- rest ----

  /** Steps the shim and a draining, answering peer will take, and a handler's return. */
  predicate Productive(e: Event) {
    e.ReaderWrite? || e.ReaderTake? || e.TaskStart? || e.GateAcquire? || e.CheckInsert? || e.Enqueue?
    || e.Receive? || e.DropEntry? || e.TaskSend? || e.UserReturn? || e.PeerDrain? || e.PeerAnswer?
  }

  ghost predicate AtRest(c: Config, s: State) {
    forall e :: Productive(e) ==> !Enabled(c, s, e)
  }

  lemma QuietQueues(c: Config, s: State)
    requires AcceptedOk(s) && AtRest(c, s)
    ensures s.link.out == [] && s.inbox == [] && (s.reader.Reading? ==> s.inbound == [])
    ensures c.capacity > 0 ==> s.reader.Reading? || s.reader.Stopped?
  {
    assert !Enabled(c, s, PeerDrain) && !Enabled(c, s, PeerAnswer(0));
    assert !Enabled(c, s, ReaderTake) && !Enabled(c, s, ReaderWrite);
  }

  /** The call of `k` waits for a reply that cannot come any more: the loop has stopped, or
      the request was lost with the queue. */
  predicate Hopeless(s: State, k: TxKey) {
    && IsRunning(s, k) && s.tasks[k].phase.holder.Some? && AwaitsReply(s, k, s.tasks[k].phase.holder.value.call)
    && (s.reader.Stopped? || (s.link.closed && FlowOf(s, k) == []))
  }

  /** At rest a task is finished or inside a call that waits for its reply. */
  lemma QuietPhase(c: Config, s: State, k: TxKey)
    requires AtRest(c, s) && s.link.out == [] && c.capacity > 0 && k in s.tasks
    ensures s.tasks[k].phase.Done? || (HolderIn(s, k, Sent) && SlotOf(s, k).None?)
  {
    assert !Enabled(c, s, TaskStart(k)) && !Enabled(c, s, DropEntry(k)) && !Enabled(c, s, TaskSend(k));
    assert !Enabled(c, s, GateAcquire(k)) && !Enabled(c, s, CheckInsert(k)) && !Enabled(c, s, Enqueue(k));
    assert !Enabled(c, s, Receive(k)) && !Enabled(c, s, UserReturn(k, c.panicked));
  }

  lemma QuietTask(c: Config, s: State, k: TxKey)
    requires Inv(s) && AcceptedOk(s) && AtRest(c, s) && c.capacity > 0 && k in s.tasks
    ensures s.tasks[k].phase.Done? || Hopeless(s, k)
  {
    QuietQueues(c, s);
    QuietPhase(c, s, k);
    assert KeyPath(s, k);
    if !s.tasks[k].phase.Done? && !s.reader.Stopped? {
      assert FlowOf(s, k) == [];
    }
  }

  lemma ReachableAccepted(c: Config, s: State)
    requires Reachable(c, s)
    ensures Inv(s) && AcceptedOk(s)
  {
    var es :| IsRun(c, Fresh(), es) && Final(c, Fresh(), es) == s;
    FreshInv();
    RunsAreBounded(c, Fresh(), es);
    ReachableInv(c, s);
  }

  /** Where a connection can come to rest: everything sent has been taken, and every accepted
      transaction has sent its terminal message, or found the queue gone when it wanted to;
      the only others are those with a call that waits for a reply that cannot come. */
  lemma RestMeansFinished(c: Config, s: State, k: TxKey)
    requires Reachable(c, s) && AtRest(c, s) && c.capacity > 0 && k in s.tasks
    ensures s.link.out == []
    ensures s.tasks[k].phase.Done? <==> !Hopeless(s, k)
    ensures s.tasks[k].phase.Done? ==>
      if s.tasks[k].phase.delivered then OutTerminal(k, s.tasks[k].phase.terminal) in s.link.sent else s.link.closed
  {
    ReachableAccepted(c, s);
    QuietQueues(c, s);
    QuietTask(c, s, k);
    ReachableTermInv(c, s);
    assert KeyTerminal(s, k);
    if s.tasks[k].phase.Done? && s.tasks[k].phase.delivered {
      FromProjection(s.link.sent, OutTerminal(k, s.tasks[k].phase.terminal), k);
    }
  }

  predicate AllProductive(es: seq<Event>) {
    forall i :: 0 <= i < |es| ==> Productive(es[i])
  }

  lemma ProductiveNeedsNoFuel(es: seq<Event>)
    requires AllProductive(es)
    ensures Fuel(es) == 0
    decreases |es|
  {
    if es != [] {
      assert Productive(es[0]);
      assert forall i :: 0 <= i < |es| - 1 ==> es[1..][i] == es[i + 1];
      ProductiveNeedsNoFuel(es[1..]);
    }
  }

  /** Whatever productive steps are taken, in whatever order, there can be only so many of
      them, and they can always be continued until the connection is at rest. */
  lemma AnyOrderComesToRest(c: Config, s: State, done: seq<Event>) returns (more: seq<Event>)
    requires Inv(s) && AcceptedOk(s) && IsRun(c, s, done) && AllProductive(done)
    ensures |done| <= Measure(s)
    ensures var s' := Final(c, s, done);
      IsRun(c, s', more) && AllProductive(more) && AtRest(c, Final(c, s', more))
  {
    ProductiveNeedsNoFuel(done);
    RunsAreBounded(c, s, done);
    InvRun(c, s, done);
    more := ComesToRest(c, Final(c, s, done));
  }

  /** One way to get there: take any productive step while there is one. */
  lemma {:induction false} ComesToRest(c: Config, s: State) returns (es: seq<Event>)
    requires Inv(s) && AcceptedOk(s)
    ensures IsRun(c, s, es) && AllProductive(es) && AtRest(c, Final(c, s, es))
    decreases Measure(s)
  {
    es := [];
    if e :| Productive(e) && Enabled(c, s, e) {
      InvStep(c, s, e);
      AcceptedStep(c, s, e);
      EveryEventLightens(c, s, e);
      var rest := ComesToRest(c, Apply(c, s, e));
      es := [e] + rest;
      assert es[0] == e && es[1..] == rest;
    }
  }
}
