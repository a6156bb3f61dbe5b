/** Which of the calls that were sent come back. */
module Returns {
  import opened Wire
  import opened Links
  import opened Handshake
  import opened Protocol
  import opened Flow
  import opened Safety
  import opened Limits
  import opened Terminals
  import opened Progress

  /** What the owner of call `n` may still do to get out. */
  predicate GivesUp(e: Event, k: TxKey, n: nat) {
    e == UserPanic(k) || e == Cancel(k, n)
  }

  predicate Patient(es: seq<Event>, k: TxKey, n: nat) {
    forall i :: 0 <= i < |es| ==> !GivesUp(es[i], k, n)
  }

  /** Some continuation, without the caller giving up, lets the call return. */
  ghost predicate CanReturn(c: Config, s: State, k: TxKey, n: nat) {
    exists es :: IsRun(c, s, es) && Patient(es, k, n) && Enabled(c, Final(c, s, es), Receive(k))
                 && Final(c, s, es).tasks[k].phase.holder.value.call == n
  }

  /** The loop will give up before it gets to a reply for `k`. */
  predicate Barred(inbound: seq<InMsg>, k: TxKey) {
    && inbound != [] && !(IsReply(inbound[0]) && inbound[0].key == k)
    && (React(Up, inbound[0].ty).Reject? || Barred(inbound[1..], k))
  }

  predicate Reads(r: Reader) {
    r.Reading? || r.Echoing?
  }

  /** The request or the reply is under way, the loop is alive, and the way is clear. */
  predicate OnItsWay(s: State, k: TxKey) {
    Reads(s.reader) && FlowOf(s, k) != [] && !Barred(s.inbound, k)
  }

  lemma {:induction false} BarredSnoc(q: seq<InMsg>, m: InMsg, k: TxKey)
    ensures Barred(q, k) ==> Barred(q + [m], k)
    ensures !Barred(q, k) && !React(Up, m.ty).Reject? ==> !Barred(q + [m], k)
  {
    if q == [] {
      assert (q + [m])[1..] == [];
    } else {
      BarredSnoc(q[1..], m, k);
      assert (q + [m])[0] == q[0] && (q + [m])[1..] == q[1..] + [m];
    }
  }

  // ---- a call whose reply cannot come waits for ever ----

  ghost predicate Lost(s: State, k: TxKey, n: nat) {
    AwaitsReply(s, k, n) && !OnItsWay(s, k) && !s.reader.Registering?
  }

  lemma AwaitsOn(c: Config, s: State, e: Event, k: TxKey, n: nat)
    requires Inv(s) && Enabled(c, s, e) && !GivesUp(e, k, n) && AwaitsReply(s, k, n)
    requires e.ReaderTake? ==> !(IsReply(s.inbound[0]) && s.inbound[0].key == k)
    ensures AwaitsReply(Apply(c, s, e), k, n)
  {
    assert KeyPath(s, k) && KeyStart(s, k);
    if Target(s, e) != Some(k) {
      OthersUntouched(c, s, e, k);
    } else if e.ReaderTake? {
      NewTaskOnlyOnce(s, k);
      PassPhase(s, k);
    } else {
      OwnEventAwaits(c, s, e, k, n);
    }
  }

  lemma OwnEventAwaits(c: Config, s: State, e: Event, k: TxKey, n: nat)
    requires KeyPath(s, k) && Enabled(c, s, e) && !GivesUp(e, k, n) && AwaitsReply(s, k, n)
    requires Target(s, e) == Some(k) && !e.ReaderTake?
    ensures AwaitsReply(Apply(c, s, e), k, n)
  {
  }

  /** A request that was lost stays lost. */
  lemma NothingComes(c: Config, s: State, e: Event, k: TxKey, n: nat)
    requires Inv(s) && Enabled(c, s, e) && AwaitsReply(s, k, n) && FlowOf(s, k) == []
    ensures FlowOf(Apply(c, s, e), k) == []
  {
    assert KeyPath(s, k);
    if e.PeerAnswer? {
      AnswerFlow(c, s, e.index, k);
    } else {
      FlowStep(c, s, e, k);
    }
  }

  lemma ReaderMoves(c: Config, s: State, e: Event)
    requires Enabled(c, s, e) && !s.reader.Registering?
    ensures !Apply(c, s, e).reader.Registering?
    ensures !Reads(s.reader) ==> !Reads(Apply(c, s, e).reader)
    ensures !e.ReaderTake? && !e.PeerSend? && !e.PeerAnswer? ==> Apply(c, s, e).inbound == s.inbound
  {
    if !e.ReaderTake? && !e.ReaderWrite? && !e.StreamEnd? {
      TakenKept(c, s, e);
    }
  }

  lemma StaysBarred(c: Config, s: State, e: Event, k: TxKey)
    requires Enabled(c, s, e) && s.conn.Up? && Barred(s.inbound, k)
    ensures Barred(Apply(c, s, e).inbound, k) || !Reads(Apply(c, s, e).reader)
  {
    match e
    case ReaderTake => TakeQueues(s);
    case PeerSend(m) => BarredSnoc(s.inbound, m, k);
    case PeerAnswer(i) => BarredSnoc(s.inbound, ApplyPeerAnswer(c, s, i).inbound[|s.inbound|], k);
    case _ =>
  }

  lemma OthersArrive(s: State, k: TxKey)
    requires s.inbound != [] && Reads(s.reader) && !OnItsWay(s, k)
    ensures !(IsReply(s.inbound[0]) && s.inbound[0].key == k)
  {
    if IsReply(s.inbound[0]) && s.inbound[0].key == k {
      ReplyLeads(s, k);
    }
  }

  lemma LostStep(c: Config, s: State, e: Event, k: TxKey, n: nat)
    requires Inv(s) && Enabled(c, s, e) && !GivesUp(e, k, n) && Lost(s, k, n)
    ensures Lost(Apply(c, s, e), k, n)
  {
    ReaderMoves(c, s, e);
    if e.ReaderTake? {
      OthersArrive(s, k);
    }
    AwaitsOn(c, s, e, k, n);
    if FlowOf(s, k) == [] {
      NothingComes(c, s, e, k, n);
    } else if Reads(s.reader) {
      StaysBarred(c, s, e, k);
    }
  }

  /** Such a call waits for as long as its caller is patient, although the error type
      reserves ConnectionClosed for it. */
  lemma {:induction false} LostForever(c: Config, s: State, es: seq<Event>, k: TxKey, n: nat)
    requires Inv(s) && IsRun(c, s, es) && Patient(es, k, n) && Lost(s, k, n)
    ensures Lost(Final(c, s, es), k, n) && !Enabled(c, Final(c, s, es), Receive(k))
    decreases |es|
  {
    if es == [] {
      WaitingBlocks(c, s, k, n);
    } else {
      assert !GivesUp(es[0], k, n);
      LostStep(c, s, es[0], k, n);
      InvStep(c, s, es[0]);
      assert forall i :: 0 <= i < |es| - 1 ==> es[1..][i] == es[i + 1];
      LostForever(c, Apply(c, s, es[0]), es[1..], k, n);
    }
  }

  /** A call whose slot is empty still owns its entry, so it cannot wake up. */
  lemma WaitingBlocks(c: Config, s: State, k: TxKey, n: nat)
    requires Inv(s) && AwaitsReply(s, k, n)
    ensures !Enabled(c, s, Receive(k))
  {
    assert KeyPath(s, k);
  }

  // ---- every other call can come back ----

  predicate Carrying(e: Event) {
    e.ReaderWrite? || e.ReaderTake? || e.PeerDrain? || e.PeerAnswer?
  }

  ghost predicate Coming(s: State, k: TxKey, n: nat) {
    AwaitsReply(s, k, n) && OnItsWay(s, k)
  }

  predicate HasReply(s: State, k: TxKey, n: nat) {
    HolderIn(s, k, Sent) && s.tasks[k].phase.holder.value.call == n && s.tasks[k].phase.holder.value.slot.Some?
  }

  lemma NextCarrier(c: Config, s: State, k: TxKey) returns (e: Event)
    requires AcceptedOk(s) && c.capacity > 0 && OnItsWay(s, k)
    ensures Carrying(e) && Enabled(c, s, e)
  {
    if s.reader.Echoing? {
      e := if CanSend(s.link, c.capacity) then ReaderWrite else PeerDrain;
    } else if s.inbound != [] {
      e := ReaderTake;
    } else if s.link.out != [] {
      e := PeerDrain;
    } else {
      assert s.inbox != [];
      e := PeerAnswer(0);
    }
  }

  lemma CarryFlow(c: Config, s: State, e: Event, k: TxKey)
    requires Enabled(c, s, e) && Carrying(e) && FlowOf(s, k) != []
    requires e.ReaderTake? ==> !(IsReply(s.inbound[0]) && s.inbound[0].key == k)
    ensures FlowOf(Apply(c, s, e), k) != []
  {
    if e.PeerAnswer? {
      AnswerFlow(c, s, e.index, k);
    } else {
      FlowStep(c, s, e, k);
    }
  }

  lemma CarryWay(c: Config, s: State, e: Event, k: TxKey)
    requires Enabled(c, s, e) && Carrying(e) && s.conn.Up? && Reads(s.reader) && !Barred(s.inbound, k)
    requires e.ReaderTake? ==> !(IsReply(s.inbound[0]) && s.inbound[0].key == k)
    ensures Reads(Apply(c, s, e).reader) && !Barred(Apply(c, s, e).inbound, k)
  {
    match e
    case ReaderTake => TakeWay(s, k);
    case PeerAnswer(i) => BarredSnoc(s.inbound, ApplyPeerAnswer(c, s, i).inbound[|s.inbound|], k);
    case _ =>
  }

  lemma TakeWay(s: State, k: TxKey)
    requires s.inbound != [] && s.conn.Up? && s.reader.Reading? && !Barred(s.inbound, k)
    requires !(IsReply(s.inbound[0]) && s.inbound[0].key == k)
    ensures Reads(ApplyReaderTake(s).reader) && !Barred(ApplyReaderTake(s).inbound, k)
  {
    TakeQueues(s);
  }

  lemma Arrives(s: State, k: TxKey, n: nat)
    requires KeyPath(s, k) && s.conn.Up? && AwaitsReply(s, k, n)
    requires s.inbound != [] && IsReply(s.inbound[0]) && s.inbound[0].key == k
    ensures HasReply(ApplyReaderTake(s), k, n)
  {
    ReplyLeads(s, k);
  }

  lemma CarryStep(c: Config, s: State, e: Event, k: TxKey, n: nat)
    requires Inv(s) && Enabled(c, s, e) && Carrying(e) && Coming(s, k, n)
    ensures Coming(Apply(c, s, e), k, n) || HasReply(Apply(c, s, e), k, n)
  {
    assert KeyPath(s, k);
    if e.ReaderTake? && IsReply(s.inbound[0]) && s.inbound[0].key == k {
      Arrives(s, k, n);
    } else {
      AwaitsOn(c, s, e, k, n);
      CarryFlow(c, s, e, k);
      CarryWay(c, s, e, k);
    }
  }

  predicate AllCarrying(es: seq<Event>) {
    forall i :: 0 <= i < |es| ==> Carrying(es[i])
  }

  /** Only the loop and the peer need to move. */
  lemma {:induction false} ComesBack(c: Config, s: State, k: TxKey, n: nat) returns (es: seq<Event>)
    requires Inv(s) && AcceptedOk(s) && c.capacity > 0 && (Coming(s, k, n) || HasReply(s, k, n))
    ensures IsRun(c, s, es) && AllCarrying(es) && HasReply(Final(c, s, es), k, n)
    decreases Measure(s)
  {
    es := [];
    if !HasReply(s, k, n) {
      var e := NextCarrier(c, s, k);
      CarryStep(c, s, e, k, n);
      InvStep(c, s, e);
      Progress.AcceptedStep(c, s, e);
      EveryEventLightens(c, s, e);
      var rest := ComesBack(c, Apply(c, s, e), k, n);
      es := [e] + rest;
      assert es[0] == e && es[1..] == rest;
    }
  }

  /** A sent call can come back if and only if its reply has been routed, or its request or
      reply is still under way to a loop that will get to it. */
  lemma ReturnsIffOnItsWay(c: Config, s: State, k: TxKey)
    requires Reachable(c, s) && HolderIn(s, k, Sent) && c.capacity > 0
    ensures CanReturn(c, s, k, s.tasks[k].phase.holder.value.call) <==> SlotOf(s, k).Some? || OnItsWay(s, k)
  {
    ReachableAccepted(c, s);
    ReachableTermInv(c, s);
    var n := s.tasks[k].phase.holder.value.call;
    if SlotOf(s, k).Some? || OnItsWay(s, k) {
      var es := ComesBack(c, s, k, n);
      assert forall i :: 0 <= i < |es| ==> Carrying(es[i]);
      assert Patient(es, k, n) && Enabled(c, Final(c, s, es), Receive(k));
    } else if CanReturn(c, s, k, n) {
      var es :| IsRun(c, s, es) && Patient(es, k, n) && Enabled(c, Final(c, s, es), Receive(k))
                && Final(c, s, es).tasks[k].phase.holder.value.call == n;
      LostForever(c, s, es, k, n);
    }
  }

  // ---- both ways to be lost occur ----

  /** A waiter stranded by the end of the stream. */
  lemma StrandedWaiterExists(c: Config, k: TxKey) returns (s: State, n: nat)
    requires c.capacity > 0
    ensures Reachable(c, s) && s.reader.Stopped? && !s.link.closed && AwaitsReply(s, k, n)
    ensures !CanReturn(c, s, k, n)
  {
    s, n := OneCallSent(c, k, Request(MsgType.GetState, []));
    s := ReachStep(c, s, StreamEnd);
    ReturnsIffOnItsWay(c, s, k);
  }

  /** A request lost with the queue, while the loop goes on reading. */
  lemma LostRequestExists(c: Config, k: TxKey) returns (s: State, n: nat)
    requires c.capacity > 0
    ensures Reachable(c, s) && s.reader.Reading? && AwaitsReply(s, k, n)
    ensures !CanReturn(c, s, k, n)
  {
    s, n := OneCallSent(c, k, Request(MsgType.GetState, []));
    s := ReachStep(c, s, QueueClose);
    assert FlowOf(s, k) == [];
    ReturnsIffOnItsWay(c, s, k);
  }
}
