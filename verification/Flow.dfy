/** Where the request of one transaction is: on the way out, with the peer, or on the way
    back. The three stretches form one queue per key, and every event changes that queue
    in one of four simple ways. */
module Flow {
  import opened Wire
  import opened Links
  import opened Protocol
  import opened Projection

  datatype Item = Asked(call: nat, req: Request) | Replied(call: nat, reply: Reply)

  function OutItem(m: OutMsg, k: TxKey): seq<Item> {
    if m.OutRequest? && m.key == k then [Asked(m.call, m.req)] else []
  }

  function InItem(m: InMsg, k: TxKey): seq<Item> {
    if (m.ty == MsgType.Response || m.ty == MsgType.Error) && m.key == k then [Replied(m.call, ReplyOf(m))] else []
  }

  function AsOut(k: TxKey): OutMsg -> seq<Item> {
    (m: OutMsg) => OutItem(m, k)
  }

  function AsIn(k: TxKey): InMsg -> seq<Item> {
    (m: InMsg) => InItem(m, k)
  }

  /** Oldest first: replies nearest the read loop, then requests with the peer, then
      requests still queued. */
  function FlowOf(s: State, k: TxKey): seq<Item> {
    Collect(s.inbound, AsIn(k)) + Collect(s.inbox, AsOut(k)) + Collect(s.link.out, AsOut(k))
  }

  lemma PushFlow(s: State, s': State, m: OutMsg, k: TxKey)
    requires s'.link.out == Push(s.link, m).out && s'.inbox == s.inbox && s'.inbound == s.inbound
    ensures FlowOf(s', k) == FlowOf(s, k) + (if s.link.closed then [] else OutItem(m, k))
  {
    CollectSnoc(s.link.out, m, AsOut(k));
  }

  lemma TakeFlow(s: State, s': State, k: TxKey)
    requires s.inbound != [] && s'.inbound == s.inbound[1..]
    requires s'.inbox == s.inbox && s'.link.out == s.link.out
    ensures FlowOf(s, k) == InItem(s.inbound[0], k) + FlowOf(s', k)
  {
  }

  /** A reply next in line for the read loop leads the flow of its transaction. */
  lemma ReplyLeads(s: State, k: TxKey)
    requires s.inbound != [] && s.inbound[0].key == k
    requires s.inbound[0].ty == MsgType.Response || s.inbound[0].ty == MsgType.Error
    ensures FlowOf(s, k) != [] && FlowOf(s, k)[0] == Replied(s.inbound[0].call, ReplyOf(s.inbound[0]))
  {
    var q := Collect(s.inbound, AsIn(k));
    assert q == InItem(s.inbound[0], k) + Collect(s.inbound[1..], AsIn(k));
    assert q[0] == Replied(s.inbound[0].call, ReplyOf(s.inbound[0]));
  }

  lemma DrainFlow(s: State, k: TxKey)
    requires s.link.out != []
    ensures FlowOf(ApplyPeerDrain(s), k) == FlowOf(s, k)
  {
    var m := s.link.out[0];
    CollectSnoc(s.inbox, m, AsOut(k));
  }

  lemma SendFlow(s: State, m: InMsg, k: TxKey)
    requires m.ty != MsgType.Response && m.ty != MsgType.Error
    ensures FlowOf(ApplyPeerSend(s, m), k) == FlowOf(s, k)
  {
    CollectSnoc(s.inbound, m, AsIn(k));
  }

  /** What follows the request that event PeerAnswer(i) answers, within its key. */
  function Behind(s: State, i: nat, k: TxKey): seq<Item>
    requires i < |s.inbox|
  {
    Collect(s.inbox[i + 1..], AsOut(k)) + Collect(s.link.out, AsOut(k))
  }

  lemma AnswerInbound(c: Config, s: State, i: nat, k: TxKey)
    requires Enabled(c, s, PeerAnswer(i))
    ensures Collect(ApplyPeerAnswer(c, s, i).inbound, AsIn(k)) == Collect(s.inbound, AsIn(k)) +
      (if s.inbox[i].key == k then [Replied(s.inbox[i].call, ReplyTo(c, s, s.inbox[i]))] else [])
  {
    var r := ApplyPeerAnswer(c, s, i).inbound[|s.inbound|];
    assert ReplyOf(r) == ReplyTo(c, s, s.inbox[i]);
    CollectSnoc(s.inbound, r, AsIn(k));
  }

  lemma InboxOther(s: State, i: nat, k: TxKey)
    requires i < |s.inbox| && OutItem(s.inbox[i], k) == []
    ensures Collect(s.inbox[..i] + s.inbox[i + 1..], AsOut(k)) == Collect(s.inbox, AsOut(k))
  {
    CollectSplit(s.inbox, i, AsOut(k));
    CollectAppend(s.inbox[..i], s.inbox[i + 1..], AsOut(k));
  }

  lemma InboxOwn(c: Config, s: State, i: nat)
    requires Enabled(c, s, PeerAnswer(i))
    ensures var m := s.inbox[i]; var rest := Collect(s.inbox[i + 1..], AsOut(m.key));
      && Collect(s.inbox, AsOut(m.key)) == [Asked(m.call, m.req)] + rest
      && Collect(s.inbox[..i] + s.inbox[i + 1..], AsOut(m.key)) == rest
  {
    var k := s.inbox[i].key;
    CollectNothing(s.inbox[..i], AsOut(k));
    CollectSplit(s.inbox, i, AsOut(k));
    CollectAppend(s.inbox[..i], s.inbox[i + 1..], AsOut(k));
  }

  lemma Rebracket(a: seq<Item>, x: seq<Item>, b: seq<Item>, d: seq<Item>)
    ensures a + (x + b) + d == a + x + (b + d)
    ensures (a + x) + b + d == a + x + (b + d)
  {
  }

  /** Answering turns the oldest unanswered request of its key into its reply, in place. */
  lemma AnswerFlow(c: Config, s: State, i: nat, k: TxKey)
    requires Enabled(c, s, PeerAnswer(i))
    ensures var m := s.inbox[i]; var s' := ApplyPeerAnswer(c, s, i);
      if m.key == k then
        var ahead := Collect(s.inbound, AsIn(k));
        && FlowOf(s, k) == ahead + [Asked(m.call, m.req)] + Behind(s, i, k)
        && FlowOf(s', k) == ahead + [Replied(m.call, ReplyTo(c, s, m))] + Behind(s, i, k)
      else FlowOf(s', k) == FlowOf(s, k)
  {
    AnswerInbound(c, s, i, k);
    if s.inbox[i].key == k {
      InboxOwn(c, s, i);
      Rebracket(Collect(s.inbound, AsIn(k)), [Asked(s.inbox[i].call, s.inbox[i].req)],
                Collect(s.inbox[i + 1..], AsOut(k)), Collect(s.link.out, AsOut(k)));
      Rebracket(Collect(s.inbound, AsIn(k)), [Replied(s.inbox[i].call, ReplyTo(c, s, s.inbox[i]))],
                Collect(s.inbox[i + 1..], AsOut(k)), Collect(s.link.out, AsOut(k)));
    } else {
      InboxOther(s, i, k);
    }
  }

  /** The flow of key `k` after event `e`; the answer event is described by AnswerFlow and
      the loss of the queue by CloseFlow. */
  lemma FlowStep(c: Config, s: State, e: Event, k: TxKey)
    requires Enabled(c, s, e) && !e.PeerAnswer? && !e.QueueClose?
    ensures var s' := Apply(c, s, e);
      match e
      case Enqueue(key) =>
        FlowOf(s', k) == FlowOf(s, k) +
          (if key == k && !s.link.closed
           then [Asked(s.tasks[k].phase.holder.value.call, s.tasks[k].phase.holder.value.req)] else [])
      case ReaderTake => FlowOf(s, k) == InItem(s.inbound[0], k) + FlowOf(s', k)
      case _ => FlowOf(s', k) == FlowOf(s, k)
  {
    var s' := Apply(c, s, e);
    match e
    case ReaderWrite => PushFlow(s, s', WriteOf(s.reader), k);
    case ReaderTake => TakeFlow(s, s', k);
    case Enqueue(key) =>
      var h := s.tasks[key].phase.holder.value;
      PushFlow(s, s', OutRequest(key, h.call, h.req), k);
    case TaskSend(key) => PushFlow(s, s', OutTerminal(key, s.tasks[key].phase.terminal), k);
    case PeerSend(m) => SendFlow(s, m, k);
    case PeerDrain => DrainFlow(s, k);
    case _ => QuietFlow(c, s, e);
  }

  /** Everything else leaves all three stretches alone. */
  lemma QuietFlow(c: Config, s: State, e: Event)
    requires Enabled(c, s, e) && !e.PeerAnswer? && !e.QueueClose? && !e.ReaderWrite? && !e.ReaderTake?
    requires !e.Enqueue? && !e.TaskSend? && !e.PeerSend? && !e.PeerDrain?
    ensures var s' := Apply(c, s, e);
      s'.inbound == s.inbound && s'.inbox == s.inbox && s'.link.out == s.link.out
  {
  }

  lemma {:induction false} OnlyAsked(q: seq<OutMsg>, k: TxKey)
    ensures forall x :: x in Collect(q, AsOut(k)) ==> x.Asked?
  {
    if q != [] {
      OnlyAsked(q[1..], k);
    }
  }

  /** Closing the queue loses requests only. */
  lemma CloseFlow(c: Config, s: State, k: TxKey)
    requires Enabled(c, s, QueueClose)
    ensures FlowOf(Apply(c, s, QueueClose), k) <= FlowOf(s, k)
    ensures forall i :: |FlowOf(Apply(c, s, QueueClose), k)| <= i < |FlowOf(s, k)| ==> FlowOf(s, k)[i].Asked?
  {
    OnlyAsked(s.link.out, k);
  }
}
