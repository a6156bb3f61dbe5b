/** The read loop over whole runs, whatever the peer sends: what the loop itself says, which
    tasks it starts, and when it is over. */
module ReadLoop {
  import opened Wire
  import opened Handshake
  import opened Protocol
  import opened Projection
  import opened Terminals

  // ---- any peer at all ----

  /** A peer that may send anything at any time, replies to nothing included. */
  predicate Permitted(c: Config, s: State, e: Event) {
    e.PeerSend? || Enabled(c, s, e)
  }

  function Perform(c: Config, s: State, e: Event): State
    requires Permitted(c, s, e)
  {
    if e.PeerSend? then ApplyPeerSend(s, e.msg) else Apply(c, s, e)
  }

  ghost predicate IsAnyRun(c: Config, s: State, es: seq<Event>)
    decreases |es|
  {
    es == [] || (Permitted(c, s, es[0]) && IsAnyRun(c, Perform(c, s, es[0]), es[1..]))
  }

  ghost function AnyFinal(c: Config, s: State, es: seq<Event>): State
    requires IsAnyRun(c, s, es)
    decreases |es|
  {
    if es == [] then s else AnyFinal(c, Perform(c, s, es[0]), es[1..])
  }

  lemma {:induction false} RunIsAnyRun(c: Config, s: State, es: seq<Event>)
    requires IsRun(c, s, es)
    ensures IsAnyRun(c, s, es) && AnyFinal(c, s, es) == Final(c, s, es)
    decreases |es|
  {
    if es != [] {
      RunIsAnyRun(c, Apply(c, s, es[0]), es[1..]);
    }
  }

  // ---- what the loop says ----

  function AsOwn(): OutMsg -> seq<OutMsg> {
    (m: OutMsg) => if m.OutRegister? || m.OutEcho? || m.OutReject? then [m] else []
  }

  /** The loop's own messages that entered the queue. */
  function Own(s: State): seq<OutMsg> {
    Collect(s.link.sent, AsOwn())
  }

  /** What the messages read so far call for. */
  function Due(s: State): seq<OutMsg> {
    [OutRegister] + Drive(Created, s.taken).sends
  }

  /** The message the loop is about to write. */
  function AboutToSay(r: Reader): seq<OutMsg> {
    if r.Registering? || r.Echoing? || r.Rejecting? then [WriteOf(r)] else []
  }

  /** With the queue open the loop has said, or is saying, exactly what is due. */
  ghost predicate SaidOk(s: State) {
    && (s.reader.Registering? ==> s.taken == [])
    && if s.link.closed then Own(s) <= Due(s) else Own(s) + AboutToSay(s.reader) == Due(s)
  }

  lemma TakeSays(s: State)
    requires s.reader.Reading? && s.inbound != [] && TakenOk(s)
    ensures var s' := ApplyReaderTake(s);
      Due(s') == Due(s) + Sends(s.conn, s.inbound[0]) && AboutToSay(s'.reader) == Sends(s.conn, s.inbound[0])
  {
    DriveSnoc(Created, s.taken, s.inbound[0]);
    TakeMoves(s);
  }

  lemma TakeSent(s: State)
    requires s.inbound != []
    ensures ApplyReaderTake(s).link.sent == s.link.sent && ApplyReaderTake(s).link.closed == s.link.closed
  {
  }

  lemma SaidTake(s: State)
    requires s.reader.Reading? && s.inbound != [] && TakenOk(s) && SaidOk(s)
    ensures SaidOk(ApplyReaderTake(s))
  {
    TakeSays(s);
    TakeSent(s);
    TakeMoves(s);
  }

  lemma SaidWrite(s: State)
    requires (s.reader.Registering? || s.reader.Echoing? || s.reader.Rejecting?) && SaidOk(s)
    ensures SaidOk(ApplyReaderWrite(s))
  {
    CollectSnoc(s.link.sent, WriteOf(s.reader), AsOwn());
  }

  /** Messages of tasks are none of the loop's. */
  lemma OwnKept(c: Config, s: State, e: Event)
    requires Enabled(c, s, e) && !e.ReaderTake? && !e.ReaderWrite?
    ensures Own(Apply(c, s, e)) == Own(s)
  {
    SentGrows(c, s, e);
    match e
    case Enqueue(k) =>
      var h := s.tasks[k].phase.holder.value;
      CollectSnoc(s.link.sent, OutRequest(k, h.call, h.req), AsOwn());
    case TaskSend(k) => CollectSnoc(s.link.sent, OutTerminal(k, s.tasks[k].phase.terminal), AsOwn());
    case _ =>
  }

  lemma QueueKept(c: Config, s: State, e: Event)
    requires Enabled(c, s, e)
    ensures Apply(c, s, e).link.closed == (s.link.closed || e.QueueClose?)
  {
  }

  lemma LoopKept(c: Config, s: State, e: Event)
    requires Enabled(c, s, e) && !e.ReaderTake? && !e.ReaderWrite?
    ensures Due(Apply(c, s, e)) == Due(s) && Apply(c, s, e).taken == s.taken
    ensures AboutToSay(Apply(c, s, e).reader) == AboutToSay(s.reader)
    ensures Apply(c, s, e).reader.Registering? <==> s.reader.Registering?
  {
    TakenKept(c, s, e);
  }

  lemma SaidStep(c: Config, s: State, e: Event)
    requires Enabled(c, s, e) && TakenOk(s) && SaidOk(s)
    ensures SaidOk(Apply(c, s, e))
  {
    if e.ReaderTake? {
      SaidTake(s);
    } else if e.ReaderWrite? {
      SaidWrite(s);
    } else {
      OwnKept(c, s, e);
      QueueKept(c, s, e);
      LoopKept(c, s, e);
    }
  }

  // ---- which tasks the loop starts ----

  function KeysOf(ms: seq<InMsg>): (ks: seq<TxKey>)
    ensures |ks| == |ms| && forall i :: 0 <= i < |ms| ==> ks[i] == ms[i].key
  {
    seq(|ms|, i requires 0 <= i < |ms| => ms[i].key)
  }

  /** The input of the last message for `k`. */
  function LastInput(ms: seq<InMsg>, k: TxKey): Option<TxInput> {
    if ms == [] then None
    else if ms[|ms| - 1].key == k then Some(ms[|ms| - 1].input)
    else LastInput(ms[..|ms| - 1], k)
  }

  /** The messages that start tasks, among those read. */
  function StartsRead(s: State): seq<InMsg> {
    Drive(Created, s.taken).spawned
  }

  function InputOf(s: State, k: TxKey): Option<TxInput> {
    if k in s.tasks then Some(s.tasks[k].input) else None
  }

  ghost predicate StartedOk(s: State) {
    s.accepted == KeysOf(StartsRead(s)) && forall k :: InputOf(s, k) == LastInput(StartsRead(s), k)
  }

  lemma InputKept(c: Config, s: State, e: Event, k: TxKey)
    requires Enabled(c, s, e) && !e.ReaderTake?
    ensures InputOf(Apply(c, s, e), k) == InputOf(s, k) && Apply(c, s, e).accepted == s.accepted
  {
  }

  lemma TakeStarts(s: State, k: TxKey)
    requires s.inbound != []
    ensures var m, s' := s.inbound[0], ApplyReaderTake(s);
      if React(s.conn, m.ty).Spawn? then
        && s'.accepted == s.accepted + [m.key]
        && InputOf(s', k) == if m.key == k then Some(m.input) else InputOf(s, k)
      else s'.accepted == s.accepted && InputOf(s', k) == InputOf(s, k)
  {
  }

  lemma LastInputSnoc(ms: seq<InMsg>, m: InMsg, k: TxKey)
    ensures LastInput(ms + [m], k) == if m.key == k then Some(m.input) else LastInput(ms, k)
  {
    assert (ms + [m])[..|ms|] == ms;
  }

  lemma KeysOfSnoc(ms: seq<InMsg>, m: InMsg)
    ensures KeysOf(ms + [m]) == KeysOf(ms) + [m.key]
  {
  }

  lemma TakeStartsRead(s: State)
    requires s.reader.Reading? && s.inbound != [] && TakenOk(s)
    ensures StartsRead(ApplyReaderTake(s)) ==
      if React(s.conn, s.inbound[0].ty).Spawn? then StartsRead(s) + [s.inbound[0]] else StartsRead(s)
  {
    DriveSnoc(Created, s.taken, s.inbound[0]);
    TakeMoves(s);
  }

  lemma StartedTake(s: State)
    requires s.reader.Reading? && s.inbound != [] && TakenOk(s) && StartedOk(s)
    ensures StartedOk(ApplyReaderTake(s))
  {
    var m, s', ms := s.inbound[0], ApplyReaderTake(s), StartsRead(s);
    TakeStartsRead(s);
    TakeStarts(s, m.key);
    KeysOfSnoc(ms, m);
    forall k ensures InputOf(s', k) == LastInput(StartsRead(s'), k) {
      TakeStarts(s, k);
      LastInputSnoc(ms, m, k);
    }
  }

  lemma StartedStep(c: Config, s: State, e: Event)
    requires Enabled(c, s, e) && TakenOk(s) && StartedOk(s)
    ensures StartedOk(Apply(c, s, e))
  {
    if e.ReaderTake? {
      StartedTake(s);
    } else {
      TakenKept(c, s, e);
      forall k ensures InputOf(Apply(c, s, e), k) == LastInput(StartsRead(Apply(c, s, e)), k) {
        InputKept(c, s, e, k);
      }
      InputKept(c, s, e, TxKey("", ""));
    }
  }

  // ---- over runs ----

  ghost predicate LoopOk(s: State) {
    SentOk(s) && TakenOk(s) && SaidOk(s) && StartedOk(s)
  }

  lemma SendKeepsLoop(s: State, m: InMsg)
    requires LoopOk(s)
    ensures LoopOk(ApplyPeerSend(s, m))
  {
    assert forall k :: InputOf(ApplyPeerSend(s, m), k) == InputOf(s, k);
  }

  lemma LoopStep(c: Config, s: State, e: Event)
    requires LoopOk(s) && Permitted(c, s, e)
    ensures LoopOk(Perform(c, s, e))
  {
    if e.PeerSend? {
      SendKeepsLoop(s, e.msg);
    } else {
      SentStep(c, s, e);
      TakenStep(c, s, e);
      SaidStep(c, s, e);
      StartedStep(c, s, e);
    }
  }

  lemma {:induction false} LoopRun(c: Config, s: State, es: seq<Event>)
    requires LoopOk(s) && IsAnyRun(c, s, es)
    ensures LoopOk(AnyFinal(c, s, es))
    decreases |es|
  {
    if es != [] {
      LoopStep(c, s, es[0]);
      LoopRun(c, Perform(c, s, es[0]), es[1..]);
    }
  }

  lemma FreshLoop()
    ensures LoopOk(Fresh())
  {
  }

  /** Over every run with any peer: as long as somebody listens, the loop has sent, or is
      sending, REGISTER, one echo per keepalive it accepted and the ERROR it owes, in the order
      of what it read and nothing else; once nobody listens, what it sent is a prefix of that. */
  lemma LoopSaysWhatIsDue(c: Config, es: seq<Event>)
    requires IsAnyRun(c, Fresh(), es)
    ensures var s := AnyFinal(c, Fresh(), es); var d := Drive(Created, s.taken);
      && Due(s) == [OutRegister] + (Echoes(Accepted(Created, s.taken)) + Verdict(d, s.taken))
      && (if s.link.closed then Own(s) <= Due(s) else Own(s) + AboutToSay(s.reader) == Due(s))
  {
    FreshLoop();
    LoopRun(c, Fresh(), es);
    DriveSends(Created, AnyFinal(c, Fresh(), es).taken);
  }

  /** The tasks there are come from the INIT and TRANSACTION messages accepted, in that order,
      and each has the input of the last message for its key. */
  lemma TasksComeFromMessages(c: Config, es: seq<Event>, k: TxKey)
    requires IsAnyRun(c, Fresh(), es)
    ensures var s := AnyFinal(c, Fresh(), es); var ms := Starts(Accepted(Created, s.taken));
      s.accepted == KeysOf(ms) && InputOf(s, k) == LastInput(ms, k)
  {
    FreshLoop();
    LoopRun(c, Fresh(), es);
    DriveSpawnsAndRoutes(Created, AnyFinal(c, Fresh(), es).taken);
  }

  // ---- the one ERROR ----

  function AsRejection(): OutMsg -> seq<OutMsg> {
    (m: OutMsg) => if m.OutReject? then [m] else []
  }

  /** The loop's ERROR messages that entered the queue. */
  function Rejections(sent: seq<OutMsg>): seq<OutMsg> {
    Collect(sent, AsRejection())
  }

  lemma {:induction false} RejectionsAreOwn(sent: seq<OutMsg>)
    ensures Rejections(sent) == Rejections(Collect(sent, AsOwn()))
  {
    if sent != [] {
      RejectionsAreOwn(sent[1..]);
      CollectAppend(AsOwn()(sent[0]), Collect(sent[1..], AsOwn()), AsRejection());
      assert Rejections(AsOwn()(sent[0])) == AsRejection()(sent[0]) by {
        CollectOne(sent[0], AsRejection());
      }
    }
  }

  lemma RejectionsDue(s: State)
    requires TakenOk(s)
    ensures Rejections(Due(s)) == Verdict(Drive(Created, s.taken), s.taken)
  {
    var d := Drive(Created, s.taken);
    var echoes, verdict := Echoes(Accepted(Created, s.taken)), Verdict(d, s.taken);
    DriveSends(Created, s.taken);
    CollectAppend([OutRegister], echoes + verdict, AsRejection());
    CollectAppend(echoes, verdict, AsRejection());
    CollectOne(OutRegister, AsRejection());
    assert forall j :: 0 <= j < |echoes| ==> echoes[j] in echoes && echoes[j].OutEcho?;
    CollectNothing(echoes, AsRejection());
    if d.rejected {
      CollectOne(verdict[0], AsRejection());
    }
  }

  lemma RejectionsPrefix(a: seq<OutMsg>, b: seq<OutMsg>)
    requires a <= b
    ensures Rejections(a) <= Rejections(b)
  {
    CollectAppend(a, b[|a|..], AsRejection());
    assert a + b[|a|..] == b;
  }

  lemma RejectionsSaid(s: State)
    requires TakenOk(s) && SaidOk(s)
    ensures var verdict := Verdict(Drive(Created, s.taken), s.taken);
      if s.link.closed then Rejections(s.link.sent) <= verdict
      else Rejections(s.link.sent) + Rejections(AboutToSay(s.reader)) == verdict
  {
    RejectionsDue(s);
    RejectionsAreOwn(s.link.sent);
    if s.link.closed {
      RejectionsPrefix(Own(s), Due(s));
    } else {
      CollectAppend(Own(s), AboutToSay(s.reader), AsRejection());
    }
  }

  /** The loop reads no more. */
  predicate Over(r: Reader) {
    r.Stopped? || r.Rejecting?
  }

  /** The handshake over whole runs, whatever the peer sends. REGISTER is sent first and once.
      The loop reads on only while what it has read is legal. What it has read is illegal
      exactly when it owes one ERROR, with the key of the last message, which is the first
      illegal one; with somebody listening that ERROR has been sent or is being sent, and no
      other ever is. Once the loop is over nothing more is read. */
  lemma HandshakeOverRuns(c: Config, es: seq<Event>)
    requires IsAnyRun(c, Fresh(), es)
    ensures var s := AnyFinal(c, Fresh(), es);
      var verdict := Verdict(Drive(Created, s.taken), s.taken);
      && Registers(s.link.sent)
      && (Legal(Types(s.taken)) <==> verdict == [])
      && (verdict != [] ==> verdict == [OutReject(s.taken[|s.taken| - 1].key)]
                            && Legal(Types(s.taken[..|s.taken| - 1])) && Over(s.reader))
      && (if s.link.closed then Rejections(s.link.sent) <= verdict
          else Rejections(s.link.sent) + Rejections(AboutToSay(s.reader)) == verdict)
      && (Over(s.reader) ==> forall more :: IsAnyRun(c, s, more) ==> AnyFinal(c, s, more).taken == s.taken)
  {
    FreshLoop();
    LoopRun(c, Fresh(), es);
    var s := AnyFinal(c, Fresh(), es);
    DriveAcceptsExactlyLegal(Created, s.taken);
    assert s.taken[..|s.taken|] == s.taken;
    RejectionsSaid(s);
    if Over(s.reader) {
      forall more | IsAnyRun(c, s, more)
        ensures AnyFinal(c, s, more).taken == s.taken
      {
        OverReadsNothing(c, s, more);
      }
    }
  }

  lemma {:induction false} OverReadsNothing(c: Config, s: State, es: seq<Event>)
    requires IsAnyRun(c, s, es) && Over(s.reader)
    ensures AnyFinal(c, s, es).taken == s.taken && Over(AnyFinal(c, s, es).reader)
    decreases |es|
  {
    if es != [] {
      if !es[0].PeerSend? {
        OverStep(c, s, es[0]);
      }
      OverReadsNothing(c, Perform(c, s, es[0]), es[1..]);
    }
  }

  lemma OverStep(c: Config, s: State, e: Event)
    requires Enabled(c, s, e) && Over(s.reader)
    ensures Apply(c, s, e).taken == s.taken && Over(Apply(c, s, e).reader)
  {
    TakenKept(c, s, e);
  }
}
