/** What the relay flows say and hand out over whole runs (crates/relay/src/lib.rs:345-370, 491-507,
    641-677, 748-764): the bytes sent are read back by the decoder of the other side. */
module RelaySpeech {
  import opened Bytes
  import opened Relay
  import opened RelayBridge
  import Framing
  import M = RelayMessage
  import Protobuf
  import Varint

  // ------------------------------------------------------------------------ HOP CONNECT

  function HopSent(out: seq<HopOutput>): Blob {
    if out == [] then []
    else HopSent(out[..|out| - 1]) + if out[|out| - 1].HopSends? then out[|out| - 1].bytes else []
  }

  /** Everything a flow has sent or still has to send. */
  function HopSaid(w: HopWorld): Blob {
    HopSent(w.out) + w.flow.outbound
  }

  /** The bytes are one CONNECT for this peer and nothing else. */
  predicate Asks(bytes: Blob, target: Blob) {
    match Framing.Decode(bytes)
    case Complete(payload, consumed) =>
      && consumed == |bytes|
      && M.DecodeHop(payload) == Ok(M.Hop(M.HopConnect, Some(M.Peer(target, [])), None, None, None))
    case _ => false
  }

  /** A peer id as it may come: far shorter than memory. */
  predicate Modest(target: Blob) {
    |target| < 0x8000_0000_0000_0000 - 64
  }

  lemma PeerFits(target: Blob)
    requires Modest(target)
    ensures M.Readable(M.PeerRecords(M.Peer(target, [])))
    ensures |Protobuf.EncodeAll(M.PeerRecords(M.Peer(target, [])))| <= |target| + 20
  {
    hide Varint.Encode;
    var records := M.PeerRecords(M.Peer(target, []));
    assert Protobuf.Repeated(2, []) == [];
    Varint.WordShape(10);
    Varint.WordShape(|target|);
    if target != [] {
      assert records == [Protobuf.BytesField(1, target)] && records[1..] == [];
    }
  }

  lemma RequestFits(target: Blob)
    requires Modest(target)
    ensures var msg := M.Hop(M.HopConnect, Some(M.Peer(target, [])), None, None, None);
            M.HopFits(msg) && Framing.Framable(M.EncodeHop(msg))
  {
    hide Varint.Encode, M.PeerRecords;
    PeerFits(target);
    var msg := M.Hop(M.HopConnect, Some(M.Peer(target, [])), None, None, None);
    var records := M.HopRecords(msg);
    assert records == [records[0], records[1]] && records[1..] == [records[1]] && records[1..][1..] == [];
    Varint.WordShape(8);
    Varint.WordShape(18);
    Varint.WordShape(1);
    Varint.WordShape(|records[1].data|);
    assert Protobuf.EncodeAll(records[1..]) == Protobuf.EncodeRecord(records[1]) + Protobuf.EncodeAll([]);
    assert |Protobuf.EncodeRecord(records[0])| <= 20 && |Protobuf.EncodeRecord(records[1])| <= |target| + 40;
    Varint.WordShape(|M.EncodeHop(msg)|);
  }

  lemma RequestAsks(target: Blob)
    requires Modest(target)
    ensures Asks(ConnectRequest(target), target)
  {
    hide M.DecodeHop, Framing.Decode, M.HopFits;
    var msg := M.Hop(M.HopConnect, Some(M.Peer(target, [])), None, None, None);
    RequestFits(target);
    M.HopDecodesEncoded(msg);
    Framing.DecodeFramed(M.EncodeHop(msg), []);
    assert ConnectRequest(target) + [] == ConnectRequest(target);
  }

  lemma HopSaidKept(w: HopWorld, op: HopOp)
    ensures HopSaid(HopNext(w, op)) == HopSaid(w)
  {
    hide Framing.Decode, M.DecodeHop;
    var v := HopNext(w, op);
    if op.HopPoll? {
      var o := PollHop(w.flow).1;
      if o.Some? {
        assert v.out == w.out + [o.value] && v.out[..|v.out| - 1] == w.out;
      } else {
        assert v.out == w.out;
      }
    }
  }

  lemma {:induction false} HopSaidRun(w: HopWorld, ops: seq<HopOp>)
    ensures HopSaid(HopRun(w, ops)) == HopSaid(w)
    decreases |ops|
  {
    hide HopNext, HopSaid;
    if ops != [] {
      HopSaidKept(w, ops[0]);
      HopSaidRun(HopNext(w, ops[0]), ops[1..]);
    }
  }

  /** Over every run, what a flow has sent, followed by what it has still to send, is exactly one CONNECT
      naming its target; and when a poll finds nothing, all of it has been sent, the outcome has been
      handed out if there is one, and so have all bytes of the circuit. */
  lemma HopAsks(target: Blob, ops: seq<HopOp>)
    requires Modest(target)
    ensures var w := HopRun(HopWorld(NewHopConnect(target), [], []), ops);
            && Asks(HopSaid(w), target)
            && (PollHop(w.flow).1.None? ==>
                  && Asks(HopSent(w.out), target)
                  && HopOutcomes(w.out) == (if w.flow.outcome.Some? then [w.flow.outcome.value] else [])
                  && HopCarried(w.out) == Circuit(w))
  {
    hide HopRun, Asks, HopInv, Circuit, HopOrdered, ConnectRequest, HopSent, HopCarried, HopOutcomes;
    var start := HopWorld(NewHopConnect(target), [], []);
    RequestAsks(target);
    HopSaidRun(start, ops);
    NothingSent(start);
    HopInvNew(target);
    HopInvRun(start, ops);
    var w := HopRun(start, ops);
    if PollHop(w.flow).1.None? {
      HopRests(w);
    }
  }

  lemma NothingSent(start: HopWorld)
    requires start.out == []
    ensures HopSaid(start) == start.flow.outbound
  {
    assert [] + start.flow.outbound == start.flow.outbound;
  }

  lemma HopRests(w: HopWorld)
    requires HopInv(w) && PollHop(w.flow).1.None?
    ensures HopSaid(w) == HopSent(w.out) && HopCarried(w.out) == Circuit(w)
    ensures HopOutcomes(w.out) == (if w.flow.outcome.Some? then [w.flow.outcome.value] else [])
  {
    hide HopSent, HopCarried, HopOutcomes, Circuit, HopOrdered, Framing.Decode, Response, Verdict;
    assert HopSent(w.out) + [] == HopSent(w.out) && HopCarried(w.out) + [] == HopCarried(w.out);
  }

  // ------------------------------------------------------------------------------- STOP

  /** Everything a responder has sent or still has to send. */
  function StopSaid(w: StopWorld): Blob {
    StopSent(w.out) + w.flow.outbound
  }

  /** The decision that was taken: the first one made while a request was waiting for it. */
  function Ruling(w: StopWorld, ops: seq<StopOp>): Option<StopOp>
    decreases |ops|
  {
    if ops == [] then None
    else if w.flow.state.AwaitingDecision? && (ops[0].StopAccept? || ops[0].StopReject?) then Some(ops[0])
    else Ruling(StopNext(w, ops[0]), ops[1..])
  }

  /** Polling changes nothing about what is said, nor do bytes that arrive. */
  lemma StopSaidKept(w: StopWorld, op: StopOp)
    requires !(w.flow.state.AwaitingDecision? && (op.StopAccept? || op.StopReject?))
    ensures StopSaid(StopNext(w, op)) == StopSaid(w)
    ensures w.flow.state.StopBridged? || w.flow.state.StopDone? ==> StopNext(w, op).flow.state == w.flow.state
  {
    hide Framing.Decode, M.DecodeStop, StatusFrame;
    var v := StopNext(w, op);
    if op.StopPoll? {
      var o := PollStop(w.flow).1;
      if o.Some? {
        assert v.out == w.out + [o.value] && v.out[..|v.out| - 1] == w.out;
      } else {
        assert v.out == w.out;
      }
    }
  }

  lemma {:induction false} StopSaidAfter(w: StopWorld, ops: seq<StopOp>)
    requires w.flow.state.StopBridged? || w.flow.state.StopDone?
    ensures StopSaid(StopRun(w, ops)) == StopSaid(w) && StopRun(w, ops).flow.state == w.flow.state
    decreases |ops|
  {
    hide StopNext, StopSaid;
    if ops != [] {
      StopSaidKept(w, ops[0]);
      StopSaidAfter(StopNext(w, ops[0]), ops[1..]);
    }
  }

  /** A decision puts one STATUS on the wire. */
  lemma Rules(w: StopWorld, op: StopOp)
    requires w.flow.state.AwaitingDecision? && (op.StopAccept? || op.StopReject?) && StopSaid(w) == []
    ensures var v := StopNext(w, op);
            if op.StopAccept? then States(StopSaid(v), M.StatusOk) && v.flow.state.StopBridged?
            else States(StopSaid(v), op.status) && v.flow.state.StopDone?
  {
    hide StatusFrame, States;
    StatusStates(if op.StopAccept? then M.StatusOk else op.status);
    var sent := StatusFrame(if op.StopAccept? then M.StatusOk else op.status);
    assert [] + ([] + sent) == sent;
  }

  lemma {:induction false} StopRules(w: StopWorld, ops: seq<StopOp>)
    requires StopSaid(w) == [] && !w.flow.state.StopBridged?
    ensures var end, ruling := StopRun(w, ops), Ruling(w, ops);
            if ruling.None? then StopSaid(end) == [] && !end.flow.state.StopBridged?
            else if ruling.value.StopAccept? then States(StopSaid(end), M.StatusOk) && end.flow.state.StopBridged?
            else
              && ruling.value.StopReject? && States(StopSaid(end), ruling.value.status)
              && end.flow.state.StopDone?
    decreases |ops|
  {
    hide StopNext, StopSaid, States;
    if ops != [] {
      var v := StopNext(w, ops[0]);
      if w.flow.state.AwaitingDecision? && (ops[0].StopAccept? || ops[0].StopReject?) {
        Rules(w, ops[0]);
        StopSaidAfter(v, ops[1..]);
      } else {
        StopSaidKept(w, ops[0]);
        NotBridged(w, ops[0]);
        StopRules(v, ops[1..]);
      }
    }
  }

  lemma NotBridged(w: StopWorld, op: StopOp)
    requires !w.flow.state.StopBridged? && !(w.flow.state.AwaitingDecision? && op.StopAccept?)
    ensures !StopNext(w, op).flow.state.StopBridged?
  {
    hide Framing.Decode, M.DecodeStop, StatusFrame;
  }

  /** Over every run, what a responder has sent, followed by what it has still to send, is nothing before
      a decision is taken, one STATUS:OK after an acceptance, and one STATUS with the given status after
      a rejection; the circuit is open exactly after an acceptance. When a poll finds nothing, all of it
      has been sent, the request has been handed out if there is one, and so have all circuit bytes. */
  lemma StopAnswers(ops: seq<StopOp>)
    ensures var start := StopWorld(NewStop(), [], []);
            var w, ruling := StopRun(start, ops), Ruling(start, ops);
            && (ruling.None? ==> StopSaid(w) == [] && !w.flow.state.StopBridged?)
            && (ruling == Some(StopAccept) ==> States(StopSaid(w), M.StatusOk) && w.flow.state.StopBridged?)
            && (ruling.Some? && ruling.value.StopReject? ==>
                  States(StopSaid(w), ruling.value.status) && w.flow.state.StopDone?)
            && (PollStop(w.flow).1.None? ==>
                  && StopSaid(w) == StopSent(w.out)
                  && StopRequests(w.out) == (if w.flow.request.Some? then [w.flow.request.value] else [])
                  && StopCarried(w.out) == (if w.flow.state.StopBridged? then Behind(w.got) else []))
  {
    hide StopRun, States, StopInv, Behind, StopSent, StopCarried, StopRequests;
    var start := StopWorld(NewStop(), [], []);
    NothingAnswered(start);
    StopRules(start, ops);
    StopInvNew();
    StopInvRun(start, ops);
    var w := StopRun(start, ops);
    if PollStop(w.flow).1.None? {
      StopRests(w);
    }
  }

  lemma NothingAnswered(start: StopWorld)
    requires start.out == [] && start.flow.outbound == []
    ensures StopSaid(start) == []
  {
  }

  lemma StopRests(w: StopWorld)
    requires StopInv(w) && PollStop(w.flow).1.None?
    ensures StopSaid(w) == StopSent(w.out)
    ensures StopRequests(w.out) == (if w.flow.request.Some? then [w.flow.request.value] else [])
    ensures StopCarried(w.out) == (if w.flow.state.StopBridged? then Behind(w.got) else [])
  {
    hide StopSent, StopCarried, StopRequests, StopOrdered, Framing.Decode, Connect, Behind, StatusFrame;
    assert StopSent(w.out) + [] == StopSent(w.out) && StopCarried(w.out) + [] == StopCarried(w.out);
  }

  // ------------------------------------------------------------------------ why flows fail

  /** A HOP flow without a verdict rejects bytes for exactly one of four reasons, and then it is over
      without an outcome; once there is a verdict, or it is over, it rejects nothing. */
  lemma HopJudged(m: HopConnect, data: Blob)
    ensures var (n, e) := HopData(m, data);
            var buf := m.recvBuf + data;
            var frame := Framing.Decode(buf);
            var small := !m.state.FlowDone? && |buf| <= 8192;
            && (e == Some(MessageTooLarge) <==> !m.state.FlowDone? && |buf| > 8192)
            && (e == Some(Malformed) <==>
                  small && (frame.Failed? || (frame.Complete? && M.DecodeHop(frame.payload).Err?)))
            && (e == Some(Aborted) <==> small && frame.Overflow?)
            && (e == Some(UnexpectedMessage) <==>
                  small && frame.Complete? && M.DecodeHop(frame.payload).Ok?
                  && !M.DecodeHop(frame.payload).value.kind.HopStatus?)
            && (e.Some? ==> n == m.(state := FlowDone, recvBuf := n.recvBuf))
  {
    hide Framing.Decode, M.DecodeHop;
  }

  /** A STOP responder that awaits its request rejects bytes for exactly one of four reasons, and then it is
      over; in any other state it rejects nothing. */
  lemma StopJudged(m: StopResponder, data: Blob)
    ensures var (n, e) := StopData(m, data);
            var buf := m.recvBuf + data;
            var frame := Framing.Decode(buf);
            var small := m.state.AwaitingConnect? && |buf| <= 8192;
            && (e == Some(MessageTooLarge) <==> m.state.AwaitingConnect? && |buf| > 8192)
            && (e == Some(Malformed) <==>
                  small && (frame.Failed? || (frame.Complete? && M.DecodeStop(frame.payload).Err?)))
            && (e == Some(Aborted) <==> small && frame.Overflow?)
            && (e == Some(UnexpectedMessage) <==>
                  small && frame.Complete? && M.DecodeStop(frame.payload).Ok?
                  && !(M.DecodeStop(frame.payload).value.kind.StopConnect?
                       && M.DecodeStop(frame.payload).value.peer.Some?))
            && (e.Some? ==> n == m.(state := StopDone, recvBuf := n.recvBuf))
  {
    hide Framing.Decode, M.DecodeStop;
  }

  /** A decision is refused, and changes nothing, exactly when there is no request to decide on. */
  lemma DecisionJudged(m: StopResponder, status: M.Status)
    ensures var (a, e) := Accept(m);
            (e.None? <==> m.state.AwaitingDecision?) && (e.Some? ==> a == m && e.value == UnexpectedMessage)
    ensures var (r, e) := Reject(m, status);
            (e.None? <==> m.state.AwaitingDecision?) && (e.Some? ==> r == m && e.value == UnexpectedMessage)
  {
    hide StatusFrame;
  }
}
