/** Bridge conservation: what leaves a relay flow as bridge data is what entered it behind the control
    frame (crates/relay/src/lib.rs:372-507, 602-764). */
module RelayBridge {
  import opened Bytes
  import opened Relay
  import Framing
  import M = RelayMessage
  import Varint

  // ------------------------------------------------------------------------ HOP CONNECT

  datatype HopOp = HopFeed(data: Blob) | HopEnd | HopPoll

  /** The flow, all bytes it was given, and all outputs it has handed out. */
  datatype HopWorld = HopWorld(flow: HopConnect, got: Blob, out: seq<HopOutput>)

  function HopNext(w: HopWorld, op: HopOp): HopWorld {
    match op
    case HopFeed(data) => w.(flow := HopData(w.flow, data).0, got := w.got + data)
    case HopEnd => w.(flow := DecodeResponse(w.flow).0)
    case HopPoll =>
      var (m, o) := PollHop(w.flow);
      w.(flow := m, out := w.out + if o.Some? then [o.value] else [])
  }

  function HopRun(w: HopWorld, ops: seq<HopOp>): HopWorld
    decreases |ops|
  {
    if ops == [] then w else HopRun(HopNext(w, ops[0]), ops[1..])
  }

  function HopCarried(out: seq<HopOutput>): Blob {
    if out == [] then []
    else HopCarried(out[..|out| - 1]) + if out[|out| - 1].HopBridge? then out[|out| - 1].data else []
  }

  function HopOutcomes(out: seq<HopOutput>): seq<ConnectOutcome> {
    if out == [] then []
    else HopOutcomes(out[..|out| - 1]) + if out[|out| - 1].HopOutcome? then [out[|out| - 1].outcome] else []
  }

  lemma HopCarriedMore(out: seq<HopOutput>, o: HopOutput)
    ensures HopCarried(out + [o]) == HopCarried(out) + if o.HopBridge? then o.data else []
    ensures HopOutcomes(out + [o]) == HopOutcomes(out) + if o.HopOutcome? then [o.outcome] else []
  {
    assert (out + [o])[..|out|] == out;
  }

  /** The response at the front of the bytes received. */
  function Response(got: Blob): Option<(M.Hop, nat)> {
    match Framing.Decode(got)
    case Complete(payload, consumed) =>
      (match M.DecodeHop(payload)
       case Ok(msg) => if msg.kind.HopStatus? then Some((msg, consumed)) else None
       case Err(_) => None)
    case _ => None
  }

  /** What a STATUS means: only an explicit OK is an acceptance, and a missing status is a refusal. */
  function Verdict(msg: M.Hop): ConnectOutcome {
    if msg.status == Some(M.StatusOk) then Bridged(msg.limit)
    else Refused(if msg.status.Some? then msg.status.value else M.Unused)
  }

  lemma ResponseBounds(got: Blob)
    requires Response(got).Some?
    ensures Response(got).value.1 <= |got|
  {
  }

  lemma ResponseStable(got: Blob, more: Blob)
    requires Response(got).Some?
    ensures Response(got + more) == Response(got)
  {
    hide M.DecodeHop, Framing.Decode;
    Framing.DecodeStable(got, more);
  }

  /** The part of the bytes received that belongs to the circuit. */
  function Circuit(w: HopWorld): Blob {
    if w.flow.outcome.Some? && w.flow.outcome.value.Bridged? && Response(w.got).Some?
    then (ResponseBounds(w.got); w.got[Response(w.got).value.1..]) else []
  }

  /** An outcome comes before any bridge data. */
  ghost predicate HopOrdered(out: seq<HopOutput>) {
    forall i :: 0 <= i < |out| && out[i].HopBridge? ==> exists j :: 0 <= j < i && out[j].HopOutcome?
  }

  ghost predicate HopInv(w: HopWorld) {
    var m := w.flow;
    && (!m.state.FlowDone? ==> m.outcome.None? && m.recvBuf == w.got && Framing.Decode(w.got).Incomplete?)
    && (m.outcome.Some? ==> Response(w.got).Some? && m.outcome.value == Verdict(Response(w.got).value.0))
    && HopCarried(w.out) + m.bridge == Circuit(w)
    && HopOutcomes(w.out) == (if m.emittedOutcome && m.outcome.Some? then [m.outcome.value] else [])
    && (m.emittedOutcome ==> m.outcome.Some? && exists j :: 0 <= j < |w.out| && w.out[j].HopOutcome?)
    && HopOrdered(w.out)
  }

  lemma HopInvNew(target: Blob)
    ensures HopInv(HopWorld(NewHopConnect(target), [], []))
  {
    hide ConnectRequest;
  }

  lemma HopPollKeeps(w: HopWorld)
    requires HopInv(w)
    ensures HopInv(HopNext(w, HopPoll))
  {
    hide Framing.Decode, Response, Verdict, HopCarried, HopOutcomes, HopOrdered;
    var (m, o) := PollHop(w.flow);
    var v := HopNext(w, HopPoll);
    assert Circuit(v) == Circuit(w);
    if o.None? {
      assert w.out + [] == w.out;
    } else {
      HopCarriedMore(w.out, o.value);
      assert v.out == w.out + [o.value] && v.out[|w.out|] == o.value;
      assert HopCarried(w.out) + [] == HopCarried(w.out) && HopOutcomes(w.out) + [] == HopOutcomes(w.out);
      assert (HopCarried(w.out) + w.flow.bridge) + [] == HopCarried(w.out) + w.flow.bridge;
      assert HopOrdered(v.out) by { HopOrderedMore(w, o.value); }
      if o.value.HopOutcome? {
        assert v.out[|w.out|].HopOutcome?;
      } else if m.emittedOutcome {
        var j :| 0 <= j < |w.out| && w.out[j].HopOutcome?;
        assert v.out[j].HopOutcome?;
      }
    }
  }

  lemma HopOrderedMore(w: HopWorld, o: HopOutput)
    requires HopOrdered(w.out)
    requires o.HopBridge? ==> exists j :: 0 <= j < |w.out| && w.out[j].HopOutcome?
    ensures HopOrdered(w.out + [o])
  {
    var out := w.out + [o];
    forall i | 0 <= i < |out| && out[i].HopBridge?
      ensures exists j :: 0 <= j < i && out[j].HopOutcome?
    {
      if i < |w.out| {
        assert w.out[i].HopBridge?;
        var j :| 0 <= j < i && w.out[j].HopOutcome?;
        assert out[j].HopOutcome?;
      } else {
        var j :| 0 <= j < |w.out| && w.out[j].HopOutcome?;
        assert out[j].HopOutcome?;
      }
    }
  }

  /** Decoding the buffer of an undecided flow. */
  lemma HopDecodes(m: HopConnect, got: Blob)
    requires !m.state.FlowDone? && m.outcome.None? && m.recvBuf == got && m.bridge == []
    ensures var (n, e) := DecodeResponse(m);
            && n.emittedOutcome == (m.emittedOutcome && n.outcome.None?)
            && (!n.state.FlowDone? ==> n == m && Framing.Decode(got).Incomplete?)
            && (n.outcome.Some? <==> |got| <= MAX_MESSAGE_SIZE && Response(got).Some?)
            && (n.outcome.Some? ==> n.outcome.value == Verdict(Response(got).value.0))
            && n.bridge == (if n.outcome.Some? && n.outcome.value.Bridged? then got[Response(got).value.1..] else [])
            && (e.Some? ==> n.state.FlowDone? && n.outcome.None?)
  {
    hide M.DecodeHop, Framing.Decode;
    if Framing.Decode(got).Complete? {
      FrameBounds(got);
      assert [] + got[Framing.Decode(got).consumed..] == got[Framing.Decode(got).consumed..];
    }
  }

  lemma FrameBounds(got: Blob)
    requires Framing.Decode(got).Complete?
    ensures 0 < Framing.Decode(got).consumed <= |got|
  {
  }

  /** Bytes behind an accepting STATUS go to the circuit. */
  lemma CircuitMore(w: HopWorld, data: Blob)
    requires HopInv(w) && w.flow.outcome.Some?
    ensures var v := HopNext(w, HopFeed(data));
            Response(v.got) == Response(w.got) && HopCarried(v.out) + v.flow.bridge == Circuit(v)
  {
    hide Framing.Decode, Response, Verdict, DecodeResponse, HopCarried, HopOutcomes, HopOrdered;
    ResponseStable(w.got, data);
    ResponseBounds(w.got);
    var n := Response(w.got).value.1;
    assert (w.got + data)[n..] == w.got[n..] + data;
    Reassociate(HopCarried(w.out), w.flow.bridge, data);
  }

  lemma HopFeedKeeps(w: HopWorld, data: Blob)
    requires HopInv(w)
    ensures HopInv(HopNext(w, HopFeed(data)))
  {
    hide Framing.Decode, Response, Verdict, DecodeResponse, HopCarried, HopOutcomes, HopOrdered;
    var m := w.flow;
    if m.state.FlowDone? {
      if m.outcome.Some? {
        CircuitMore(w, data);
      }
    } else {
      assert Circuit(w) == [] && m.bridge == [] && HopCarried(w.out) == [];
      HopDecodes(m.(recvBuf := m.recvBuf + data), w.got + data);
      var v := HopNext(w, HopFeed(data));
      assert [] + v.flow.bridge == v.flow.bridge;
    }
  }

  lemma HopEndKeeps(w: HopWorld)
    requires HopInv(w)
    ensures HopInv(HopNext(w, HopEnd))
  {
    hide Framing.Decode, Response, Verdict, HopCarried, HopOutcomes, HopOrdered;
    if !w.flow.state.FlowDone? {
      assert Circuit(w) == [] && w.flow.bridge == [] && HopCarried(w.out) == [];
      HopDecodes(w.flow, w.got);
    }
  }

  lemma {:induction false} HopInvRun(w: HopWorld, ops: seq<HopOp>)
    requires HopInv(w)
    ensures HopInv(HopRun(w, ops))
    decreases |ops|
  {
    hide HopInv, HopNext;
    if ops != [] {
      match ops[0] {
        case HopFeed(data) => HopFeedKeeps(w, data);
        case HopEnd => HopEndKeeps(w);
        case HopPoll => HopPollKeeps(w);
      }
      HopInvRun(HopNext(w, ops[0]), ops[1..]);
    }
  }

  /** HOP bridge conservation, over every run and every chunking: bridge data handed out, followed by
      what is pending, is exactly the bytes behind an accepting STATUS, and nothing when there is none;
      the outcome is the one that STATUS states, is handed out at most once, and precedes all bridge
      data. */
  lemma HopConservation(target: Blob, ops: seq<HopOp>)
    ensures var w := HopRun(HopWorld(NewHopConnect(target), [], []), ops);
            && HopCarried(w.out) + w.flow.bridge == Circuit(w)
            && (w.flow.outcome.Some? ==>
                  Response(w.got).Some? && w.flow.outcome.value == Verdict(Response(w.got).value.0))
            && |HopOutcomes(w.out)| <= 1
            && (forall o :: o in HopOutcomes(w.out) ==> w.flow.outcome == Some(o))
            && HopOrdered(w.out)
  {
    hide HopRun, Circuit, Response, Verdict, ConnectRequest;
    HopInvNew(target);
    HopInvRun(HopWorld(NewHopConnect(target), [], []), ops);
  }

  // ------------------------------------------------------------------ when it is bridged

  /** The number of bytes received when a control frame of a given length is first complete. */
  function FilledBy(have: nat, chunks: seq<Blob>, length: nat): nat
    decreases |chunks|
  {
    if chunks == [] || have >= length then have else FilledBy(have + |chunks[0]|, chunks[1..], length)
  }

  lemma {:induction false} FilledByGrows(have: nat, chunks: seq<Blob>, length: nat)
    ensures FilledBy(have, chunks, length) >= have
    decreases |chunks|
  {
    if chunks != [] && have < length {
      FilledByGrows(have + |chunks[0]|, chunks[1..], length);
    }
  }

  lemma SmallIncomplete(m: HopConnect)
    requires |m.recvBuf| <= MAX_MESSAGE_SIZE && Framing.Decode(m.recvBuf).Incomplete?
    ensures DecodeResponse(m) == (m, None)
  {
  }

  lemma TooLargeDone(m: HopConnect)
    requires |m.recvBuf| > MAX_MESSAGE_SIZE && !m.state.FlowDone?
    ensures DecodeResponse(m) == (m.(state := FlowDone), Some(MessageTooLarge))
  {
  }

  /** The chunks a run feeds, in order. */
  function HopFed(ops: seq<HopOp>): seq<Blob> {
    if ops == [] then [] else (if ops[0].HopFeed? then [ops[0].data] else []) + HopFed(ops[1..])
  }

  lemma FlattenFirst(first: Blob, rest: seq<Blob>)
    ensures Flatten([first] + rest) == first + Flatten(rest)
    ensures forall have: nat, length :: have < length ==>
              FilledBy(have, [first] + rest, length) == FilledBy(have + |first|, rest, length)
  {
    assert ([first] + rest)[1..] == rest && ([first] + rest)[0] == first;
  }

  lemma NothingFed(got: Blob)
    ensures got + Flatten([]) == got
  {
  }

  lemma Reassociate(a: Blob, b: Blob, c: Blob)
    ensures (a + b) + c == a + (b + c)
  {
  }

  lemma {:induction false} HopGot(w: HopWorld, ops: seq<HopOp>)
    ensures HopRun(w, ops).got == w.got + Flatten(HopFed(ops))
    decreases |ops|
  {
    hide HopData, DecodeResponse, PollHop, Flatten;
    if ops == [] {
      NothingFed(w.got);
    } else {
      HopGot(HopNext(w, ops[0]), ops[1..]);
      if ops[0].HopFeed? {
        var rest := HopFed(ops[1..]);
        FlattenFirst(ops[0].data, rest);
        Reassociate(w.got, ops[0].data, Flatten(rest));
      } else {
        assert [] + HopFed(ops[1..]) == HopFed(ops[1..]);
      }
    }
  }

  lemma {:induction false} HopSettled(w: HopWorld, ops: seq<HopOp>)
    requires w.flow.state.FlowDone?
    ensures HopRun(w, ops).flow.outcome == w.flow.outcome
    decreases |ops|
  {
    if ops != [] {
      HopSettled(HopNext(w, ops[0]), ops[1..]);
    }
  }

  /** Not decided yet, with everything received still in the buffer. */
  ghost predicate HopWaiting(w: HopWorld) {
    && !w.flow.state.FlowDone? && w.flow.outcome.None? && w.flow.recvBuf == w.got && w.flow.bridge == []
    && |w.got| <= MAX_MESSAGE_SIZE && Framing.Decode(w.got).Incomplete?
  }

  lemma HopWaits(w: HopWorld, op: HopOp)
    requires HopWaiting(w) && !op.HopFeed?
    ensures HopWaiting(HopNext(w, op)) && HopNext(w, op).got == w.got
  {
    hide Framing.Decode, DecodeResponse;
    if op.HopEnd? {
      SmallIncomplete(w.flow);
    }
  }

  /** One more chunk: the frame is still incomplete, or decided, or too large. */
  lemma HopFills(w: HopWorld, data: Blob, payload: Blob, extra: Blob, msg: M.Hop)
    requires HopWaiting(w) && Framing.Framable(payload) && M.DecodeHop(payload) == Ok(msg) && msg.kind.HopStatus?
    requires w.got + data <= Framing.Frame(payload) + extra
    ensures var v, now := HopNext(w, HopFeed(data)), w.got + data;
            if |now| <= MAX_MESSAGE_SIZE && |now| < |Framing.Frame(payload)| then HopWaiting(v)
            else v.flow.state.FlowDone?
                 && v.flow.outcome == if |now| <= MAX_MESSAGE_SIZE then Some(Verdict(msg)) else None
  {
    hide M.DecodeHop, Framing.Decode, Framing.Frame, Framing.Framable, DecodeResponse, Verdict;
    var frame, now, m := Framing.Frame(payload), w.got + data, w.flow.(recvBuf := w.flow.recvBuf + data);
    HopDecodes(m, now);
    if |now| >= |frame| {
      assert now[..|frame|] == frame;
      assert now == frame + now[|frame|..];
      Framing.DecodeFramed(payload, now[|frame|..]);
    } else {
      assert now == frame[..|now|];
      Framing.DecodePrefix(payload, now);
      if |now| <= MAX_MESSAGE_SIZE {
        SmallIncomplete(m);
      }
    }
    if |now| > MAX_MESSAGE_SIZE {
      TooLargeDone(m);
    }
  }

  lemma {:induction false} HopRunDecides(w: HopWorld, ops: seq<HopOp>, payload: Blob, extra: Blob, msg: M.Hop)
    requires HopWaiting(w) && Framing.Framable(payload) && M.DecodeHop(payload) == Ok(msg) && msg.kind.HopStatus?
    requires |w.got| < |Framing.Frame(payload)| && w.got + Flatten(HopFed(ops)) == Framing.Frame(payload) + extra
    ensures HopRun(w, ops).flow.outcome ==
            if FilledBy(|w.got|, HopFed(ops), |Framing.Frame(payload)|) <= MAX_MESSAGE_SIZE
            then Some(Verdict(msg)) else None
    decreases |ops|
  {
    hide M.DecodeHop, Framing.Frame, Framing.Framable, HopWaiting, HopNext, Verdict, FilledBy;
    assert ops != [];
    var op, rest, frame := ops[0], ops[1..], Framing.Frame(payload);
    var v := HopNext(w, op);
    if op.HopFeed? {
      var now := w.got + op.data;
      FlattenFirst(op.data, HopFed(rest));
      assert now + Flatten(HopFed(rest)) == frame + extra;
      assert now <= frame + extra;
      HopFills(w, op.data, payload, extra, msg);
      HopNextGot(w, op);
      if |now| <= MAX_MESSAGE_SIZE && |now| < |frame| {
        HopRunDecides(v, rest, payload, extra, msg);
      } else {
        HopSettled(v, rest);
        FilledByGrows(|now|, HopFed(rest), |frame|);
        if |now| >= |frame| {
          Filled(|now|, HopFed(rest), |frame|);
        }
      }
    } else {
      assert [] + HopFed(rest) == HopFed(rest);
      HopWaits(w, op);
      HopRunDecides(v, rest, payload, extra, msg);
    }
  }

  lemma Filled(have: nat, chunks: seq<Blob>, length: nat)
    requires have >= length
    ensures FilledBy(have, chunks, length) == have
  {
  }

  lemma HopNextGot(w: HopWorld, op: HopOp)
    requires op.HopFeed?
    ensures HopNext(w, op).got == w.got + op.data
  {
  }

  /** The whole life of a HOP flow that is sent a STATUS and then circuit bytes, whatever the chunks and
      however polls and ends are interleaved: the verdict is taken exactly when the chunk completing the
      STATUS stays within the size limit, and then the circuit gets exactly the bytes behind the STATUS
      if it is accepting, and nothing otherwise. */
  lemma HopBridges(target: Blob, ops: seq<HopOp>, msg: M.Hop, extra: Blob)
    requires M.HopFits(msg) && msg.kind.HopStatus? && Framing.Framable(M.EncodeHop(msg))
    requires Flatten(HopFed(ops)) == Framing.Frame(M.EncodeHop(msg)) + extra
    ensures var w := HopRun(HopWorld(NewHopConnect(target), [], []), ops);
            var taken := FilledBy(0, HopFed(ops), |Framing.Frame(M.EncodeHop(msg))|) <= 8192;
            && w.flow.outcome == (if taken then Some(Verdict(msg)) else None)
            && HopCarried(w.out) + w.flow.bridge == (if taken && Verdict(msg).Bridged? then extra else [])
  {
    hide M.DecodeHop, M.EncodeHop, M.HopFits, Framing.Framable, FilledBy, ConnectRequest, Verdict, Framing.Frame,
         Framing.Decode, HopRun, HopFed;
    var payload, start := M.EncodeHop(msg), HopWorld(NewHopConnect(target), [], []);
    M.HopDecodesEncoded(msg);
    assert [] + Flatten(HopFed(ops)) == Flatten(HopFed(ops));
    HopStarts(target, payload);
    HopRunDecides(start, ops, payload, extra, msg);
    HopConservation(target, ops);
    HopGot(start, ops);
    Framing.DecodeFramed(payload, extra);
    var frame := Framing.Frame(payload);
    assert (frame + extra)[|frame|..] == extra;
  }

  lemma HopStarts(target: Blob, payload: Blob)
    requires Framing.Framable(payload)
    ensures HopWaiting(HopWorld(NewHopConnect(target), [], [])) && 0 < |Framing.Frame(payload)|
  {
    hide ConnectRequest;
    Framing.DecodePrefix(payload, []);
  }

  // ------------------------------------------------------------------------------- STOP

  datatype StopOp = StopFeed(data: Blob) | StopEnd | StopAccept | StopReject(status: M.Status) | StopPoll

  /** The flow, all bytes it was given, and all outputs it has handed out. */
  datatype StopWorld = StopWorld(flow: StopResponder, got: Blob, out: seq<StopOutput>)

  function StopNext(w: StopWorld, op: StopOp): StopWorld {
    match op
    case StopFeed(data) => w.(flow := StopData(w.flow, data).0, got := w.got + data)
    case StopEnd => w.(flow := DecodeConnect(w.flow).0)
    case StopAccept => w.(flow := Accept(w.flow).0)
    case StopReject(status) => w.(flow := Reject(w.flow, status).0)
    case StopPoll =>
      var (m, o) := PollStop(w.flow);
      w.(flow := m, out := w.out + if o.Some? then [o.value] else [])
  }

  function StopRun(w: StopWorld, ops: seq<StopOp>): StopWorld
    decreases |ops|
  {
    if ops == [] then w else StopRun(StopNext(w, ops[0]), ops[1..])
  }

  function StopCarried(out: seq<StopOutput>): Blob {
    if out == [] then []
    else StopCarried(out[..|out| - 1]) + if out[|out| - 1].StopBridge? then out[|out| - 1].data else []
  }

  function StopSent(out: seq<StopOutput>): Blob {
    if out == [] then []
    else StopSent(out[..|out| - 1]) + if out[|out| - 1].StopSends? then out[|out| - 1].bytes else []
  }

  function StopRequests(out: seq<StopOutput>): seq<Request> {
    if out == [] then []
    else StopRequests(out[..|out| - 1]) + if out[|out| - 1].StopRequest? then [out[|out| - 1].request] else []
  }

  lemma StopOutMore(out: seq<StopOutput>, o: StopOutput)
    ensures StopCarried(out + [o]) == StopCarried(out) + if o.StopBridge? then o.data else []
    ensures StopSent(out + [o]) == StopSent(out) + if o.StopSends? then o.bytes else []
    ensures StopRequests(out + [o]) == StopRequests(out) + if o.StopRequest? then [o.request] else []
  {
    assert (out + [o])[..|out|] == out;
  }

  /** The CONNECT at the front of the bytes received. */
  function Connect(got: Blob): Option<(Request, nat)> {
    match Framing.Decode(got)
    case Complete(payload, consumed) =>
      (match M.DecodeStop(payload)
       case Ok(msg) =>
         if msg.kind.StopConnect? && msg.peer.Some?
         then Some((Request(msg.peer.value.id, msg.limit), consumed)) else None
       case Err(_) => None)
    case _ => None
  }

  lemma ConnectBounds(got: Blob)
    requires Connect(got).Some?
    ensures Connect(got).value.1 <= |got|
  {
  }

  lemma ConnectStable(got: Blob, more: Blob)
    requires Connect(got).Some?
    ensures Connect(got + more) == Connect(got)
  {
    hide M.DecodeStop, Framing.Decode;
    Framing.DecodeStable(got, more);
  }

  /** The bytes received behind the CONNECT. */
  function Behind(got: Blob): Blob {
    if Connect(got).Some? then (ConnectBounds(got); got[Connect(got).value.1..]) else []
  }

  lemma BehindMore(got: Blob, more: Blob)
    requires Connect(got).Some?
    ensures Behind(got + more) == Behind(got) + more
  {
    hide Connect;
    ConnectStable(got, more);
    ConnectBounds(got);
    var n := Connect(got).value.1;
    assert (got + more)[n..] == got[n..] + more;
  }

  /** The bytes are one STATUS message with this status and nothing else. */
  predicate States(bytes: Blob, status: M.Status) {
    match Framing.Decode(bytes)
    case Complete(payload, consumed) =>
      consumed == |bytes| && M.DecodeStop(payload) == Ok(M.Stop(M.StopStatus, None, None, Some(status)))
    case _ => false
  }

  lemma StatusStates(status: M.Status)
    ensures States(StatusFrame(status), status)
  {
    hide M.DecodeStop, Framing.Decode;
    var msg := M.Stop(M.StopStatus, None, None, Some(status));
    StatusFits(msg);
    M.StopDecodesEncoded(msg);
    Framing.DecodeFramed(M.EncodeStop(msg), []);
    assert StatusFrame(status) + [] == StatusFrame(status);
  }

  lemma StatusFits(msg: M.Stop)
    requires msg.peer.None? && msg.limit.None? && msg.status.Some?
    ensures M.StopFits(msg) && Framing.Framable(M.EncodeStop(msg))
  {
    hide Varint.Encode;
    var records := M.StopRecords(msg);
    assert records == [records[0], records[1]] && records[1..] == [records[1]] && records[1..][1..] == [];
    Varint.WordShape(8);
    Varint.WordShape(32);
    Varint.WordShape(records[0].value);
    Varint.WordShape(records[1].value);
  }

  /** An accepting STATUS has been handed out, whole, before any bridge data. */
  ghost predicate StopOrdered(out: seq<StopOutput>) {
    forall i :: 0 <= i < |out| && out[i].StopBridge? ==> States(StopSent(out[..i]), M.StatusOk)
  }

  ghost predicate StopInv(w: StopWorld) {
    var m := w.flow;
    && (m.state.AwaitingDecision? || m.state.StopBridged? ==> m.request.Some?)
    && (m.request.Some? ==> Connect(w.got).Some? && m.request.value == Connect(w.got).value.0)
    && (m.state.AwaitingConnect? ==> m.request.None? && m.recvBuf == w.got && Framing.Decode(w.got).Incomplete?)
    && (m.state.AwaitingDecision? ==> m.recvBuf == Behind(w.got))
    && (m.state.AwaitingConnect? || m.state.AwaitingDecision? ==> StopSent(w.out) + m.outbound == [])
    && (m.state.StopBridged? ==> StopSent(w.out) + m.outbound == StatusFrame(M.StatusOk))
    && StopCarried(w.out) + m.bridge == (if m.state.StopBridged? then Behind(w.got) else [])
    && StopRequests(w.out) == (if m.emittedRequest && m.request.Some? then [m.request.value] else [])
    && (m.emittedRequest ==> m.request.Some?)
    && StopOrdered(w.out)
  }

  lemma StopInvNew()
    ensures StopInv(StopWorld(NewStop(), [], []))
  {
  }

  lemma StopPollKeeps(w: StopWorld)
    requires StopInv(w)
    ensures StopInv(StopNext(w, StopPoll))
  {
    hide Framing.Decode, Connect, Behind, StatusFrame, StopSent, StopCarried, StopRequests, StopOrdered;
    var (m, o) := PollStop(w.flow);
    var v := StopNext(w, StopPoll);
    if o.None? {
      assert w.out + [] == w.out;
    } else {
      StopOutMore(w.out, o.value);
      assert StopCarried(w.out) + [] == StopCarried(w.out) && StopSent(w.out) + [] == StopSent(w.out);
      assert StopRequests(w.out) + [] == StopRequests(w.out);
      assert (StopCarried(w.out) + w.flow.bridge) + [] == StopCarried(w.out) + w.flow.bridge;
      assert (StopSent(w.out) + w.flow.outbound) + [] == StopSent(w.out) + w.flow.outbound;
      StopOrderedMore(w.out, o.value);
    }
  }

  lemma StopOrderedMore(out: seq<StopOutput>, o: StopOutput)
    requires StopOrdered(out) && (o.StopBridge? ==> StopSent(out) == StatusFrame(M.StatusOk))
    ensures StopOrdered(out + [o])
  {
    hide StatusFrame, States;
    StatusStates(M.StatusOk);
    var all := out + [o];
    forall i | 0 <= i < |all| && all[i].StopBridge?
      ensures States(StopSent(all[..i]), M.StatusOk)
    {
      if i < |out| {
        assert all[..i] == out[..i] && out[i] == all[i];
      } else {
        assert all[..i] == out;
      }
    }
  }

  lemma StopDecodes(m: StopResponder, got: Blob)
    requires m.state.AwaitingConnect? && m.request.None? && m.recvBuf == got
    ensures var (n, e) := DecodeConnect(m);
            && (n.request.Some? <==> |got| <= MAX_MESSAGE_SIZE && Connect(got).Some?)
            && (n.state.AwaitingDecision? <==> n.request.Some?) && !n.state.StopBridged?
            && (n.request.Some? ==>
                  n.request.value == Connect(got).value.0 && n.recvBuf == Behind(got) && !n.emittedRequest)
            && (n.request.None? ==> n.emittedRequest == m.emittedRequest)
            && (n.state.AwaitingConnect? ==> n == m && Framing.Decode(got).Incomplete?)
            && n.outbound == m.outbound && n.bridge == m.bridge
  {
    hide M.DecodeStop, Framing.Decode;
    if Framing.Decode(got).Complete? {
      FrameBounds(got);
    }
  }

  lemma StopFeedKeeps(w: StopWorld, data: Blob)
    requires StopInv(w)
    ensures StopInv(StopNext(w, StopFeed(data)))
  {
    hide Framing.Decode, Connect, Behind, StatusFrame, DecodeConnect, StopOrdered;
    var m := w.flow;
    if m.request.Some? {
      ConnectStable(w.got, data);
      BehindMore(w.got, data);
    }
    if m.state.AwaitingConnect? {
      StopDecodes(m.(recvBuf := m.recvBuf + data), w.got + data);
    } else if m.state.AwaitingDecision? {
      DecidedAlready(m.(recvBuf := m.recvBuf + data));
    } else if m.state.StopBridged? {
      assert StopCarried(w.out) + (m.bridge + data) == (StopCarried(w.out) + m.bridge) + data;
    }
  }

  lemma DecidedAlready(m: StopResponder)
    requires !m.state.AwaitingConnect?
    ensures DecodeConnect(m) == (m, None)
  {
  }

  lemma StopDecisionKeeps(w: StopWorld, op: StopOp)
    requires StopInv(w) && (op.StopAccept? || op.StopReject? || op.StopEnd?)
    ensures StopInv(StopNext(w, op))
  {
    hide Framing.Decode, Connect, Behind, StatusFrame, DecodeConnect, StopOrdered;
    var m := w.flow;
    if op.StopEnd? {
      if m.state.AwaitingConnect? {
        StopDecodes(m, w.got);
      } else {
        DecidedAlready(m);
      }
    } else if m.state.AwaitingDecision? {
      assert m.outbound == [] && StopSent(w.out) == [];
      assert [] + StatusFrame(M.StatusOk) == StatusFrame(M.StatusOk);
      assert StopCarried(w.out) == [] && m.bridge == [];
      assert [] + m.recvBuf == m.recvBuf;
    }
  }

  lemma {:induction false} StopInvRun(w: StopWorld, ops: seq<StopOp>)
    requires StopInv(w)
    ensures StopInv(StopRun(w, ops))
    decreases |ops|
  {
    hide StopInv, StopNext;
    if ops != [] {
      match ops[0] {
        case StopFeed(data) => StopFeedKeeps(w, data);
        case StopPoll => StopPollKeeps(w);
        case _ => StopDecisionKeeps(w, ops[0]);
      }
      StopInvRun(StopNext(w, ops[0]), ops[1..]);
    }
  }

  /** STOP bridge conservation, over every run and every chunking: once the request is accepted,
      bridge data handed out, followed by what is pending, is exactly the bytes behind the CONNECT;
      before that, and after a refusal or a failure, there is none. The request handed out is the one
      received, at most once, and the whole STATUS precedes all bridge data. */
  lemma StopConservation(ops: seq<StopOp>)
    ensures var w := StopRun(StopWorld(NewStop(), [], []), ops);
            && StopCarried(w.out) + w.flow.bridge == (if w.flow.state.StopBridged? then Behind(w.got) else [])
            && (w.flow.state.StopBridged? ==> Connect(w.got).Some?)
            && |StopRequests(w.out)| <= 1
            && (forall r :: r in StopRequests(w.out) ==> Connect(w.got).Some? && Connect(w.got).value.0 == r)
            && StopOrdered(w.out)
  {
    hide StopRun, Connect, Behind, StatusFrame, States;
    StopInvNew();
    StopInvRun(StopWorld(NewStop(), [], []), ops);
  }

  lemma StopWaits(m: StopResponder)
    requires m.state.AwaitingConnect? && Framing.Decode(m.recvBuf).Incomplete?
    ensures DecodeConnect(m) == if |m.recvBuf| <= MAX_MESSAGE_SIZE then (m, None)
                                else (m.(state := StopDone), Some(MessageTooLarge))
  {
  }

  // ------------------------------------------------------------------ the whole STOP flow

  function StopFed(ops: seq<StopOp>): seq<Blob> {
    if ops == [] then [] else (if ops[0].StopFeed? then [ops[0].data] else []) + StopFed(ops[1..])
  }

  /** The first decision made once the CONNECT is there. */
  function Decision(have: nat, ops: seq<StopOp>, length: nat): Option<StopOp>
    decreases |ops|
  {
    if ops == [] then None
    else if have >= length && (ops[0].StopAccept? || ops[0].StopReject?) then Some(ops[0])
    else Decision(if ops[0].StopFeed? then have + |ops[0].data| else have, ops[1..], length)
  }

  lemma {:induction false} StopGot(w: StopWorld, ops: seq<StopOp>)
    ensures StopRun(w, ops).got == w.got + Flatten(StopFed(ops))
    decreases |ops|
  {
    hide StopData, DecodeConnect, PollStop, Accept, Reject, Flatten;
    if ops == [] {
      NothingFed(w.got);
    } else {
      StopGot(StopNext(w, ops[0]), ops[1..]);
      if ops[0].StopFeed? {
        var rest := StopFed(ops[1..]);
        FlattenFirst(ops[0].data, rest);
        Reassociate(w.got, ops[0].data, Flatten(rest));
      } else {
        assert [] + StopFed(ops[1..]) == StopFed(ops[1..]);
      }
    }
  }

  /** Once bridged or over, it stays so. */
  lemma {:induction false} StopSettled(w: StopWorld, ops: seq<StopOp>)
    requires w.flow.state.StopBridged? || w.flow.state.StopDone?
    ensures StopRun(w, ops).flow.state == w.flow.state && StopRun(w, ops).flow.request == w.flow.request
    decreases |ops|
  {
    if ops != [] {
      StopSettled(StopNext(w, ops[0]), ops[1..]);
    }
  }

  /** A request that was taken is decided by the first decision. */
  lemma {:induction false} StopDecided(w: StopWorld, have: nat, ops: seq<StopOp>, length: nat)
    requires w.flow.state.AwaitingDecision? && have >= length
    ensures StopRun(w, ops).flow.request == w.flow.request
    ensures StopRun(w, ops).flow.state.StopBridged? <==> Decision(have, ops, length) == Some(StopAccept)
    decreases |ops|
  {
    hide StatusFrame;
    if ops != [] {
      var v := StopNext(w, ops[0]);
      if ops[0].StopAccept? || ops[0].StopReject? {
        StopSettled(v, ops[1..]);
      } else {
        StopDecided(v, if ops[0].StopFeed? then have + |ops[0].data| else have, ops[1..], length);
      }
    }
  }

  ghost predicate StopWaiting(w: StopWorld) {
    && w.flow.state.AwaitingConnect? && w.flow.request.None? && w.flow.recvBuf == w.got
    && |w.got| <= MAX_MESSAGE_SIZE && Framing.Decode(w.got).Incomplete?
  }

  lemma StopStays(w: StopWorld, op: StopOp)
    requires StopWaiting(w) && !op.StopFeed?
    ensures StopWaiting(StopNext(w, op)) && StopNext(w, op).got == w.got
  {
    hide Framing.Decode, DecodeConnect;
    if op.StopEnd? {
      StopWaits(w.flow);
    }
  }

  lemma StopFills(w: StopWorld, data: Blob, payload: Blob, extra: Blob, msg: M.Stop)
    requires StopWaiting(w) && Framing.Framable(payload)
    requires M.DecodeStop(payload) == Ok(msg) && msg.kind.StopConnect? && msg.peer.Some?
    requires w.got + data <= Framing.Frame(payload) + extra
    ensures var v, now := StopNext(w, StopFeed(data)), w.got + data;
            if |now| > MAX_MESSAGE_SIZE then v.flow.state.StopDone? && v.flow.request.None?
            else if |now| < |Framing.Frame(payload)| then StopWaiting(v)
            else v.flow.state.AwaitingDecision? && v.flow.request == Some(Request(msg.peer.value.id, msg.limit))
  {
    hide M.DecodeStop, Framing.Decode, Framing.Frame, Framing.Framable, DecodeConnect, Behind;
    var frame, now, m := Framing.Frame(payload), w.got + data, w.flow.(recvBuf := w.flow.recvBuf + data);
    StopDecodes(m, now);
    if |now| >= |frame| {
      assert now[..|frame|] == frame;
      assert now == frame + now[|frame|..];
      Framing.DecodeFramed(payload, now[|frame|..]);
    } else {
      assert now == frame[..|now|];
      Framing.DecodePrefix(payload, now);
      StopWaits(m);
    }
  }

  lemma StopNextGot(w: StopWorld, op: StopOp)
    requires op.StopFeed?
    ensures StopNext(w, op).got == w.got + op.data
  {
  }

  lemma {:induction false} StopRunDecides(w: StopWorld, ops: seq<StopOp>, payload: Blob, extra: Blob, msg: M.Stop)
    requires StopWaiting(w) && Framing.Framable(payload)
    requires M.DecodeStop(payload) == Ok(msg) && msg.kind.StopConnect? && msg.peer.Some?
    requires |w.got| < |Framing.Frame(payload)| && w.got + Flatten(StopFed(ops)) == Framing.Frame(payload) + extra
    ensures var end, taken := StopRun(w, ops).flow,
                              FilledBy(|w.got|, StopFed(ops), |Framing.Frame(payload)|) <= MAX_MESSAGE_SIZE;
            && end.request == (if taken then Some(Request(msg.peer.value.id, msg.limit)) else None)
            && (end.state.StopBridged? <==>
                  taken && Decision(|w.got|, ops, |Framing.Frame(payload)|) == Some(StopAccept))
    decreases |ops|
  {
    hide M.DecodeStop, Framing.Frame, Framing.Framable, StopWaiting, StopNext, FilledBy;
    assert ops != [];
    var op, rest, frame := ops[0], ops[1..], Framing.Frame(payload);
    var v := StopNext(w, op);
    if op.StopFeed? {
      var now := w.got + op.data;
      FlattenFirst(op.data, StopFed(rest));
      assert now + Flatten(StopFed(rest)) == frame + extra;
      assert now <= frame + extra;
      StopFills(w, op.data, payload, extra, msg);
      StopNextGot(w, op);
      FilledByGrows(|now|, StopFed(rest), |frame|);
      if |now| > MAX_MESSAGE_SIZE {
        StopSettled(v, rest);
      } else if |now| < |frame| {
        StopRunDecides(v, rest, payload, extra, msg);
      } else {
        Filled(|now|, StopFed(rest), |frame|);
        StopDecided(v, |now|, rest, |frame|);
      }
    } else {
      assert [] + StopFed(rest) == StopFed(rest);
      StopStays(w, op);
      StopRunDecides(v, rest, payload, extra, msg);
    }
  }

  /** The whole life of a STOP flow that is sent a CONNECT and then circuit bytes, whatever the chunks
      and however polls, ends and decisions are interleaved: the request is taken exactly when the chunk
      completing the CONNECT stays within the size limit, the flow is bridged exactly when the first
      decision after that is to accept, and then the circuit gets exactly the bytes behind the CONNECT. */
  lemma StopBridges(ops: seq<StopOp>, msg: M.Stop, extra: Blob)
    requires M.StopFits(msg) && msg.kind.StopConnect? && msg.peer.Some? && Framing.Framable(M.EncodeStop(msg))
    requires Flatten(StopFed(ops)) == Framing.Frame(M.EncodeStop(msg)) + extra
    ensures var w, length := StopRun(StopWorld(NewStop(), [], []), ops), |Framing.Frame(M.EncodeStop(msg))|;
            var taken := FilledBy(0, StopFed(ops), length) <= 8192;
            var accepted := taken && Decision(0, ops, length) == Some(StopAccept);
            && w.flow.request == (if taken then Some(Request(msg.peer.value.id, msg.limit)) else None)
            && (w.flow.state.StopBridged? <==> accepted)
            && StopCarried(w.out) + w.flow.bridge == (if accepted then extra else [])
  {
    hide M.DecodeStop, M.EncodeStop, M.StopFits, Framing.Framable, FilledBy, Framing.Frame, Framing.Decode, StopRun,
         StopFed, Decision, StatusFrame;
    var payload, start := M.EncodeStop(msg), StopWorld(NewStop(), [], []);
    M.StopDecodesEncoded(msg);
    assert [] + Flatten(StopFed(ops)) == Flatten(StopFed(ops));
    StopStarts(payload);
    StopRunDecides(start, ops, payload, extra, msg);
    StopConservation(ops);
    StopGot(start, ops);
    Framing.DecodeFramed(payload, extra);
    var frame := Framing.Frame(payload);
    assert (frame + extra)[|frame|..] == extra;
  }

  lemma StopStarts(payload: Blob)
    requires Framing.Framable(payload)
    ensures StopWaiting(StopWorld(NewStop(), [], [])) && 0 < |Framing.Frame(payload)|
  {
    Framing.DecodePrefix(payload, []);
  }
}
