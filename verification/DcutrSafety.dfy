/** A DCUtR initiator and responder joined by two FIFO byte pipes, under every interleaving and every
    fragmentation (crates/dcutr/src/lib.rs:169-278, 378-460). */
module DcutrSafety {
  import opened Bytes
  import opened Dcutr
  import Framing
  import HolePunch
  import Multiaddr
  import Protobuf
  import Varint

  /** Both machines, the bytes in flight, what each side was given and sent, the events and outcomes
      handed to the hosts, and whether any received data was ever rejected. */
  datatype Net = Net(
    initiator: Initiator, responder: Responder,
    toInitiator: Blob, toResponder: Blob,
    initiatorGot: Blob, responderGot: Blob,
    initiatorSent: Blob, responderSent: Blob,
    heard: seq<ResponderEvent>, dialled: seq<DialNow>, rejected: bool)

  datatype Step =
    | InitiatorPolls
    | ResponderPolls
    | DeliverToInitiator(n: nat, rttMs: u64)
    | DeliverToResponder(n: nat)
    | HostSyncs
    | ResponderSeesEnd

  function Init(a: seq<Blob>, b: seq<Blob>): Net {
    Net(NewInitiator(a), NewResponder(b), [], [], [], [], [], [], [], [], false)
  }

  function Next(net: Net, step: Step): Net {
    match step
    case InitiatorPolls =>
      var (m, o) := PollInitiator(net.initiator);
      var bytes := if o.Some? && o.value.InitiatorSends? then o.value.bytes else [];
      net.(initiator := m, toResponder := net.toResponder + bytes, initiatorSent := net.initiatorSent + bytes,
           dialled := net.dialled + if o.Some? && o.value.Outcome? then [o.value.dial] else [])
    case ResponderPolls =>
      var (m, o) := PollResponder(net.responder);
      var bytes := if o.Some? && o.value.ResponderSends? then o.value.bytes else [];
      net.(responder := m, toInitiator := net.toInitiator + bytes, responderSent := net.responderSent + bytes,
           heard := net.heard + if o.Some? && o.value.Event? then [o.value.event] else [])
    case DeliverToInitiator(n, rttMs) =>
      if n > |net.toInitiator| then net
      else
        var (m, e) := InitiatorData(net.initiator, net.toInitiator[..n], rttMs);
        net.(initiator := m, toInitiator := net.toInitiator[n..],
             initiatorGot := net.initiatorGot + net.toInitiator[..n], rejected := net.rejected || e.Some?)
    case DeliverToResponder(n) =>
      if n > |net.toResponder| then net
      else
        var (m, e) := ResponderData(net.responder, net.toResponder[..n]);
        net.(responder := m, toResponder := net.toResponder[n..],
             responderGot := net.responderGot + net.toResponder[..n], rejected := net.rejected || e.Some?)
    case HostSyncs => net.(initiator := SendSync(net.initiator).0)
    case ResponderSeesEnd =>
      var (m, e) := DecodeAll(net.responder);
      net.(responder := m, rejected := net.rejected || e.Some?)
  }

  function Run(net: Net, steps: seq<Step>): Net
    decreases |steps|
  {
    if steps == [] then net else Run(Next(net, steps[0]), steps[1..])
  }

  // ---------------------------------------------------------------------- message facts

  predicate Fits(addrs: seq<Blob>) {
    |ConnectFrame(addrs)| <= MAX_MESSAGE_SIZE
  }

  lemma {:induction false} AddrsFit(addrs: seq<Blob>, i: nat)
    requires i < |addrs|
    ensures |addrs[i]| <= |Protobuf.EncodeAll(Protobuf.Repeated(2, addrs))|
    decreases |addrs|
  {
    var records := Protobuf.Repeated(2, addrs);
    assert records[1..] == Protobuf.Repeated(2, addrs[1..]);
    if i > 0 {
      AddrsFit(addrs[1..], i - 1);
    }
  }

  lemma ConnectDecodes(addrs: seq<Blob>)
    requires Fits(addrs)
    ensures var msg := HolePunch.Message(HolePunch.Connect, addrs);
            Framing.Framable(HolePunch.Encode(msg)) && HolePunch.Decode(HolePunch.Encode(msg)) == Ok(msg)
  {
    hide HolePunch.Decode;
    var msg := HolePunch.Message(HolePunch.Connect, addrs);
    var first, rest := [Protobuf.VarintField(1, 100)], Protobuf.Repeated(2, addrs);
    var records := HolePunch.Records(msg);
    assert records == first + rest && records[1..] == rest;
    forall i | 0 <= i < |records|
      ensures Protobuf.WellFormed(Protobuf.Lenient, records[i])
    {
      if i > 0 {
        AddrsFit(addrs, i - 1);
      }
    }
    HolePunch.DecodesEncoded(msg);
  }

  lemma SyncDecodes()
    ensures var msg := HolePunch.Message(HolePunch.Sync, []);
            Framing.Framable(HolePunch.Encode(msg)) && HolePunch.Decode(HolePunch.Encode(msg)) == Ok(msg)
    ensures 0 < |SyncFrame()| <= MAX_MESSAGE_SIZE
  {
    hide HolePunch.Decode;
    var msg := HolePunch.Message(HolePunch.Sync, []);
    var records := HolePunch.Records(msg);
    assert records == [Protobuf.VarintField(1, 300)] && records[1..] == [];
    assert Varint.Len(300) == 2 && Varint.Len(8) == 1;
    assert Protobuf.EncodeAll([]) == [];
    assert |HolePunch.Encode(msg)| == 3;
    HolePunch.DecodesEncoded(msg);
  }

  lemma FrameNotEmpty(m: HolePunch.Message)
    ensures |MessageFrame(m)| > 0
  {
  }

  // -------------------------------------------------------------------------- invariant

  /** A proper prefix. */
  predicate Partial(part: Blob, whole: Blob) {
    part <= whole && part != whole
  }

  predicate Dials(m: Initiator, addrs: seq<Blob>) {
    m.outcome.Some? && m.outcome.value.remoteAddrBytes == addrs
  }

  ghost predicate InitiatorInv(m: Initiator, got: Blob, sent: Blob, a: seq<Blob>, b: seq<Blob>) {
    match m.state
    case Pending => m.outbound == ConnectFrame(a) && sent == [] && got == [] && m.recvBuf == [] && m.outcome.None?
    case AwaitingConnectReply =>
      && m.outbound == [] && sent == ConnectFrame(a) && Partial(got, ConnectFrame(b)) && m.recvBuf == got
      && m.outcome.None?
    case ReadyToSync => m.outbound == [] && sent == ConnectFrame(a) && got == ConnectFrame(b) && Dials(m, b)
    case SyncPending => m.outbound == SyncFrame() && sent == ConnectFrame(a) && got == ConnectFrame(b) && Dials(m, b)
    case InitiatorDone =>
      m.outbound == [] && sent == ConnectFrame(a) + SyncFrame() && got == ConnectFrame(b) && Dials(m, b)
  }

  ghost predicate ResponderInv(m: Responder, got: Blob, sent: Blob, told: seq<ResponderEvent>, a: seq<Blob>,
                               b: seq<Blob>)
  {
    && m.ownAddrs == b
    && match m.state
       case AwaitingConnect =>
         Partial(got, ConnectFrame(a)) && m.recvBuf == got && sent == [] && m.outbound == [] && told == []
       case AwaitingSync =>
         && ConnectFrame(a) <= got && Partial(got[|ConnectFrame(a)|..], SyncFrame())
         && m.recvBuf == got[|ConnectFrame(a)|..]
         && sent + m.outbound == ConnectFrame(b) && told == [ConnectReceived(a)]
       case ResponderDone =>
         && got == ConnectFrame(a) + SyncFrame()
         && sent + m.outbound == ConnectFrame(b) && told == [ConnectReceived(a), SyncReceived]
  }

  ghost predicate Inv(net: Net, a: seq<Blob>, b: seq<Blob>) {
    && InitiatorInv(net.initiator, net.initiatorGot, net.initiatorSent, a, b)
    && ResponderInv(net.responder, net.responderGot, net.responderSent, net.heard + net.responder.events, a, b)
    && net.responderGot + net.toResponder == net.initiatorSent
    && net.initiatorGot + net.toInitiator == net.responderSent
    && net.dialled == (if net.initiator.emittedOutcome && net.initiator.outcome.Some?
                       then [net.initiator.outcome.value] else [])
    && (net.initiator.outcome.None? ==> !net.initiator.emittedOutcome)
    && !net.rejected
  }

  lemma InvInit(a: seq<Blob>, b: seq<Blob>)
    ensures Inv(Init(a, b), a, b)
  {
    hide ConnectFrame, SyncFrame;
    FrameNotEmpty(HolePunch.Message(HolePunch.Connect, a));
    ConnectIs(a);
  }

  lemma ConnectIs(a: seq<Blob>)
    ensures |ConnectFrame(a)| > 0
  {
    FrameNotEmpty(HolePunch.Message(HolePunch.Connect, a));
  }

  /** What a responder with part of a frame in its buffer makes of it. */
  lemma ResponderReads(m: Responder, msg: HolePunch.Message)
    requires !m.state.ResponderDone? && m.recvBuf <= MessageFrame(msg) && |MessageFrame(msg)| <= MAX_MESSAGE_SIZE
    requires Framing.Framable(HolePunch.Encode(msg)) && HolePunch.Decode(HolePunch.Encode(msg)) == Ok(msg)
    ensures DecodeAll(m) ==
            if m.recvBuf != MessageFrame(msg) then (m, None)
            else
              var (next, e) := Receive(m.(recvBuf := []), msg);
              if e.Some? then (next, e) else (next, None)
  {
    hide Framing.Decode, HolePunch.Decode, HolePunch.Encode;
    Framing.DecodePrefix(HolePunch.Encode(msg), m.recvBuf);
    if m.recvBuf == MessageFrame(msg) {
      assert m.recvBuf[|m.recvBuf|..] == [];
      var (next, e) := Receive(m.(recvBuf := []), msg);
      if e.None? {
        EmptyBuffer(next);
      }
    }
  }

  lemma EmptyBuffer(m: Responder)
    requires m.recvBuf == []
    ensures DecodeAll(m) == (m, None)
  {
  }

  lemma InitiatorReads(m: Initiator, msg: HolePunch.Message, rttMs: u64)
    requires m.state.AwaitingConnectReply? && m.recvBuf <= MessageFrame(msg) && msg.kind.Connect?
    requires |MessageFrame(msg)| <= MAX_MESSAGE_SIZE
    requires Framing.Framable(HolePunch.Encode(msg)) && HolePunch.Decode(HolePunch.Encode(msg)) == Ok(msg)
    ensures DecodeReply(m, rttMs) ==
            (if m.recvBuf != MessageFrame(msg) then m
             else m.(recvBuf := [], state := ReadyToSync, outcome := Some(DialNow(msg.obsAddrs, rttMs)),
                     emittedOutcome := false), None)
  {
    hide Framing.Decode, HolePunch.Decode, HolePunch.Encode;
    Framing.DecodePrefix(HolePunch.Encode(msg), m.recvBuf);
    if m.recvBuf == MessageFrame(msg) {
      assert m.recvBuf[|m.recvBuf|..] == [];
    }
  }

  // ------------------------------------------------------------------------------ steps

  lemma InitiatorPolled(m: Initiator, got: Blob, sent: Blob, a: seq<Blob>, b: seq<Blob>)
    requires InitiatorInv(m, got, sent, a, b)
    ensures InitiatorInv(PollInitiator(m).0, got, sent + m.outbound, a, b)
  {
    hide ConnectFrame, SyncFrame, HolePunch.Decode, HolePunch.Encode;
    ConnectIs(a);
    ConnectIs(b);
    SyncDecodes();
    assert sent + [] == sent;
    assert [] + m.outbound == m.outbound;
  }

  lemma PollInitiatorKeeps(net: Net, a: seq<Blob>, b: seq<Blob>)
    requires Inv(net, a, b)
    ensures Inv(Next(net, InitiatorPolls), a, b)
  {
    hide ConnectFrame, SyncFrame, ResponderInv, InitiatorInv;
    InitiatorPolled(net.initiator, net.initiatorGot, net.initiatorSent, a, b);
    var bytes := net.initiator.outbound;
    assert net.responderGot + (net.toResponder + bytes) == net.initiatorSent + bytes;
    assert net.toResponder + [] == net.toResponder && net.initiatorSent + [] == net.initiatorSent;
  }

  lemma ResponderPolled(m: Responder, got: Blob, sent: Blob, heard: seq<ResponderEvent>, a: seq<Blob>, b: seq<Blob>)
    requires ResponderInv(m, got, sent, heard + m.events, a, b)
    ensures var (n, o) := PollResponder(m);
            var more := if o.Some? && o.value.Event? then [o.value.event] else [];
            ResponderInv(n, got, sent + m.outbound, (heard + more) + n.events, a, b)
  {
    hide ConnectFrame, SyncFrame;
    assert (sent + m.outbound) + [] == sent + m.outbound;
    assert heard + [] == heard;
    if m.outbound == [] && m.events != [] {
      assert (heard + [m.events[0]]) + m.events[1..] == heard + m.events;
    }
  }

  lemma PollResponderKeeps(net: Net, a: seq<Blob>, b: seq<Blob>)
    requires Inv(net, a, b)
    ensures Inv(Next(net, ResponderPolls), a, b)
  {
    hide ConnectFrame, SyncFrame, ResponderInv, InitiatorInv;
    var bytes := net.responder.outbound;
    ResponderPolled(net.responder, net.responderGot, net.responderSent, net.heard, a, b);
    assert net.initiatorGot + (net.toInitiator + bytes) == net.responderSent + bytes;
    assert net.toInitiator + [] == net.toInitiator && net.responderSent + [] == net.responderSent;
  }

  /** Bytes that can still reach the responder continue what it is waiting for. */
  lemma ResponderAwaits(net: Net, a: seq<Blob>, b: seq<Blob>)
    requires Inv(net, a, b)
    ensures net.responder.state.AwaitingConnect? ==> net.responder.recvBuf + net.toResponder <= ConnectFrame(a)
    ensures net.responder.state.AwaitingSync? ==> net.responder.recvBuf + net.toResponder <= SyncFrame()
    ensures net.responder.state.ResponderDone? ==> net.toResponder == []
  {
    hide ConnectFrame, SyncFrame;
    ConnectIs(a);
    ConnectIs(b);
    var sent, connect := net.initiatorSent, ConnectFrame(a);
    if net.responder.state.AwaitingSync? {
      assert net.responder.recvBuf + net.toResponder == sent[|connect|..];
      assert connect + SyncFrame() == sent ==> sent[|connect|..] == SyncFrame();
    } else if net.responder.state.ResponderDone? {
      assert |sent| <= |connect + SyncFrame()|;
    }
  }

  /** The responder after more bytes of the frame it is waiting for. */
  ghost predicate Moves(m: Responder, got: Blob, sent: Blob, heard: seq<ResponderEvent>, now: Blob, a: seq<Blob>,
                        b: seq<Blob>)
  {
    var (n, e) := DecodeAll(m.(recvBuf := m.recvBuf + now));
    e.None? && ResponderInv(n, got + now, sent, heard + n.events, a, b)
  }

  lemma ConnectMoves(m: Responder, got: Blob, sent: Blob, heard: seq<ResponderEvent>, now: Blob, a: seq<Blob>,
                     b: seq<Blob>)
    requires ResponderInv(m, got, sent, heard + m.events, a, b) && m.state.AwaitingConnect?
    requires Fits(a) && m.recvBuf + now <= ConnectFrame(a)
    ensures Moves(m, got, sent, heard, now, a, b)
  {
    hide ConnectFrame, SyncFrame, DecodeAll, HolePunch.Decode, HolePunch.Encode, Framing.Framable, MessageFrame;
    ConnectDecodes(a);
    FrameNames(a);
    ResponderReads(m.(recvBuf := m.recvBuf + now), HolePunch.Message(HolePunch.Connect, a));
    assert heard + (m.events + [ConnectReceived(a)]) == (heard + m.events) + [ConnectReceived(a)];
    SyncDecodes();
    assert [] + ConnectFrame(b) == ConnectFrame(b);
    assert |got + now| == |ConnectFrame(a)| ==> (got + now)[|ConnectFrame(a)|..] == [];
  }

  lemma SyncMoves(m: Responder, got: Blob, sent: Blob, heard: seq<ResponderEvent>, now: Blob, a: seq<Blob>,
                  b: seq<Blob>)
    requires ResponderInv(m, got, sent, heard + m.events, a, b) && m.state.AwaitingSync?
    requires m.recvBuf + now <= SyncFrame()
    ensures Moves(m, got, sent, heard, now, a, b)
  {
    hide ConnectFrame, SyncFrame, DecodeAll, HolePunch.Decode, HolePunch.Encode, Framing.Framable, MessageFrame;
    SyncDecodes();
    FrameNames(a);
    ResponderReads(m.(recvBuf := m.recvBuf + now), HolePunch.Message(HolePunch.Sync, []));
    assert got == ConnectFrame(a) + m.recvBuf;
    assert got + now == ConnectFrame(a) + (m.recvBuf + now);
    assert (got + now)[|ConnectFrame(a)|..] == m.recvBuf + now;
    assert heard + (m.events + [SyncReceived]) == (heard + m.events) + [SyncReceived];
  }

  lemma ResponderMoves(net: Net, a: seq<Blob>, b: seq<Blob>, now: Blob, later: Blob)
    requires Fits(a) && Fits(b) && Inv(net, a, b) && !net.responder.state.ResponderDone?
    requires net.toResponder == now + later
    ensures Moves(net.responder, net.responderGot, net.responderSent, net.heard, now, a, b)
  {
    hide ConnectFrame, SyncFrame, ResponderInv, InitiatorInv, Fits, Moves;
    ResponderAwaits(net, a, b);
    var m := net.responder;
    assert (m.recvBuf + now) + later == m.recvBuf + net.toResponder;
    if m.state.AwaitingConnect? {
      ConnectMoves(m, net.responderGot, net.responderSent, net.heard, now, a, b);
    } else {
      SyncMoves(m, net.responderGot, net.responderSent, net.heard, now, a, b);
    }
  }

  lemma FrameNames(a: seq<Blob>)
    ensures ConnectFrame(a) == MessageFrame(HolePunch.Message(HolePunch.Connect, a))
    ensures SyncFrame() == MessageFrame(HolePunch.Message(HolePunch.Sync, []))
  {
  }

  lemma DeliverResponderKeeps(net: Net, a: seq<Blob>, b: seq<Blob>, n: nat)
    requires Fits(a) && Fits(b) && Inv(net, a, b)
    ensures Inv(Next(net, DeliverToResponder(n)), a, b)
  {
    hide ConnectFrame, SyncFrame, DecodeAll, InitiatorInv, ResponderInv, Fits;
    if n <= |net.toResponder| {
      var now, later := net.toResponder[..n], net.toResponder[n..];
      assert net.toResponder == now + later;
      assert net.responderGot + net.toResponder == (net.responderGot + now) + later;
      if net.responder.state.ResponderDone? {
        ResponderAwaits(net, a, b);
        assert net.responderGot + now == net.responderGot;
      } else {
        ResponderMoves(net, a, b, now, later);
      }
    }
  }

  lemma ResponderEndKeeps(net: Net, a: seq<Blob>, b: seq<Blob>)
    requires Fits(a) && Fits(b) && Inv(net, a, b)
    ensures Inv(Next(net, ResponderSeesEnd), a, b)
  {
    hide ConnectFrame, SyncFrame, InitiatorInv, Framing.Decode, HolePunch.Decode, Receive;
    if !net.responder.state.ResponderDone? {
      assert net.toResponder == [] + net.toResponder;
      ResponderMoves(net, a, b, [], net.toResponder);
      assert net.responder.recvBuf + [] == net.responder.recvBuf && net.responderGot + [] == net.responderGot;
    }
  }

  lemma InitiatorMoves(net: Net, a: seq<Blob>, b: seq<Blob>, now: Blob, later: Blob, rttMs: u64)
    requires Fits(b) && Inv(net, a, b) && net.toInitiator == now + later
    ensures var (m, e) := InitiatorData(net.initiator, now, rttMs);
            && e.None? && InitiatorInv(m, net.initiatorGot + now, net.initiatorSent, a, b)
            && net.dialled == (if m.emittedOutcome && m.outcome.Some? then [m.outcome.value] else [])
            && (m.outcome.None? ==> !m.emittedOutcome)
  {
    hide ConnectFrame, SyncFrame, HolePunch.Decode, HolePunch.Encode, Framing.Framable, Framing.Decode, MessageFrame;
    ConnectIs(a);
    ConnectIs(b);
    var m, got := net.initiator, net.initiatorGot;
    assert (got + now) + later == net.responderSent <= ConnectFrame(b);
    if m.state.AwaitingConnectReply? {
      ConnectDecodes(b);
      FrameNames(b);
      InitiatorReads(m.(recvBuf := m.recvBuf + now), HolePunch.Message(HolePunch.Connect, b), rttMs);
    } else if m.state.Pending? {
      assert net.responderGot == [];
      assert now == [] && got + now == [] && m.recvBuf + now == [];
    } else {
      assert now == [] && got + now == got;
    }
  }

  lemma DeliverInitiatorKeeps(net: Net, a: seq<Blob>, b: seq<Blob>, n: nat, rttMs: u64)
    requires Fits(b) && Inv(net, a, b)
    ensures Inv(Next(net, DeliverToInitiator(n, rttMs)), a, b)
  {
    hide ConnectFrame, SyncFrame, InitiatorData, InitiatorInv, ResponderInv;
    if n <= |net.toInitiator| {
      var now, later := net.toInitiator[..n], net.toInitiator[n..];
      assert net.initiatorGot + net.toInitiator == (net.initiatorGot + now) + later;
      InitiatorMoves(net, a, b, now, later, rttMs);
    }
  }

  lemma SyncKeeps(net: Net, a: seq<Blob>, b: seq<Blob>)
    requires Inv(net, a, b)
    ensures Inv(Next(net, HostSyncs), a, b)
  {
    hide ConnectFrame, SyncFrame, ResponderInv;
    assert [] + SyncFrame() == SyncFrame();
  }

  lemma {:induction false} InvRun(net: Net, steps: seq<Step>, a: seq<Blob>, b: seq<Blob>)
    requires Fits(a) && Fits(b) && Inv(net, a, b)
    ensures Inv(Run(net, steps), a, b)
    decreases |steps|
  {
    hide Inv, Next, Fits;
    if steps != [] {
      match steps[0] {
        case InitiatorPolls => PollInitiatorKeeps(net, a, b);
        case ResponderPolls => PollResponderKeeps(net, a, b);
        case DeliverToInitiator(n, rttMs) => DeliverInitiatorKeeps(net, a, b, n, rttMs);
        case DeliverToResponder(n) => DeliverResponderKeeps(net, a, b, n);
        case HostSyncs => SyncKeeps(net, a, b);
        case ResponderSeesEnd => ResponderEndKeeps(net, a, b);
      }
      InvRun(Next(net, steps[0]), steps[1..], a, b);
    }
  }

  // --------------------------------------------------------------------------- theorems

  /** What the exchange promises at every moment. */
  ghost predicate Safe(net: Net, a: seq<Blob>, b: seq<Blob>) {
    && !net.rejected
    // SYNC leaves the initiator only after it decoded the reply, whose addresses are the responder's
    && (|net.initiatorSent| > |ConnectFrame(a)| ==> net.initiator.outcome.Some?)
    && (net.initiator.outcome.Some? ==> net.initiator.outcome.value.remoteAddrBytes == b)
    && (forall i :: 0 <= i < |net.dialled| ==> net.dialled[i].remoteAddrBytes == b) && |net.dialled| <= 1
    // the responder hears of the initiator's addresses first and of SYNC second, each at most once
    && net.heard + net.responder.events <= [ConnectReceived(a), SyncReceived]
    && (net.responder.state.ResponderDone? ==> net.heard + net.responder.events == [ConnectReceived(a), SyncReceived])
    && (SyncReceived in net.heard + net.responder.events ==> net.initiator.state.InitiatorDone?)
  }

  predicate Quiet(net: Net) {
    net.toInitiator == [] && net.toResponder == [] && net.initiator.outbound == [] && net.responder.outbound == []
  }

  lemma InvSafe(net: Net, a: seq<Blob>, b: seq<Blob>)
    requires Inv(net, a, b)
    ensures Safe(net, a, b)
    ensures Quiet(net) && net.initiator.state.InitiatorDone? ==> net.responder.state.ResponderDone?
    ensures Quiet(net) && !net.initiator.state.Pending? ==> net.initiator.outcome.Some?
  {
    hide ConnectFrame, SyncFrame, HolePunch.Decode, HolePunch.Encode;
    ConnectIs(a);
    ConnectIs(b);
    SyncDecodes();
    assert net.responderSent + [] == net.responderSent && net.initiatorGot + [] == net.initiatorGot;
    assert net.responderGot + [] == net.responderGot;
    if net.responder.state.AwaitingSync? && net.initiatorSent == ConnectFrame(a) + SyncFrame() {
      assert net.initiatorSent[|ConnectFrame(a)|..] == SyncFrame();
    }
  }

  /** DCUtR safety: with CONNECT frames within the size limit, whatever the interleaving and the
      fragmentation, no data is ever rejected, SYNC follows the decoded reply, the responder's events
      come in order, and each side learns exactly the addresses of the other; and once everything
      sent has arrived, a finished initiator faces a finished responder. */
  lemma Safety(a: seq<Blob>, b: seq<Blob>, steps: seq<Step>)
    requires Fits(a) && Fits(b)
    ensures var net := Run(Init(a, b), steps);
            && Safe(net, a, b)
            && (Quiet(net) && net.initiator.state.InitiatorDone? ==> net.responder.state.ResponderDone?)
            && (Quiet(net) && !net.initiator.state.Pending? ==> net.initiator.outcome.Some?)
  {
    hide Inv, Run, Safe, Fits;
    InvInit(a, b);
    InvRun(Init(a, b), steps, a, b);
    InvSafe(Run(Init(a, b), steps), a, b);
  }

  /** What each host is given decodes to exactly the address list of the other side. */
  lemma AddressesLearned(own: seq<Multiaddr.Addr>, theirs: seq<Multiaddr.Addr>, steps: seq<Step>)
    requires AllAddrs(own) && AllAddrs(theirs) && Fits(EncodeAddrs(own)) && Fits(EncodeAddrs(theirs))
    ensures var net := Run(Init(EncodeAddrs(own), EncodeAddrs(theirs)), steps);
            && (forall i :: 0 <= i < |net.dialled| ==> DecodeAddrs(net.dialled[i].remoteAddrBytes) == theirs)
            && (forall i :: 0 <= i < |net.heard| && net.heard[i].ConnectReceived? ==>
                  DecodeAddrs(net.heard[i].remoteAddrBytes) == own)
  {
    hide Run, Fits, EncodeAddrs, DecodeAddrs, ConnectFrame;
    var a, b := EncodeAddrs(own), EncodeAddrs(theirs);
    DecodesOwn(own);
    DecodesOwn(theirs);
    Safety(a, b, steps);
    var net := Run(Init(a, b), steps);
    var all := net.heard + net.responder.events;
    forall i | 0 <= i < |net.heard| && net.heard[i].ConnectReceived?
      ensures net.heard[i].remoteAddrBytes == a
    {
      assert all[i] == net.heard[i] && all[i] == [ConnectReceived(a), SyncReceived][i];
    }
  }

  /** The whole CONNECT of an initiator, delivered in one piece. */
  lemma TooLargeRejected(a: seq<Blob>, b: seq<Blob>)
    requires !Fits(a)
    ensures Run(Init(a, b), [InitiatorPolls, DeliverToResponder(|ConnectFrame(a)|)]).rejected
  {
    hide ConnectFrame, Framing.Decode, HolePunch.Decode;
    var steps := [InitiatorPolls, DeliverToResponder(|ConnectFrame(a)|)];
    var n1 := Next(Init(a, b), steps[0]);
    var n2 := Next(n1, steps[1]);
    assert n1.toResponder == [] + ConnectFrame(a) == ConnectFrame(a);
    assert n1.toResponder[..|ConnectFrame(a)|] == ConnectFrame(a) && [] + ConnectFrame(a) == ConnectFrame(a);
    assert Run(Init(a, b), steps) == Run(n1, steps[1..]) == Run(n2, steps[1..][1..]) == n2;
  }

  function ReplySchedule(a: seq<Blob>, b: seq<Blob>): seq<Step> {
    [InitiatorPolls, DeliverToResponder(|ConnectFrame(a)|), ResponderPolls, DeliverToInitiator(|ConnectFrame(b)|, 0)]
  }

  lemma TooLargeReplyRejected(a: seq<Blob>, b: seq<Blob>)
    requires Fits(a) && !Fits(b)
    ensures Run(Init(a, b), ReplySchedule(a, b)).rejected
  {
    hide ConnectFrame, Framing.Decode, HolePunch.Decode, HolePunch.Encode, DecodeAll, MessageFrame, Framing.Framable;
    var steps := ReplySchedule(a, b);
    var ca, cb := ConnectFrame(a), ConnectFrame(b);
    var n0 := Init(a, b);
    var n1 := Next(n0, steps[0]);
    ConnectIs(a);
    ConnectIs(b);
    assert n1.toResponder == [] + ca == ca;
    var n2 := Next(n1, steps[1]);
    assert n1.toResponder[..|ca|] == ca && [] + ca == ca;
    ConnectDecodes(a);
    FrameNames(a);
    ResponderReads(n1.responder.(recvBuf := ca), HolePunch.Message(HolePunch.Connect, a));
    assert n2.responder.outbound == [] + cb == cb;
    var n3 := Next(n2, steps[2]);
    assert n3.toInitiator == [] + cb == cb;
    var n4 := Next(n3, steps[3]);
    assert n3.toInitiator[..|cb|] == cb && [] + cb == cb;
    var t := steps[1..];
    assert Run(n0, steps) == Run(n1, t) == Run(n2, t[1..]) == Run(n3, t[1..][1..]) == Run(n4, t[1..][1..][1..]) == n4;
  }

  /** No run rejects data exactly when both CONNECT frames are within the size limit. */
  lemma SafetyIff(a: seq<Blob>, b: seq<Blob>)
    ensures (forall steps :: !Run(Init(a, b), steps).rejected) <==> Fits(a) && Fits(b)
  {
    hide Run, Fits;
    if !Fits(a) {
      TooLargeRejected(a, b);
    } else if !Fits(b) {
      TooLargeReplyRejected(a, b);
    } else {
      forall steps
        ensures !Run(Init(a, b), steps).rejected
      {
        Safety(a, b, steps);
      }
    }
  }
}
