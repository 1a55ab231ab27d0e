/** The DCUtR initiator and responder (crates/dcutr/src/lib.rs:64-555). Addresses are carried in
    binary form, and `DecodeAddrs` is what hosts are given of them; round-trip times are inputs. */
module Dcutr {
  import opened Bytes
  import Framing
  import HolePunch
  import Multiaddr

  const MAX_MESSAGE_SIZE: nat := 4096

  /** `Aborted` is the arithmetic stop of `Framing.Overflow`. */
  datatype Error = MessageTooLarge | Malformed | UnexpectedMessage | Aborted

  function MessageFrame(m: HolePunch.Message): Blob {
    Framing.Frame(HolePunch.Encode(m))
  }

  function ConnectFrame(addrs: seq<Blob>): Blob {
    MessageFrame(HolePunch.Message(HolePunch.Connect, addrs))
  }

  function SyncFrame(): Blob {
    MessageFrame(HolePunch.Message(HolePunch.Sync, []))
  }

  // -------------------------------------------------------------------------- addresses

  function EncodeAddrs(addrs: seq<Multiaddr.Addr>): (raw: seq<Blob>)
    ensures |raw| == |addrs|
  {
    seq(|addrs|, i requires 0 <= i < |addrs| => Multiaddr.ToBytes(addrs[i]))
  }

  /** `decode_remote_addrs`: entries that do not decode are dropped. */
  function DecodeAddrs(raw: seq<Blob>): seq<Multiaddr.Addr> {
    if raw == [] then []
    else
      var first := Multiaddr.FromBytes(raw[0]);
      (if first.Ok? then [first.value] else []) + DecodeAddrs(raw[1..])
  }

  /** The entries that decode. */
  function Decodable(raw: seq<Blob>): seq<Blob> {
    if raw == [] then []
    else (if Multiaddr.FromBytes(raw[0]).Ok? then [raw[0]] else []) + Decodable(raw[1..])
  }

  predicate AllAddrs(addrs: seq<Multiaddr.Addr>) {
    forall i :: 0 <= i < |addrs| ==> Multiaddr.AllWellFormed(addrs[i])
  }

  /** Encoded addresses all decode, to themselves. */
  lemma {:induction false} DecodesOwn(addrs: seq<Multiaddr.Addr>)
    requires AllAddrs(addrs)
    ensures DecodeAddrs(EncodeAddrs(addrs)) == addrs
  {
    hide Multiaddr.FromBytes, Multiaddr.ToBytes, Multiaddr.AllWellFormed;
    if addrs != [] {
      Multiaddr.BinaryIff(Multiaddr.ToBytes(addrs[0]), addrs[0]);
      DecodesOwn(addrs[1..]);
      assert EncodeAddrs(addrs)[1..] == EncodeAddrs(addrs[1..]);
      assert [addrs[0]] + addrs[1..] == addrs;
    }
  }

  /** Whatever arrives, the addresses handed out stand for exactly the entries that decode, in order:
      none is invented, altered or moved. */
  lemma {:induction false} DropsOnly(raw: seq<Blob>)
    ensures AllAddrs(DecodeAddrs(raw)) && EncodeAddrs(DecodeAddrs(raw)) == Decodable(raw)
  {
    hide Multiaddr.FromBytes, Multiaddr.ToBytes, Multiaddr.AllWellFormed;
    if raw != [] {
      DropsOnly(raw[1..]);
      var first, rest := Multiaddr.FromBytes(raw[0]), DecodeAddrs(raw[1..]);
      if first.Ok? {
        Multiaddr.BinaryIff(raw[0], first.value);
        assert EncodeAddrs([first.value] + rest) == [Multiaddr.ToBytes(first.value)] + EncodeAddrs(rest);
      } else {
        assert [] + rest == rest && [] + Decodable(raw[1..]) == Decodable(raw[1..]);
      }
    }
  }

  // -------------------------------------------------------------------------- initiator

  datatype InitiatorState = Pending | AwaitingConnectReply | ReadyToSync | SyncPending | InitiatorDone

  /** The instruction to dial the addresses the remote sent. */
  datatype DialNow = DialNow(remoteAddrBytes: seq<Blob>, rttMs: u64)

  datatype Initiator = Initiator(
    outbound: Blob, recvBuf: Blob, state: InitiatorState, outcome: Option<DialNow>, emittedOutcome: bool)

  datatype InitiatorOutput = InitiatorSends(bytes: Blob) | Outcome(dial: DialNow)

  function NewInitiator(ownAddrs: seq<Blob>): Initiator {
    Initiator(ConnectFrame(ownAddrs), [], Pending, None, false)
  }

  function AfterTaking(state: InitiatorState): InitiatorState {
    match state
    case Pending => AwaitingConnectReply
    case SyncPending => InitiatorDone
    case _ => state
  }

  function PollInitiator(m: Initiator): (Initiator, Option<InitiatorOutput>) {
    var taken := m.(outbound := [], state := AfterTaking(m.state));
    if m.outbound != [] then (taken, Some(InitiatorSends(m.outbound)))
    else if !m.emittedOutcome && m.outcome.Some? then
      (taken.(emittedOutcome := true), Some(Outcome(m.outcome.value)))
    else (taken, None)
  }

  function InitiatorData(m: Initiator, data: Blob, rttMs: u64): (Initiator, Option<Error>) {
    if m.state.InitiatorDone? || m.state.SyncPending? then (m, None)
    else DecodeReply(m.(recvBuf := m.recvBuf + data), rttMs)
  }

  function DecodeReply(m: Initiator, rttMs: u64): (Initiator, Option<Error>) {
    var done := m.(state := InitiatorDone);
    if !m.state.AwaitingConnectReply? then (m, None)
    else if |m.recvBuf| > MAX_MESSAGE_SIZE then (done, Some(MessageTooLarge))
    else
      match Framing.Decode(m.recvBuf)
      case Incomplete => (m, None)
      case Failed(_) => (done, Some(Malformed))
      case Overflow => (done, Some(Aborted))
      case Complete(payload, consumed) =>
        match HolePunch.Decode(payload)
        case Err(_) => (done, Some(Malformed))
        case Ok(reply) =>
          var rest := m.recvBuf[consumed..];
          if reply.kind.Connect? then
            (m.(recvBuf := rest, state := ReadyToSync, outcome := Some(DialNow(reply.obsAddrs, rttMs)),
                emittedOutcome := false), None)
          else (done.(recvBuf := rest), Some(UnexpectedMessage))
  }

  function SendSync(m: Initiator): (Initiator, Option<Error>) {
    if !m.state.ReadyToSync? then (m, Some(UnexpectedMessage))
    else (m.(outbound := m.outbound + SyncFrame(), state := SyncPending), None)
  }

  // -------------------------------------------------------------------------- responder

  datatype ResponderState = AwaitingConnect | AwaitingSync | ResponderDone

  datatype ResponderEvent = ConnectReceived(remoteAddrBytes: seq<Blob>) | SyncReceived

  datatype Responder = Responder(
    ownAddrs: seq<Blob>, outbound: Blob, recvBuf: Blob, state: ResponderState, events: seq<ResponderEvent>)

  datatype ResponderOutput = ResponderSends(bytes: Blob) | Event(event: ResponderEvent)

  function NewResponder(ownAddrs: seq<Blob>): Responder {
    Responder(ownAddrs, [], [], AwaitingConnect, [])
  }

  function PollResponder(m: Responder): (Responder, Option<ResponderOutput>) {
    var taken := m.(outbound := []);
    if m.outbound != [] then (taken, Some(ResponderSends(m.outbound)))
    else if m.events == [] then (taken, None)
    else (taken.(events := m.events[1..]), Some(Event(m.events[0])))
  }

  function ResponderData(m: Responder, data: Blob): (Responder, Option<Error>) {
    if m.state.ResponderDone? then (m, None) else DecodeAll(m.(recvBuf := m.recvBuf + data))
  }

  /** What one message does to the responder. */
  function Receive(m: Responder, msg: HolePunch.Message): (Responder, Option<Error>) {
    if m.state.AwaitingConnect? && msg.kind.Connect? then
      (m.(outbound := m.outbound + ConnectFrame(m.ownAddrs),
          events := m.events + [ConnectReceived(msg.obsAddrs)], state := AwaitingSync), None)
    else if m.state.AwaitingSync? && msg.kind.Sync? then
      (m.(events := m.events + [SyncReceived], state := ResponderDone), None)
    else (m.(state := ResponderDone), Some(UnexpectedMessage))
  }

  /** The decode loop. */
  function DecodeAll(m: Responder): (Responder, Option<Error>)
    decreases |m.recvBuf|
  {
    var done := m.(state := ResponderDone);
    if m.state.ResponderDone? then (m, None)
    else if |m.recvBuf| > MAX_MESSAGE_SIZE then (done, Some(MessageTooLarge))
    else
      match Framing.Decode(m.recvBuf)
      case Incomplete => (m, None)
      case Failed(_) => (done, Some(Malformed))
      case Overflow => (done, Some(Aborted))
      case Complete(payload, consumed) =>
        match HolePunch.Decode(payload)
        case Err(_) => (done, Some(Malformed))
        case Ok(msg) =>
          var (next, e) := Receive(m.(recvBuf := m.recvBuf[consumed..]), msg);
          if e.Some? then (next, e) else DecodeAll(next)
  }

  // -------------------------------------------------------------------- imperative form

  class DcutrInitiator {
    var outbound: Blob
    var recvBuf: Blob
    var state: InitiatorState
    var outcome: Option<DialNow>
    var emittedOutcome: bool

    ghost function View(): Initiator
      reads this
    {
      Initiator(outbound, recvBuf, state, outcome, emittedOutcome)
    }

    constructor (ownAddrs: seq<Blob>)
      ensures View() == NewInitiator(ownAddrs)
    {
      outbound := ConnectFrame(ownAddrs);
      recvBuf, state, outcome, emittedOutcome := [], Pending, None, false;
    }

    method TakeOutbound() returns (bytes: Blob)
      modifies this
      ensures bytes == old(outbound)
      ensures View() == old(View()).(outbound := [], state := AfterTaking(old(state)))
    {
      bytes, outbound := outbound, [];
      match state {
        case Pending => state := AwaitingConnectReply;
        case SyncPending => state := InitiatorDone;
        case _ =>
      }
    }

    method PollOutput() returns (output: Option<InitiatorOutput>)
      modifies this
      ensures (View(), output) == PollInitiator(old(View()))
    {
      var bytes := TakeOutbound();
      if bytes != [] {
        return Some(InitiatorSends(bytes));
      }
      if !emittedOutcome && outcome.Some? {
        emittedOutcome := true;
        return Some(Outcome(outcome.value));
      }
      return None;
    }

    method OnData(data: Blob, rttMs: u64) returns (error: Option<Error>)
      modifies this
      ensures (View(), error) == InitiatorData(old(View()), data, rttMs)
    {
      if state.InitiatorDone? || state.SyncPending? {
        return None;
      }
      recvBuf := recvBuf + data;
      error := TryDecodeReply(rttMs);
    }

    method TryDecodeReply(rttMs: u64) returns (error: Option<Error>)
      modifies this
      ensures (View(), error) == DecodeReply(old(View()), rttMs)
    {
      if !state.AwaitingConnectReply? {
        return None;
      }
      if |recvBuf| > MAX_MESSAGE_SIZE {
        state := InitiatorDone;
        return Some(MessageTooLarge);
      }
      match Framing.Decode(recvBuf) {
        case Incomplete => return None;
        case Failed(_) =>
          state := InitiatorDone;
          return Some(Malformed);
        case Overflow =>
          state := InitiatorDone;
          return Some(Aborted);
        case Complete(payload, consumed) =>
          var decoded := HolePunch.Decode(payload);
          if decoded.Err? {
            state := InitiatorDone;
            return Some(Malformed);
          }
          recvBuf := recvBuf[consumed..];
          if !decoded.value.kind.Connect? {
            state := InitiatorDone;
            return Some(UnexpectedMessage);
          }
          state := ReadyToSync;
          outcome := Some(DialNow(decoded.value.obsAddrs, rttMs));
          emittedOutcome := false;
          return None;
      }
    }

    method QueueSync() returns (error: Option<Error>)
      modifies this
      ensures (View(), error) == SendSync(old(View()))
    {
      if !state.ReadyToSync? {
        return Some(UnexpectedMessage);
      }
      outbound := outbound + SyncFrame();
      state := SyncPending;
      return None;
    }
  }

  class DcutrResponder {
    const ownAddrs: seq<Blob>
    var outbound: Blob
    var recvBuf: Blob
    var state: ResponderState
    var events: seq<ResponderEvent>

    ghost function View(): Responder
      reads this
    {
      Responder(ownAddrs, outbound, recvBuf, state, events)
    }

    constructor (ownAddrs: seq<Blob>)
      ensures View() == NewResponder(ownAddrs)
    {
      this.ownAddrs := ownAddrs;
      outbound, recvBuf, state, events := [], [], AwaitingConnect, [];
    }

    method PollOutput() returns (output: Option<ResponderOutput>)
      modifies this
      ensures (View(), output) == PollResponder(old(View()))
    {
      var bytes := outbound;
      outbound := [];
      if bytes != [] {
        return Some(ResponderSends(bytes));
      }
      if events == [] {
        return None;
      }
      output := Some(Event(events[0]));
      events := events[1..];
    }

    method OnData(data: Blob) returns (error: Option<Error>)
      modifies this
      ensures (View(), error) == ResponderData(old(View()), data)
    {
      if state.ResponderDone? {
        return None;
      }
      recvBuf := recvBuf + data;
      error := TryDecode();
    }

    method TryDecode() returns (error: Option<Error>)
      modifies this
      ensures (View(), error) == DecodeAll(old(View()))
    {
      while true
        invariant DecodeAll(View()) == DecodeAll(old(View()))
        decreases |recvBuf|
      {
        if state.ResponderDone? {
          return None;
        }
        if |recvBuf| > MAX_MESSAGE_SIZE {
          state := ResponderDone;
          return Some(MessageTooLarge);
        }
        match Framing.Decode(recvBuf) {
          case Incomplete => return None;
          case Failed(_) =>
            state := ResponderDone;
            return Some(Malformed);
          case Overflow =>
            state := ResponderDone;
            return Some(Aborted);
          case Complete(payload, consumed) =>
            var decoded := HolePunch.Decode(payload);
            if decoded.Err? {
              state := ResponderDone;
              return Some(Malformed);
            }
            recvBuf := recvBuf[consumed..];
            error := OnMessage(decoded.value);
            if error.Some? {
              return;
            }
        }
      }
    }

    method OnMessage(msg: HolePunch.Message) returns (error: Option<Error>)
      modifies this
      ensures (View(), error) == Receive(old(View()), msg)
    {
      if state.AwaitingConnect? && msg.kind.Connect? {
        outbound := outbound + ConnectFrame(ownAddrs);
        events := events + [ConnectReceived(msg.obsAddrs)];
        state := AwaitingSync;
        return None;
      }
      if state.AwaitingSync? && msg.kind.Sync? {
        events := events + [SyncReceived];
        state := ResponderDone;
        return None;
      }
      state := ResponderDone;
      return Some(UnexpectedMessage);
    }
  }
}
