/** The relay client flows that turn a stream into a circuit: HOP CONNECT and STOP
    (crates/relay/src/lib.rs:279-793). Reasons in error texts are left out. */
module Relay {
  import opened Bytes
  import Framing
  import M = RelayMessage

  const MAX_MESSAGE_SIZE: nat := 8192

  /** `Aborted` is the arithmetic stop of `Framing.Overflow`. */
  datatype Error = MessageTooLarge | Malformed | UnexpectedMessage | Aborted

  // ------------------------------------------------------------------------ HOP CONNECT

  datatype FlowState = Pending | AwaitingResponse | FlowDone

  datatype ConnectOutcome = Bridged(limit: Option<M.Limit>) | Refused(status: M.Status)

  datatype HopConnect = HopConnect(
    outbound: Blob, recvBuf: Blob, state: FlowState, outcome: Option<ConnectOutcome>, emittedOutcome: bool,
    bridge: Blob)

  datatype HopOutput = HopSends(bytes: Blob) | HopOutcome(outcome: ConnectOutcome) | HopBridge(data: Blob)

  function ConnectRequest(target: Blob): Blob {
    Framing.Frame(M.EncodeHop(M.Hop(M.HopConnect, Some(M.Peer(target, [])), None, None, None)))
  }

  function NewHopConnect(target: Blob): HopConnect {
    HopConnect(ConnectRequest(target), [], Pending, None, false, [])
  }

  function PollHop(m: HopConnect): (HopConnect, Option<HopOutput>) {
    var taken := m.(outbound := [], state := if m.state.Pending? then AwaitingResponse else m.state);
    if m.outbound != [] then (taken, Some(HopSends(m.outbound)))
    else if !m.emittedOutcome && m.outcome.Some? then
      (taken.(emittedOutcome := true), Some(HopOutcome(m.outcome.value)))
    else if m.bridge != [] then (taken.(bridge := []), Some(HopBridge(m.bridge)))
    else (taken, None)
  }

  function HopData(m: HopConnect, data: Blob): (HopConnect, Option<Error>) {
    if m.state.FlowDone? then
      (if m.outcome.Some? && m.outcome.value.Bridged? then m.(bridge := m.bridge + data) else m, None)
    else DecodeResponse(m.(recvBuf := m.recvBuf + data))
  }

  function StatusOf(msg: M.Hop): M.Status {
    if msg.status.Some? then msg.status.value else M.Unused
  }

  function DecodeResponse(m: HopConnect): (HopConnect, Option<Error>) {
    var done := m.(state := FlowDone);
    if m.state.FlowDone? then (m, None)
    else if |m.recvBuf| > MAX_MESSAGE_SIZE then (done, Some(MessageTooLarge))
    else
      match Framing.Decode(m.recvBuf)
      case Incomplete => (m, None)
      case Failed(_) => (done, Some(Malformed))
      case Overflow => (done, Some(Aborted))
      case Complete(payload, consumed) =>
        match M.DecodeHop(payload)
        case Err(_) => (done, Some(Malformed))
        case Ok(msg) =>
          var rest := m.recvBuf[consumed..];
          if !msg.kind.HopStatus? then (done.(recvBuf := rest), Some(UnexpectedMessage))
          else if StatusOf(msg).StatusOk? then
            (done.(recvBuf := [], bridge := m.bridge + rest, outcome := Some(Bridged(msg.limit)),
                   emittedOutcome := false), None)
          else (done.(recvBuf := rest, outcome := Some(Refused(StatusOf(msg))), emittedOutcome := false), None)
  }

  // ------------------------------------------------------------------------------- STOP

  datatype StopState = AwaitingConnect | AwaitingDecision | StopDone | StopBridged

  datatype Request = Request(source: Blob, limit: Option<M.Limit>)

  datatype StopResponder = StopResponder(
    outbound: Blob, recvBuf: Blob, state: StopState, request: Option<Request>, emittedRequest: bool, bridge: Blob)

  datatype StopOutput = StopRequest(request: Request) | StopSends(bytes: Blob) | StopBridge(data: Blob)

  function NewStop(): StopResponder {
    StopResponder([], [], AwaitingConnect, None, false, [])
  }

  function StatusFrame(status: M.Status): Blob {
    Framing.Frame(M.EncodeStop(M.Stop(M.StopStatus, None, None, Some(status))))
  }

  function PollStop(m: StopResponder): (StopResponder, Option<StopOutput>) {
    if !m.emittedRequest && m.request.Some? then (m.(emittedRequest := true), Some(StopRequest(m.request.value)))
    else if m.outbound != [] then (m.(outbound := []), Some(StopSends(m.outbound)))
    else if m.bridge != [] then (m.(bridge := []), Some(StopBridge(m.bridge)))
    else (m, None)
  }

  function StopData(m: StopResponder, data: Blob): (StopResponder, Option<Error>) {
    if m.state.StopBridged? then (m.(bridge := m.bridge + data), None)
    else if m.state.StopDone? then (m, None)
    else DecodeConnect(m.(recvBuf := m.recvBuf + data))
  }

  function Accept(m: StopResponder): (StopResponder, Option<Error>) {
    if !m.state.AwaitingDecision? then (m, Some(UnexpectedMessage))
    else
      (m.(outbound := m.outbound + StatusFrame(M.StatusOk), state := StopBridged, recvBuf := [],
          bridge := m.bridge + m.recvBuf), None)
  }

  function Reject(m: StopResponder, status: M.Status): (StopResponder, Option<Error>) {
    if !m.state.AwaitingDecision? then (m, Some(UnexpectedMessage))
    else (m.(outbound := m.outbound + StatusFrame(status), state := StopDone), None)
  }

  function DecodeConnect(m: StopResponder): (StopResponder, Option<Error>) {
    var done := m.(state := StopDone);
    if !m.state.AwaitingConnect? then (m, None)
    else if |m.recvBuf| > MAX_MESSAGE_SIZE then (done, Some(MessageTooLarge))
    else
      match Framing.Decode(m.recvBuf)
      case Incomplete => (m, None)
      case Failed(_) => (done, Some(Malformed))
      case Overflow => (done, Some(Aborted))
      case Complete(payload, consumed) =>
        match M.DecodeStop(payload)
        case Err(_) => (done, Some(Malformed))
        case Ok(msg) =>
          var rest := m.recvBuf[consumed..];
          if !msg.kind.StopConnect? || msg.peer.None? then (done.(recvBuf := rest), Some(UnexpectedMessage))
          else
            (m.(recvBuf := rest, request := Some(Request(msg.peer.value.id, msg.limit)), emittedRequest := false,
                state := AwaitingDecision), None)
  }

  // -------------------------------------------------------------------- imperative form

  class HopConnectFlow {
    var outbound: Blob
    var recvBuf: Blob
    var state: FlowState
    var outcome: Option<ConnectOutcome>
    var emittedOutcome: bool
    var bridgeBytes: Blob

    ghost function View(): HopConnect
      reads this
    {
      HopConnect(outbound, recvBuf, state, outcome, emittedOutcome, bridgeBytes)
    }

    constructor (target: Blob)
      ensures View() == NewHopConnect(target)
    {
      outbound := ConnectRequest(target);
      recvBuf, state, outcome, emittedOutcome, bridgeBytes := [], Pending, None, false, [];
    }

    method PollOutput() returns (output: Option<HopOutput>)
      modifies this
      ensures (View(), output) == PollHop(old(View()))
    {
      if state.Pending? {
        state := AwaitingResponse;
      }
      var bytes := outbound;
      outbound := [];
      if bytes != [] {
        return Some(HopSends(bytes));
      }
      if !emittedOutcome && outcome.Some? {
        emittedOutcome := true;
        return Some(HopOutcome(outcome.value));
      }
      var data := bridgeBytes;
      bridgeBytes := [];
      if data != [] {
        return Some(HopBridge(data));
      }
      return None;
    }

    method OnData(data: Blob) returns (error: Option<Error>)
      modifies this
      ensures (View(), error) == HopData(old(View()), data)
    {
      if state.FlowDone? {
        if outcome.Some? && outcome.value.Bridged? {
          bridgeBytes := bridgeBytes + data;
        }
        return None;
      }
      recvBuf := recvBuf + data;
      error := TryDecodeResponse();
    }

    method TryDecodeResponse() returns (error: Option<Error>)
      modifies this
      ensures (View(), error) == DecodeResponse(old(View()))
    {
      if state.FlowDone? {
        return None;
      }
      if |recvBuf| > MAX_MESSAGE_SIZE {
        state := FlowDone;
        return Some(MessageTooLarge);
      }
      match Framing.Decode(recvBuf) {
        case Incomplete => return None;
        case Failed(_) =>
          state := FlowDone;
          return Some(Malformed);
        case Overflow =>
          state := FlowDone;
          return Some(Aborted);
        case Complete(payload, consumed) =>
          var decoded := M.DecodeHop(payload);
          if decoded.Err? {
            state := FlowDone;
            return Some(Malformed);
          }
          recvBuf := recvBuf[consumed..];
          if !decoded.value.kind.HopStatus? {
            state := FlowDone;
            return Some(UnexpectedMessage);
          }
          state := FlowDone;
          var status := StatusOf(decoded.value);
          if status.StatusOk? {
            bridgeBytes, recvBuf := bridgeBytes + recvBuf, [];
            outcome := Some(Bridged(decoded.value.limit));
          } else {
            outcome := Some(Refused(status));
          }
          emittedOutcome := false;
          return None;
      }
    }
  }

  class StopFlow {
    var outbound: Blob
    var recvBuf: Blob
    var state: StopState
    var request: Option<Request>
    var emittedRequest: bool
    var bridgeBytes: Blob

    ghost function View(): StopResponder
      reads this
    {
      StopResponder(outbound, recvBuf, state, request, emittedRequest, bridgeBytes)
    }

    constructor ()
      ensures View() == NewStop()
    {
      outbound, recvBuf, state, request, emittedRequest, bridgeBytes := [], [], AwaitingConnect, None, false, [];
    }

    method PollOutput() returns (output: Option<StopOutput>)
      modifies this
      ensures (View(), output) == PollStop(old(View()))
    {
      if !emittedRequest && request.Some? {
        emittedRequest := true;
        return Some(StopRequest(request.value));
      }
      var bytes := outbound;
      outbound := [];
      if bytes != [] {
        return Some(StopSends(bytes));
      }
      var data := bridgeBytes;
      bridgeBytes := [];
      if data != [] {
        return Some(StopBridge(data));
      }
      return None;
    }

    method OnData(data: Blob) returns (error: Option<Error>)
      modifies this
      ensures (View(), error) == StopData(old(View()), data)
    {
      if state.StopBridged? {
        bridgeBytes := bridgeBytes + data;
        return None;
      }
      if state.StopDone? {
        return None;
      }
      recvBuf := recvBuf + data;
      error := TryDecodeConnect();
    }

    method SendStatus(status: M.Status, next: StopState) returns (error: Option<Error>)
      modifies this
      ensures if old(state).AwaitingDecision?
              then
                && error == None
                && View() == old(View()).(outbound := old(outbound) + StatusFrame(status), state := next)
              else error == Some(UnexpectedMessage) && View() == old(View())
    {
      if !state.AwaitingDecision? {
        return Some(UnexpectedMessage);
      }
      outbound := outbound + StatusFrame(status);
      state := next;
      return None;
    }

    method AcceptRequest() returns (error: Option<Error>)
      modifies this
      ensures (View(), error) == Accept(old(View()))
    {
      error := SendStatus(M.StatusOk, StopBridged);
      if error.None? {
        bridgeBytes, recvBuf := bridgeBytes + recvBuf, [];
      }
    }

    method RejectRequest(status: M.Status) returns (error: Option<Error>)
      modifies this
      ensures (View(), error) == Reject(old(View()), status)
    {
      error := SendStatus(status, StopDone);
    }

    method TryDecodeConnect() returns (error: Option<Error>)
      modifies this
      ensures (View(), error) == DecodeConnect(old(View()))
    {
      if !state.AwaitingConnect? {
        return None;
      }
      if |recvBuf| > MAX_MESSAGE_SIZE {
        state := StopDone;
        return Some(MessageTooLarge);
      }
      match Framing.Decode(recvBuf) {
        case Incomplete => return None;
        case Failed(_) =>
          state := StopDone;
          return Some(Malformed);
        case Overflow =>
          state := StopDone;
          return Some(Aborted);
        case Complete(payload, consumed) =>
          var decoded := M.DecodeStop(payload);
          if decoded.Err? {
            state := StopDone;
            return Some(Malformed);
          }
          recvBuf := recvBuf[consumed..];
          if !decoded.value.kind.StopConnect? || decoded.value.peer.None? {
            state := StopDone;
            return Some(UnexpectedMessage);
          }
          request := Some(Request(decoded.value.peer.value.id, decoded.value.limit));
          emittedRequest := false;
          state := AwaitingDecision;
          return None;
      }
    }
  }
}
