/** The `/multistream/1.0.0` negotiation machine (crates/multistream-select/src/lib.rs). */
module Multistream {
  import opened Bytes
  import Utf8
  import Varint

  // "/multistream/1.0.0"
  const HEADER: Blob := [47, 109, 117, 108, 116, 105, 115, 116, 114, 101, 97, 109, 47, 49, 46, 48, 46, 48]
  // "na"
  const NOT_AVAILABLE: Blob := [110, 97]
  const NEWLINE: byte := 10
  const MAX_MESSAGE_LEN: nat := 1024

  datatype Error =
    | InvalidVarint(cause: Varint.Error)
    | MessageTooLong
    | MissingNewline
    | NonUtf8
    | EmptyProtocol
    | UnexpectedHeader
    | UnexpectedProtocolResponse

  datatype Output =
    | OutboundData(bytes: Blob)
    | Negotiated(protocol: Blob)
    | NotAvailable
    | ProtocolError(error: Error)

  datatype State =
    | WaitingForRemoteHeader
    | WaitingForProtocolRequest
    | WaitingForProtocolResponse
    | Done

  /** A dialer carries the protocol it wants, a listener those it accepts. */
  datatype Role = Dialer(desired: Blob) | Listener(supported: set<Blob>)

  /** Only a listener waits for a request and only a dialer for a response. */
  predicate Fits(role: Role, state: State) {
    && (state.WaitingForProtocolRequest? ==> role.Listener?)
    && (state.WaitingForProtocolResponse? ==> role.Dialer?)
  }

  // ------------------------------------------------------------------- framing

  function EncodeMessage(protocol: Blob): Blob {
    Varint.Encode(|protocol| + 1) + protocol + [NEWLINE]
  }

  datatype Decoded = Complete(payload: Blob, consumed: nat) | Incomplete | Failed(error: Error)

  function DecodeMessage(buf: Blob): (d: Decoded)
    ensures d.Complete? ==> 0 < d.consumed <= |buf|
  {
    if buf == [] then Incomplete
    else
      match Varint.Read(buf)
      case Err(BufferTooShort) => Incomplete
      case Err(e) => Failed(InvalidVarint(e))
      case Ok((len, used)) =>
        if len > MAX_MESSAGE_LEN then Failed(MessageTooLong)
        else if |buf| < used + len then Incomplete
        else
          assert used > 0 by { Varint.ReadIffEncoded(buf, len, used); }
          DecodeBody(buf[used..used + len], used + len)
  }

  function DecodeBody(msg: Blob, total: nat): Decoded {
    if msg == [] || msg[|msg| - 1] != NEWLINE then Failed(MissingNewline)
    else
      var payload := msg[..|msg| - 1];
      if !Utf8.Valid(payload) then Failed(NonUtf8)
      else if payload == [] then Failed(EmptyProtocol)
      else Complete(payload, total)
  }

  /** Bytes that already settle a message are not reinterpreted when more arrive. */
  lemma DecodeStable(buf: Blob, more: Blob)
    requires !DecodeMessage(buf).Incomplete?
    ensures DecodeMessage(buf + more) == DecodeMessage(buf)
  {
    Varint.ReadPrefixStable(buf, more);
    match Varint.Read(buf) {
      case Ok((len, used)) =>
        if len <= MAX_MESSAGE_LEN {
          assert (buf + more)[used..used + len] == buf[used..used + len];
        }
      case Err(_) =>
    }
  }

  /** A protocol id that fits the length limit and is not empty. */
  predicate Sendable(protocol: Blob) {
    0 < |protocol| < MAX_MESSAGE_LEN && Utf8.Valid(protocol)
  }

  /** A complete decode consumed exactly the encoding of what it returned. */
  lemma DecodeCanonical(buf: Blob)
    requires DecodeMessage(buf).Complete?
    ensures var d := DecodeMessage(buf);
            Sendable(d.payload) && buf[..d.consumed] == EncodeMessage(d.payload)
  {
    hide Varint.Encode, Varint.Read, Utf8.Valid;
    var Ok((len, used)) := Varint.Read(buf);
    Varint.ReadIffEncoded(buf, len, used);
    var msg := buf[used..used + len];
    assert msg == msg[..len - 1] + [NEWLINE];
    assert buf[..used + len] == buf[..used] + msg;
  }

  lemma DecodeEncoded(protocol: Blob, rest: Blob)
    requires Sendable(protocol)
    ensures DecodeMessage(EncodeMessage(protocol) + rest)
         == Complete(protocol, |EncodeMessage(protocol)|)
  {
    var buf, n := EncodeMessage(protocol) + rest, |protocol| + 1;
    var prefix := Varint.Encode(n);
    assert buf == prefix + (protocol + [NEWLINE] + rest);
    Varint.ReadEncoded(n, protocol + [NEWLINE] + rest);
    assert buf[|prefix|..|prefix| + n] == protocol + [NEWLINE];
  }

  lemma DecodePartial(protocol: Blob, k: nat)
    requires Sendable(protocol) && k < |EncodeMessage(protocol)|
    ensures DecodeMessage(EncodeMessage(protocol)[..k]).Incomplete?
  {
    var n := |protocol| + 1;
    var prefix := Varint.Encode(n);
    var buf := EncodeMessage(protocol)[..k];
    if k < |prefix| {
      assert buf == prefix[..k];
      Varint.ReadProperPrefix(n, k);
    } else {
      assert buf == prefix + buf[|prefix|..];
      Varint.ReadEncoded(n, buf[|prefix|..]);
    }
  }

  /** What a peer makes of an id that is empty or too long. */
  lemma DecodeUnsendable(protocol: Blob, rest: Blob)
    requires Utf8.IsText(protocol) && !Sendable(protocol)
    ensures DecodeMessage(EncodeMessage(protocol) + rest)
         == Failed(if protocol == [] then EmptyProtocol else MessageTooLong)
  {
    var buf, n := EncodeMessage(protocol) + rest, |protocol| + 1;
    var prefix := Varint.Encode(n);
    assert buf == prefix + (protocol + [NEWLINE] + rest);
    Varint.ReadEncoded(n, protocol + [NEWLINE] + rest);
    if protocol == [] {
      assert buf[|prefix|..|prefix| + n] == [NEWLINE];
    }
  }

  lemma AsciiSendable(s: Blob)
    requires 0 < |s| < MAX_MESSAGE_LEN && forall i :: 0 <= i < |s| ==> s[i] < 128
    ensures Sendable(s) && Utf8.IsText(s)
  {
    Utf8.AsciiValid(s);
  }

  lemma ConstantsSendable()
    ensures Sendable(HEADER) && Sendable(NOT_AVAILABLE)
    ensures Utf8.IsText(HEADER) && Utf8.IsText(NOT_AVAILABLE)
  {
    AsciiSendable(HEADER);
    AsciiSendable(NOT_AVAILABLE);
  }

  // ------------------------------------------------------------------- machine

  function HandleMessage(role: Role, state: State, line: Blob): (r: (State, seq<Output>))
    requires Fits(role, state)
    ensures Fits(role, r.0)
  {
    match state
    case WaitingForRemoteHeader =>
      if line != HEADER then (Done, [ProtocolError(UnexpectedHeader)])
      else if role.Dialer? then (WaitingForProtocolResponse, [OutboundData(EncodeMessage(role.desired))])
      else (WaitingForProtocolRequest, [])
    case WaitingForProtocolRequest =>
      if line in role.supported then (Done, [OutboundData(EncodeMessage(line)), Negotiated(line)])
      else (Done, [OutboundData(EncodeMessage(NOT_AVAILABLE)), NotAvailable])
    case WaitingForProtocolResponse =>
      if line == role.desired then (Done, [Negotiated(role.desired)])
      else if line == NOT_AVAILABLE then (Done, [NotAvailable])
      else (Done, [ProtocolError(UnexpectedProtocolResponse)])
    case Done => (Done, [])
  }

  datatype Progress = Progress(state: State, buf: Blob, outputs: seq<Output>)

  /** What the receive loop makes of a buffer. */
  function Process(role: Role, state: State, buf: Blob): (p: Progress)
    requires Fits(role, state)
    ensures Fits(role, p.state)
    decreases |buf|
  {
    if state.Done? then Progress(Done, buf, [])
    else
      match DecodeMessage(buf)
      case Incomplete => Progress(state, buf, [])
      case Failed(e) => Progress(Done, buf, [ProtocolError(e)])
      case Complete(payload, consumed) =>
        var (next, produced) := HandleMessage(role, state, payload);
        Prepend(produced, Process(role, next, buf[consumed..]))
  }

  /** Splitting the input anywhere changes neither the outputs nor the bytes left over. */
  lemma {:induction false} ProcessSplit(role: Role, state: State, buf: Blob, more: Blob)
    requires Fits(role, state)
    ensures Process(role, state, buf + more) == After(role, Process(role, state, buf), more)
    decreases |buf|
  {
    hide DecodeMessage, HandleMessage;
    if !state.Done? {
      match DecodeMessage(buf) {
        case Incomplete =>
        case Failed(_) => DecodeStable(buf, more);
        case Complete(payload, consumed) =>
          var (next, produced) := HandleMessage(role, state, payload);
          var rest := buf[consumed..];
          ProcessSplit(role, next, rest, more);
          assert Process(role, state, buf + more) == Prepend(produced, Process(role, next, rest + more)) by {
            DecodeStable(buf, more);
            assert (buf + more)[consumed..] == rest + more;
          }
          PrependAfter(role, produced, Process(role, next, rest), more);
      }
    }
  }

  /** The progress made when `more` arrives after `p`. */
  function After(role: Role, p: Progress, more: Blob): Progress
    requires Fits(role, p.state)
  {
    Prepend(p.outputs, Process(role, p.state, p.buf + more))
  }

  function Prepend(outputs: seq<Output>, p: Progress): Progress {
    p.(outputs := outputs + p.outputs)
  }

  lemma PrependAfter(role: Role, outputs: seq<Output>, p: Progress, more: Blob)
    requires Fits(role, p.state)
    ensures Prepend(outputs, After(role, p, more)) == After(role, Prepend(outputs, p), more)
  {
    var last := Process(role, p.state, p.buf + more).outputs;
    assert outputs + (p.outputs + last) == (outputs + p.outputs) + last;
  }

  /** The machine as a value. */
  datatype Select = Select(role: Role, state: State, recvBuf: Blob, started: bool, pending: seq<Output>) {
    ghost predicate Valid() { Fits(role, state) }
  }

  function New(role: Role): Select {
    Select(role, WaitingForRemoteHeader, [], false, [])
  }

  function Start(m: Select): Select {
    if m.started then m
    else m.(started := true, pending := m.pending + [OutboundData(EncodeMessage(HEADER))])
  }

  function Receive(m: Select, bytes: Blob): (r: Select)
    requires m.Valid()
    ensures r.Valid() && r.role == m.role && r.started == m.started
  {
    if m.state.Done? then m
    else
      var p := Process(m.role, m.state, m.recvBuf + bytes);
      m.(state := p.state, recvBuf := p.buf, pending := m.pending + p.outputs)
  }

  /** The stateful machine, each operation proved against its value-level counterpart. */
  class MultistreamSelect {
    const role: Role
    var state: State
    var recvBuf: Blob
    var started: bool
    var pendingOutputs: seq<Output>

    ghost function View(): Select
      reads this
    {
      Select(role, state, recvBuf, started, pendingOutputs)
    }

    ghost predicate Valid()
      reads this
    {
      View().Valid()
    }

    constructor (role: Role)
      ensures Valid() && View() == New(role)
    {
      this.role := role;
      state := WaitingForRemoteHeader;
      recvBuf, started, pendingOutputs := [], false, [];
    }

    method HandleStart()
      requires Valid()
      modifies this
      ensures Valid() && View() == Start(old(View()))
    {
      if started {
        return;
      }
      started := true;
      pendingOutputs := pendingOutputs + [OutboundData(EncodeMessage(HEADER))];
    }

    method HandleData(bytes: Blob)
      requires Valid()
      modifies this
      ensures Valid() && View() == Receive(old(View()), bytes)
    {
      if state.Done? {
        return;
      }
      recvBuf := recvBuf + bytes;
      var outputs := [];
      ghost var goal := Process(role, state, recvBuf);
      while !state.Done?
        invariant Fits(role, state)
        invariant Process(role, state, recvBuf).state == goal.state
        invariant Process(role, state, recvBuf).buf == goal.buf
        invariant outputs + Process(role, state, recvBuf).outputs == goal.outputs
        invariant started == old(started) && pendingOutputs == old(pendingOutputs)
        decreases |recvBuf|, !state.Done?
      {
        match DecodeMessage(recvBuf) {
          case Incomplete =>
            break;
          case Failed(e) =>
            state := Done;
            outputs := outputs + [ProtocolError(e)];
            break;
          case Complete(payload, consumed) =>
            var (next, produced) := HandleMessage(role, state, payload);
            recvBuf := recvBuf[consumed..];
            state := next;
            outputs := outputs + produced;
        }
      }
      pendingOutputs := pendingOutputs + outputs;
    }

    method PollOutput() returns (output: Option<Output>)
      requires Valid()
      modifies this
      ensures Valid()
      ensures old(pendingOutputs) == [] ==> output == None && View() == old(View())
      ensures old(pendingOutputs) != [] ==>
                && output == Some(old(pendingOutputs)[0])
                && View() == old(View()).(pending := old(pendingOutputs)[1..])
    {
      if pendingOutputs == [] {
        return None;
      }
      output := Some(pendingOutputs[0]);
      pendingOutputs := pendingOutputs[1..];
    }

    method TakeRemainingBuffer() returns (rest: Blob)
      requires Valid()
      modifies this
      ensures Valid() && rest == old(recvBuf) && View() == old(View()).(recvBuf := [])
    {
      rest := recvBuf;
      recvBuf := [];
    }
  }
}
