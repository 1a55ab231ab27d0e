/** What one multistream machine makes of whatever it receives (crates/multistream-select/src/lib.rs:152-285,
    319-364): the first two messages of the remote decide everything, and each failure has its own reason.
    Since a machine's state depends on all bytes together (`MultistreamOutcome.ReceiveTracked`), this holds
    for every chunking. */
module MultistreamVerdicts {
  import opened Bytes
  import opened Multistream
  import Utf8
  import Varint

  /** The body a length prefix announces, when all of it is here. */
  function Body(buf: Blob): Option<Blob> {
    var r := Varint.Read(buf);
    if r.Ok? && r.value.0 <= 1024 && r.value.1 + r.value.0 <= |buf|
    then Some(buf[r.value.1..r.value.1 + r.value.0]) else None
  }

  /** Why bytes are no message, exactly. */
  lemma FailuresIff(buf: Blob, cause: Varint.Error)
    ensures var d, r, body := DecodeMessage(buf), Varint.Read(buf), Body(buf);
            && (d == Failed(InvalidVarint(cause)) <==> buf != [] && r == Err(cause) && cause != Varint.BufferTooShort)
            && (d == Failed(MessageTooLong) <==> r.Ok? && r.value.0 > 1024)
            && (d == Failed(MissingNewline) <==> body.Some? && (body.value == [] || body.value[|body.value| - 1] != 10))
            && (d == Failed(EmptyProtocol) <==> body == Some([10]))
            && (d == Failed(NonUtf8) <==>
                  body.Some? && |body.value| > 0 && body.value[|body.value| - 1] == 10
                  && !Utf8.Valid(body.value[..|body.value| - 1]))
            && (d.Complete? ==> body == Some(d.payload + [10]))
            && (d.Failed? ==> !d.error.UnexpectedHeader? && !d.error.UnexpectedProtocolResponse?)
  {
    hide Utf8.Valid;
    var r := Varint.Read(buf);
    if buf == [] {
      Varint.ReadShort(buf);
    }
    assert Utf8.Valid([]) by { EmptyValid(); }
    var body := Body(buf);
    if body.Some? && |body.value| > 0 {
      var msg := body.value;
      assert msg == msg[..|msg| - 1] + [msg[|msg| - 1]];
    }
  }

  lemma EmptyValid()
    ensures Utf8.Valid([])
  {
  }

  /** What a remote's second message leads to. */
  function Answer(role: Role, line: Blob): seq<Output> {
    if role.Listener? then
      if line in role.supported then [OutboundData(EncodeMessage(line)), Negotiated(line)]
      else [OutboundData(EncodeMessage(NOT_AVAILABLE)), NotAvailable]
    else if line == role.desired then [Negotiated(line)]
    else if line == NOT_AVAILABLE then [NotAvailable]
    else [ProtocolError(UnexpectedProtocolResponse)]
  }

  /** A dialer proposes as soon as it has the remote's header. */
  function Proposal(role: Role): seq<Output> {
    if role.Dialer? then [OutboundData(EncodeMessage(role.desired))] else []
  }

  /** Everything a machine says and decides, from all the bytes it has been given. */
  lemma VerdictIs(role: Role, got: Blob)
    ensures var p, first := Process(role, WaitingForRemoteHeader, got), DecodeMessage(got);
            if first.Incomplete? then p.outputs == [] && !p.state.Done?
            else if first.Failed? then p.outputs == [ProtocolError(first.error)] && p.state.Done?
            else if first.payload != HEADER then p.outputs == [ProtocolError(UnexpectedHeader)] && p.state.Done?
            else
              var rest := got[first.consumed..];
              var second := DecodeMessage(rest);
              if second.Incomplete? then p.outputs == Proposal(role) && !p.state.Done?
              else if second.Failed? then
                p.outputs == Proposal(role) + [ProtocolError(second.error)] && p.state.Done?
              else
                && p.outputs == Proposal(role) + Answer(role, second.payload) && p.state.Done?
                && p.buf == rest[second.consumed..]
  {
    hide DecodeMessage, EncodeMessage;
    var first := DecodeMessage(got);
    if first.Complete? {
      DecodeBounds(got);
      var rest := got[first.consumed..];
      if first.payload == HEADER {
        SecondIs(role, rest);
      } else {
        assert [ProtocolError(UnexpectedHeader)] + [] == [ProtocolError(UnexpectedHeader)];
      }
    }
  }

  /** The machine once it has the remote's header. */
  lemma SecondIs(role: Role, rest: Blob)
    ensures var state := if role.Dialer? then WaitingForProtocolResponse else WaitingForProtocolRequest;
            var p, second := Process(role, state, rest), DecodeMessage(rest);
            if second.Incomplete? then p.outputs == [] && !p.state.Done?
            else if second.Failed? then p.outputs == [ProtocolError(second.error)] && p.state.Done?
            else p.outputs == Answer(role, second.payload) && p.state.Done? && p.buf == rest[second.consumed..]
  {
    hide DecodeMessage, EncodeMessage;
    var second := DecodeMessage(rest);
    if second.Complete? {
      DecodeBounds(rest);
      assert Answer(role, second.payload) + [] == Answer(role, second.payload);
    }
  }

  lemma DecodeBounds(buf: Blob)
    requires DecodeMessage(buf).Complete?
    ensures 0 < DecodeMessage(buf).consumed <= |buf|
  {
  }
}
