/** What one machine's outputs say about the bytes it was given, for any role, any remote and any
    chunking (crates/multistream-select/src/lib.rs:147-191). */
module MultistreamOutcome {
  import opened Bytes
  import opened Multistream
  import MultistreamAgreement

  /** Nothing but bytes for the remote. */
  predicate Talk(outputs: seq<Output>) {
    forall i :: 0 <= i < |outputs| ==> outputs[i].OutboundData?
  }

  /** The bytes a machine has consumed when it is in a state. */
  function Consumed(state: State): Blob {
    if state.WaitingForRemoteHeader? then [] else EncodeMessage(HEADER)
  }

  /** A machine that is not done has only talked; one that is done talked and then gave one verdict,
      and a success names the id whose handshake it was given. */
  ghost predicate Outcome(role: Role, given: Blob, p: Progress) {
    if !p.state.Done? then Talk(p.outputs) && given == Consumed(p.state) + p.buf
    else
      && p.outputs != []
      && Talk(p.outputs[..|p.outputs| - 1])
      && var verdict := p.outputs[|p.outputs| - 1];
         && !verdict.OutboundData?
         && (verdict.Negotiated? ==>
               && Sendable(verdict.protocol)
               && given == MultistreamAgreement.Script(verdict.protocol) + p.buf
               && (role.Dialer? ==> verdict.protocol == role.desired)
               && (role.Listener? ==> verdict.protocol in role.supported))
  }

  lemma OutcomePrepend(role: Role, given: Blob, talk: seq<Output>, p: Progress)
    requires Talk(talk) && Outcome(role, given, p)
    ensures Outcome(role, given, Prepend(talk, p))
  {
    hide EncodeMessage, Sendable;
    if p.state.Done? {
      var whole := talk + p.outputs;
      assert whole[..|whole| - 1] == talk + p.outputs[..|p.outputs| - 1];
    }
  }

  /** The second message settles the matter. */
  lemma SettlesOutcome(role: Role, state: State, line: Blob, rest: Blob)
    requires Fits(role, state) && !state.Done? && !state.WaitingForRemoteHeader? && Sendable(line)
    ensures var (next, produced) := HandleMessage(role, state, line);
            && next == Done
            && Outcome(role, EncodeMessage(HEADER) + (EncodeMessage(line) + rest), Progress(Done, rest, produced))
  {
    hide EncodeMessage, Sendable;
    assert EncodeMessage(HEADER) + (EncodeMessage(line) + rest) == MultistreamAgreement.Script(line) + rest;
  }

  lemma {:induction false} ProcessOutcome(role: Role, state: State, buf: Blob)
    requires Fits(role, state) && !state.Done?
    ensures Outcome(role, Consumed(state) + buf, Process(role, state, buf))
    decreases |buf|
  {
    hide EncodeMessage, DecodeMessage, Sendable;
    match DecodeMessage(buf) {
      case Incomplete =>
      case Failed(_) =>
      case Complete(line, consumed) =>
        DecodeBounds(buf);
        DecodeCanonical(buf);
        var rest := buf[consumed..];
        var (next, produced) := HandleMessage(role, state, line);
        assert buf == EncodeMessage(line) + rest;
        if !state.WaitingForRemoteHeader? {
          SettlesOutcome(role, state, line, rest);
          assert produced + [] == produced;
        } else if line == HEADER {
          ProcessOutcome(role, next, rest);
          OutcomePrepend(role, Consumed(next) + rest, produced, Process(role, next, rest));
          assert Consumed(state) + buf == EncodeMessage(HEADER) + rest;
        } else {
          assert produced + [] == produced;
        }
    }
  }

  lemma DecodeBounds(buf: Blob)
    requires DecodeMessage(buf).Complete?
    ensures 0 < DecodeMessage(buf).consumed <= |buf|
  {
  }

  // ------------------------------------------------------------ machines in mid-handshake

  /** A started machine that is still negotiating and has been given exactly `got`, however it was
      cut up. */
  ghost predicate Tracked(m: Select, got: Blob) {
    var p := Process(m.role, WaitingForRemoteHeader, got);
    m.Valid() && m.pending == [] && !m.state.Done? && m.state == p.state && m.recvBuf == p.buf
  }

  lemma OpenedTracked(role: Role)
    ensures Tracked(Start(New(role)).(pending := []), [])
  {
  }

  /** More bytes: either still negotiating on everything given, or done with one verdict on it. */
  lemma ReceiveTracked(m: Select, got: Blob, data: Blob)
    requires Tracked(m, got)
    ensures var n := Receive(m, data);
            && n.Valid() && n.role == m.role
            && Outcome(m.role, got + data, Progress(n.state, n.recvBuf, n.pending))
            && (!n.state.Done? ==> Tracked(n.(pending := []), got + data))
  {
    hide Process, EncodeMessage, DecodeMessage, Sendable, Outcome;
    var n := Receive(m, data);
    var all := Process(m.role, WaitingForRemoteHeader, got);
    ProcessSplit(m.role, WaitingForRemoteHeader, got, data);
    ProcessOutcome(m.role, m.state, m.recvBuf + data);
    ProcessOutcome(m.role, WaitingForRemoteHeader, got);
    TrackedBytes(m.role, got, all);
    assert Consumed(m.state) + (m.recvBuf + data) == got + data;
    var q := Process(m.role, m.state, m.recvBuf + data);
    assert m.pending + q.outputs == q.outputs;
    assert Progress(n.state, n.recvBuf, n.pending) == q;
  }

  lemma TrackedBytes(role: Role, got: Blob, p: Progress)
    requires Outcome(role, [] + got, p) && !p.state.Done?
    ensures got == Consumed(p.state) + p.buf
  {
    hide EncodeMessage;
    assert [] + got == got;
  }

  /** A machine still negotiating has not been given any complete handshake. */
  lemma TrackedUnfinished(m: Select, got: Blob, line: Blob)
    requires Tracked(m, got) && Sendable(line)
    ensures !(MultistreamAgreement.Script(line) <= got)
  {
    hide Process, EncodeMessage, DecodeMessage, Sendable;
    if MultistreamAgreement.Script(line) <= got {
      var extra := got[|MultistreamAgreement.Script(line)|..];
      assert got == MultistreamAgreement.Script(line) + extra;
      MultistreamAgreement.ScriptWhole(m.role, line, extra);
    }
  }

  /** A machine given a complete handshake, whatever the chunking, reaches the verdict on its id and
      leaves what follows the handshake untouched. */
  lemma ReceiveCompletes(m: Select, got: Blob, data: Blob, line: Blob, rest: Blob)
    requires Tracked(m, got) && Sendable(line) && got + data == MultistreamAgreement.Script(line) + rest
    ensures var n := Receive(m, data);
            && n.state.Done? && n.recvBuf == rest && n.pending != []
            && n.pending[|n.pending| - 1] ==
               var answer := MultistreamAgreement.Answered(m.role, line).1;
               answer[|answer| - 1]
  {
    hide Process, EncodeMessage, DecodeMessage, Sendable, Outcome, MultistreamAgreement.Script;
    hide MultistreamAgreement.Greeted;
    var q := Process(m.role, m.state, m.recvBuf + data);
    ProcessSplit(m.role, WaitingForRemoteHeader, got, data);
    MultistreamAgreement.ScriptWhole(m.role, line, rest);
    ProcessOutcome(m.role, m.state, m.recvBuf + data);
    assert q.outputs != [] by { OutcomeSpoken(m.role, Consumed(m.state) + (m.recvBuf + data), q); }
    AnswerSpoken(m.role, line);
    var talk := Process(m.role, WaitingForRemoteHeader, got).outputs;
    var whole := talk + q.outputs;
    var answer := MultistreamAgreement.Answered(m.role, line).1;
    assert whole == MultistreamAgreement.Greeted(m.role).1 + answer;
    assert whole[|whole| - 1] == q.outputs[|q.outputs| - 1] && whole[|whole| - 1] == answer[|answer| - 1];
    assert m.pending + q.outputs == q.outputs;
  }

  lemma OutcomeSpoken(role: Role, given: Blob, p: Progress)
    requires Outcome(role, given, p) && p.state.Done?
    ensures p.outputs != []
  {
  }

  lemma AnswerSpoken(role: Role, line: Blob)
    ensures MultistreamAgreement.Answered(role, line).1 != []
  {
    hide EncodeMessage;
  }
}
