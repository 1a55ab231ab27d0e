/** A dialer and a listener joined by two FIFO byte pipes, under every interleaving of polls and
    every fragmentation of deliveries (crates/multistream-select/src/lib.rs:120-364). Both machines
    are started when they are created, as crates/swarm/src/core.rs:546-566 and 943-963 do. */
module MultistreamAgreement {
  import opened Bytes
  import opened Multistream
  import Utf8

  /** The network: both machines, the bytes in flight, and for each side what it has received
      and what it has handed out so far. */
  datatype Net = Net(
    dialer: Select, listener: Select,
    toDialer: Blob, toListener: Blob,
    dialerGot: Blob, listenerGot: Blob,
    dialerOut: seq<Output>, listenerOut: seq<Output>)

  datatype Step =
    | DialerPolls
    | ListenerPolls
    | DeliverToDialer(n: nat)
    | DeliverToListener(n: nat)

  function Init(desired: Blob, supported: set<Blob>): Net {
    Net(Start(New(Dialer(desired))), Start(New(Listener(supported))), [], [], [], [], [], [])
  }

  function Wire(output: Output): Blob {
    if output.OutboundData? then output.bytes else []
  }

  function Sent(outputs: seq<Output>): Blob {
    if outputs == [] then [] else Wire(outputs[0]) + Sent(outputs[1..])
  }

  ghost predicate Valid(net: Net) {
    net.dialer.Valid() && net.listener.Valid()
  }

  /** One step; a poll of an idle machine or a delivery of more than is in flight does nothing. */
  function Next(net: Net, step: Step): (r: Net)
    requires Valid(net)
    ensures Valid(r)
  {
    match step
    case DialerPolls =>
      if net.dialer.pending == [] then net
      else
        var output := net.dialer.pending[0];
        net.(dialer := net.dialer.(pending := net.dialer.pending[1..]),
             toListener := net.toListener + Wire(output),
             dialerOut := net.dialerOut + [output])
    case ListenerPolls =>
      if net.listener.pending == [] then net
      else
        var output := net.listener.pending[0];
        net.(listener := net.listener.(pending := net.listener.pending[1..]),
             toDialer := net.toDialer + Wire(output),
             listenerOut := net.listenerOut + [output])
    case DeliverToDialer(n) =>
      if n > |net.toDialer| then net
      else
        net.(dialer := Receive(net.dialer, net.toDialer[..n]),
             dialerGot := net.dialerGot + net.toDialer[..n],
             toDialer := net.toDialer[n..])
    case DeliverToListener(n) =>
      if n > |net.toListener| then net
      else
        net.(listener := Receive(net.listener, net.toListener[..n]),
             listenerGot := net.listenerGot + net.toListener[..n],
             toListener := net.toListener[n..])
  }

  function Run(net: Net, steps: seq<Step>): (r: Net)
    requires Valid(net)
    ensures Valid(r)
    decreases |steps|
  {
    if steps == [] then net else Run(Next(net, steps[0]), steps[1..])
  }

  // ------------------------------------------------------------- what is promised

  predicate Terminal(output: Output) {
    !output.OutboundData?
  }

  function Terminals(outputs: seq<Output>): seq<Output> {
    if outputs == [] then []
    else (if Terminal(outputs[0]) then [outputs[0]] else []) + Terminals(outputs[1..])
  }

  /** Every verdict a side has reached, handed out or still queued. */
  function DialerVerdicts(net: Net): seq<Output> {
    Terminals(net.dialerOut + net.dialer.pending)
  }

  function ListenerVerdicts(net: Net): seq<Output> {
    Terminals(net.listenerOut + net.listener.pending)
  }

  function Verdict(desired: Blob, supported: set<Blob>): Output {
    if desired in supported then Negotiated(desired) else NotAvailable
  }

  /** At most one verdict a side, always the right one, and the dialer's only after the listener's. */
  predicate Agrees(net: Net, desired: Blob, supported: set<Blob>) {
    var verdict := [Verdict(desired, supported)];
    && (DialerVerdicts(net) == [] || DialerVerdicts(net) == verdict)
    && (ListenerVerdicts(net) == [] || ListenerVerdicts(net) == verdict)
    && (DialerVerdicts(net) != [] ==> ListenerVerdicts(net) != [])
    && (net.dialer.state.Done? <==> DialerVerdicts(net) != [])
    && (net.listener.state.Done? <==> ListenerVerdicts(net) != [])
  }

  /** Nothing in flight and nothing queued. */
  predicate Quiet(net: Net) {
    net.toDialer == [] && net.toListener == [] && net.dialer.pending == [] && net.listener.pending == []
  }

  /** The ids agreement holds for: not empty, at most 1023 bytes, and not the literal `na` unless
      the listener supports a protocol of that name. */
  predicate Negotiable(desired: Blob, supported: set<Blob>) {
    0 < |desired| < MAX_MESSAGE_LEN && (desired == NOT_AVAILABLE ==> desired in supported)
  }

  // ------------------------------------------------------------------ invariant

  function Reply(desired: Blob, supported: set<Blob>): Blob {
    if desired in supported then desired else NOT_AVAILABLE
  }

  /** A started machine that has received `got` and handed out `out`. */
  ghost predicate Tracks(m: Select, role: Role, got: Blob, out: seq<Output>) {
    var p := Process(role, WaitingForRemoteHeader, got);
    && m.role == role
    && m.state == p.state
    && (!p.state.Done? ==> m.recvBuf == p.buf)
    && out + m.pending == [OutboundData(EncodeMessage(HEADER))] + p.outputs
  }

  function Script(second: Blob): Blob {
    EncodeMessage(HEADER) + EncodeMessage(second)
  }

  ghost predicate Inv(net: Net, desired: Blob, supported: set<Blob>) {
    && Tracks(net.dialer, Dialer(desired), net.dialerGot, net.dialerOut)
    && Tracks(net.listener, Listener(supported), net.listenerGot, net.listenerOut)
    && net.listenerGot + net.toListener == Sent(net.dialerOut)
    && net.dialerGot + net.toDialer == Sent(net.listenerOut)
    && net.listenerGot <= Script(desired)
    && net.dialerGot <= Script(Reply(desired, supported))
  }

  lemma {:induction false} SentAppend(a: seq<Output>, b: seq<Output>)
    ensures Sent(a + b) == Sent(a) + Sent(b)
  {
    hide Wire;
    if a == [] {
      assert a + b == b;
    } else {
      SentAppend(a[1..], b);
      assert (a + b)[1..] == a[1..] + b;
      var head := Wire(a[0]);
      assert head + (Sent(a[1..]) + Sent(b)) == (head + Sent(a[1..])) + Sent(b);
    }
  }

  lemma {:induction false} TerminalsAppend(a: seq<Output>, b: seq<Output>)
    ensures Terminals(a + b) == Terminals(a) + Terminals(b)
  {
    if a == [] {
      assert a + b == b;
    } else {
      TerminalsAppend(a[1..], b);
      assert (a + b)[1..] == a[1..] + b;
      var head := (if Terminal(a[0]) then [a[0]] else []);
      assert head + (Terminals(a[1..]) + Terminals(b)) == (head + Terminals(a[1..])) + Terminals(b);
    }
  }

  lemma ProcessDone(role: Role, buf: Blob)
    ensures Process(role, Done, buf) == Progress(Done, buf, [])
  {
  }

  lemma TracksReceive(m: Select, role: Role, got: Blob, out: seq<Output>, bytes: Blob)
    requires m.Valid() && Tracks(m, role, got, out)
    ensures Tracks(Receive(m, bytes), role, got + bytes, out)
  {
    hide Process, DecodeMessage, EncodeMessage;
    ProcessDone(role, Process(role, WaitingForRemoteHeader, got).buf + bytes);
    ProcessSplit(role, WaitingForRemoteHeader, got, bytes);
    var p := Process(role, WaitingForRemoteHeader, got);
    var q := Process(role, p.state, p.buf + bytes);
    var hello := [OutboundData(EncodeMessage(HEADER))];
    assert p.outputs + [] == p.outputs;
    assert out + (m.pending + q.outputs) == (out + m.pending) + q.outputs == hello + (p.outputs + q.outputs);
  }

  lemma TracksPoll(m: Select, role: Role, got: Blob, out: seq<Output>)
    requires m.Valid() && Tracks(m, role, got, out) && m.pending != []
    ensures Tracks(m.(pending := m.pending[1..]), role, got, out + [m.pending[0]])
  {
    assert (out + [m.pending[0]]) + m.pending[1..] == out + m.pending;
  }

  lemma ProcessMessage(role: Role, state: State, line: Blob, rest: Blob)
    requires Fits(role, state) && !state.Done? && Sendable(line)
    ensures var (next, produced) := HandleMessage(role, state, line);
            Process(role, state, EncodeMessage(line) + rest) == Prepend(produced, Process(role, next, rest))
  {
    hide EncodeMessage, DecodeMessage;
    DecodeEncoded(line, rest);
    assert (EncodeMessage(line) + rest)[|EncodeMessage(line)|..] == rest;
  }

  lemma ProcessPartial(role: Role, state: State, line: Blob, k: nat)
    requires Fits(role, state) && Sendable(line) && k < |EncodeMessage(line)|
    ensures Process(role, state, EncodeMessage(line)[..k]) == Progress(state, EncodeMessage(line)[..k], [])
  {
    hide EncodeMessage, DecodeMessage;
    DecodePartial(line, k);
  }

  /** The reaction to the header, and then to the message after it. */
  function Greeted(role: Role): (State, seq<Output>) {
    HandleMessage(role, WaitingForRemoteHeader, HEADER)
  }

  function Answered(role: Role, second: Blob): (State, seq<Output>) {
    HandleMessage(role, Greeted(role).0, second)
  }

  lemma Reactions(desired: Blob, supported: set<Blob>, line: Blob)
    ensures Greeted(Dialer(desired)) == (WaitingForProtocolResponse, [OutboundData(EncodeMessage(desired))])
    ensures Greeted(Listener(supported)) == (WaitingForProtocolRequest, [])
    ensures !Greeted(Dialer(desired)).0.Done? && !Greeted(Listener(supported)).0.Done?
    ensures Answered(Dialer(desired), line).0.Done? && Answered(Listener(supported), line).0.Done?
    ensures Answered(Dialer(desired), line).1 ==
            [if line == desired then Negotiated(desired)
             else if line == NOT_AVAILABLE then NotAvailable
             else ProtocolError(UnexpectedProtocolResponse)]
    ensures Answered(Listener(supported), line).1 ==
            if line in supported then [OutboundData(EncodeMessage(line)), Negotiated(line)]
            else [OutboundData(EncodeMessage(NOT_AVAILABLE)), NotAvailable]
  {
    hide EncodeMessage;
  }

  lemma ReactionsOf(role: Role, line: Blob)
    ensures Fits(role, Greeted(role).0) && !Greeted(role).0.Done? && Answered(role, line).0.Done?
  {
    hide EncodeMessage;
  }

  /** A script received only within its first message changes nothing. */
  lemma ScriptStart(role: Role, second: Blob, got: Blob)
    requires got <= Script(second) && |got| < |EncodeMessage(HEADER)|
    ensures Process(role, WaitingForRemoteHeader, got) == Progress(WaitingForRemoteHeader, got, [])
  {
    hide Process, DecodeMessage, EncodeMessage, Sendable;
    ConstantsSendable();
    assert got == EncodeMessage(HEADER)[..|got|];
    ProcessPartial(role, WaitingForRemoteHeader, HEADER, |got|);
  }

  lemma GreetedStep(role: Role, rest: Blob)
    ensures Process(role, WaitingForRemoteHeader, EncodeMessage(HEADER) + rest)
         == Prepend(Greeted(role).1, Process(role, Greeted(role).0, rest))
  {
    hide Process, DecodeMessage, EncodeMessage, Sendable, HandleMessage;
    ConstantsSendable();
    ProcessMessage(role, WaitingForRemoteHeader, HEADER, rest);
  }

  /** A script received up to somewhere within its second message has the header handled. */
  lemma ScriptMiddle(role: Role, second: Blob, got: Blob)
    requires Sendable(second) && got <= Script(second)
    requires |EncodeMessage(HEADER)| <= |got| < |Script(second)|
    ensures Process(role, WaitingForRemoteHeader, got)
         == Progress(Greeted(role).0, got[|EncodeMessage(HEADER)|..], Greeted(role).1)
  {
    hide Process, DecodeMessage, EncodeMessage, Sendable, Greeted;
    ReactionsOf(role, second);
    var rest := got[|EncodeMessage(HEADER)|..];
    assert got == EncodeMessage(HEADER) + rest;
    GreetedStep(role, rest);
    assert rest == EncodeMessage(second)[..|rest|];
    ProcessPartial(role, Greeted(role).0, second, |rest|);
    assert Greeted(role).1 + [] == Greeted(role).1;
  }

  /** A whole script has both messages handled, and whatever follows it is left in the buffer. */
  lemma ScriptWhole(role: Role, second: Blob, extra: Blob)
    requires Sendable(second)
    ensures Process(role, WaitingForRemoteHeader, Script(second) + extra)
         == Progress(Done, extra, Greeted(role).1 + Answered(role, second).1)
  {
    hide Process, DecodeMessage, EncodeMessage, Sendable, Greeted, HandleMessage;
    ReactionsOf(role, second);
    var rest := EncodeMessage(second) + extra;
    assert Script(second) + extra == EncodeMessage(HEADER) + rest;
    GreetedStep(role, rest);
    ProcessMessage(role, Greeted(role).0, second, extra);
    ProcessDone(role, extra);
    assert Answered(role, second).1 + [] == Answered(role, second).1;
  }

  /** What a side has put out after receiving part of the script meant for it. */
  lemma ScriptOutputs(role: Role, second: Blob, got: Blob)
    requires Sendable(second) && got <= Script(second)
    ensures var p := Process(role, WaitingForRemoteHeader, got);
            if got == Script(second) then p.state == Done && p.outputs == Greeted(role).1 + Answered(role, second).1
            else !p.state.Done? && p.outputs == (if |got| < |EncodeMessage(HEADER)| then [] else Greeted(role).1)
  {
    hide Process, DecodeMessage, EncodeMessage, Sendable, Greeted, Answered;
    ReactionsOf(role, second);
    if |got| < |EncodeMessage(HEADER)| {
      ScriptStart(role, second, got);
    } else if |got| < |Script(second)| {
      ScriptMiddle(role, second, got);
    } else {
      assert got == Script(second) + [];
      ScriptWhole(role, second, []);
    }
  }

  /** The dialer says nothing but its request, the listener nothing but its reply. */
  lemma DialerSpeech(desired: Blob, second: Blob, got: Blob)
    requires Sendable(second) && got <= Script(second)
    ensures Sent(Process(Dialer(desired), WaitingForRemoteHeader, got).outputs)
         == if |got| < |EncodeMessage(HEADER)| then [] else EncodeMessage(desired)
  {
    hide Process, DecodeMessage, EncodeMessage, Sendable, Greeted, Answered;
    ScriptOutputs(Dialer(desired), second, got);
    Reactions(desired, {}, second);
    var ask, last := Greeted(Dialer(desired)).1, Answered(Dialer(desired), second).1;
    assert Sent(ask) == EncodeMessage(desired) + [];
    assert Sent(last) == [];
    SentAppend(ask, last);
  }

  lemma ListenerSpeech(supported: set<Blob>, desired: Blob, got: Blob)
    requires Sendable(desired) && got <= Script(desired)
    ensures Sent(Process(Listener(supported), WaitingForRemoteHeader, got).outputs)
         == if got == Script(desired) then EncodeMessage(Reply(desired, supported)) else []
  {
    hide Process, DecodeMessage, EncodeMessage, Sendable, Greeted, Answered;
    ScriptOutputs(Listener(supported), desired, got);
    Reactions(desired, supported, desired);
    var last := Answered(Listener(supported), desired).1;
    assert last[1..] == [last[1]];
    assert Sent(last[1..]) == Wire(last[1]) + [];
    assert Sent(last) == EncodeMessage(Reply(desired, supported)) + [];
    assert [] + last == last;
  }

  /** Everything a tracked machine has sent or still has queued for sending. */
  lemma TrackedSpeech(m: Select, role: Role, got: Blob, out: seq<Output>)
    requires Tracks(m, role, got, out)
    ensures Sent(out) + Sent(m.pending)
         == EncodeMessage(HEADER) + Sent(Process(role, WaitingForRemoteHeader, got).outputs)
  {
    hide Process, DecodeMessage, EncodeMessage;
    var hello := [OutboundData(EncodeMessage(HEADER))];
    SentAppend(out, m.pending);
    SentAppend(hello, Process(role, WaitingForRemoteHeader, got).outputs);
    assert Sent(hello) == EncodeMessage(HEADER) + [];
  }

  lemma InvInit(desired: Blob, supported: set<Blob>)
    ensures Inv(Init(desired, supported), desired, supported)
  {
  }

  lemma SentMore(got: Blob, flying: Blob, out: seq<Output>, o: Output)
    requires got + flying == Sent(out)
    ensures got + (flying + Wire(o)) == Sent(out + [o])
  {
    hide Wire;
    SentAppend(out, [o]);
    assert [o][1..] == [];
    assert Sent([o]) == Wire(o) + [] == Wire(o);
    assert got + (flying + Wire(o)) == (got + flying) + Wire(o);
  }

  lemma InvPoll(net: Net, desired: Blob, supported: set<Blob>, step: Step)
    requires Valid(net) && Inv(net, desired, supported) && (step.DialerPolls? || step.ListenerPolls?)
    ensures Inv(Next(net, step), desired, supported)
  {
    hide Process, Tracks, Sent, Script, Wire;
    if step.DialerPolls? && net.dialer.pending != [] {
      TracksPoll(net.dialer, Dialer(desired), net.dialerGot, net.dialerOut);
      SentMore(net.listenerGot, net.toListener, net.dialerOut, net.dialer.pending[0]);
    } else if step.ListenerPolls? && net.listener.pending != [] {
      TracksPoll(net.listener, Listener(supported), net.listenerGot, net.listenerOut);
      SentMore(net.dialerGot, net.toDialer, net.listenerOut, net.listener.pending[0]);
    }
  }

  lemma PrefixOfScript(out: Blob, queued: Blob, hello: Blob, speech: Blob, line: Blob)
    requires out + queued == hello + speech && (speech == [] || speech == line)
    ensures out <= hello + line
  {
    assert out == (hello + speech)[..|out|];
  }

  lemma DialerSaid(m: Select, got: Blob, out: seq<Output>, desired: Blob, reply: Blob)
    requires Tracks(m, Dialer(desired), got, out) && got <= Script(reply) && Sendable(desired) && Sendable(reply)
    ensures Sent(out) <= Script(desired)
  {
    hide Process, DecodeMessage, EncodeMessage, Sendable, Tracks, Sent;
    DialerSpeech(desired, reply, got);
    TrackedSpeech(m, Dialer(desired), got, out);
    PrefixOfScript(Sent(out), Sent(m.pending), EncodeMessage(HEADER),
                   Sent(Process(Dialer(desired), WaitingForRemoteHeader, got).outputs), EncodeMessage(desired));
  }

  lemma ListenerSaid(m: Select, got: Blob, out: seq<Output>, supported: set<Blob>, desired: Blob)
    requires Tracks(m, Listener(supported), got, out) && got <= Script(desired) && Sendable(desired)
    ensures Sent(out) <= Script(Reply(desired, supported))
  {
    hide Process, DecodeMessage, EncodeMessage, Sendable, Tracks, Sent;
    ListenerSpeech(supported, desired, got);
    TrackedSpeech(m, Listener(supported), got, out);
    PrefixOfScript(Sent(out), Sent(m.pending), EncodeMessage(HEADER),
                   Sent(Process(Listener(supported), WaitingForRemoteHeader, got).outputs),
                   EncodeMessage(Reply(desired, supported)));
  }

  /** Bytes in flight continue the script of the side they travel to. */
  lemma InFlight(net: Net, desired: Blob, supported: set<Blob>)
    requires Sendable(desired) && Inv(net, desired, supported)
    ensures net.dialerGot + net.toDialer <= Script(Reply(desired, supported))
    ensures net.listenerGot + net.toListener <= Script(desired)
  {
    hide Script, Sendable, Tracks, Sent;
    ConstantsSendable();
    DialerSaid(net.dialer, net.dialerGot, net.dialerOut, desired, Reply(desired, supported));
    ListenerSaid(net.listener, net.listenerGot, net.listenerOut, supported, desired);
  }

  lemma InvDeliver(net: Net, desired: Blob, supported: set<Blob>, step: Step)
    requires Sendable(desired) && Valid(net) && Inv(net, desired, supported)
    requires step.DeliverToDialer? || step.DeliverToListener?
    ensures Inv(Next(net, step), desired, supported)
  {
    hide Process, DecodeMessage, EncodeMessage, Sendable, Tracks;
    InFlight(net, desired, supported);
    if step.DeliverToDialer? && step.n <= |net.toDialer| {
      var (now, later) := (net.toDialer[..step.n], net.toDialer[step.n..]);
      TracksReceive(net.dialer, Dialer(desired), net.dialerGot, net.dialerOut, now);
      assert net.dialerGot + net.toDialer == (net.dialerGot + now) + later;
    } else if step.DeliverToListener? && step.n <= |net.toListener| {
      var (now, later) := (net.toListener[..step.n], net.toListener[step.n..]);
      TracksReceive(net.listener, Listener(supported), net.listenerGot, net.listenerOut, now);
      assert net.listenerGot + net.toListener == (net.listenerGot + now) + later;
    }
  }

  lemma {:induction false} InvRun(net: Net, desired: Blob, supported: set<Blob>, steps: seq<Step>)
    requires Sendable(desired) && Valid(net) && Inv(net, desired, supported)
    ensures Inv(Run(net, steps), desired, supported)
    decreases |steps|
  {
    hide Inv;
    if steps != [] {
      if steps[0].DialerPolls? || steps[0].ListenerPolls? {
        InvPoll(net, desired, supported, steps[0]);
      } else {
        InvDeliver(net, desired, supported, steps[0]);
      }
      InvRun(Next(net, steps[0]), desired, supported, steps[1..]);
    }
  }

  // -------------------------------------------------------------------- theorems

  /** The verdicts a tracked side has reached are those of the script received so far. */
  lemma TrackedVerdicts(m: Select, role: Role, second: Blob, got: Blob, out: seq<Output>)
    requires Sendable(second) && got <= Script(second) && Tracks(m, role, got, out)
    ensures Terminals(out + m.pending) == if got == Script(second) then Terminals(Answered(role, second).1) else []
    ensures m.state.Done? <==> got == Script(second)
  {
    hide Process, DecodeMessage, EncodeMessage, Sendable, Greeted, Answered;
    ScriptOutputs(role, second, got);
    var hello := [OutboundData(EncodeMessage(HEADER))];
    TerminalsAppend(hello, Process(role, WaitingForRemoteHeader, got).outputs);
    TerminalsAppend(Greeted(role).1, Answered(role, second).1);
    assert Terminals(Greeted(role).1) == [] by {
      if role.Dialer? { Reactions(role.desired, {}, []); } else { Reactions([], role.supported, []); }
    }
  }

  lemma AnsweredVerdict(desired: Blob, supported: set<Blob>)
    requires Negotiable(desired, supported)
    ensures Terminals(Answered(Dialer(desired), Reply(desired, supported)).1) == [Verdict(desired, supported)]
    ensures Terminals(Answered(Listener(supported), desired).1) == [Verdict(desired, supported)]
  {
    hide EncodeMessage, Greeted, Answered;
    Reactions(desired, supported, desired);
    Reactions(desired, supported, Reply(desired, supported));
    var last := Answered(Listener(supported), desired).1;
    assert last[1..] == [last[1]];
  }

  /** A reply that reached the dialer was sent, so the listener had the whole request; and when
      everything has drained, both have everything. */
  lemma Replies(net: Net, desired: Blob, supported: set<Blob>)
    requires Sendable(desired) && Inv(net, desired, supported)
    ensures net.dialerGot == Script(Reply(desired, supported)) ==> net.listenerGot == Script(desired)
    ensures Quiet(net) ==> net.dialerGot == Script(Reply(desired, supported)) && net.listenerGot == Script(desired)
  {
    hide Process, DecodeMessage, EncodeMessage, Sendable, Tracks;
    ConstantsSendable();
    var reply := Reply(desired, supported);
    DialerSpeech(desired, reply, net.dialerGot);
    ListenerSpeech(supported, desired, net.listenerGot);
    TrackedSpeech(net.dialer, Dialer(desired), net.dialerGot, net.dialerOut);
    TrackedSpeech(net.listener, Listener(supported), net.listenerGot, net.listenerOut);
    NonEmpty(reply);
  }

  lemma NonEmpty(line: Blob)
    ensures |EncodeMessage(line)| > 0
  {
  }

  lemma InvAgrees(net: Net, desired: Blob, supported: set<Blob>)
    requires Utf8.Valid(desired) && Negotiable(desired, supported) && Inv(net, desired, supported)
    ensures Agrees(net, desired, supported)
    ensures Quiet(net) ==> net.dialer.state.Done? && net.listener.state.Done?
  {
    hide Process, DecodeMessage, EncodeMessage, Tracks, Terminals, Answered, Script, Utf8.Valid;
    ConstantsSendable();
    AnsweredVerdict(desired, supported);
    TrackedVerdicts(net.dialer, Dialer(desired), Reply(desired, supported), net.dialerGot, net.dialerOut);
    TrackedVerdicts(net.listener, Listener(supported), desired, net.listenerGot, net.listenerOut);
    Replies(net, desired, supported);
  }

  /** Agreement: whatever the schedule and the fragmentation, neither side ever reports a protocol
      error, each reaches at most one verdict, a verdict is success exactly when the listener
      supports the id, the dialer's verdict comes after the listener's, and a network at rest has
      both verdicts. */
  lemma Agreement(desired: Blob, supported: set<Blob>, steps: seq<Step>)
    requires Utf8.IsText(desired) && Negotiable(desired, supported)
    ensures var net := Run(Init(desired, supported), steps);
            Agrees(net, desired, supported) && (Quiet(net) ==> net.dialer.state.Done? && net.listener.state.Done?)
  {
    hide Inv, Run, Agrees, Quiet, Utf8.Valid, EncodeMessage;
    InvInit(desired, supported);
    InvRun(Init(desired, supported), desired, supported, steps);
    InvAgrees(Run(Init(desired, supported), steps), desired, supported);
  }

  // ---------------------------------------------------- where agreement breaks down

  /** The dialer's header and request reach the listener in one piece. */
  function RequestDelivered(desired: Blob): seq<Step> {
    [ListenerPolls, DeliverToDialer(|EncodeMessage(HEADER)|),
     DialerPolls, DialerPolls, DeliverToListener(|Script(desired)|)]
  }

  /** The network once that schedule has run. */
  function Asked(desired: Blob, supported: set<Blob>): Net {
    var hello := OutboundData(EncodeMessage(HEADER));
    Net(Select(Dialer(desired), WaitingForProtocolResponse, [], true, []),
        Receive(Select(Listener(supported), WaitingForRemoteHeader, [], true, []), Script(desired)),
        [], [], EncodeMessage(HEADER), Script(desired),
        [hello, OutboundData(EncodeMessage(desired))], [hello])
  }

  lemma HeaderDelivered(desired: Blob, supported: set<Blob>)
    ensures Run(Init(desired, supported), RequestDelivered(desired)[..2])
         == Net(Select(Dialer(desired), WaitingForProtocolResponse, [], true,
                       [OutboundData(EncodeMessage(HEADER)), OutboundData(EncodeMessage(desired))]),
                Select(Listener(supported), WaitingForRemoteHeader, [], true, []),
                [], [], EncodeMessage(HEADER), [], [], [OutboundData(EncodeMessage(HEADER))])
  {
    hide EncodeMessage, Process, DecodeMessage, HandleMessage;
    var hello, ask := EncodeMessage(HEADER), EncodeMessage(desired);
    var n0 := Init(desired, supported);
    var n1 := Next(n0, ListenerPolls);
    assert n1.toDialer == [] + hello == hello;
    var n2 := Next(n1, DeliverToDialer(|hello|));
    assert hello[..|hello|] == hello && [] + hello == hello + [];
    GreetedStep(Dialer(desired), []);
    Reactions(desired, supported, []);
    IdleProcess(Dialer(desired), WaitingForProtocolResponse);
    var steps := RequestDelivered(desired)[..2];
    assert Run(n0, steps) == Run(n1, steps[1..]) == Run(n2, steps[1..][1..]) == n2;
  }

  lemma RequestReaches(desired: Blob, supported: set<Blob>)
    ensures Run(Init(desired, supported), RequestDelivered(desired)) == Asked(desired, supported)
  {
    hide EncodeMessage, Process, DecodeMessage, HandleMessage, Init, Receive;
    var hello, ask := EncodeMessage(HEADER), EncodeMessage(desired);
    var steps := RequestDelivered(desired);
    HeaderDelivered(desired, supported);
    RunAppend(Init(desired, supported), steps[..2], steps[2..]);
    assert steps == steps[..2] + steps[2..];
    var n2 := Run(Init(desired, supported), steps[..2]);
    var n3 := Next(n2, DialerPolls);
    var n4 := Next(n3, DialerPolls);
    assert n4.toListener == ([] + hello) + ask == Script(desired);
    var n5 := Next(n4, DeliverToListener(|Script(desired)|));
    assert n4.toListener[..|Script(desired)|] == Script(desired);
    var late := steps[2..];
    assert Run(n2, late) == Run(n3, late[1..]) == Run(n4, late[1..][1..]) == Run(n5, late[1..][1..][1..]) == n5;
  }

  lemma {:induction false} RunAppend(net: Net, first: seq<Step>, second: seq<Step>)
    requires Valid(net)
    ensures Run(net, first + second) == Run(Run(net, first), second)
    decreases |first|
  {
    hide Next;
    if first == [] {
      assert first + second == second;
    } else {
      assert (first + second)[1..] == first[1..] + second;
      RunAppend(Next(net, first[0]), first[1..], second);
    }
  }

  lemma IdleProcess(role: Role, state: State)
    requires Fits(role, state)
    ensures Process(role, state, []) == Progress(state, [], [])
  {
  }

  /** An empty or over-long id makes the listener report a protocol error. */
  lemma UnsendableFails(desired: Blob, supported: set<Blob>)
    requires Utf8.IsText(desired) && !Sendable(desired)
    ensures !Agrees(Run(Init(desired, supported), RequestDelivered(desired)), desired, supported)
  {
    hide EncodeMessage, DecodeMessage, Greeted, Run, Init, Utf8.Valid, Sendable;
    RequestReaches(desired, supported);
    var net, role := Asked(desired, supported), Listener(supported);
    GreetedStep(role, EncodeMessage(desired));
    Reactions(desired, supported, []);
    DecodeUnsendable(desired, []);
    assert EncodeMessage(desired) + [] == EncodeMessage(desired);
    assert [] + Script(desired) == Script(desired);
    var e := DecodeMessage(EncodeMessage(desired)).error;
    assert net.listener.pending == [ProtocolError(e)];
    TerminalsAppend(net.listenerOut, net.listener.pending);
    assert ListenerVerdicts(net) == [ProtocolError(e)];
  }

  /** Asking for `na` where it is unsupported makes the dialer take the refusal for a success. */
  lemma RefusalMistaken(desired: Blob, supported: set<Blob>)
    requires desired == NOT_AVAILABLE && desired !in supported
    ensures !Agrees(Run(Init(desired, supported),
                        RequestDelivered(desired) + [ListenerPolls, DeliverToDialer(|EncodeMessage(desired)|)]),
                    desired, supported)
  {
    hide EncodeMessage, DecodeMessage, Process, HandleMessage, Greeted, Answered, Init, Utf8.Valid, Sendable;
    ConstantsSendable();
    var last := [ListenerPolls, DeliverToDialer(|EncodeMessage(desired)|)];
    RequestReaches(desired, supported);
    RunAppend(Init(desired, supported), RequestDelivered(desired), last);
    var n5 := Asked(desired, supported);
    Reactions(desired, supported, desired);
    ScriptWhole(Listener(supported), desired, []);
    assert [] + Script(desired) == Script(desired) + [];
    assert n5.listener.pending == [OutboundData(EncodeMessage(desired)), NotAvailable];
    var n6 := Next(n5, ListenerPolls);
    assert n6.toDialer == EncodeMessage(desired);
    var n7 := Next(n6, last[1]);
    assert n6.toDialer[..|EncodeMessage(desired)|] == EncodeMessage(desired);
    assert Run(n5, last) == Run(n6, last[1..]) == Run(n7, last[1..][1..]) == n7;
    ProcessMessage(Dialer(desired), WaitingForProtocolResponse, desired, []);
    ProcessDone(Dialer(desired), []);
    assert [] + EncodeMessage(desired) == EncodeMessage(desired) + [];
    assert Answered(Dialer(desired), desired)
        == HandleMessage(Dialer(desired), WaitingForProtocolResponse, desired) by {
      AnsweredIs(desired);
    }
    assert n7.dialer.pending == [Negotiated(desired)];
    TerminalsAppend(n7.dialerOut, n7.dialer.pending);
    assert Negotiated(desired) in DialerVerdicts(n7);
  }

  lemma AnsweredIs(desired: Blob)
    ensures Answered(Dialer(desired), desired) == HandleMessage(Dialer(desired), WaitingForProtocolResponse, desired)
  {
    hide EncodeMessage;
  }

  /** Agreement holds over every run exactly for the negotiable ids. */
  lemma AgreementIff(desired: Blob, supported: set<Blob>)
    requires Utf8.IsText(desired)
    ensures (forall steps :: Agrees(Run(Init(desired, supported), steps), desired, supported))
            <==> Negotiable(desired, supported)
  {
    hide EncodeMessage, Run, Agrees, Utf8.Valid;
    if Negotiable(desired, supported) {
      forall steps
        ensures Agrees(Run(Init(desired, supported), steps), desired, supported)
      {
        Agreement(desired, supported, steps);
      }
    } else if Sendable(desired) {
      RefusalMistaken(desired, supported);
    } else {
      UnsendableFails(desired, supported);
    }
  }
}
