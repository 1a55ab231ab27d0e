/** One DCUtR machine facing any remote (crates/dcutr/src/lib.rs:169-278, 378-460): what each message or
    failure leads to, with its reason, and what the host can rely on over every run, whatever arrives and
    however it is cut up. */
module DcutrRemote {
  import opened Bytes
  import opened Dcutr
  import Framing
  import HolePunch

  /** The message at the front of some bytes, and where it ends. */
  function Front(buf: Blob): Option<(HolePunch.Message, nat)> {
    var frame := Framing.Decode(buf);
    if frame.Complete? && HolePunch.Decode(frame.payload).Ok?
    then Some((HolePunch.Decode(frame.payload).value, frame.consumed)) else None
  }

  /** Bytes that can never become a message. */
  predicate Broken(buf: Blob) {
    var frame := Framing.Decode(buf);
    frame.Failed? || (frame.Complete? && HolePunch.Decode(frame.payload).Err?)
  }

  lemma FrontStable(buf: Blob, more: Blob)
    requires Front(buf).Some?
    ensures Front(buf + more) == Front(buf) && 0 < Front(buf).value.1 <= |buf|
  {
    hide Framing.Decode, HolePunch.Decode;
    Framing.DecodeStable(buf, more);
    FrontBounds(buf);
  }

  lemma FrontBounds(buf: Blob)
    requires Front(buf).Some?
    ensures 0 < Front(buf).value.1 <= |buf|
  {
    hide HolePunch.Decode;
  }

  // -------------------------------------------------------------------------- initiator

  /** An initiator that awaits the reply goes on waiting, takes a CONNECT, or ends with the reason it
      ends for; the reason is exact. */
  lemma ReplyJudged(m: Initiator, data: Blob, rttMs: u64)
    requires m.state.AwaitingConnectReply?
    ensures var (n, e) := InitiatorData(m, data, rttMs);
            var buf := m.recvBuf + data;
            && (e == Some(MessageTooLarge) <==> |buf| > 4096)
            && (e == Some(Malformed) <==> |buf| <= 4096 && Broken(buf))
            && (e == Some(Aborted) <==> |buf| <= 4096 && Framing.Decode(buf).Overflow?)
            && (e == Some(UnexpectedMessage) <==>
                  |buf| <= 4096 && Front(buf).Some? && !Front(buf).value.0.kind.Connect?)
            && (e.Some? ==> n.state.InitiatorDone? && n == m.(state := InitiatorDone, recvBuf := n.recvBuf))
            && (e.None? && Front(buf).None? ==> n == m.(recvBuf := buf))
            && (e.None? && Front(buf).Some? ==>
                  n == m.(recvBuf := buf[Front(buf).value.1..], state := ReadyToSync, emittedOutcome := false,
                          outcome := Some(DialNow(Front(buf).value.0.obsAddrs, rttMs))))
  {
    hide Framing.Decode, HolePunch.Decode;
    if Framing.Decode(m.recvBuf + data).Complete? {
      CompleteBounds(m.recvBuf + data);
    }
  }

  lemma CompleteBounds(buf: Blob)
    requires Framing.Decode(buf).Complete?
    ensures Framing.Decode(buf).consumed <= |buf|
  {
  }

  /** Before its CONNECT has been taken, and while the host decides, an initiator only collects; once SYNC
      is queued, or it has ended, it does not listen. */
  lemma OtherwiseDeaf(m: Initiator, data: Blob, rttMs: u64)
    requires !m.state.AwaitingConnectReply?
    ensures InitiatorData(m, data, rttMs)
         == (if m.state.Pending? || m.state.ReadyToSync? then m.(recvBuf := m.recvBuf + data) else m, None)
  {
  }

  /** SYNC is queued exactly when a reply has been taken and SYNC has not been asked for. */
  lemma SyncJudged(m: Initiator)
    ensures var (n, e) := SendSync(m);
            if m.state.ReadyToSync?
            then e.None? && n == m.(outbound := m.outbound + SyncFrame(), state := SyncPending)
            else n == m && e == Some(UnexpectedMessage)
  {
  }

  datatype InitiatorOp = Hears(data: Blob, rttMs: u64) | Polls | Syncs

  /** The machine, the bytes it heard and sent, the outcomes handed out and how often data was rejected. */
  datatype InitiatorWorld = InitiatorWorld(
    machine: Initiator, got: Blob, sent: Blob, outcomes: seq<DialNow>, rejections: nat)

  function InitiatorStep(w: InitiatorWorld, op: InitiatorOp): InitiatorWorld {
    match op
    case Hears(data, rttMs) =>
      var (m, e) := InitiatorData(w.machine, data, rttMs);
      w.(machine := m, got := w.got + data, rejections := w.rejections + if e.Some? then 1 else 0)
    case Polls =>
      var (m, out) := PollInitiator(w.machine);
      if out.None? then w.(machine := m)
      else if out.value.InitiatorSends? then w.(machine := m, sent := w.sent + out.value.bytes)
      else w.(machine := m, outcomes := w.outcomes + [out.value.dial])
    case Syncs => w.(machine := SendSync(w.machine).0)
  }

  function InitiatorRun(w: InitiatorWorld, ops: seq<InitiatorOp>): InitiatorWorld
    decreases |ops|
  {
    if ops == [] then w else InitiatorRun(InitiatorStep(w, ops[0]), ops[1..])
  }

  function Said(w: InitiatorWorld): Blob {
    w.sent + w.machine.outbound
  }

  /** The outcomes handed out or still to be handed out. */
  function Outcomes(w: InitiatorWorld): seq<DialNow> {
    w.outcomes + if w.machine.outcome.Some? && !w.machine.emittedOutcome then [w.machine.outcome.value] else []
  }

  ghost predicate InitiatorHolds(w: InitiatorWorld, own: seq<Blob>) {
    var m := w.machine;
    && (m.state.Pending? || m.state.AwaitingConnectReply? ==>
          m.recvBuf == w.got && m.outcome.None? && w.rejections == 0 && Said(w) == ConnectFrame(own))
    && (m.state.Pending? ==> w.sent == [])
    && (m.state.AwaitingConnectReply? ==> m.outbound == [])
    && (m.state.ReadyToSync? ==>
          m.outcome.Some? && w.rejections == 0 && Said(w) == ConnectFrame(own) && m.outbound == [])
    && (m.state.SyncPending? ==>
          m.outcome.Some? && w.rejections == 0 && m.outbound == SyncFrame() && w.sent == ConnectFrame(own))
    && (m.state.InitiatorDone? ==>
          && w.rejections == (if m.outcome.Some? then 0 else 1) && m.outbound == []
          && Said(w) == if m.outcome.Some? then ConnectFrame(own) + SyncFrame() else ConnectFrame(own))
    && (m.outcome.None? ==> w.outcomes == [])
    && (m.outcome.Some? ==>
          && Outcomes(w) == [m.outcome.value]
          && Front(w.got).Some? && Front(w.got).value.0.kind.Connect?
          && m.outcome.value.remoteAddrBytes == Front(w.got).value.0.obsAddrs)
  }

  lemma FramesSpeak(own: seq<Blob>)
    ensures ConnectFrame(own) != [] && SyncFrame() != []
  {
    hide HolePunch.Encode;
    FrameSpeaks(HolePunch.Encode(HolePunch.Message(HolePunch.Connect, own)));
    FrameSpeaks(HolePunch.Encode(HolePunch.Message(HolePunch.Sync, [])));
  }

  lemma FrameSpeaks(payload: Blob)
    ensures Framing.Frame(payload) != []
  {
  }

  lemma HearsHolds(w: InitiatorWorld, own: seq<Blob>, data: Blob, rttMs: u64)
    requires InitiatorHolds(w, own)
    ensures InitiatorHolds(InitiatorStep(w, Hears(data, rttMs)), own)
  {
    hide Front, Broken, ConnectFrame, SyncFrame, InitiatorData, Framing.Decode;
    var m := w.machine;
    if m.outcome.Some? {
      FrontStable(w.got, data);
    }
    if m.state.AwaitingConnectReply? {
      ReplyJudged(m, data, rttMs);
    } else {
      OtherwiseDeaf(m, data, rttMs);
    }
  }

  lemma PollsHolds(w: InitiatorWorld, own: seq<Blob>)
    requires InitiatorHolds(w, own)
    ensures InitiatorHolds(InitiatorStep(w, Polls), own)
  {
    hide Front, ConnectFrame, SyncFrame;
    FramesSpeak(own);
    assert [] + ConnectFrame(own) == ConnectFrame(own);
    assert w.sent + [] == w.sent;
  }

  lemma {:induction false} InitiatorKeeps(w: InitiatorWorld, own: seq<Blob>, ops: seq<InitiatorOp>)
    requires InitiatorHolds(w, own)
    ensures InitiatorHolds(InitiatorRun(w, ops), own)
    decreases |ops|
  {
    hide InitiatorHolds, InitiatorStep;
    if ops != [] {
      match ops[0] {
        case Hears(data, rttMs) => HearsHolds(w, own, data, rttMs);
        case Polls => PollsHolds(w, own);
        case Syncs => SyncsHolds(w, own);
      }
      InitiatorKeeps(InitiatorStep(w, ops[0]), own, ops[1..]);
    }
  }

  lemma SyncsHolds(w: InitiatorWorld, own: seq<Blob>)
    requires InitiatorHolds(w, own)
    ensures InitiatorHolds(InitiatorStep(w, Syncs), own)
  {
    hide Front, ConnectFrame, SyncFrame;
    SyncJudged(w.machine);
    assert [] + SyncFrame() == SyncFrame();
    assert w.sent + [] == w.sent;
  }

  /** An initiator facing any remote, over every run: it says its CONNECT and then at most one SYNC, the
      latter only with an outcome; it rejects data at most once, and then there is no outcome and no SYNC;
      and there is at most one outcome, with the addresses of the CONNECT that all bytes heard start
      with. */
  lemma InitiatorFaces(own: seq<Blob>, ops: seq<InitiatorOp>)
    ensures var w := InitiatorRun(InitiatorWorld(NewInitiator(own), [], [], [], 0), ops);
            && (Said(w) == ConnectFrame(own) || Said(w) == ConnectFrame(own) + SyncFrame())
            && |Outcomes(w)| + w.rejections <= 1
            && (Said(w) != ConnectFrame(own) ==> |Outcomes(w)| == 1)
            && (|Outcomes(w)| == 1 ==>
                  && Front(w.got).Some? && Front(w.got).value.0.kind.Connect?
                  && Outcomes(w)[0].remoteAddrBytes == Front(w.got).value.0.obsAddrs)
  {
    hide InitiatorRun, Front, ConnectFrame, SyncFrame;
    var start := InitiatorWorld(NewInitiator(own), [], [], [], 0);
    assert InitiatorHolds(start, own) by {
      assert [] + ConnectFrame(own) == ConnectFrame(own);
    }
    InitiatorKeeps(start, own, ops);
    var w := InitiatorRun(start, ops);
    assert w.sent + [] == w.sent;
  }

  // -------------------------------------------------------------------------- responder

  /** A responder that is not done goes on waiting, takes the message that is due, or ends with the reason
      it ends for; the reason is exact. */
  lemma RequestJudged(m: Responder)
    requires !m.state.ResponderDone?
    ensures var (n, e) := DecodeAll(m);
            var done := m.(state := ResponderDone);
            if |m.recvBuf| > 4096 then n == done && e == Some(MessageTooLarge)
            else if Broken(m.recvBuf) then n == done && e == Some(Malformed)
            else if Framing.Decode(m.recvBuf).Overflow? then n == done && e == Some(Aborted)
            else if Front(m.recvBuf).None? then n == m && e.None?
            else
              var (msg, used) := Front(m.recvBuf).value;
              var rest := m.recvBuf[used..];
              if m.state.AwaitingConnect? && msg.kind.Connect? then
                (n, e) == DecodeAll(m.(recvBuf := rest, outbound := m.outbound + ConnectFrame(m.ownAddrs),
                                       events := m.events + [ConnectReceived(msg.obsAddrs)], state := AwaitingSync))
              else if m.state.AwaitingSync? && msg.kind.Sync? then
                e.None? && n == done.(recvBuf := rest, events := m.events + [SyncReceived])
              else e == Some(UnexpectedMessage) && n == done.(recvBuf := rest)
  {
    hide HolePunch.Decode, ConnectFrame, Framing.Decode;
    if Framing.Decode(m.recvBuf).Complete? {
      CompleteBounds(m.recvBuf);
    }
  }

  datatype ResponderOp = Receives(data: Blob) | Asks

  datatype ResponderWorld = ResponderWorld(
    machine: Responder, got: Blob, sent: Blob, told: seq<ResponderEvent>, rejections: nat)

  function ResponderStep(w: ResponderWorld, op: ResponderOp): ResponderWorld {
    match op
    case Receives(data) =>
      var (m, e) := ResponderData(w.machine, data);
      w.(machine := m, got := w.got + data, rejections := w.rejections + if e.Some? then 1 else 0)
    case Asks =>
      var (m, out) := PollResponder(w.machine);
      if out.None? then w.(machine := m)
      else if out.value.ResponderSends? then w.(machine := m, sent := w.sent + out.value.bytes)
      else w.(machine := m, told := w.told + [out.value.event])
  }

  function ResponderRun(w: ResponderWorld, ops: seq<ResponderOp>): ResponderWorld
    decreases |ops|
  {
    if ops == [] then w else ResponderRun(ResponderStep(w, ops[0]), ops[1..])
  }

  function Replied(w: ResponderWorld): Blob {
    w.sent + w.machine.outbound
  }

  /** The events handed out or still to be handed out. */
  function Told(w: ResponderWorld): seq<ResponderEvent> {
    w.told + w.machine.events
  }

  /** The remote's first message is a CONNECT. */
  predicate Opens(got: Blob) {
    Front(got).Some? && Front(got).value.0.kind.Connect? && Front(got).value.1 <= |got|
  }

  predicate ThenSyncs(got: Blob)
    requires Opens(got)
  {
    var rest := got[Front(got).value.1..];
    Front(rest).Some? && Front(rest).value.0.kind.Sync?
  }

  lemma OpensStable(got: Blob, more: Blob)
    requires Opens(got)
    ensures Opens(got + more) && Front(got + more) == Front(got)
    ensures (got + more)[Front(got).value.1..] == got[Front(got).value.1..] + more
    ensures ThenSyncs(got) ==> ThenSyncs(got + more)
  {
    hide Front;
    FrontStable(got, more);
    var rest := got[Front(got).value.1..];
    assert (got + more)[Front(got).value.1..] == rest + more;
    if ThenSyncs(got) {
      FrontStable(rest, more);
    }
  }

  ghost predicate ResponderHolds(w: ResponderWorld, own: seq<Blob>) {
    var m := w.machine;
    && m.ownAddrs == own && w.rejections <= 1 && (!m.state.ResponderDone? ==> w.rejections == 0)
    && (m.state.AwaitingConnect? ==> m.recvBuf == w.got && Told(w) == [] && Replied(w) == [])
    && (m.state.AwaitingSync? ==>
          Opens(w.got) && m.recvBuf == w.got[Front(w.got).value.1..] && Greeted(w, own) && |Told(w)| == 1)
    && (m.state.ResponderDone? && Told(w) == [] ==> w.rejections == 1 && Replied(w) == [])
    && (m.state.ResponderDone? && Told(w) != [] ==> Greeted(w, own) && (w.rejections == 1 <==> |Told(w)| == 1))
  }

  /** A CONNECT has been taken: it was told, and answered with our own addresses; and a second event is
      the SYNC behind it. */
  ghost predicate Greeted(w: ResponderWorld, own: seq<Blob>) {
    && Opens(w.got) && 1 <= |Told(w)| <= 2
    && Told(w)[0] == ConnectReceived(Front(w.got).value.0.obsAddrs) && Replied(w) == ConnectFrame(own)
    && (|Told(w)| == 2 ==> Told(w)[1] == SyncReceived && ThenSyncs(w.got))
  }

  /** What more bytes do to a responder that has taken the CONNECT. */
  lemma SyncHolds(w: ResponderWorld, own: seq<Blob>, m: Responder, got: Blob)
    requires m.state.AwaitingSync? && m.ownAddrs == own && w.rejections == 0
    requires Opens(got) && m.recvBuf == got[Front(got).value.1..]
    requires w.told + m.events == [ConnectReceived(Front(got).value.0.obsAddrs)]
    requires w.sent + m.outbound == ConnectFrame(own)
    ensures var (n, e) := DecodeAll(m);
            ResponderHolds(w.(machine := n, got := got, rejections := if e.Some? then 1 else 0), own)
  {
    hide Front, ConnectFrame, Framing.Decode, DecodeAll, Broken;
    RequestJudged(m);
    var (n, e) := DecodeAll(m);
    if e.None? && n.state.ResponderDone? {
      assert w.told + n.events == (w.told + m.events) + [SyncReceived];
    }
  }

  lemma ReceivesHolds(w: ResponderWorld, own: seq<Blob>, data: Blob)
    requires ResponderHolds(w, own)
    ensures ResponderHolds(ResponderStep(w, Receives(data)), own)
  {
    hide Front, ConnectFrame, Framing.Decode, DecodeAll, Broken;
    var m, got := w.machine, w.got + data;
    if Opens(w.got) {
      OpensStable(w.got, data);
    }
    var fed := m.(recvBuf := m.recvBuf + data);
    if m.state.AwaitingSync? {
      SyncHolds(w, own, fed, got);
    } else if m.state.AwaitingConnect? {
      FirstHolds(w, own, fed, got);
    }
  }

  lemma FirstHolds(w: ResponderWorld, own: seq<Blob>, m: Responder, got: Blob)
    requires m.state.AwaitingConnect? && m.ownAddrs == own && w.rejections == 0
    requires m.recvBuf == got && w.told + m.events == [] && w.sent + m.outbound == []
    ensures var (n, e) := DecodeAll(m);
            ResponderHolds(w.(machine := n, got := got, rejections := if e.Some? then 1 else 0), own)
  {
    hide Front, ConnectFrame, Framing.Decode, DecodeAll, Broken;
    RequestJudged(m);
    if |got| <= 4096 && !Broken(got) && !Framing.Decode(got).Overflow? && Front(got).Some?
       && Front(got).value.0.kind.Connect?
    {
      FrontBounds(got);
      var (msg, used) := Front(got).value;
      var next := m.(recvBuf := got[used..], outbound := m.outbound + ConnectFrame(m.ownAddrs),
                     events := m.events + [ConnectReceived(msg.obsAddrs)], state := AwaitingSync);
      assert w.told + next.events == [ConnectReceived(msg.obsAddrs)];
      assert w.sent + next.outbound == ConnectFrame(own);
      SyncHolds(w, own, next, got);
    }
  }

  lemma AsksHolds(w: ResponderWorld, own: seq<Blob>)
    requires ResponderHolds(w, own)
    ensures ResponderHolds(ResponderStep(w, Asks), own)
  {
    hide Front, ConnectFrame;
    var v := ResponderStep(w, Asks);
    assert Told(v) == Told(w);
    assert Replied(v) == Replied(w);
  }

  lemma {:induction false} ResponderKeeps(w: ResponderWorld, own: seq<Blob>, ops: seq<ResponderOp>)
    requires ResponderHolds(w, own)
    ensures ResponderHolds(ResponderRun(w, ops), own)
    decreases |ops|
  {
    hide ResponderHolds, ResponderStep;
    if ops != [] {
      match ops[0] {
        case Receives(data) => ReceivesHolds(w, own, data);
        case Asks => AsksHolds(w, own);
      }
      ResponderKeeps(ResponderStep(w, ops[0]), own, ops[1..]);
    }
  }

  /** A responder facing any remote, over every run: it tells of a CONNECT and then of a SYNC at most, with
      the addresses of the CONNECT that all bytes heard start with and only if a SYNC follows it; it answers
      exactly a CONNECT, with its own addresses; and it rejects data at most once, and then nothing more is
      told. */
  lemma ResponderFaces(own: seq<Blob>, ops: seq<ResponderOp>)
    ensures var w := ResponderRun(ResponderWorld(NewResponder(own), [], [], [], 0), ops);
            && w.rejections <= 1 && |Told(w)| + w.rejections <= 2
            && Replied(w) == (if Told(w) == [] then [] else ConnectFrame(own))
            && (Told(w) != [] ==> Opens(w.got) && Told(w)[0] == ConnectReceived(Front(w.got).value.0.obsAddrs))
            && (|Told(w)| == 2 ==> Told(w)[1] == SyncReceived && ThenSyncs(w.got))
  {
    hide ResponderRun, Front, ConnectFrame, Opens, ThenSyncs;
    var start := ResponderWorld(NewResponder(own), [], [], [], 0);
    ResponderKeeps(start, own, ops);
  }
}
