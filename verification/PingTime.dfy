/** Ping against the clock (crates/ping/src/lib.rs:237-330, 366-602): when a ping times out, which ping a
    timeout belongs to, and what a whole exchange measures. */
module PingTime {
  import opened Bytes
  import opened Ids
  import opened Ping

  // --------------------------------------------------------------------------------- timeouts

  /** A ping has been waiting for longer than the limit. */
  predicate Overdue(state: PeerState, timeoutMs: u64, nowMs: u64) {
    state.outbound.Some? && state.pending.Some? && nowMs > state.pending.value.sentAtMs + timeoutMs
  }

  predicate OverdueAt(m: Machine, peer: PeerId, nowMs: u64) {
    peer in m.peers && Overdue(m.peers[peer], m.timeoutMs, nowMs)
  }

  /** What a tick tells and does about one peer. */
  function TellsOf(m: Machine, p: PeerId, nowMs: u64): seq<Event> {
    if !OverdueAt(m, p, nowMs) then []
    else
      var stream := m.peers[p].outbound.value;
      [Timeout(p, stream, m.timeoutMs), OutboundStreamClosed(p, stream)]
  }

  function DoesOf(m: Machine, p: PeerId, nowMs: u64): seq<Action> {
    if OverdueAt(m, p, nowMs) then [ResetStream(p, m.peers[p].outbound.value)] else []
  }

  function TickTells(m: Machine, nowMs: u64, order: seq<PeerId>): seq<Event> {
    if order == [] then [] else TellsOf(m, order[0], nowMs) + TickTells(m, nowMs, order[1..])
  }

  function TickDoes(m: Machine, nowMs: u64, order: seq<PeerId>): seq<Action> {
    if order == [] then [] else DoesOf(m, order[0], nowMs) + TickDoes(m, nowMs, order[1..])
  }

  /** A peer without its overdue ping and the stream it was sent on. */
  function Relieved(state: PeerState): PeerState
    requires state.outbound.Some?
  {
    PeerState(None, state.inbound, None, state.recvBufs - {state.outbound.value})
  }

  predicate Once(order: seq<PeerId>) {
    forall i, j :: 0 <= i < j < |order| ==> order[i] != order[j]
  }

  lemma ExpireIs(m: Machine, p: PeerId, nowMs: u64)
    ensures var n := Expire(m, p, nowMs);
            && n.events == m.events + TellsOf(m, p, nowMs) && n.actions == m.actions + DoesOf(m, p, nowMs)
            && n.timeoutMs == m.timeoutMs
            && n.peers == if OverdueAt(m, p, nowMs) then m.peers[p := Relieved(m.peers[p])] else m.peers
  {
    if OverdueAt(m, p, nowMs) {
      var stream := m.peers[p].outbound.value;
      assert m.events + [Timeout(p, stream, m.timeoutMs)] + [OutboundStreamClosed(p, stream)]
          == m.events + [Timeout(p, stream, m.timeoutMs), OutboundStreamClosed(p, stream)];
    }
  }

  predicate AgreeOn(m: Machine, n: Machine, order: seq<PeerId>) {
    && n.timeoutMs == m.timeoutMs
    && forall p :: p in order ==> (p in n.peers <==> p in m.peers) && (p in m.peers ==> n.peers[p] == m.peers[p])
  }

  /** Only the states of the peers still to be walked matter. */
  lemma {:induction false} TickElsewhere(m: Machine, n: Machine, nowMs: u64, order: seq<PeerId>)
    requires AgreeOn(m, n, order)
    ensures TickTells(n, nowMs, order) == TickTells(m, nowMs, order)
    ensures TickDoes(n, nowMs, order) == TickDoes(m, nowMs, order)
  {
    if order != [] {
      assert order[0] in order;
      TickElsewhere(m, n, nowMs, order[1..]);
    }
  }

  lemma AfterFirst(m: Machine, nowMs: u64, order: seq<PeerId>)
    requires Once(order) && order != []
    ensures Once(order[1..]) && order[0] !in order[1..] && AgreeOn(m, Expire(m, order[0], nowMs), order[1..])
  {
    hide Relieved;
    assert forall j :: 0 < j < |order| ==> order[j] != order[0];
    ExpireIs(m, order[0], nowMs);
  }

  lemma {:induction false} TickQueues(m: Machine, nowMs: u64, order: seq<PeerId>)
    requires Once(order)
    ensures var n := TickAll(m, nowMs, order);
            && n.events == m.events + TickTells(m, nowMs, order)
            && n.actions == m.actions + TickDoes(m, nowMs, order)
    decreases |order|
  {
    hide Expire, Relieved, TellsOf, DoesOf, AgreeOn, Once;
    if order != [] {
      var p, rest := order[0], order[1..];
      var n := Expire(m, p, nowMs);
      ExpireIs(m, p, nowMs);
      AfterFirst(m, nowMs, order);
      TickQueues(n, nowMs, rest);
      TickElsewhere(m, n, nowMs, rest);
    }
  }

  lemma {:induction false} TickPeers(m: Machine, nowMs: u64, order: seq<PeerId>, p: PeerId)
    requires Once(order)
    ensures var n := TickAll(m, nowMs, order);
            && (p in n.peers <==> p in m.peers)
            && (p in m.peers ==>
                  n.peers[p] == if p in order && OverdueAt(m, p, nowMs) then Relieved(m.peers[p]) else m.peers[p])
    decreases |order|
  {
    hide Expire, Relieved;
    if order != [] {
      ExpireIs(m, order[0], nowMs);
      AfterFirst(m, nowMs, order);
      TickPeers(Expire(m, order[0], nowMs), nowMs, order[1..], p);
    }
  }

  lemma {:induction false} ToldIff(m: Machine, nowMs: u64, order: seq<PeerId>, p: PeerId, stream: StreamId, limit: nat)
    ensures Timeout(p, stream, limit) in TickTells(m, nowMs, order) <==>
              p in order && OverdueAt(m, p, nowMs) && m.peers[p].outbound == Some(stream) && limit == m.timeoutMs
    ensures ResetStream(p, stream) in TickDoes(m, nowMs, order) <==>
              p in order && OverdueAt(m, p, nowMs) && m.peers[p].outbound == Some(stream)
  {
    if order != [] {
      ToldIff(m, nowMs, order[1..], p, stream, limit);
      assert p in order <==> p == order[0] || p in order[1..];
    }
  }

  /** A tick that walks each peer once reports a timeout, and resets the stream, exactly of the pings
      sent more than the limit before; those are gone and nothing else about any peer has changed. */
  lemma TimesOutIff(m: Machine, nowMs: u64, order: seq<PeerId>, p: PeerId, stream: StreamId, limit: nat)
    requires Once(order) && forall q :: q in m.peers ==> q in order
    ensures var n := TickAll(m, nowMs, order);
            var late := && p in m.peers && m.peers[p].outbound == Some(stream) && m.peers[p].pending.Some?
                        && nowMs > m.peers[p].pending.value.sentAtMs + m.timeoutMs;
            && m.events <= n.events && m.actions <= n.actions
            && (Timeout(p, stream, limit) in n.events[|m.events|..] <==> late && limit == m.timeoutMs)
            && (ResetStream(p, stream) in n.actions[|m.actions|..] <==> late)
            && (p in n.peers <==> p in m.peers)
            && (p in m.peers && m.peers[p].outbound == Some(stream) ==>
                  var was, now := m.peers[p], n.peers[p];
                  now == if late then PeerState(None, was.inbound, None, was.recvBufs - {stream}) else was)
            && (p in m.peers && (m.peers[p].outbound.None? || m.peers[p].pending.None?) ==> n.peers[p] == m.peers[p])
  {
    hide TickAll, TickTells, TickDoes, Once;
    TickQueues(m, nowMs, order);
    TickPeers(m, nowMs, order, p);
    ToldIff(m, nowMs, order, p, stream, limit);
    var n := TickAll(m, nowMs, order);
    assert n.events[|m.events|..] == TickTells(m, nowMs, order);
    assert n.actions[|m.actions|..] == TickDoes(m, nowMs, order);
  }

  // ---------------------------------------------------------------- which ping it was

  /** A peer's name after the migrations among some inputs. */
  function NamedAfter(peer: PeerId, ops: seq<Op>): PeerId
    decreases |ops|
  {
    if ops == [] then peer
    else
      var moved := ops[0].Feed? && ops[0].input.MigratePeer? && ops[0].input.from == peer;
      NamedAfter(if moved then ops[0].input.to else peer, ops[1..])
  }

  /** The i-th input was an accepted ping of this payload at this time to the peer now called so. */
  predicate SentAs(start: World, ops: seq<Op>, i: nat, peer: PeerId, ping: PendingPing)
    requires i < |ops|
  {
    && ops[i].Feed? && ops[i].input.SendPing?
    && ops[i].input.payload == ping.payload && ops[i].input.nowMs == ping.sentAtMs
    && Accepts(Run(start, ops[..i]).machine, ops[i].input) == 1
    && NamedAfter(ops[i].input.peer, ops[i + 1..]) == peer
  }

  /** Every ping in flight was asked for. */
  ghost predicate Owed(start: World, ops: seq<Op>) {
    forall p :: InFlight(Run(start, ops).machine, p) ==> Asked(start, ops, p)
  }

  predicate InFlight(m: Machine, p: PeerId) {
    p in m.peers && m.peers[p].pending.Some?
  }

  ghost predicate Asked(start: World, ops: seq<Op>, p: PeerId)
    requires InFlight(Run(start, ops).machine, p)
  {
    exists i :: 0 <= i < |ops| && SentAs(start, ops, i, p, Run(start, ops).machine.peers[p].pending.value)
  }

  lemma {:induction false} RunSnoc(w: World, ops: seq<Op>, op: Op)
    ensures Run(w, ops + [op]) == Step(Run(w, ops), op)
    decreases |ops|
  {
    hide Step;
    if ops == [] {
      assert ([op])[1..] == [] && ops + [op] == [op];
    } else {
      RunSnoc(Step(w, ops[0]), ops[1..], op);
      assert (ops + [op])[1..] == ops[1..] + [op];
    }
  }

  lemma {:induction false} NamedSnoc(peer: PeerId, ops: seq<Op>, op: Op)
    ensures NamedAfter(peer, ops + [op]) == NamedAfter(NamedAfter(peer, ops), [op])
    decreases |ops|
  {
    if ops == [] {
      assert ops + [op] == [op];
    } else {
      var moved := ops[0].Feed? && ops[0].input.MigratePeer? && ops[0].input.from == peer;
      NamedSnoc(if moved then ops[0].input.to else peer, ops[1..], op);
      assert (ops + [op])[1..] == ops[1..] + [op];
    }
  }

  /** Where a ping in flight after a step was before it. */
  lemma PendingFrom(m: Machine, input: Input, p: PeerId)
    requires InFlight(Handle(m, input).0, p)
    ensures var now := Handle(m, input).0.peers[p].pending.value;
            || (input.SendPing? && input.peer == p && Accepts(m, input) == 1
                && now == PendingPing(input.payload, input.nowMs))
            || (exists q :: InFlight(m, q) && m.peers[q].pending.value == now
                            && NamedAfter(q, [Feed(input)]) == p)
  {
    hide TickAll, CompletePayload;
    assert [Feed(input)][1..] == [];
    if input.Tick? {
      TickPending(m, input.nowMs, input.order, p);
      assert InFlight(m, p);
    } else if input.StreamData? {
      DataPending(m, input.peer, input.stream, input.data, input.nowMs, p);
      assert InFlight(m, p);
    } else if input.MigratePeer? {
      if input.from != input.to && input.from in m.peers && p == input.to {
        assert InFlight(m, input.from);
      } else {
        assert InFlight(m, p);
      }
    } else if !(input.SendPing? && Accepts(m, input) == 1 && input.peer == p) {
      assert InFlight(m, p);
    }
  }

  lemma DataPending(m: Machine, peer: PeerId, stream: StreamId, data: Blob, nowMs: u64, p: PeerId)
    requires InFlight(Data(m, peer, stream, data, nowMs), p)
    ensures InFlight(m, p) && Data(m, peer, stream, data, nowMs).peers[p].pending == m.peers[p].pending
  {
  }

  lemma {:induction false} TickPending(m: Machine, nowMs: u64, order: seq<PeerId>, p: PeerId)
    requires InFlight(TickAll(m, nowMs, order), p)
    ensures InFlight(m, p) && TickAll(m, nowMs, order).peers[p].pending == m.peers[p].pending
    decreases |order|
  {
    if order != [] {
      TickPending(Expire(m, order[0], nowMs), nowMs, order[1..], p);
    }
  }

  lemma SentLater(start: World, ops: seq<Op>, op: Op, i: nat, q: PeerId, ping: PendingPing)
    requires i < |ops| && SentAs(start, ops, i, q, ping)
    ensures SentAs(start, ops + [op], i, NamedAfter(q, [op]), ping)
  {
    hide Run, Accepts;
    var all := ops + [op];
    assert all[..i] == ops[..i] && all[i] == ops[i] && all[i + 1..] == ops[i + 1..] + [op];
    NamedSnoc(ops[i].input.peer, ops[i + 1..], op);
  }

  lemma {:induction false} RunOwes(start: World, ops: seq<Op>)
    requires start.machine.peers == map[]
    ensures Owed(start, ops)
    decreases |ops|
  {
    hide Run, Accepts, Handle, SentAs;
    if ops == [] {
      RunNothing(start);
    } else {
      var front, op := ops[..|ops| - 1], ops[|ops| - 1];
      assert ops == front + [op];
      RunOwes(start, front);
      RunSnoc(start, front, op);
      forall p | InFlight(Run(start, ops).machine, p)
        ensures Asked(start, ops, p)
      {
        AskedStep(start, front, op, p);
      }
    }
  }

  lemma RunNothing(start: World)
    ensures Run(start, []) == start
  {
  }

  lemma AskedStep(start: World, ops: seq<Op>, op: Op, p: PeerId)
    requires Owed(start, ops) && InFlight(Run(start, ops + [op]).machine, p)
    ensures Asked(start, ops + [op], p)
  {
    hide Run, Accepts, Handle, SentAs, NamedAfter;
    RunSnoc(start, ops, op);
    var m, all := Run(start, ops).machine, ops + [op];
    var ping := Run(start, all).machine.peers[p].pending.value;
    if op.PollOnce? {
      assert InFlight(m, p) && Asked(start, ops, p);
      var i :| 0 <= i < |ops| && SentAs(start, ops, i, p, ping);
      SentLater(start, ops, op, i, p, ping);
      NotMoved(p);
    } else {
      PendingFrom(m, op.input, p);
      if op.input.SendPing? && op.input.peer == p && Accepts(m, op.input) == 1
         && ping == PendingPing(op.input.payload, op.input.nowMs) {
        JustSent(start, ops, op, p, ping);
      } else {
        var q :| InFlight(m, q) && m.peers[q].pending.value == ping && NamedAfter(q, [op]) == p;
        assert Asked(start, ops, q);
        var i :| 0 <= i < |ops| && SentAs(start, ops, i, q, ping);
        SentLater(start, ops, op, i, q, ping);
      }
    }
  }

  lemma NotMoved(p: PeerId)
    ensures NamedAfter(p, [PollOnce]) == p
  {
    assert [PollOnce][1..] == [];
  }

  lemma JustSent(start: World, ops: seq<Op>, op: Op, p: PeerId, ping: PendingPing)
    requires op.Feed? && op.input.SendPing? && op.input.peer == p
    requires ping == PendingPing(op.input.payload, op.input.nowMs)
    requires Accepts(Run(start, ops).machine, op.input) == 1
    ensures SentAs(start, ops + [op], |ops|, p, ping)
  {
    hide Run, Accepts;
    var all := ops + [op];
    assert all[..|ops|] == ops && all[|ops| + 1..] == [];
  }

  /** Over every run from a new machine, a timeout reported by a tick belongs to an accepted ping to that
      peer, under whatever name it then had, sent more than the limit before. */
  lemma TimeoutsJustified(timeoutMs: u64, ops: seq<Op>, nowMs: u64, order: seq<PeerId>, p: PeerId, stream: StreamId,
                          limit: nat) returns (i: nat)
    requires Once(order)
    requires var m := Run(World(New(timeoutMs), []), ops).machine;
             Timeout(p, stream, limit) in TickAll(m, nowMs, order).events && Timeout(p, stream, limit) !in m.events
    ensures i < |ops| && ops[i].Feed? && ops[i].input.SendPing?
    ensures Accepts(Run(World(New(timeoutMs), []), ops[..i]).machine, ops[i].input) == 1
    ensures NamedAfter(ops[i].input.peer, ops[i + 1..]) == p
    ensures nowMs > ops[i].input.nowMs + timeoutMs && limit == timeoutMs
  {
    hide Run, Accepts, Once, TickAll, NamedAfter, TickTells;
    var start := World(New(timeoutMs), []);
    var m := Run(start, ops).machine;
    RunOwes(start, ops);
    LimitKept(start, ops);
    TickQueues(m, nowMs, order);
    ToldIff(m, nowMs, order, p, stream, limit);
    assert InFlight(m, p) && Asked(start, ops, p);
    i :| 0 <= i < |ops| && SentAs(start, ops, i, p, m.peers[p].pending.value);
  }

  lemma {:induction false} LimitKept(w: World, ops: seq<Op>)
    ensures Run(w, ops).machine.timeoutMs == w.machine.timeoutMs
    decreases |ops|
  {
    hide TickAll, Step;
    if ops != [] {
      LimitStep(w, ops[0]);
      LimitKept(Step(w, ops[0]), ops[1..]);
    }
  }

  lemma LimitStep(w: World, op: Op)
    ensures Step(w, op).machine.timeoutMs == w.machine.timeoutMs
  {
    hide TickAll;
    if op.Feed? && op.input.Tick? {
      LimitTick(w.machine, op.input.nowMs, op.input.order);
    }
  }

  lemma {:induction false} LimitTick(m: Machine, nowMs: u64, order: seq<PeerId>)
    ensures TickAll(m, nowMs, order).timeoutMs == m.timeoutMs
    decreases |order|
  {
    if order != [] {
      LimitTick(Expire(m, order[0], nowMs), nowMs, order[1..]);
    }
  }

  // -------------------------------------------------------------------------- a whole exchange

  /** A machine on which a ping can be sent, and one that will answer it. */
  predicate CanAsk(m: Machine, peer: PeerId, stream: StreamId) {
    var state := Peer(m, peer);
    state.outbound == Some(stream) && state.pending.None? && Buffered(state, stream) == []
  }

  predicate WillAnswer(m: Machine, peer: PeerId, stream: StreamId) {
    var state := Peer(m, peer);
    stream in state.inbound && state.outbound != Some(stream) && Buffered(state, stream) == []
  }

  /** A whole ping: the 32 bytes asked for leave on the stream, come back whatever the chunks on either
      way, and the time reported is that between sending and the arrival of the last byte. */
  lemma PingPong(asker: Machine, answerer: Machine, them: PeerId, us: PeerId, ours: StreamId, theirs: StreamId,
                 payload: Blob, sentAtMs: u64, there: seq<Chunk>, back: seq<Chunk>)
    requires CanAsk(asker, them, ours) && WillAnswer(answerer, us, theirs)
    requires |payload| == 32 && Contents(there) == payload && Contents(back) == payload
    ensures var (waiting, error) := Handle(asker, SendPing(them, payload, sentAtMs));
            var echoed, done := FeedAll(answerer, us, theirs, there), FeedAll(waiting, them, ours, back);
            var arrivedMs := Clocks(back)[31];
            && error.None?
            && waiting.actions == asker.actions + [Send(them, ours, payload)] && waiting.events == asker.events
            && echoed.actions == answerer.actions + [Send(us, theirs, payload)] && echoed.events == answerer.events
            && done.actions == waiting.actions
            && done.events == asker.events
                 + [RttMeasured(them, ours, if arrivedMs > sentAtMs then arrivedMs - sentAtMs else 0)]
  {
    hide FeedAll, Contents, Clocks;
    var waiting := Handle(asker, SendPing(them, payload, sentAtMs)).0;
    assert [] + payload == payload;
    FragmentsAddUp(answerer, us, theirs, there);
    FragmentsAddUp(waiting, them, ours, back);
  }
}
