/** The synchronous driver around the swarm core: it executes queued actions against a transport and
    buffers events (crates/swarm/src/driver.rs:260-299, 347-407, 450-539). The transport is an oracle
    that answers each call. */
module Driver {
  import opened Bytes
  import opened Ids
  import opened Swarm
  import opened SwarmInvariant
  import opened SwarmRuns
  import Multistream
  import SwarmObject
  import SwarmSteps

  /** What the transport makes of an action: a stream for an open, or success or failure. */
  datatype Answer = Opened(stream: StreamId) | Done | Failed

  /** The answer to the n-th call. */
  type Transport = (nat, Action) -> Answer

  /** The core, the events waiting for the application, the calls made so far, and the last stream
      opened. */
  datatype State = State(core: Core, buffer: seq<Event>, calls: nat, captured: Option<StreamId>)

  /** `dispatch_action`. */
  function Execute(core: Core, action: Action, answer: Answer): Core {
    match action
    case OpenStream(conn, token) =>
      if answer.Opened? then StreamOpened(core, conn, answer.stream, token) else OpenFailed(core, token)
    case _ => if answer.Failed? then Fault(core, TransportFault, None, Some(action.conn)) else core
  }

  function Weight(action: Action): nat {
    if action.OpenStream? then 3 else 2
  }

  function ActionWeight(actions: seq<Action>): nat {
    if actions == [] then 0 else Weight(actions[0]) + ActionWeight(actions[1..])
  }

  /** The measure under which draining terminates: an open outweighs the header it leads to, every
      action outweighs the event it leads to. */
  function Load(core: Core): nat {
    ActionWeight(core.actions) + |core.events|
  }

  lemma {:induction false} ActionWeightMore(actions: seq<Action>, more: seq<Action>)
    ensures ActionWeight(actions + more) == ActionWeight(actions) + ActionWeight(more)
  {
    if actions == [] {
      assert actions + more == more;
    } else {
      ActionWeightMore(actions[1..], more);
      assert (actions + more)[1..] == actions[1..] + more;
    }
  }

  /** What one dispatch adds to the queues: a header for an opened stream, or an event, or nothing. */
  lemma ExecuteAdds(core: Core, action: Action, answer: Answer)
    ensures var d := Execute(core, action, answer);
            || (d.actions == core.actions && d.events == core.events && !action.OpenStream?)
            || (d.actions == core.actions && |d.events| == |core.events| + 1 && core.events <= d.events)
            || (action.OpenStream? && d.events == core.events && |d.actions| == |core.actions| + 1
                && core.actions <= d.actions && d.actions[|core.actions|].SendStream?)
  {
    hide Multistream.EncodeMessage, Swarm.Opened;
  }

  lemma ExecuteLighter(core: Core, action: Action, answer: Answer)
    ensures Load(Execute(core, action, answer)) < Load(core) + Weight(action)
  {
    hide Execute;
    var d := Execute(core, action, answer);
    ExecuteAdds(core, action, answer);
    if |d.actions| == |core.actions| + 1 {
      var last := d.actions[|core.actions|];
      assert d.actions == core.actions + [last];
      ActionWeightMore(core.actions, [last]);
      assert [last][1..] == [];
      assert ActionWeight([last]) == 2;
    }
  }

  /** One round of the drain loop: actions before events. */
  function Round(s: State, transport: Transport): State
    requires s.core.actions != [] || s.core.events != []
  {
    if s.core.actions != [] then
      var action := s.core.actions[0];
      var answer := transport(s.calls, action);
      State(Execute(s.core.(actions := s.core.actions[1..]), action, answer), s.buffer, s.calls + 1,
            if action.OpenStream? && answer.Opened? then Some(answer.stream) else s.captured)
    else s.(core := s.core.(events := s.core.events[1..]), buffer := s.buffer + [s.core.events[0]])
  }

  lemma RoundLighter(s: State, transport: Transport)
    requires s.core.actions != [] || s.core.events != []
    ensures Load(Round(s, transport).core) < Load(s.core)
  {
    hide Execute;
    if s.core.actions != [] {
      ExecuteLighter(s.core.(actions := s.core.actions[1..]), s.core.actions[0], transport(s.calls, s.core.actions[0]));
    }
  }

  /** The drain loop: rounds until the core has nothing left. */
  function Drain(s: State, transport: Transport): State
    decreases Load(s.core)
  {
    if s.core.actions == [] && s.core.events == [] then s
    else (RoundLighter(s, transport); Drain(Round(s, transport), transport))
  }

  /** The events that executing the actions raises, in order. */
  function Raised(s: State, transport: Transport): seq<Event>
    decreases Load(s.core)
  {
    if s.core.actions == [] && s.core.events == [] then []
    else
      var r := Round(s, transport);
      RoundLighter(s, transport);
      (if s.core.actions != [] && |s.core.events| <= |r.core.events| then r.core.events[|s.core.events|..] else [])
      + Raised(r, transport)
  }

  lemma RoundDelivers(s: State, transport: Transport, later: seq<Event>)
    requires s.core.actions != [] || s.core.events != []
    ensures var r := Round(s, transport);
            var raised := if s.core.actions != [] && |s.core.events| <= |r.core.events|
                          then r.core.events[|s.core.events|..] else [];
            r.buffer + (r.core.events + later) == s.buffer + (s.core.events + (raised + later))
  {
    hide Execute;
    var r := Round(s, transport);
    if s.core.actions != [] {
      ExecuteAdds(s.core.(actions := s.core.actions[1..]), s.core.actions[0], transport(s.calls, s.core.actions[0]));
      var raised := r.core.events[|s.core.events|..];
      assert r.core.events == s.core.events + raised;
      assert (s.core.events + raised) + later == s.core.events + (raised + later);
    } else {
      var first := s.core.events[0];
      assert s.core.events == [first] + r.core.events;
      assert [] + later == later;
      assert (s.buffer + [first]) + (r.core.events + later) == s.buffer + (([first] + r.core.events) + later);
    }
  }

  /** Draining leaves the core idle and hands the application, after what it already had, the events
      that were queued and those raised on the way, each once and in order. */
  lemma {:induction false} DrainDelivers(s: State, transport: Transport)
    ensures var d := Drain(s, transport);
            && d.core.actions == [] && d.core.events == []
            && d.buffer == s.buffer + (s.core.events + Raised(s, transport))
    decreases Load(s.core)
  {
    hide Execute, Load, Round;
    if s.core.actions == [] && s.core.events == [] {
      assert s.buffer + ([] + []) == s.buffer;
    } else {
      RoundLighter(s, transport);
      DrainDelivers(Round(s, transport), transport);
      RoundDelivers(s, transport, Raised(Round(s, transport), transport));
    }
  }

  // ----------------------------------------------------------------------- draining is a run

  /** What executing an action reports back to the core. */
  function ActionOps(action: Action, answer: Answer): seq<Op> {
    match action
    case OpenStream(conn, token) =>
      if answer.Opened? then [DriverOpened(conn, answer.stream, token)] else [DriverFailed(token)]
    case _ => if answer.Failed? then [DriverReports(TransportFault, Some(action.conn))] else []
  }

  function RoundOps(s: State, transport: Transport): seq<Op>
    requires s.core.actions != [] || s.core.events != []
  {
    [PollOutput] +
    if s.core.actions != [] then ActionOps(s.core.actions[0], transport(s.calls, s.core.actions[0])) else []
  }

  /** The drain loop as steps of the core. */
  function DrainOps(s: State, transport: Transport): seq<Op>
    decreases Load(s.core)
  {
    if s.core.actions == [] && s.core.events == [] then []
    else (RoundLighter(s, transport); RoundOps(s, transport) + DrainOps(Round(s, transport), transport))
  }

  /** An answer that opens a stream names a new one. */
  predicate FreshAnswer(action: Action, answer: Answer, env: Env) {
    action.OpenStream? && answer.Opened? ==> (action.conn, answer.stream) !in env.used
  }

  /** The transport keeps its contract while the core is drained: the streams it opens are new. */
  ghost predicate Obeys(s: State, env: Env, transport: Transport)
    decreases Load(s.core)
  {
    if s.core.actions == [] && s.core.events == [] then true
    else
      RoundLighter(s, transport);
      && (s.core.actions != [] ==> FreshAnswer(s.core.actions[0], transport(s.calls, s.core.actions[0]), env))
      && Obeys(Round(s, transport), Surroundings(env, RoundOps(s, transport)), transport)
  }

  /** The counter of tokens has not wrapped. */
  predicate Unwrapped(core: Core) {
    core.net.nextToken + 2 < TWO_64
  }

  ghost predicate Ready(s: State, env: Env, transport: Transport) {
    Unwrapped(s.core) && Obeys(s, env, transport)
  }

  lemma ActionIsRun(core: Core, env: Env, action: Action, answer: Answer)
    requires Inv(core, env) && Unwrapped(core) && FreshAnswer(action, answer, env)
    ensures var ops, d := ActionOps(action, answer), Execute(core, action, answer);
            && Lawful(core, env, ops) && Run(core, ops) == d && Inv(d, Surroundings(env, ops)) && Unwrapped(d)
  {
    hide Inv, Swarm.Opened, Multistream.EncodeMessage, Negotiating;
    var ops := ActionOps(action, answer);
    if ops != [] {
      var op := ops[0];
      NextKeeps(core, env, op);
      StepIs(core, op);
      assert ops[1..] == [];
      assert Run(core, ops) == Run(Next(core, op), []) == Next(core, op);
      assert Lawful(core, env, ops) by { assert Lawful(Next(core, op), Advance(env, op), []); }
      assert Surroundings(env, ops) == Surroundings(Advance(env, op), []) == Advance(env, op);
    }
  }

  lemma StepIs(core: Core, op: Op)
    requires Negotiating(core.net)
    ensures op.DriverOpened? ==> Step(core, op) == StreamOpened(core, op.id, op.stream, op.token)
    ensures op.DriverFailed? ==> Step(core, op) == OpenFailed(core, op.token)
    ensures op.DriverReports? ==> Step(core, op) == Fault(core, op.kind, None, op.on)
    ensures op.PollOutput? ==> Step(core, op) == Poll(core)
  {
    hide StreamOpened, OpenFailed, Negotiating;
  }

  lemma PollIsRun(core: Core, env: Env)
    requires Inv(core, env) && Unwrapped(core)
    ensures Lawful(core, env, [PollOutput]) && Run(core, [PollOutput]) == Poll(core)
    ensures Inv(Poll(core), env) && Unwrapped(Poll(core)) && Surroundings(env, [PollOutput]) == env
  {
    hide Inv, Negotiating, Step;
    var ops := [PollOutput];
    NextKeeps(core, env, PollOutput);
    StepIs(core, PollOutput);
    assert ops[1..] == [];
    assert Run(core, ops) == Run(Next(core, PollOutput), []) == Next(core, PollOutput);
    assert Lawful(core, env, ops) by { assert Lawful(Next(core, PollOutput), Advance(env, PollOutput), []); }
    assert Surroundings(env, ops) == Surroundings(env, []) == env;
  }

  lemma RoundIsRun(s: State, env: Env, transport: Transport)
    requires Inv(s.core, env) && Unwrapped(s.core) && (s.core.actions != [] || s.core.events != [])
    requires s.core.actions != [] ==> FreshAnswer(s.core.actions[0], transport(s.calls, s.core.actions[0]), env)
    ensures var ops, d := RoundOps(s, transport), Round(s, transport).core;
            && Lawful(s.core, env, ops) && Run(s.core, ops) == d && Inv(d, Surroundings(env, ops)) && Unwrapped(d)
  {
    hide Inv, Execute, Lawful, Run, Surroundings, Unwrapped, FreshAnswer;
    PollIsRun(s.core, env);
    if s.core.actions != [] {
      var action := s.core.actions[0];
      var answer := transport(s.calls, action);
      ActionIsRun(Poll(s.core), env, action, answer);
      RunAppend(s.core, env, [PollOutput], ActionOps(action, answer));
    } else {
      assert [PollOutput] + [] == [PollOutput];
    }
  }

  /** Draining against a transport that keeps its contract is a lawful run of the core, so that what
      holds of all lawful runs holds of driven cores, and the invariant is kept. */
  lemma {:induction false} DrainIsRun(s: State, env: Env, transport: Transport)
    requires Inv(s.core, env) && Ready(s, env, transport)
    ensures var ops, d := DrainOps(s, transport), Drain(s, transport).core;
            && Lawful(s.core, env, ops) && Run(s.core, ops) == d && Inv(d, Surroundings(env, ops)) && Unwrapped(d)
    decreases Load(s.core)
  {
    hide Inv, Execute, Unwrapped, FreshAnswer, Round, RoundOps, Load, Allowed, Next, Advance;
    if s.core.actions != [] || s.core.events != [] {
      var r, ops := Round(s, transport), RoundOps(s, transport);
      RoundLighter(s, transport);
      RoundIsRun(s, env, transport);
      DrainIsRun(r, Surroundings(env, ops), transport);
      RunAppend(s.core, env, ops, DrainOps(r, transport));
    }
  }

  // ------------------------------------------------------------------------ opening a stream

  /** `open_user_stream` on a drained core: the stream id it returns, or why not. */
  function OpenStreamOn(s: State, peer: PeerId, protocol: Blob, transport: Transport): (State, Option<CallError>) {
    var (core, e) := OpenUserStream(s.core, peer, protocol);
    if e.Some? then (s, e) else (Drain(s.(core := core, captured := None), transport), None)
  }

  predicate NoOpens(actions: seq<Action>) {
    forall i :: 0 <= i < |actions| ==> !actions[i].OpenStream?
  }

  /** A drain that has only messages to send opens nothing and leaves the tables alone. */
  lemma {:induction false} DrainQuietly(s: State, transport: Transport)
    requires NoOpens(s.core.actions)
    ensures Drain(s, transport).core.net == s.core.net && Drain(s, transport).captured == s.captured
    decreases Load(s.core)
  {
    if s.core.actions != [] || s.core.events != [] {
      var r := Round(s, transport);
      RoundLighter(s, transport);
      DrainQuietly(r, transport);
    }
  }

  /** The last stream opened for some actions, or the one captured before. */
  function LastOpened(actions: seq<Action>, calls: nat, transport: Transport, captured: Option<StreamId>)
    : Option<StreamId>
    decreases |actions|
  {
    if actions == [] then captured
    else
      var answer := transport(calls, actions[0]);
      LastOpened(actions[1..], calls + 1, transport,
                 if actions[0].OpenStream? && answer.Opened? then Some(answer.stream) else captured)
  }

  /** An open that waits in the queue, with other opens before it and none behind it. */
  ghost predicate Queued(s: State, front: seq<Action>, own: Action, back: seq<Action>) {
    && s.core.actions == front + [own] + back && own.OpenStream? && NoOpens(back)
    && (forall i :: 0 <= i < |front| && front[i].OpenStream? ==> front[i].token != own.token)
    && own.token in s.core.net.opens && s.core.net.opens[own.token].conn == own.conn
  }

  /** What is queued before it does not touch it. */
  lemma RoundBefore(s: State, front: seq<Action>, own: Action, back: seq<Action>, transport: Transport)
    returns (more: seq<Action>)
    requires Queued(s, front, own, back) && front != []
    ensures var r := Round(s, transport);
            && Queued(r, front[1..], own, more) && r.core.net.opens[own.token] == s.core.net.opens[own.token]
            && r.calls == s.calls + 1
            && LastOpened(front, s.calls, transport, s.captured)
               == LastOpened(front[1..], r.calls, transport, r.captured)
  {
    hide Execute;
    var action, r := front[0], Round(s, transport);
    var waiting := s.core.(actions := s.core.actions[1..]);
    var answer := transport(s.calls, action);
    assert s.core.actions[0] == action && waiting.actions == front[1..] + [own] + back;
    ExecuteAdds(waiting, action, answer);
    ExecuteSpares(waiting, action, answer, own.token);
    if r.core.actions == waiting.actions {
      more := back;
    } else {
      more := back + [r.core.actions[|waiting.actions|]];
      assert r.core.actions == waiting.actions + [r.core.actions[|waiting.actions|]];
      assert r.core.actions == front[1..] + [own] + more;
    }
  }

  lemma ExecuteSpares(core: Core, action: Action, answer: Answer, token: u64)
    requires token in core.net.opens && (action.OpenStream? ==> action.token != token)
    ensures var d := Execute(core, action, answer);
            token in d.net.opens && d.net.opens[token] == core.net.opens[token]
  {
    hide Swarm.Opened, Multistream.EncodeMessage;
  }

  lemma RoundOwn(s: State, own: Action, back: seq<Action>, transport: Transport)
    requires Queued(s, [], own, back)
    ensures var r, answer := Round(s, transport), transport(s.calls, own);
            && NoOpens(r.core.actions) && own.token !in r.core.net.opens
            && r.captured == (if answer.Opened? then Some(answer.stream) else s.captured)
            && r.core.net.outbound ==
               if answer.Opened?
               then var open := s.core.net.opens[own.token];
                    s.core.net.outbound[(own.conn, answer.stream) :=
                      PendingOutbound(Swarm.Opened(Multistream.Dialer(open.protocol)), open.target)]
               else s.core.net.outbound
  {
    hide Swarm.Opened, Multistream.EncodeMessage;
    assert s.core.actions[0] == own && s.core.actions[1..] == back;
  }

  lemma {:induction false} OpenReached(s: State, front: seq<Action>, own: Action, back: seq<Action>,
                                       transport: Transport)
    requires Queued(s, front, own, back)
    ensures var d, answer := Drain(s, transport), transport(s.calls + |front|, own);
            var open := s.core.net.opens[own.token];
            && own.token !in d.core.net.opens
            && d.captured == (if answer.Opened? then Some(answer.stream)
                              else LastOpened(front, s.calls, transport, s.captured))
            && (answer.Opened? ==>
                  && (own.conn, answer.stream) in d.core.net.outbound
                  && d.core.net.outbound[(own.conn, answer.stream)] ==
                     PendingOutbound(Swarm.Opened(Multistream.Dialer(open.protocol)), open.target))
    decreases |front|
  {
    hide Round, Swarm.Opened, LastOpened;
    RoundLighter(s, transport);
    var r := Round(s, transport);
    if front == [] {
      RoundOwn(s, own, back, transport);
      DrainQuietly(r, transport);
      assert LastOpened([], s.calls, transport, s.captured) == s.captured by { LastOfNone(s, transport); }
    } else {
      var more := RoundBefore(s, front, own, back, transport);
      OpenReached(r, front[1..], own, more, transport);
    }
  }

  lemma LastOfNone(s: State, transport: Transport)
    ensures LastOpened([], s.calls, transport, s.captured) == s.captured
  {
  }

  /** Opening a user stream returns the stream that the transport opened for the call's own token: that
      stream is then negotiating the protocol asked for, on the peer's connection. When the transport
      refuses, the token is no longer pending and what is returned is the last stream opened for
      actions that were queued before the call, so nothing on a drained core. */
  lemma OpenReturnsOwnStream(s: State, peer: PeerId, protocol: Blob, transport: Transport)
    requires OpenUserStream(s.core, peer, protocol).1.None? && 1 <= s.core.net.nextToken && Unwrapped(s.core)
    requires forall i :: 0 <= i < |s.core.actions| && s.core.actions[i].OpenStream? ==>
               s.core.actions[i].token < s.core.net.nextToken
    ensures peer in s.core.net.peerToConn
    ensures var d := OpenStreamOn(s, peer, protocol, transport).0;
            var conn, token := s.core.net.peerToConn[peer], s.core.net.nextToken;
            var answer := transport(s.calls + |s.core.actions|, OpenStream(conn, token));
            && token !in d.core.net.opens
            && (if answer.Opened?
                then
                  && d.captured == Some(answer.stream)
                  && (conn, answer.stream) in d.core.net.outbound
                  && d.core.net.outbound[(conn, answer.stream)] ==
                     PendingOutbound(Swarm.Opened(Multistream.Dialer(protocol)), User(protocol))
                else
                  && d.captured == LastOpened(s.core.actions, s.calls, transport, None)
                  && (s.core.actions == [] ==> d.captured == None && d.core.net.outbound == s.core.net.outbound))
  {
    hide Swarm.Opened, Multistream.EncodeMessage, Drain;
    var core := OpenUserStream(s.core, peer, protocol).0;
    var own := OpenStream(s.core.net.peerToConn[peer], s.core.net.nextToken);
    var start := s.(core := core, captured := None);
    assert core.actions == s.core.actions + [own] + [];
    OpenReached(start, s.core.actions, own, [], transport);
    if s.core.actions == [] {
      RoundOwn(start, own, [], transport);
      DrainQuietly(Round(start, transport), transport);
      DrainFirst(start, transport);
    }
  }

  lemma DrainFirst(s: State, transport: Transport)
    requires s.core.actions != [] || s.core.events != []
    ensures Drain(s, transport) == Drain(Round(s, transport), transport)
  {
    RoundLighter(s, transport);
  }

  // ----------------------------------------------------------------------- imperative form

  class SwarmDriver {
    const core: SwarmObject.SwarmCore
    const transport: Transport
    var eventBuffer: seq<Event>
    var calls: nat

    constructor (core: SwarmObject.SwarmCore, transport: Transport)
      ensures this.core == core && this.transport == transport && eventBuffer == [] && calls == 0
    {
      this.core, this.transport, eventBuffer, calls := core, transport, [], 0;
    }

    ghost function View(captured: Option<StreamId>): State
      reads this, core, core.ping, core.identify
    {
      State(core.View(), eventBuffer, calls, captured)
    }

    /** The transport keeps its contract while the core is drained as it stands. */
    ghost predicate Obeyed(captured: Option<StreamId>)
      reads this, core, core.ping, core.identify
    {
      core.Valid() && Ready(View(captured), core.env, transport)
    }

    method DispatchAction(action: Action, captured: Option<StreamId>) returns (now: Option<StreamId>)
      modifies this, core
      ensures View(now) == var answer := transport(old(calls), action);
                           State(Execute(old(core.View()), action, answer), old(eventBuffer), old(calls) + 1,
                                 if action.OpenStream? && answer.Opened? then Some(answer.stream) else captured)
      ensures core.env == Surroundings(old(core.env), ActionOps(action, transport(old(calls), action)))
    {
      hide StreamOpened, OpenFailed;
      var answer := transport(calls, action);
      calls := calls + 1;
      now := captured;
      if action.OpenStream? {
        if answer.Opened? {
          now := Some(answer.stream);
          core.HandleStreamOpened(action.conn, answer.stream, action.token);
        } else {
          core.HandleOpenStreamFailed(action.token);
        }
      } else if answer.Failed? {
        core.EmitError(TransportFault, None, Some(action.conn));
      }
      core.env := Surroundings(core.env, ActionOps(action, answer));
    }

    /** The drain loop; it ends because every round makes the core's load smaller. */
    method FlushActions(captured: Option<StreamId>) returns (now: Option<StreamId>)
      modifies this, core
      ensures View(now) == Drain(old(View(captured)), transport)
      ensures core.env == Surroundings(old(core.env), DrainOps(old(View(captured)), transport))
      ensures old(Obeyed(captured)) ==> core.Valid() && Unwrapped(core.View())
    {
      hide Execute, Inv, Unwrapped, Obeys, Surroundings, ActionOps, Drain, DrainOps, Ready, Load, Round;
      if Obeyed(captured) {
        DrainIsRun(View(captured), core.env, transport);
      }
      now := captured;
      while true
        invariant Drain(View(now), transport) == Drain(old(View(captured)), transport)
        invariant Surroundings(core.env, DrainOps(View(now), transport))
               == Surroundings(old(core.env), DrainOps(old(View(captured)), transport))
        decreases Load(core.View())
      {
        ghost var before, env := View(now), core.env;
        if core.actions != [] || core.events != [] {
          RoundLighter(before, transport);
          RoundAdvances(before, env, transport);
          DrainFirst(before, transport);
        }
        var busy;
        now, busy := TakeOutput(now);
        if !busy {
          IdleStays(before, env, transport);
          return;
        }
      }
    }

    /** One round of the drain loop, unless the core has nothing to put out. */
    method TakeOutput(captured: Option<StreamId>) returns (now: Option<StreamId>, busy: bool)
      modifies this, core
      ensures busy == (old(core.actions) != [] || old(core.events) != [])
      ensures View(now) == if busy then Round(old(View(captured)), transport) else old(View(captured))
      ensures core.env == if old(core.actions) == [] then old(core.env)
                          else
                            var action := old(core.actions)[0];
                            Surroundings(old(core.env), ActionOps(action, transport(old(calls), action)))
    {
      hide Execute, Inv, Surroundings, ActionOps;
      now, busy := captured, true;
      var action, event := core.PollNext();
      if action.Some? {
        now := DispatchAction(action.value, now);
      } else if event.Some? {
        eventBuffer := eventBuffer + [event.value];
      } else {
        busy := false;
      }
    }

    /** `open_user_stream`: asks the core, drains, and returns the stream opened meanwhile. */
    method OpenUser(peer: PeerId, protocol: Blob) returns (stream: Option<StreamId>, error: Option<CallError>)
      requires core.Valid() && Unwrapped(core.View())
      modifies this, core
      ensures error == OpenUserStream(old(core.View()), peer, protocol).1
      ensures error.None? ==> View(stream) == OpenStreamOn(old(View(None)), peer, protocol, transport).0
      ensures error.Some? ==> View(stream) == old(View(None)) && core.Valid()
      ensures error.None? && old(Ready(Asked(View(None), peer, protocol), core.env, transport)) ==>
                core.Valid() && Unwrapped(core.View())
    {
      hide OpenUserStream, Drain, Inv, Obeys;
      stream := None;
      AskedKeeps(View(None), core.env, peer, protocol);
      error := core.OpenStreamFor(peer, protocol);
      if error.None? {
        stream := FlushActions(None);
      }
    }

    /** The end of `poll`: drains, and hands over everything buffered. */
    method TakeEvents() returns (events: seq<Event>)
      modifies this, core
      ensures events == old(eventBuffer) + (old(core.events) + Raised(old(View(None)), transport))
      ensures eventBuffer == [] && core.actions == [] && core.events == []
      ensures core.env == Surroundings(old(core.env), DrainOps(old(View(None)), transport))
      ensures core.View() == Drain(old(View(None)), transport).core
      ensures old(Obeyed(None)) ==> core.Valid() && Unwrapped(core.View())
    {
      hide Drain, Raised, Inv, Obeys, DrainOps, Surroundings, Unwrapped;
      DrainDelivers(View(None), transport);
      var _ := FlushActions(None);
      events := eventBuffer;
      eventBuffer := [];
    }

    /** `poll`: refreshes the addresses, feeds the transport's events and a tick to the core, drains, and
        hands over the application's events. When polling the transport fails (`reported` is `None`) it
        returns at once, with the addresses refreshed and everything else as it was. */
    method PollSwarm(addrs: seq<Blob>, reported: Option<seq<Op>>, nowMs: u64, order: seq<PeerId>)
      returns (events: Option<seq<Event>>)
      requires core.Valid() && Lawful(core.View(), core.env, Fed(addrs, reported, nowMs, order))
      modifies this, core, core.ping, core.identify
      ensures events.Some? <==> reported.Some?
      ensures var ops := Fed(addrs, reported, nowMs, order);
              var now := old(View(None)).(core := Run(old(core.View()), ops));
              if reported.None? then
                View(None) == now && core.Valid() && core.env == Surroundings(old(core.env), ops)
              else
                && events == Some(old(eventBuffer) + (now.core.events + Raised(now, transport)))
                && core.View() == Drain(now, transport).core
                && eventBuffer == [] && core.actions == [] && core.events == []
                && (Ready(now, Surroundings(old(core.env), ops), transport) ==> core.Valid() && Unwrapped(core.View()))
    {
      hide Drain, Raised, Inv, Obeys, DrainOps, Allowed, Advance, Unwrapped, Step, Negotiating, Fed;
      var ops, i := Fed(addrs, reported, nowMs, order), 0;
      while i < |ops|
        invariant 0 <= i <= |ops|
        invariant core.Valid() && Lawful(core.View(), core.env, ops[i..])
        invariant Run(core.View(), ops[i..]) == Run(old(core.View()), ops)
        invariant Surroundings(core.env, ops[i..]) == Surroundings(old(core.env), ops)
        invariant eventBuffer == old(eventBuffer) && calls == old(calls)
      {
        assert ops[i..][0] == ops[i] && ops[i..][1..] == ops[i + 1..];
        core.Handle(ops[i]);
        i := i + 1;
      }
      assert ops[i..] == [];
      NoneAdvance(core.env);
      if reported.None? {
        return None;
      }
      var taken := TakeEvents();
      return Some(taken);
    }
  }

  /** What `poll` feeds to the core: the addresses, and unless polling the transport fails, its events
      and a tick. */
  function Fed(addrs: seq<Blob>, reported: Option<seq<Op>>, nowMs: u64, order: seq<PeerId>): seq<Op> {
    [CallSetAddresses(addrs)] + if reported.Some? then reported.value + [Ticks(nowMs, order)] else []
  }

  lemma RoundAdvances(s: State, env: Env, transport: Transport)
    requires s.core.actions != [] || s.core.events != []
    ensures Surroundings(env, DrainOps(s, transport)) == Surroundings(
              if s.core.actions == [] then env
              else Surroundings(env, ActionOps(s.core.actions[0], transport(s.calls, s.core.actions[0]))),
              DrainOps(Round(s, transport), transport))
  {
    hide Execute, Advance, ActionOps;
    RoundLighter(s, transport);
    var later := DrainOps(Round(s, transport), transport);
    RunAppend(s.core, env, RoundOps(s, transport), later);
    var acts := if s.core.actions == [] then []
                else ActionOps(s.core.actions[0], transport(s.calls, s.core.actions[0]));
    RunAppend(s.core, env, [PollOutput], acts);
    PollAdvances(env);
    NoneAdvance(env);
  }

  lemma PollAdvances(env: Env)
    ensures Surroundings(env, [PollOutput]) == env
  {
    assert [PollOutput][1..] == [];
    assert Surroundings(env, [PollOutput]) == Surroundings(Advance(env, PollOutput), []);
  }

  lemma IdleStays(s: State, env: Env, transport: Transport)
    requires s.core.actions == [] && s.core.events == []
    ensures Drain(s, transport) == s && Surroundings(env, DrainOps(s, transport)) == env
  {
  }

  lemma NoneAdvance(env: Env)
    ensures Surroundings(env, []) == env
  {
  }

  /** The driver's state once the core has been asked for a user stream. */
  function Asked(s: State, peer: PeerId, protocol: Blob): State {
    s.(core := OpenUserStream(s.core, peer, protocol).0, captured := None)
  }

  lemma AskedKeeps(s: State, env: Env, peer: PeerId, protocol: Blob)
    requires Inv(s.core, env) && Unwrapped(s.core)
    ensures OpenAsserts(s.core.net, peer)
    ensures OpenUserStream(s.core, peer, protocol).1.Some? ==> OpenUserStream(s.core, peer, protocol).0 == s.core
    ensures Inv(OpenUserStream(s.core, peer, protocol).0, env)
  {
    hide Inv;
    Points(s.core, env);
    SwarmSteps.OpenUserStreamKeeps(s.core, env, peer, protocol);
  }
}
