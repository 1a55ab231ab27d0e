/** What the swarm asks of the transport over whole runs: which streams it opens, what it does on whose
    behalf, and what the application's calls come to. */
module SwarmTraffic {
  import opened Bytes
  import opened Ids
  import opened Swarm
  import opened SwarmRouting
  import opened SwarmInvariant
  import opened SwarmSteps
  import opened SwarmEffects
  import opened SwarmRuns
  import opened SwarmAgreement
  import opened SwarmScripts
  import opened SwarmActions
  import opened SwarmTables
  import SwarmEvents
  import Multistream
  import Ping
  import Identify

  // ------------------------------------------------------------------------------------- runs

  /** The actions a step queues, and the action it hands to the driver. */
  function Puts(c: Core, d: Core, op: Op): seq<Action> {
    if !op.PollOutput? && |c.actions| <= |d.actions| then d.actions[|c.actions|..] else []
  }

  function Takes(c: Core, op: Op): seq<Action> {
    if op.PollOutput? && c.actions != [] then [c.actions[0]] else []
  }

  ghost function AllPuts(c: Core, ops: seq<Op>): seq<Action>
    decreases |ops|
  {
    if ops == [] then [] else Puts(c, Next(c, ops[0]), ops[0]) + AllPuts(Next(c, ops[0]), ops[1..])
  }

  ghost function AllTakes(c: Core, ops: seq<Op>): seq<Action>
    decreases |ops|
  {
    if ops == [] then [] else Takes(c, ops[0]) + AllTakes(Next(c, ops[0]), ops[1..])
  }

  /** The script of a step; draining an output is none. */
  ghost function Plan(c: Core, op: Op): seq<Doing> {
    if Negotiating(c.net) && c.net.nextToken + 2 < TWO_64 && !op.PollOutput? then Script(c, op) else []
  }

  // ----------------------------------------------------------------------------------- tokens

  /** The tokens of the streams asked for, in order. */
  function Tokens(actions: seq<Action>): seq<nat> {
    if actions == [] then []
    else (if actions[0].OpenStream? then [actions[0].token] else []) + Tokens(actions[1..])
  }

  lemma {:induction false} TokensAppend(a: seq<Action>, b: seq<Action>)
    ensures Tokens(a + b) == Tokens(a) + Tokens(b)
  {
    if a == [] {
      assert a + b == b;
    } else {
      TokensAppend(a[1..], b);
      assert (a + b)[1..] == a[1..] + b;
      var head: seq<nat> := if a[0].OpenStream? then [a[0].token] else [];
      assert head + (Tokens(a[1..]) + Tokens(b)) == (head + Tokens(a[1..])) + Tokens(b);
    }
  }

  /** The numbers from `low` up to but not including `high`. */
  function Range(low: nat, high: nat): (r: seq<nat>)
    ensures low <= high ==> |r| == high - low
    ensures forall i :: 0 <= i < |r| ==> r[i] == low + i
  {
    if low <= high then seq(high - low, i => low + i) else []
  }

  lemma {:induction false} OpensTokens(token: nat, asked: seq<PendingOpen>)
    requires token + |asked| < TWO_64
    ensures Tokens(Deeds(Opens(token, asked))) == Range(token, token + |asked|)
    decreases |asked|
  {
    if asked != [] {
      OpensTokens(token + 1, asked[1..]);
      var opens := Opens(token, asked);
      assert opens[1..] == Opens(token + 1, asked[1..]);
      assert Deeds(opens) == [opens[0].action] + Deeds(opens[1..]);
      assert Deeds(opens)[1..] == Deeds(opens[1..]);
      RangeJoin(token, token + 1, token + |asked|);
    }
  }

  /** Only the end of a script opens streams. */
  predicate Unopening(script: seq<Doing>) {
    forall i :: 0 <= i < |script| && script[i].Does? ==> !script[i].action.OpenStream?
  }

  lemma {:induction false} RoutePingTokens(net: Net, actions: seq<Ping.Action>)
    ensures Tokens(RoutePing(net, actions)) == []
  {
    hide ConnForOwned;
    if actions != [] {
      RoutePingTokens(net, actions[1..]);
      var one := RoutePingOne(net, actions[0]);
      TokensAppend(one, RoutePing(net, actions[1..]));
      assert one == [] || one[1..] == [];
    }
  }

  lemma {:induction false} RouteIdentifyTokens(net: Net, actions: seq<Identify.Action>)
    ensures Tokens(RouteIdentify(net, actions)) == []
  {
    if actions != [] {
      RouteIdentifyTokens(net, actions[1..]);
      var one := RouteIdentifyOne(net, actions[0]);
      TokensAppend(one, RouteIdentify(net, actions[1..]));
      assert one == [] || one[1..] == [];
    }
  }

  lemma {:induction false} UnopeningTokens(net: Net, m: Ping.Machine, n: Identify.Machine, script: seq<Doing>)
    requires Unopening(script)
    ensures Tokens(Acts(net, m, n, script)) == []
    decreases |script|
  {
    hide PingDoes, IdentifyDoes, RoutePing, RouteIdentify, Ping.Handle, Identify.Handle;
    if script != [] {
      var x := script[0];
      UnopeningTokens(net, PingDoes(m, x), IdentifyDoes(n, x), script[1..]);
      TokensAppend(ActsOne(net, m, n, x), Acts(net, PingDoes(m, x), IdentifyDoes(n, x), script[1..]));
      if x.PingIn? {
        RoutePingTokens(net, Ping.Handle(m, x.ping).0.actions);
      } else if x.IdentifyIn? {
        RouteIdentifyTokens(net, Identify.Handle(n, x.identify).0.actions);
      } else if x.Does? {
        assert [x.action][1..] == [];
      }
    }
  }

  lemma {:induction false} SayingUnopening(key: Key, outputs: seq<Multistream.Output>)
    ensures Unopening(Saying(key, outputs))
  {
    if outputs != [] {
      SayingUnopening(key, outputs[1..]);
    }
  }

  lemma PartUnopening(c: Core, op: Op)
    requires Negotiating(c.net)
    ensures Unopening(Part(c, op))
  {
    hide Negotiating, Saying, UserConns, Least, PingTaken, Multistream.EncodeMessage, FedIn, FedOut, Verdict,
         DataScript, InfoThen, ReadyThen, PublicName;
    if op.DataArrives? {
      DataUnopening(c, (op.id, op.stream), op.data, op.nowMs);
    }
  }

  lemma DataUnopening(c: Core, key: Key, data: Blob, nowMs: u64)
    requires Negotiating(c.net)
    ensures Unopening(DataScript(c, key, data, nowMs))
  {
    hide Saying, Multistream.Receive, PingTaken, Verdict, Complains;
    if key in c.net.inbound {
      SayingUnopening(key, FedIn(c, key, data).pending);
    } else if key in c.net.outbound {
      SayingUnopening(key, FedOut(c, key, data).pending);
    }
  }

  /** The opens of a script take the next tokens. */
  lemma ScriptTokens(c: Core, net: Net, op: Op)
    requires Negotiating(c.net) && c.net.nextToken + 2 < TWO_64
    ensures Tokens(Acts(net, c.ping, c.identify, Script(c, op)))
         == Range(c.net.nextToken, c.net.nextToken + |Asked(c, op)|)
  {
    hide Negotiating, Part, Acts, Asked, Opens, Tokens, Range, PingAfter, IdentifyAfter, Plainly, Unopening;
    var part, asked, t := Part(c, op), Asked(c, op), c.net.nextToken;
    var opens := Opens(t, asked);
    var m, n := PingAfter(c.ping, part), IdentifyAfter(c.identify, part);
    ActsAppend(net, c.ping, c.identify, part, opens);
    OpensPlain(t, asked);
    PlainActs(net, c.app, m, n, opens);
    TokensAppend(Acts(net, c.ping, c.identify, part), Acts(net, m, n, opens));
    PartUnopening(c, op);
    UnopeningTokens(net, c.ping, c.identify, part);
    OpensTokens(t, asked);
    assert [] + Tokens(Deeds(opens)) == Tokens(Deeds(opens));
  }

  /** A step as the run sees it. */
  lemma NextPerforms(c: Core, env: Env, op: Op)
    requires Inv(c, env) && Allowed(env, c, op)
    ensures var d := Next(c, op);
            && Takes(c, op) + d.actions == c.actions + Puts(c, d, op)
            && Tokens(Puts(c, d, op)) == Range(c.net.nextToken, d.net.nextToken) && c.net.nextToken <= d.net.nextToken
            && Puts(c, d, op) == Acts(d.net, c.ping, c.identify, Plan(c, op))
            && d.ping == PingAfter(c.ping, Plan(c, op)) && d.identify == IdentifyAfter(c.identify, Plan(c, op))
  {
    hide Inv, Step, Negotiating, Script, Acts, News, PingAfter, IdentifyAfter, Asked, Tokens, Range, RenameEvents;
    NextKeeps(c, env, op);
    StepOpens(c, env, op);
    var d := Next(c, op);
    if op.PollOutput? {
      PollTakes(c);
      ScriptNone(d.net, c.app, c.ping, c.identify);
      NoTokens(c.net.nextToken);
    } else {
      StepPerforms(c, env, op);
      ScriptTokens(c, d.net, op);
      assert d.actions[|c.actions|..] == Acts(d.net, c.ping, c.identify, Plan(c, op));
    }
  }

  lemma PollTakes(c: Core)
    requires Negotiating(c.net)
    ensures var d := Step(c, PollOutput);
            && Takes(c, PollOutput) + d.actions == c.actions && d.net == c.net && d.ping == c.ping
            && d.identify == c.identify
  {
    hide Negotiating, Register, Upgrade, StreamData, RemoteWriteClosed, StreamClosed, ConnClosed, IncomingStream,
         StreamOpened, OpenFailed, DrainPing, DrainIdentify, PingPeer, OpenUserStream, UserStreamCall, AddUserProtocol;
    assert c.actions != [] ==> [c.actions[0]] + c.actions[1..] == c.actions;
  }

  /** Actions in order: what the driver has been handed and what is still queued is exactly what was
      queued, nothing lost, repeated, reordered or changed. */
  lemma {:induction false} ActionsInOrder(c: Core, env: Env, ops: seq<Op>)
    requires Inv(c, env) && Lawful(c, env, ops)
    ensures AllTakes(c, ops) + Run(c, ops).actions == c.actions + AllPuts(c, ops)
    decreases |ops|
  {
    hide Inv, Next, Allowed, Advance, Puts, Takes, Plan;
    if ops != [] {
      var d, rest := Next(c, ops[0]), ops[1..];
      NextKeeps(c, env, ops[0]);
      NextPerforms(c, env, ops[0]);
      ActionsInOrder(d, Advance(env, ops[0]), rest);
      Regroup(Takes(c, ops[0]), AllTakes(d, rest), Run(c, ops).actions, d.actions, AllPuts(d, rest), c.actions,
              Puts(c, d, ops[0]));
    }
  }

  lemma Regroup(h: seq<Action>, hs: seq<Action>, end: seq<Action>, mid: seq<Action>, qs: seq<Action>,
                start: seq<Action>, q: seq<Action>)
    requires hs + end == mid + qs && h + mid == start + q
    ensures (h + hs) + end == start + (q + qs)
  {
    assert (h + hs) + end == h + (hs + end);
    assert h + (mid + qs) == (h + mid) + qs;
    assert (start + q) + qs == start + (q + qs);
  }

  lemma {:induction false} RunTokens(c: Core, env: Env, ops: seq<Op>)
    requires Inv(c, env) && Lawful(c, env, ops)
    ensures c.net.nextToken <= Run(c, ops).net.nextToken
    ensures Tokens(AllPuts(c, ops)) == Range(c.net.nextToken, Run(c, ops).net.nextToken)
    decreases |ops|
  {
    hide Inv, Next, Allowed, Advance, Puts, Plan, Takes, Tokens, Range, Sends;
    if ops == [] {
      NoTokens(c.net.nextToken);
    } else {
      var d, rest := Next(c, ops[0]), ops[1..];
      NextKeeps(c, env, ops[0]);
      NextPerforms(c, env, ops[0]);
      RunTokens(d, Advance(env, ops[0]), rest);
      TokensAppend(Puts(c, d, ops[0]), AllPuts(d, rest));
      RangeJoin(c.net.nextToken, d.net.nextToken, Run(d, rest).net.nextToken);
    }
  }

  lemma NoTokens(n: nat)
    ensures Tokens([]) == Range(n, n)
  {
  }

  lemma RangeJoin(a: nat, b: nat, c: nat)
    requires a <= b <= c
    ensures Range(a, b) + Range(b, c) == Range(a, c)
  {
  }

  lemma {:induction false} TokenListed(actions: seq<Action>, i: nat)
    requires i < |actions| && actions[i].OpenStream?
    ensures actions[i].token in Tokens(actions)
  {
    if i > 0 {
      TokenListed(actions[1..], i - 1);
    }
  }

  /** No token is handed to the driver twice: over every run, the `OpenStream` actions carry strictly
      increasing tokens, one for each value the counter took. */
  lemma TokensDistinct(config: Identify.Config, timeoutMs: u64, ops: seq<Op>, i: nat, j: nat)
    requires Lawful(New(config, timeoutMs), NOWHERE, ops)
    ensures var c := New(config, timeoutMs);
            && Tokens(AllPuts(c, ops)) == Range(1, Run(c, ops).net.nextToken)
            && (i < j < |AllPuts(c, ops)| && AllPuts(c, ops)[i].OpenStream? && AllPuts(c, ops)[j].OpenStream? ==>
                  AllPuts(c, ops)[i].token < AllPuts(c, ops)[j].token)
  {
    hide Lawful, Run, AllPuts, Tokens;
    InvNew(config, timeoutMs);
    var c := New(config, timeoutMs);
    RunTokens(c, NOWHERE, ops);
    var puts := AllPuts(c, ops);
    if i < j < |puts| && puts[i].OpenStream? && puts[j].OpenStream? {
      var front, back := puts[..j], puts[j..];
      assert puts == front + back;
      TokensAppend(front, back);
      assert front[i] == puts[i] && back[0] == puts[j];
      TokenListed(front, i);
      TokenListed(back, 0);
      Ascending(Tokens(front), Tokens(back), 1, Run(c, ops).net.nextToken, puts[i].token, puts[j].token);
    }
  }

  /** Tokens still queued come from the counter, so a new one is none of them. */
  lemma QueuedTokens(config: Identify.Config, timeoutMs: u64, ops: seq<Op>)
    requires Lawful(New(config, timeoutMs), NOWHERE, ops)
    ensures var c := Run(New(config, timeoutMs), ops);
            forall i :: 0 <= i < |c.actions| && c.actions[i].OpenStream? ==> 1 <= c.actions[i].token < c.net.nextToken
  {
    hide Lawful, Run, AllPuts, AllTakes, Tokens;
    InvNew(config, timeoutMs);
    var start := New(config, timeoutMs);
    RunTokens(start, NOWHERE, ops);
    ActionsInOrder(start, NOWHERE, ops);
    var c, taken, all := Run(start, ops), AllTakes(start, ops), AllPuts(start, ops);
    assert taken + c.actions == all by { assert [] + all == all; }
    forall i | 0 <= i < |c.actions| && c.actions[i].OpenStream?
      ensures 1 <= c.actions[i].token < c.net.nextToken
    {
      assert (taken + c.actions)[|taken| + i] == c.actions[i];
      TokenListed(all, |taken| + i);
    }
  }

  lemma Ascending(front: seq<nat>, back: seq<nat>, low: nat, high: nat, x: nat, y: nat)
    requires front + back == Range(low, high) && x in front && y in back
    ensures x < y
  {
    var i :| 0 <= i < |front| && front[i] == x;
    var j :| 0 <= j < |back| && back[j] == y;
    var all := front + back;
    assert all[i] == x && all[|front| + j] == y;
  }

  // --------------------------------------------------------------------- what is told on whose behalf

  /** The events a step queues are those of its script. */
  lemma NewsOfStep(c: Core, env: Env, op: Op)
    requires Inv(c, env) && Allowed(env, c, op)
    ensures var d := Next(c, op);
            SwarmEvents.Queues(c, d, op) == News(d.net, c.app, c.ping, c.identify, Plan(c, op))
  {
    hide Inv, Step, Negotiating, Script, Acts, News, PingAfter, IdentifyAfter, RenameEvents;
    NextKeeps(c, env, op);
    var d := Next(c, op);
    if op.PollOutput? {
      ScriptNone(d.net, c.app, c.ping, c.identify);
    } else {
      StepPerforms(c, env, op);
      assert d.events[|c.events|..] == News(d.net, c.app, c.ping, c.identify, Plan(c, op));
    }
  }

  /** What a run tells: `m` and `n` are a ping and an identify machine outside the swarm, which are given
      the inputs of the scripts and nothing else. */
  ghost function RunNews(c: Core, m: Ping.Machine, n: Identify.Machine, ops: seq<Op>): seq<Event>
    decreases |ops|
  {
    if ops == [] then []
    else
      var d, plan := Next(c, ops[0]), Plan(c, ops[0]);
      News(d.net, c.app, m, n, plan) + RunNews(d, PingAfter(m, plan), IdentifyAfter(n, plan), ops[1..])
  }

  lemma {:induction false} RunTells(c: Core, env: Env, ops: seq<Op>)
    requires Inv(c, env) && Lawful(c, env, ops)
    ensures SwarmEvents.Queued(c, ops) == RunNews(c, c.ping, c.identify, ops)
    decreases |ops|
  {
    hide Inv, Next, Allowed, Advance, Puts, Plan, Takes, News, Acts, PingAfter, IdentifyAfter, Tokens, Range,
         SwarmEvents.Queues;
    if ops != [] {
      NextKeeps(c, env, ops[0]);
      NextPerforms(c, env, ops[0]);
      NewsOfStep(c, env, ops[0]);
      RunTells(Next(c, ops[0]), Advance(env, ops[0]), ops[1..]);
    }
  }

  /** Over every run, the events queued for the application are exactly those the core owes for each event
      and call, and those that ping and identify, run on their own, report: in order, each once. */
  lemma NewsOfRun(config: Identify.Config, timeoutMs: u64, ops: seq<Op>)
    requires Lawful(New(config, timeoutMs), NOWHERE, ops)
    ensures var c := New(config, timeoutMs);
            SwarmEvents.Queued(c, ops) == RunNews(c, Ping.New(timeoutMs), Identify.New(config), ops)
  {
    hide Lawful, RunNews, SwarmEvents.Queued;
    InvNew(config, timeoutMs);
    RunTells(New(config, timeoutMs), NOWHERE, ops);
  }
}
