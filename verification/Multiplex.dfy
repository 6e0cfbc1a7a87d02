/** Any number of client connections to one host: the client side of module Client, the host side
    of module Host, and the two directions of each socket between them. */
module Multiplex {
  import opened Wrappers
  import opened Protocol
  import Client
  import Host
  import HostDrain

  /** `wires` are the call frames on their way to the host, `heard` how many of a connection's
      written result frames its client has read. */
  datatype Net = Net(host: Host.Host, clients: map<nat, Client.Client>,
    wires: map<nat, seq<CallFrame>>, heard: map<nat, nat>)

  datatype Action =
    | Join(c: nat)
    | AtHost(act: Host.Action)
    | AtClient(c: nat, move: Client.Action)
    | Flush(c: nat)
    | Deliver(c: nat, t: nat)
    | Hear(c: nat)

  function Start(): Net {
    Net(Host.Start(), map[], map[], map[])
  }

  predicate Connected(n: Net, c: nat) {
    c in n.clients && c in n.wires && c in n.heard && c in n.host.lanes
  }

  predicate Enabled(n: Net, a: Action) {
    match a
    case Join(c) => c !in n.clients && c !in n.wires && c !in n.heard && Host.Enabled(n.host, Host.Connect(c))
    case AtHost(act) => !act.Connect? && !act.Accept? && Host.Enabled(n.host, act)
    case AtClient(c, move) => Connected(n, c) && !move.Flush? && !move.Receive? && Client.Enabled(n.clients[c], move)
    case Flush(c) => Connected(n, c) && Client.Enabled(n.clients[c], Client.Flush)
    case Deliver(c, t) => Connected(n, c) && n.wires[c] != [] && Host.Enabled(n.host, Host.Accept(c, t, n.wires[c][0]))
    case Hear(c) => Connected(n, c) && !n.clients[c].closed && n.heard[c] < |n.host.lanes[c].sent|
  }

  /** The result frame client `c` reads next. */
  function NextFrame(n: Net, c: nat): ResultFrame
    requires Enabled(n, Hear(c))
  {
    Carried(n.host.lanes[c].sent[n.heard[c]])
  }

  function Apply(n: Net, a: Action): Net
    requires Enabled(n, a)
  {
    match a
    case Join(c) =>
      Net(Host.Apply(n.host, Host.Connect(c)), n.clients[c := Client.Fresh()], n.wires[c := []], n.heard[c := 0])
    case AtHost(act) => n.(host := Host.Apply(n.host, act))
    case AtClient(c, move) => n.(clients := n.clients[c := Client.Apply(n.clients[c], move)])
    case Flush(c) =>
      n.(clients := n.clients[c := Client.Apply(n.clients[c], Client.Flush)],
         wires := n.wires[c := n.wires[c] + [n.clients[c].outbox[0]]])
    case Deliver(c, t) =>
      n.(host := Host.Apply(n.host, Host.Accept(c, t, n.wires[c][0])), wires := n.wires[c := n.wires[c][1..]])
    case Hear(c) =>
      n.(clients := n.clients[c := Client.Apply(n.clients[c], Client.Receive(NextFrame(n, c)))],
         heard := n.heard[c := n.heard[c] + 1])
  }

  predicate Run(n: Net, acts: seq<Action>, m: Net)
    decreases |acts|
  {
    if acts == [] then n == m else Enabled(n, acts[0]) && Run(Apply(n, acts[0]), acts[1..], m)
  }

  // ---- what travels belongs to a call ----

  type Calls = map<nat, Host.Accepted>

  /** The frame is the one call of the client it names, and that call has left the client. */
  predicate Posted(k: Client.Client, f: CallFrame) {
    f.id in k.calls && k.calls[f.id].tool == f.tool && k.calls[f.id].args == f.args
    && k.calls[f.id].phase != Client.Minted && k.calls[f.id].phase != Client.Registered
  }

  /** Call frames on their way, oldest first. */
  function Pipe(k: Client.Client, wire: seq<CallFrame>): seq<CallFrame> {
    wire + k.outbox
  }

  predicate Distinct(pipe: seq<CallFrame>) {
    forall i, j :: 0 <= i < j < |pipe| ==> pipe[i].id != pipe[j].id
  }

  predicate PipeOk(k: Client.Client, pipe: seq<CallFrame>, calls: Calls, c: nat) {
    && Distinct(pipe)
    && (forall i :: 0 <= i < |pipe| ==> Posted(k, pipe[i]))
    && (forall t :: t in calls && calls[t].conn == c ==> Posted(k, calls[t].frame) && NotIn(pipe, calls[t].frame.id))
    && (forall t, u :: t in calls && u in calls && calls[t].conn == c && calls[u].conn == c && t != u
          ==> calls[t].frame.id != calls[u].frame.id)
  }

  predicate NotIn(pipe: seq<CallFrame>, id: nat) {
    forall i :: 0 <= i < |pipe| ==> pipe[i].id != id
  }

  /** Ticket `t` is the dispatch of call `id` of connection `c`, and it came to `o`. */
  predicate Ran(calls: Calls, c: nat, id: nat, o: Outcome, t: nat) {
    t in calls && calls[t].conn == c && calls[t].frame.id == id && calls[t].outcome == Some(o)
  }

  ghost predicate Backed(calls: Calls, c: nat, id: nat, r: Client.Reply) {
    r.Answer? ==> exists t :: Ran(calls, c, id, r.outcome, t)
  }

  ghost predicate RepliesOk(k: Client.Client, calls: Calls, c: nat) {
    forall id :: id in k.calls ==>
      && (k.calls[id].slot.Some? ==> Backed(calls, c, id, k.calls[id].slot.value))
      && (k.calls[id].phase.Returned? ==> Backed(calls, c, id, k.calls[id].phase.reply))
  }

  ghost predicate ConnOk(k: Client.Client, wire: seq<CallFrame>, calls: Calls, c: nat) {
    Client.Inv(k) && PipeOk(k, Pipe(k, wire), calls, c) && RepliesOk(k, calls, c)
  }

  predicate SameConnections(n: Net) {
    n.wires.Keys == n.clients.Keys && n.heard.Keys == n.clients.Keys && n.host.lanes.Keys == n.clients.Keys
  }

  ghost predicate Inv(n: Net) {
    && HostDrain.Inv(n.host)
    && SameConnections(n)
    && forall c :: c in n.clients ==> ConnOk(n.clients[c], n.wires[c], n.host.calls, c)
  }

  // ---- client moves ----

  lemma ClientMoveKeepsReplies(k: Client.Client, move: Client.Action, calls: Calls, c: nat)
    requires Client.Enabled(k, move) && RepliesOk(k, calls, c)
    requires move.Receive? ==> Backed(calls, c, move.frame.id, Client.Answer(OutcomeOf(move.frame)))
    ensures RepliesOk(Client.Apply(k, move), calls, c)
  {
  }

  lemma ClientMoveKeepsPosted(k: Client.Client, move: Client.Action, f: CallFrame)
    requires Client.Inv(k) && Client.Enabled(k, move) && Posted(k, f)
    ensures Posted(Client.Apply(k, move), f)
  {
  }

  lemma SendKeepsPipe(k: Client.Client, id: nat, wire: seq<CallFrame>, calls: Calls, c: nat)
    requires Client.Inv(k) && Client.Enabled(k, Client.Send(id)) && PipeOk(k, Pipe(k, wire), calls, c)
    ensures PipeOk(Client.Apply(k, Client.Send(id)), Pipe(Client.Apply(k, Client.Send(id)), wire), calls, c)
  {
    var l := Client.Apply(k, Client.Send(id));
    forall f | Posted(k, f) ensures Posted(l, f) && f.id != id {
      ClientMoveKeepsPosted(k, Client.Send(id), f);
    }
    if k.writing {
      assert Pipe(l, wire) == Pipe(k, wire) + [CallFrame(id, k.calls[id].tool, k.calls[id].args)];
    } else {
      assert Pipe(l, wire) == Pipe(k, wire);
    }
  }

  lemma ClientMoveKeepsPipe(k: Client.Client, move: Client.Action, wire: seq<CallFrame>, calls: Calls, c: nat)
    requires Client.Inv(k) && Client.Enabled(k, move) && !move.Flush? && PipeOk(k, Pipe(k, wire), calls, c)
    ensures PipeOk(Client.Apply(k, move), Pipe(Client.Apply(k, move), wire), calls, c)
  {
    var l := Client.Apply(k, move);
    if move.Send? {
      SendKeepsPipe(k, move.id, wire, calls, c);
    } else {
      forall f | Posted(k, f) ensures Posted(l, f) {
        ClientMoveKeepsPosted(k, move, f);
      }
      assert Pipe(l, wire) == if move.FlushFails? then wire else Pipe(k, wire);
      assert forall i :: 0 <= i < |wire| ==> Pipe(k, wire)[i] == wire[i];
    }
  }

  lemma ClientMoveKeepsConn(k: Client.Client, move: Client.Action, wire: seq<CallFrame>, calls: Calls, c: nat)
    requires Client.Enabled(k, move) && !move.Flush? && ConnOk(k, wire, calls, c)
    requires move.Receive? ==> Backed(calls, c, move.frame.id, Client.Answer(OutcomeOf(move.frame)))
    ensures ConnOk(Client.Apply(k, move), wire, calls, c)
  {
    Client.StepKeepsInv(k, move);
    ClientMoveKeepsPipe(k, move, wire, calls, c);
    ClientMoveKeepsReplies(k, move, calls, c);
  }

  lemma FlushKeepsConn(k: Client.Client, wire: seq<CallFrame>, calls: Calls, c: nat)
    requires Client.Enabled(k, Client.Flush) && ConnOk(k, wire, calls, c)
    ensures ConnOk(Client.Apply(k, Client.Flush), wire + [k.outbox[0]], calls, c)
  {
    Client.StepKeepsInv(k, Client.Flush);
    assert Pipe(Client.Apply(k, Client.Flush), wire + [k.outbox[0]]) == Pipe(k, wire);
  }

  // ---- host moves ----

  /** Every call keeps its connection, its frame and any outcome it has; none is forgotten. */
  predicate Keeps(calls: Calls, next: Calls) {
    forall t :: t in calls ==>
      && t in next && next[t].conn == calls[t].conn && next[t].frame == calls[t].frame
      && (calls[t].outcome.Some? ==> next[t].outcome == calls[t].outcome)
  }

  lemma RepliesStayBacked(k: Client.Client, calls: Calls, next: Calls, c: nat)
    requires RepliesOk(k, calls, c) && Keeps(calls, next)
    ensures RepliesOk(k, next, c)
  {
    forall id, r: Client.Reply | Backed(calls, c, id, r) ensures Backed(next, c, id, r) {
      if r.Answer? {
        var t :| Ran(calls, c, id, r.outcome, t);
        assert Ran(next, c, id, r.outcome, t);
      }
    }
  }

  lemma HostMoveKeepsCalls(h: Host.Host, act: Host.Action)
    requires Host.Enabled(h, act) && (act.Dispatch? ==> h.calls[act.t].outcome == None)
    ensures Keeps(h.calls, Host.Apply(h, act).calls)
  {
  }

  lemma HostMoveAddsNoCalls(h: Host.Host, act: Host.Action)
    requires Host.Enabled(h, act) && !act.Accept?
    ensures Host.Apply(h, act).calls.Keys == h.calls.Keys
  {
  }

  lemma HostMoveKeepsConn(k: Client.Client, wire: seq<CallFrame>, calls: Calls, next: Calls, c: nat)
    requires ConnOk(k, wire, calls, c) && Keeps(calls, next) && next.Keys == calls.Keys
    ensures ConnOk(k, wire, next, c)
  {
    RepliesStayBacked(k, calls, next, c);
  }

  lemma DeliverKeepsOthers(k: Client.Client, wire: seq<CallFrame>, calls: Calls, t: nat, call: Host.Accepted, c: nat)
    requires ConnOk(k, wire, calls, c) && t !in calls && call.conn != c
    ensures ConnOk(k, wire, calls[t := call], c)
  {
    RepliesStayBacked(k, calls, calls[t := call], c);
  }

  lemma DeliverKeepsOwn(k: Client.Client, wire: seq<CallFrame>, calls: Calls, t: nat, call: Host.Accepted, c: nat)
    requires ConnOk(k, wire, calls, c) && t !in calls && wire != []
    requires call.conn == c && call.frame == wire[0]
    ensures ConnOk(k, wire[1..], calls[t := call], c)
  {
    RepliesStayBacked(k, calls, calls[t := call], c);
    var pipe := Pipe(k, wire);
    assert Pipe(k, wire[1..]) == pipe[1..] && pipe[0] == wire[0];
    assert NotIn(pipe[1..], wire[0].id);
  }

  lemma FrameIsBacked(calls: Calls, c: nat, t: nat, f: ResultFrame)
    requires HostDrain.Answers(calls, c, t, f)
    ensures Backed(calls, c, Carried(f).id, Client.Answer(OutcomeOf(Carried(f))))
  {
    OutcomeSurvivesTheWire(f.id, calls[t].outcome.value, Carried(f));
    assert Ran(calls, c, f.id, calls[t].outcome.value, t);
  }

  /** What a client reads next is the outcome of a dispatch of one of its own calls. */
  lemma HeardIsBacked(n: Net, c: nat)
    requires HostDrain.Inv(n.host) && Enabled(n, Hear(c))
    ensures Backed(n.host.calls, c, NextFrame(n, c).id, Client.Answer(OutcomeOf(NextFrame(n, c))))
  {
    var t := HostDrain.SentFrameAnswers(n.host, c, n.heard[c]);
    FrameIsBacked(n.host.calls, c, t, n.host.lanes[c].sent[n.heard[c]]);
  }

  // ---- one step of the whole system ----

  lemma HostAfter(n: Net, a: Action)
    requires HostDrain.Inv(n.host) && Enabled(n, a)
    ensures HostDrain.Inv(Apply(n, a).host)
  {
    match a
    case Join(c) => HostDrain.StepKeepsInv(n.host, Host.Connect(c));
    case AtHost(act) => HostDrain.StepKeepsInv(n.host, act);
    case Deliver(c, t) => HostDrain.StepKeepsInv(n.host, Host.Accept(c, t, n.wires[c][0]));
    case _ =>
  }

  lemma ConnectionsAfter(n: Net, a: Action)
    requires Enabled(n, a) && SameConnections(n)
    ensures SameConnections(Apply(n, a))
  {
    match a
    case AtHost(act) => assert Host.Apply(n.host, act).lanes.Keys == n.host.lanes.Keys;
    case _ =>
  }

  lemma JoinedConn(calls: Calls, c: nat)
    requires forall t :: t in calls ==> calls[t].conn != c
    ensures ConnOk(Client.Fresh(), [], calls, c)
  {
    Client.FreshInv();
  }

  lemma DeliverConn(n: Net, c: nat, t: nat, d: nat)
    requires Enabled(n, Deliver(c, t)) && d in n.clients && d in n.wires
    requires ConnOk(n.clients[d], n.wires[d], n.host.calls, d)
    ensures var m := Apply(n, Deliver(c, t)); ConnOk(m.clients[d], m.wires[d], m.host.calls, d)
  {
    var call := Host.Accepted(c, n.wires[c][0], None, Host.Dispatching);
    if d == c {
      DeliverKeepsOwn(n.clients[c], n.wires[c], n.host.calls, t, call, c);
    } else {
      DeliverKeepsOthers(n.clients[d], n.wires[d], n.host.calls, t, call, d);
    }
  }

  lemma AtHostConn(n: Net, act: Host.Action, d: nat)
    requires HostDrain.Inv(n.host) && Enabled(n, AtHost(act)) && d in n.clients && d in n.wires
    requires ConnOk(n.clients[d], n.wires[d], n.host.calls, d)
    ensures var m := Apply(n, AtHost(act)); ConnOk(m.clients[d], m.wires[d], m.host.calls, d)
  {
    if act.Dispatch? {
      HostDrain.DispatchingHasNoOutcome(n.host, act.t);
    }
    HostMoveKeepsCalls(n.host, act);
    HostMoveAddsNoCalls(n.host, act);
    HostMoveKeepsConn(n.clients[d], n.wires[d], n.host.calls, Host.Apply(n.host, act).calls, d);
  }

  lemma AtClientConn(n: Net, c: nat, move: Client.Action, d: nat)
    requires Enabled(n, AtClient(c, move)) && d in n.clients && d in n.wires
    requires ConnOk(n.clients[d], n.wires[d], n.host.calls, d)
    ensures var m := Apply(n, AtClient(c, move)); ConnOk(m.clients[d], m.wires[d], m.host.calls, d)
  {
    if d == c {
      ClientMoveKeepsConn(n.clients[c], move, n.wires[c], n.host.calls, c);
    }
  }

  lemma FlushConn(n: Net, c: nat, d: nat)
    requires Enabled(n, Flush(c)) && d in n.clients && d in n.wires
    requires ConnOk(n.clients[d], n.wires[d], n.host.calls, d)
    ensures var m := Apply(n, Flush(c)); ConnOk(m.clients[d], m.wires[d], m.host.calls, d)
  {
    if d == c {
      FlushKeepsConn(n.clients[c], n.wires[c], n.host.calls, c);
    }
  }

  lemma HearConn(n: Net, c: nat, d: nat)
    requires Enabled(n, Hear(c)) && d in n.clients && d in n.wires
    requires ConnOk(n.clients[d], n.wires[d], n.host.calls, d)
    requires Backed(n.host.calls, c, NextFrame(n, c).id, Client.Answer(OutcomeOf(NextFrame(n, c))))
    ensures var m := Apply(n, Hear(c)); ConnOk(m.clients[d], m.wires[d], m.host.calls, d)
  {
    if d == c {
      ClientMoveKeepsConn(n.clients[c], Client.Receive(NextFrame(n, c)), n.wires[c], n.host.calls, c);
    }
  }

  lemma JoinConn(n: Net, c: nat, d: nat)
    requires Enabled(n, Join(c)) && d in Apply(n, Join(c)).clients && d in Apply(n, Join(c)).wires
    requires d in n.clients && d in n.wires ==> ConnOk(n.clients[d], n.wires[d], n.host.calls, d)
    requires n.wires.Keys == n.clients.Keys && forall t :: t in n.host.calls ==> n.host.calls[t].conn != c
    ensures var m := Apply(n, Join(c)); ConnOk(m.clients[d], m.wires[d], m.host.calls, d)
  {
    if d == c {
      JoinedConn(n.host.calls, c);
    }
  }

  lemma ConnAfter(n: Net, a: Action, d: nat)
    requires HostDrain.Inv(n.host) && SameConnections(n) && Enabled(n, a)
    requires d in n.clients && d in n.wires ==> ConnOk(n.clients[d], n.wires[d], n.host.calls, d)
    requires d in Apply(n, a).clients && d in Apply(n, a).wires
    ensures ConnOk(Apply(n, a).clients[d], Apply(n, a).wires[d], Apply(n, a).host.calls, d)
  {
    match a
    case Join(c) => JoinConn(n, c, d);
    case AtHost(act) => AtHostConn(n, act, d);
    case AtClient(c, move) => AtClientConn(n, c, move, d);
    case Flush(c) => FlushConn(n, c, d);
    case Deliver(c, t) => DeliverConn(n, c, t, d);
    case Hear(c) =>
      HeardIsBacked(n, c);
      HearConn(n, c, d);
  }

  lemma StepKeepsInv(n: Net, a: Action)
    requires Inv(n) && Enabled(n, a)
    ensures Inv(Apply(n, a))
  {
    HostAfter(n, a);
    ConnectionsAfter(n, a);
    forall d | d in Apply(n, a).clients
      ensures ConnOk(Apply(n, a).clients[d], Apply(n, a).wires[d], Apply(n, a).host.calls, d) {
      ConnAfter(n, a, d);
    }
  }

  lemma {:induction false} RunKeepsInv(n: Net, acts: seq<Action>, m: Net)
    requires Inv(n) && Run(n, acts, m)
    ensures Inv(m)
    decreases |acts|
  {
    if acts != [] {
      StepKeepsInv(n, acts[0]);
      RunKeepsInv(Apply(n, acts[0]), acts[1..], m);
    }
  }

  // ---- end to end ----

  /** Some run leads here from the host's start. */
  ghost predicate Reached(n: Net) {
    exists acts :: Run(Start(), acts, n)
  }

  lemma StartIsReached()
    ensures Reached(Start())
  {
    assert Run(Start(), [], Start());
  }

  lemma {:induction false} RunExtends(n: Net, acts: seq<Action>, m: Net, a: Action)
    requires Run(n, acts, m) && Enabled(m, a)
    ensures Run(n, acts + [a], Apply(m, a))
    decreases |acts|
  {
    if acts == [] {
      assert Run(Apply(m, a), [], Apply(m, a)) && ([] + [a])[1..] == [];
    } else {
      RunExtends(Apply(n, acts[0]), acts[1..], m, a);
      assert (acts + [a])[1..] == acts[1..] + [a];
    }
  }

  lemma StepIsReached(n: Net, a: Action)
    requires Reached(n) && Enabled(n, a)
    ensures Reached(Apply(n, a))
  {
    var acts :| Run(Start(), acts, n);
    RunExtends(Start(), acts, n, a);
  }

  lemma ReachedIsSound(n: Net)
    requires Reached(n)
    ensures Inv(n)
  {
    var acts :| Run(Start(), acts, n);
    RunKeepsInv(Start(), acts, n);
  }

  lemma ClientIsSound(n: Net, c: nat)
    requires Reached(n) && c in n.clients
    ensures Client.Inv(n.clients[c])
  {
    ReachedIsSound(n);
    assert ConnOk(n.clients[c], n.wires[c], n.host.calls, c);
  }

  lemma TicketsAreApart(n: Net, t: nat, u: nat)
    requires Reached(n) && t in n.host.calls && u in n.host.calls
    requires n.host.calls[t].conn == n.host.calls[u].conn && n.host.calls[t].frame.id == n.host.calls[u].frame.id
    ensures t == u
  {
    ReachedIsSound(n);
    var c := n.host.calls[t].conn;
    assert c in n.host.lanes;
    assert ConnOk(n.clients[c], n.wires[c], n.host.calls, c);
  }

  lemma TicketIsPosted(n: Net, t: nat)
    requires Reached(n) && t in n.host.calls
    ensures n.host.calls[t].conn in n.clients && Posted(n.clients[n.host.calls[t].conn], n.host.calls[t].frame)
  {
    ReachedIsSound(n);
    var c := n.host.calls[t].conn;
    assert c in n.host.lanes;
    assert ConnOk(n.clients[c], n.wires[c], n.host.calls, c);
  }

  lemma ReturnedWasRun(n: Net, c: nat, id: nat) returns (t: nat)
    requires Reached(n) && c in n.clients && id in n.clients[c].calls
    requires n.clients[c].calls[id].phase.Returned? && n.clients[c].calls[id].phase.reply.Answer?
    ensures Ran(n.host.calls, c, id, n.clients[c].calls[id].phase.reply.outcome, t)
  {
    ReachedIsSound(n);
    assert ConnOk(n.clients[c], n.wires[c], n.host.calls, c);
    t :| Ran(n.host.calls, c, id, n.clients[c].calls[id].phase.reply.outcome, t);
  }

  /** Over all interleavings, of all connections: a call returns the outcome of the one dispatch
      of its own id, tool and arguments, or `ConnectionLost`. */
  lemma CallsReturnTheirOwnOutcome(acts: seq<Action>, n: Net, c: nat, id: nat)
    requires Run(Start(), acts, n) && c in n.clients && id in n.clients[c].calls
    requires n.clients[c].calls[id].phase.Returned? && n.clients[c].calls[id].phase.reply.Answer?
    ensures exists t :: Ran(n.host.calls, c, id, n.clients[c].calls[id].phase.reply.outcome, t)
                        && n.host.calls[t].frame
                           == CallFrame(id, n.clients[c].calls[id].tool, n.clients[c].calls[id].args)
  {
    var t := ReturnedWasRun(n, c, id);
    TicketIsPosted(n, t);
  }

  /** No call is ever dispatched twice, and nothing is dispatched that no client called. */
  lemma CallsAreDispatchedAtMostOnce(acts: seq<Action>, n: Net, t: nat, u: nat)
    requires Run(Start(), acts, n) && t in n.host.calls && u in n.host.calls
    ensures (n.host.calls[t].conn == n.host.calls[u].conn
             && n.host.calls[t].frame.id == n.host.calls[u].frame.id) ==> t == u
    ensures n.host.calls[t].conn in n.clients && Posted(n.clients[n.host.calls[t].conn], n.host.calls[t].frame)
  {
    TicketIsPosted(n, t);
    if n.host.calls[t].conn == n.host.calls[u].conn && n.host.calls[t].frame.id == n.host.calls[u].frame.id {
      TicketsAreApart(n, t, u);
    }
  }

  /** The waiter table stays sound inside the whole system too: a closed connection has no
      waiter, and a call that may still wait is in the table of an open one. */
  lemma NobodyWaitsInVain(acts: seq<Action>, n: Net, c: nat, id: nat)
    requires Run(Start(), acts, n) && c in n.clients
    requires Client.At(n.clients[c], id, Client.Sent) && n.clients[c].calls[id].slot == None
    ensures !n.clients[c].closed && id in n.clients[c].table
  {
    RunKeepsInv(Start(), acts, n);
    assert ConnOk(n.clients[c], n.wires[c], n.host.calls, c);
  }

  /** A returned call keeps its reply through every later step of every connection. */
  lemma {:induction false} ReturnedCallsStayReturned(n: Net, acts: seq<Action>, m: Net, c: nat, id: nat)
    requires Inv(n) && Run(n, acts, m) && c in n.clients && id in n.clients[c].calls
    requires n.clients[c].calls[id].phase.Returned?
    ensures c in m.clients && id in m.clients[c].calls && m.clients[c].calls[id].phase == n.clients[c].calls[id].phase
    decreases |acts|
  {
    if acts != [] {
      StepKeepsInv(n, acts[0]);
      assert ConnOk(n.clients[c], n.wires[c], n.host.calls, c);
      ReturnedAfter(n, acts[0], c, id);
      ReturnedCallsStayReturned(Apply(n, acts[0]), acts[1..], m, c, id);
    }
  }

  lemma ReturnedAfter(n: Net, a: Action, c: nat, id: nat)
    requires Enabled(n, a) && c in n.clients && Client.Inv(n.clients[c]) && id in n.clients[c].calls
    requires n.clients[c].calls[id].phase.Returned?
    ensures c in Apply(n, a).clients && id in Apply(n, a).clients[c].calls
    ensures Apply(n, a).clients[c].calls[id].phase == n.clients[c].calls[id].phase
  {
    match a
    case AtClient(d, move) => if d == c { Client.StepKeepsSettlement(n.clients[c], move, id); }
    case Flush(d) => if d == c { Client.StepKeepsSettlement(n.clients[c], Client.Flush, id); }
    case Hear(d) => if d == c { Client.StepKeepsSettlement(n.clients[c], Client.Receive(NextFrame(n, c)), id); }
    case _ =>
  }
}
