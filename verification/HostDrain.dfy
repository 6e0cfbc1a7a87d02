/** Where every accepted call is, what the drain counter counts, and what a drained host means. */
module HostDrain {
  import opened Wrappers
  import opened Protocol
  import opened Host

  type Calls = map<nat, Accepted>

  /** The item carries the result of the call its ticket names, and the call is at `stage`. */
  predicate Carries(calls: Calls, c: nat, item: Item, stage: Stage) {
    item.Reply? ==>
      && item.ticket in calls && calls[item.ticket].conn == c && calls[item.ticket].stage == stage
      && calls[item.ticket].outcome.Some?
      && item.frame == FrameOf(calls[item.ticket].frame.id, calls[item.ticket].outcome.value)
  }

  predicate Waits(queue: seq<Item>, t: nat) {
    exists i :: 0 <= i < |queue| && queue[i].Reply? && queue[i].ticket == t
  }

  predicate InHandOf(hand: Hand, t: nat) {
    hand != Empty && hand.item.Reply? && hand.item.ticket == t
  }

  predicate QueueOk(lane: Lane, calls: Calls, c: nat) {
    && (forall i :: 0 <= i < |lane.queue| ==> Carries(calls, c, lane.queue[i], Queued))
    && (forall i, j :: 0 <= i < j < |lane.queue| && lane.queue[i].Reply? && lane.queue[j].Reply?
          ==> lane.queue[i].ticket != lane.queue[j].ticket)
    && (lane.hand.Holding? ==> Carries(calls, c, lane.hand.item, InHand(false)))
    && (lane.hand.Done? ==> Carries(calls, c, lane.hand.item, InHand(!lane.broken)))
  }

  /** A call's stage tells where its result is, and an abandoned result has a reason. */
  predicate Placed(lane: Lane, call: Accepted, t: nat, stopping: bool) {
    && (call.stage == Dispatching <==> call.outcome == None)
    && (call.stage == Queued ==> Waits(lane.queue, t))
    && (call.stage.InHand? ==> InHandOf(lane.hand, t))
    && ((call.stage.InHand? || call.stage.Settled?) && call.stage.written ==>
          FrameOf(call.frame.id, call.outcome.value) in lane.sent)
    && (call.stage == Settled(false) ==> lane.broken || (!lane.open && stopping))
  }

  predicate CallsOk(lane: Lane, calls: Calls, c: nat, stopping: bool) {
    forall t :: t in calls && calls[t].conn == c ==> Placed(lane, calls[t], t, stopping)
  }

  /** Every frame on the socket is the result of an accepted call of this connection. */
  ghost predicate SentOk(lane: Lane, calls: Calls, c: nat) {
    forall f :: f in lane.sent ==> exists t :: Answers(calls, c, t, f)
  }

  predicate Answers(calls: Calls, c: nat, t: nat, f: ResultFrame) {
    t in calls && calls[t].conn == c && calls[t].outcome.Some?
    && f == FrameOf(calls[t].frame.id, calls[t].outcome.value)
  }

  predicate ClosedOk(lane: Lane, calls: Calls, c: nat, stopping: bool) {
    !lane.open ==>
      && lane.hand == Empty
      && (!stopping ==> lane.queue == [] && !lane.reading
                        && forall t :: t in calls && calls[t].conn == c ==> calls[t].stage.Settled?)
  }

  ghost predicate LaneOk(lane: Lane, calls: Calls, c: nat, stopping: bool) {
    && QueueOk(lane, calls, c) && CallsOk(lane, calls, c, stopping)
    && SentOk(lane, calls, c) && ClosedOk(lane, calls, c, stopping)
  }

  /** Accepted calls whose result is still dispatching, queued or in the writer's hand. */
  function Open(calls: Calls): set<nat> {
    set t | t in calls && !calls[t].stage.Settled?
  }

  ghost predicate Inv(h: Host) {
    && h.unsettled == |Open(h.calls)|
    && (forall t :: t in h.calls ==> h.calls[t].conn in h.lanes)
    && (forall c :: c in h.lanes ==> LaneOk(h.lanes[c], h.calls, c, h.stopping))
  }

  // ---- the counter ----

  lemma OpenGains(calls: Calls, t: nat, call: Accepted)
    requires t !in calls && !call.stage.Settled?
    ensures |Open(calls[t := call])| == |Open(calls)| + 1
  {
    assert Open(calls[t := call]) == Open(calls) + {t};
  }

  lemma OpenLoses(calls: Calls, t: nat, call: Accepted)
    requires t in calls && !calls[t].stage.Settled? && call.stage.Settled?
    ensures |Open(calls[t := call])| == |Open(calls)| - 1
  {
    assert Open(calls[t := call]) == Open(calls) - {t};
  }

  lemma OpenKeeps(calls: Calls, t: nat, call: Accepted)
    requires t in calls && !calls[t].stage.Settled? && !call.stage.Settled?
    ensures Open(calls[t := call]) == Open(calls)
  {
  }

  lemma CounterStaysExact(h: Host, a: Action)
    requires Inv(h) && Enabled(h, a)
    ensures Apply(h, a).unsettled == |Open(Apply(h, a).calls)|
  {
    match a
    case Accept(c, t, frame) => OpenGains(h.calls, t, Accepted(c, frame, None, Dispatching));
    case Dispatch(t, o) => OpenKeeps(h.calls, t, h.calls[t].(outcome := Some(o), stage := Ready));
    case Send(t) =>
      var c := h.calls[t].conn;
      if h.lanes[c].open {
        OpenKeeps(h.calls, t, h.calls[t].(stage := Queued));
      } else {
        OpenLoses(h.calls, t, h.calls[t].(stage := Settled(false)));
      }
    case Receive(c) =>
      assert Carries(h.calls, c, h.lanes[c].queue[0], Queued);
      MoveKeepsOpen(h.calls, c, h.lanes[c].queue[0], Queued, InHand(false));
    case Write(c, ok) =>
      MoveKeepsOpen(h.calls, c, h.lanes[c].hand.item, InHand(false), InHand(!h.lanes[c].broken && ok));
    case Count(c) =>
      MoveSettles(h.calls, c, h.lanes[c].hand.item, InHand(!h.lanes[c].broken), Settled(!h.lanes[c].broken));
    case Drain(c) =>
      assert Carries(h.calls, c, h.lanes[c].queue[0], Queued);
      MoveSettles(h.calls, c, h.lanes[c].queue[0], Queued, Settled(false));
    case _ =>
  }

  lemma MoveKeepsOpen(calls: Calls, c: nat, item: Item, was: Stage, now: Stage)
    requires Carries(calls, c, item, was) && !was.Settled? && !now.Settled?
    ensures item.Reply? ==> Open(calls[item.ticket := calls[item.ticket].(stage := now)]) == Open(calls)
  {
  }

  lemma MoveSettles(calls: Calls, c: nat, item: Item, was: Stage, now: Stage)
    requires Carries(calls, c, item, was) && !was.Settled? && now.Settled?
    ensures item.Reply? ==> |Open(calls[item.ticket := calls[item.ticket].(stage := now)])| == |Open(calls)| - 1
  {
    if item.Reply? {
      OpenLoses(calls, item.ticket, calls[item.ticket].(stage := now));
    }
  }

  // ---- one lane at a time ----

  /** The two tables hold the same calls of connection `c`. */
  predicate SameCalls(calls: Calls, next: Calls, c: nat) {
    && (forall t :: t in calls && calls[t].conn == c ==> t in next && next[t] == calls[t])
    && (forall t :: t in next && next[t].conn == c ==> t in calls && calls[t] == next[t])
  }

  lemma OtherLanesUntouched(lane: Lane, calls: Calls, next: Calls, c: nat, stopping: bool, later: bool)
    requires LaneOk(lane, calls, c, stopping) && SameCalls(calls, next, c) && (stopping ==> later)
    ensures LaneOk(lane, next, c, later)
  {
    forall f | f in lane.sent ensures exists t :: Answers(next, c, t, f) {
      var t :| Answers(calls, c, t, f);
      assert Answers(next, c, t, f);
    }
  }

  /** The table after one call of connection `c` has been added or moved on. */
  predicate Moved(calls: Calls, next: Calls, t: nat) {
    && t in next && next == calls[t := next[t]]
    && (t in calls ==>
          && next[t].conn == calls[t].conn && next[t].frame == calls[t].frame
          && (calls[t].outcome.Some? ==> next[t].outcome == calls[t].outcome))
  }

  lemma SentStays(sent: seq<ResultFrame>, lane: Lane, calls: Calls, next: Calls, c: nat, t: nat)
    requires SentOk(lane, calls, c) && Moved(calls, next, t)
    requires forall f :: f in sent ==> f in lane.sent || Answers(next, c, t, f)
    ensures SentOk(lane.(sent := sent), next, c)
  {
    forall f | f in sent ensures exists u :: Answers(next, c, u, f) {
      if !Answers(next, c, t, f) {
        var u :| Answers(calls, c, u, f);
        assert Answers(next, c, u, f);
      }
    }
  }

  lemma AcceptKeepsLane(h: Host, c: nat, t: nat, frame: CallFrame)
    requires Enabled(h, Accept(c, t, frame)) && LaneOk(h.lanes[c], h.calls, c, h.stopping)
    ensures LaneOk(h.lanes[c], Apply(h, Accept(c, t, frame)).calls, c, h.stopping)
  {
    SentStays(h.lanes[c].sent, h.lanes[c], h.calls, Apply(h, Accept(c, t, frame)).calls, c, t);
  }

  lemma DispatchKeepsLane(h: Host, t: nat, o: Outcome)
    requires Enabled(h, Dispatch(t, o)) && h.calls[t].conn in h.lanes
    requires LaneOk(h.lanes[h.calls[t].conn], h.calls, h.calls[t].conn, h.stopping)
    ensures var c := h.calls[t].conn; LaneOk(h.lanes[c], Apply(h, Dispatch(t, o)).calls, c, h.stopping)
  {
    var c := h.calls[t].conn;
    assert Placed(h.lanes[c], h.calls[t], t, h.stopping);
    SentStays(h.lanes[c].sent, h.lanes[c], h.calls, Apply(h, Dispatch(t, o)).calls, c, t);
  }

  lemma WaitsAfterAppend(queue: seq<Item>, item: Item)
    ensures forall t :: Waits(queue, t) ==> Waits(queue + [item], t)
    ensures item.Reply? ==> Waits(queue + [item], item.ticket)
  {
    forall t | Waits(queue, t) ensures Waits(queue + [item], t) {
      var i :| 0 <= i < |queue| && queue[i].Reply? && queue[i].ticket == t;
      assert (queue + [item])[i] == queue[i];
    }
    assert (queue + [item])[|queue|] == item;
  }

  lemma WaitsAfterPop(queue: seq<Item>)
    requires queue != []
    ensures forall t :: Waits(queue, t) ==> Waits(queue[1..], t) || (queue[0].Reply? && queue[0].ticket == t)
  {
    forall t | Waits(queue, t) ensures Waits(queue[1..], t) || (queue[0].Reply? && queue[0].ticket == t) {
      var i :| 0 <= i < |queue| && queue[i].Reply? && queue[i].ticket == t;
      if i > 0 {
        assert queue[1..][i - 1] == queue[i];
      }
    }
  }

  lemma SendOpenKeepsLane(h: Host, t: nat)
    requires Enabled(h, Send(t)) && LaneOk(h.lanes[h.calls[t].conn], h.calls, h.calls[t].conn, h.stopping)
    requires h.lanes[h.calls[t].conn].open
    ensures var g := Apply(h, Send(t)); var c := h.calls[t].conn; LaneOk(g.lanes[c], g.calls, c, h.stopping)
  {
    var c, g := h.calls[t].conn, Apply(h, Send(t));
    var lane := h.lanes[c];
    var item := Reply(t, FrameOf(h.calls[t].frame.id, h.calls[t].outcome.value));
    assert Placed(lane, h.calls[t], t, h.stopping);
    SentStays(lane.sent, lane, h.calls, g.calls, c, t);
    WaitsAfterAppend(lane.queue, item);
    assert g.lanes[c].queue == lane.queue + [item];
  }

  lemma SendClosedKeepsLane(h: Host, t: nat)
    requires Enabled(h, Send(t)) && LaneOk(h.lanes[h.calls[t].conn], h.calls, h.calls[t].conn, h.stopping)
    requires !h.lanes[h.calls[t].conn].open
    ensures var g := Apply(h, Send(t)); var c := h.calls[t].conn; LaneOk(g.lanes[c], g.calls, c, h.stopping)
  {
    var c, g := h.calls[t].conn, Apply(h, Send(t));
    assert Placed(h.lanes[c], h.calls[t], t, h.stopping);
    SentStays(h.lanes[c].sent, h.lanes[c], h.calls, g.calls, c, t);
  }

  lemma SendKeepsLane(h: Host, t: nat)
    requires Enabled(h, Send(t)) && LaneOk(h.lanes[h.calls[t].conn], h.calls, h.calls[t].conn, h.stopping)
    ensures var g := Apply(h, Send(t)); var c := h.calls[t].conn; LaneOk(g.lanes[c], g.calls, c, h.stopping)
  {
    if h.lanes[h.calls[t].conn].open {
      SendOpenKeepsLane(h, t);
    } else {
      SendClosedKeepsLane(h, t);
    }
  }

  lemma ReceiveKeepsLane(h: Host, c: nat)
    requires Enabled(h, Receive(c)) && LaneOk(h.lanes[c], h.calls, c, h.stopping)
    ensures var g := Apply(h, Receive(c)); LaneOk(g.lanes[c], g.calls, c, h.stopping)
  {
    var g, lane, item := Apply(h, Receive(c)), h.lanes[c], h.lanes[c].queue[0];
    WaitsAfterPop(lane.queue);
    assert Carries(h.calls, c, item, Queued);
    if item.Reply? {
      SentStays(lane.sent, lane, h.calls, g.calls, c, item.ticket);
    }
  }

  lemma WriteKeepsLane(h: Host, c: nat, ok: bool)
    requires Enabled(h, Write(c, ok)) && LaneOk(h.lanes[c], h.calls, c, h.stopping)
    ensures var g := Apply(h, Write(c, ok)); LaneOk(g.lanes[c], g.calls, c, h.stopping)
  {
    var g, lane, item := Apply(h, Write(c, ok)), h.lanes[c], h.lanes[c].hand.item;
    if item.Reply? {
      assert Placed(lane, h.calls[item.ticket], item.ticket, h.stopping);
      SentStays(g.lanes[c].sent, lane, h.calls, g.calls, c, item.ticket);
    }
  }

  lemma CountKeepsLane(h: Host, c: nat)
    requires Enabled(h, Count(c)) && LaneOk(h.lanes[c], h.calls, c, h.stopping)
    ensures var g := Apply(h, Count(c)); LaneOk(g.lanes[c], g.calls, c, h.stopping)
  {
    var g, lane, item := Apply(h, Count(c)), h.lanes[c], h.lanes[c].hand.item;
    if item.Reply? {
      assert Placed(lane, h.calls[item.ticket], item.ticket, h.stopping);
      SentStays(lane.sent, lane, h.calls, g.calls, c, item.ticket);
    }
  }

  lemma DrainKeepsLane(h: Host, c: nat)
    requires Enabled(h, Drain(c)) && LaneOk(h.lanes[c], h.calls, c, h.stopping)
    ensures var g := Apply(h, Drain(c)); LaneOk(g.lanes[c], g.calls, c, h.stopping)
  {
    var g, lane, item := Apply(h, Drain(c)), h.lanes[c], h.lanes[c].queue[0];
    WaitsAfterPop(lane.queue);
    assert Carries(h.calls, c, item, Queued);
    if item.Reply? {
      assert Placed(lane, h.calls[item.ticket], item.ticket, h.stopping);
      SentStays(lane.sent, lane, h.calls, g.calls, c, item.ticket);
    }
  }

  lemma ChatKeepsLane(h: Host, c: nat)
    requires Enabled(h, Chat(c)) && LaneOk(h.lanes[c], h.calls, c, h.stopping)
    ensures LaneOk(Apply(h, Chat(c)).lanes[c], h.calls, c, h.stopping)
  {
    WaitsAfterAppend(h.lanes[c].queue, Chatter);
  }

  lemma LifecycleKeepsLane(h: Host, a: Action)
    requires Enabled(h, a) && (a.Connect? || a.EndReading? || a.CloseQueue?)
    requires a.c in h.lanes ==> LaneOk(h.lanes[a.c], h.calls, a.c, h.stopping)
    requires a.Connect? ==> forall t :: t in h.calls ==> h.calls[t].conn != a.c
    ensures LaneOk(Apply(h, a).lanes[a.c], Apply(h, a).calls, a.c, h.stopping)
  {
  }

  /** The connection an action belongs to. */
  function LaneOf(h: Host, a: Action): Option<nat>
    requires Enabled(h, a)
  {
    match a
    case Dispatch(t, _) => Some(h.calls[t].conn)
    case Send(t) => Some(h.calls[t].conn)
    case Refuse => None
    case Stop => None
    case _ => Some(a.c)
  }

  lemma OwnLaneStaysOk(h: Host, a: Action)
    requires Inv(h) && Enabled(h, a) && LaneOf(h, a).Some?
    ensures var c := LaneOf(h, a).value;
            c in Apply(h, a).lanes && LaneOk(Apply(h, a).lanes[c], Apply(h, a).calls, c, h.stopping)
  {
    match a
    case Accept(c, t, frame) => AcceptKeepsLane(h, c, t, frame);
    case Dispatch(t, o) => DispatchKeepsLane(h, t, o);
    case Send(t) => SendKeepsLane(h, t);
    case Receive(c) => ReceiveKeepsLane(h, c);
    case Write(c, ok) => WriteKeepsLane(h, c, ok);
    case Count(c) => CountKeepsLane(h, c);
    case Drain(c) => DrainKeepsLane(h, c);
    case Chat(c) => ChatKeepsLane(h, c);
    case _ => LifecycleKeepsLane(h, a);
  }

  lemma UpdateKeepsOtherCalls(h: Host, c: nat, lane: Lane, item: Item, was: Stage, now: Stage, d: nat)
    requires Carries(h.calls, c, item, was) && c != d
    ensures var g := Update(h, c, lane, item, now);
            && SameCalls(h.calls, g.calls, d)
            && (d in g.lanes ==> d in h.lanes && g.lanes[d] == h.lanes[d])
  {
  }

  predicate WriterAction(a: Action) {
    a.Receive? || a.Drain? || a.Write? || a.Count?
  }

  lemma WriterKeepsOtherCalls(h: Host, a: Action, d: nat)
    requires Enabled(h, a) && WriterAction(a) && QueueOk(h.lanes[a.c], h.calls, a.c) && a.c != d
    ensures SameCalls(h.calls, Apply(h, a).calls, d)
    ensures d in Apply(h, a).lanes ==> d in h.lanes && Apply(h, a).lanes[d] == h.lanes[d]
  {
    var g := Apply(h, a);
    match a
    case Receive(c) => UpdateKeepsOtherCalls(h, c, g.lanes[c], h.lanes[c].queue[0], Queued, InHand(false), d);
    case Drain(c) => UpdateKeepsOtherCalls(h, c, g.lanes[c], h.lanes[c].queue[0], Queued, Settled(false), d);
    case Write(c, ok) =>
      UpdateKeepsOtherCalls(h, c, g.lanes[c], h.lanes[c].hand.item, InHand(false), InHand(!h.lanes[c].broken && ok), d);
    case Count(c) =>
      UpdateKeepsOtherCalls(h, c, g.lanes[c], h.lanes[c].hand.item, InHand(!h.lanes[c].broken),
                            Settled(!h.lanes[c].broken), d);
  }

  lemma TaskKeepsOtherCalls(h: Host, a: Action, d: nat)
    requires Enabled(h, a) && !WriterAction(a) && LaneOf(h, a) != Some(d)
    ensures SameCalls(h.calls, Apply(h, a).calls, d)
    ensures d in Apply(h, a).lanes ==> d in h.lanes && Apply(h, a).lanes[d] == h.lanes[d]
  {
  }

  lemma LaneAfter(h: Host, a: Action, c: nat)
    requires Inv(h) && Enabled(h, a) && c in Apply(h, a).lanes
    ensures LaneOk(Apply(h, a).lanes[c], Apply(h, a).calls, c, Apply(h, a).stopping)
  {
    if LaneOf(h, a) == Some(c) {
      OwnLaneStaysOk(h, a);
    } else {
      if WriterAction(a) {
        WriterKeepsOtherCalls(h, a, c);
      } else {
        TaskKeepsOtherCalls(h, a, c);
      }
      OtherLanesUntouched(h.lanes[c], h.calls, Apply(h, a).calls, c, h.stopping, Apply(h, a).stopping);
    }
  }

  lemma CallsStayOnLanes(h: Host, a: Action)
    requires Enabled(h, a) && forall t :: t in h.calls ==> h.calls[t].conn in h.lanes
    ensures forall t :: t in Apply(h, a).calls ==> Apply(h, a).calls[t].conn in Apply(h, a).lanes
  {
  }

  lemma StepKeepsInv(h: Host, a: Action)
    requires Inv(h) && Enabled(h, a)
    ensures Inv(Apply(h, a))
  {
    CounterStaysExact(h, a);
    CallsStayOnLanes(h, a);
    forall c | c in Apply(h, a).lanes ensures LaneOk(Apply(h, a).lanes[c], Apply(h, a).calls, c, Apply(h, a).stopping) {
      LaneAfter(h, a, c);
    }
  }

  lemma {:induction false} RunKeepsInv(h: Host, acts: seq<Action>, g: Host)
    requires Inv(h) && Run(h, acts, g)
    ensures Inv(g)
    decreases |acts|
  {
    if acts != [] {
      StepKeepsInv(h, acts[0]);
      RunKeepsInv(Apply(h, acts[0]), acts[1..], g);
    }
  }

  lemma SentFrameAnswers(h: Host, c: nat, i: nat) returns (t: nat)
    requires Inv(h) && c in h.lanes && i < |h.lanes[c].sent|
    ensures Answers(h.calls, c, t, h.lanes[c].sent[i])
  {
    assert LaneOk(h.lanes[c], h.calls, c, h.stopping);
    var f := h.lanes[c].sent[i];
    assert SentOk(h.lanes[c], h.calls, c) && f in h.lanes[c].sent;
    t :| Answers(h.calls, c, t, f);
  }

  lemma DispatchingHasNoOutcome(h: Host, t: nat)
    requires Inv(h) && t in h.calls && h.calls[t].stage == Dispatching
    ensures h.calls[t].outcome == None
  {
    assert LaneOk(h.lanes[h.calls[t].conn], h.calls, h.calls[t].conn, h.stopping);
    assert Placed(h.lanes[h.calls[t].conn], h.calls[t], t, h.stopping);
  }

  // ---- what the drain knows ----

  /** In every reachable state the counter is the number of accepted calls still dispatching,
      ready, in a connection's queue or in its writer's hand; it is never negative. */
  lemma UnsettledCountsOpenCalls(acts: seq<Action>, h: Host)
    requires Run(Start(), acts, h)
    ensures h.unsettled == |Open(h.calls)| >= 0
    ensures forall t :: t in Open(h.calls) ==> h.calls[t].conn in h.lanes
    ensures forall t :: t in Open(h.calls) && h.calls[t].stage == Queued ==> Waits(h.lanes[h.calls[t].conn].queue, t)
    ensures forall t :: t in Open(h.calls) && h.calls[t].stage.InHand? ==> InHandOf(h.lanes[h.calls[t].conn].hand, t)
  {
    RunKeepsInv(Start(), acts, h);
    forall t | t in Open(h.calls) ensures Placed(h.lanes[h.calls[t].conn], h.calls[t], t, h.stopping) {
    }
  }

  /** When the drain reads zero, every call accepted so far had its own result written to its
      connection's socket, unless that socket's writes fail; abandoning a queue to shutdown is
      possible only once the drain is over. */
  lemma DrainedMeansWritten(acts: seq<Action>, h: Host, t: nat)
    requires Run(Start(), acts, h) && h.unsettled == 0 && t in h.calls
    ensures h.calls[t].conn in h.lanes
    ensures var call := h.calls[t]; var lane := h.lanes[call.conn];
            && call.stage.Settled? && call.outcome.Some?
            && (call.stage.written ==> FrameOf(call.frame.id, call.outcome.value) in lane.sent)
            && (!call.stage.written ==> lane.broken || (h.stopping && !lane.open))
  {
    RunKeepsInv(Start(), acts, h);
    assert Open(h.calls) == {};
    assert t !in Open(h.calls);
    assert Placed(h.lanes[h.calls[t].conn], h.calls[t], t, h.stopping);
  }
}
