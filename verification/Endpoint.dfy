/** The host in its own form: shared counters and queues changed in place by the connection, call,
    writer and shutdown tasks (crates/mandala-context/src/host.rs). Each method is a run of the
    machine in module Host. */
module Endpoint {
  import opened Wrappers
  import opened Protocol
  import opened Host
  import HostDrain

  class RunningHost {
    var unsettled: int
    var calls: map<nat, Accepted>
    var lanes: map<nat, Lane>
    var refusing: bool
    var stopping: bool

    function Now(): Host
      reads this
    {
      Host(unsettled, calls, lanes, refusing, stopping)
    }

    constructor ()
      ensures Now() == Start()
    {
      unsettled, calls, lanes, refusing, stopping := 0, map[], map[], false, false;
    }

    /** The connection task meets a call frame: counted before its task is spawned. */
    method AcceptCall(c: nat, t: nat, frame: CallFrame)
      requires Enabled(Now(), Accept(c, t, frame))
      modifies this
      ensures Now() == Apply(old(Now()), Accept(c, t, frame))
      ensures unsettled == old(unsettled) + 1 && t in calls && !calls[t].stage.Settled? && lanes == old(lanes)
    {
      unsettled := unsettled + 1;
      calls := calls[t := Accepted(c, frame, None, Dispatching)];
    }

    /** The end of a call task: queue the result, or settle the counter if the writer is gone. */
    method SendResult(t: nat)
      requires Enabled(Now(), Send(t))
      modifies this
      ensures Now() == Apply(old(Now()), Send(t))
      ensures var c := old(calls)[t].conn; var frame := FrameOf(old(calls)[t].frame.id, old(calls)[t].outcome.value);
              if old(lanes)[c].open
              then unsettled == old(unsettled) && lanes[c].queue == old(lanes)[c].queue + [Reply(t, frame)]
              else unsettled == old(unsettled) - 1 && lanes == old(lanes) && calls[t].stage.Settled?
    {
      var c := calls[t].conn;
      var lane := lanes[c];
      if lane.open {
        var frame := FrameOf(calls[t].frame.id, calls[t].outcome.value);
        lanes := lanes[c := lane.(queue := lane.queue + [Reply(t, frame)])];
        calls := calls[t := calls[t].(stage := Queued)];
      } else {
        calls := calls[t := calls[t].(stage := Settled(false))];
        unsettled := unsettled - 1;
      }
      assert lanes == old(lanes)[c := lanes[c]];
    }

    method Move(item: Item, stage: Stage)
      modifies this`calls
      ensures calls == if item.Reply? && item.ticket in old(calls)
                       then old(calls)[item.ticket := old(calls)[item.ticket].(stage := stage)] else old(calls)
    {
      if item.Reply? && item.ticket in calls {
        calls := calls[item.ticket := calls[item.ticket].(stage := stage)];
      }
    }

    method TakeFrame(c: nat)
      requires Enabled(Now(), Receive(c))
      modifies this
      ensures Now() == Apply(old(Now()), Receive(c))
    {
      var item := lanes[c].queue[0];
      lanes := lanes[c := lanes[c].(queue := lanes[c].queue[1..], hand := Holding(item))];
      Move(item, InHand(false));
    }

    method WriteFrame(c: nat, ok: bool)
      requires Enabled(Now(), Write(c, ok))
      modifies this
      ensures Now() == Apply(old(Now()), Write(c, ok))
    {
      var item := lanes[c].hand.item;
      var written := !lanes[c].broken && ok;
      lanes := lanes[c := lanes[c].(
        hand := Done(item), broken := !written,
        sent := if written && item.Reply? then lanes[c].sent + [item.frame] else lanes[c].sent)];
      Move(item, InHand(written));
    }

    method CountFrame(c: nat)
      requires Enabled(Now(), Count(c))
      modifies this
      ensures Now() == Apply(old(Now()), Count(c))
    {
      var item := lanes[c].hand.item;
      lanes := lanes[c := lanes[c].(hand := Empty)];
      Move(item, Settled(!lanes[c].broken));
      if item.Reply? {
        unsettled := unsettled - 1;
      }
    }

    /** One turn of the writer: take the next frame, write it unless the socket is broken, and
        only then let a result count as settled. */
    method WriterTurn(c: nat, ok: bool)
      requires Enabled(Now(), Receive(c))
      modifies this
      ensures Run(old(Now()), [Receive(c), Write(c, ok), Count(c)], Now())
      ensures c in lanes && lanes[c].queue == old(lanes)[c].queue[1..] && lanes[c].hand == Empty
      ensures var lane, item := old(lanes)[c], old(lanes)[c].queue[0];
              && lanes[c].sent == (if item.Reply? && ok && !lane.broken then lane.sent + [item.frame] else lane.sent)
              && unsettled == old(unsettled) - (if item.Reply? then 1 else 0)
    {
      ghost var start := Now();
      TakeFrame(c);
      ghost var received := Now();
      WriteFrame(c, ok);
      ghost var wrote := Now();
      CountFrame(c);
      ThreeSteps(start, received, wrote, Now(), Receive(c), Write(c, ok), Count(c));
    }

    /** What the writer leaves behind: after closing its queue it settles every result in it. */
    method EmptyQueue(c: nat) returns (ghost steps: seq<Action>)
      requires c in lanes && !lanes[c].open
      modifies this
      ensures Run(old(Now()), steps, Now()) && forall a :: a in steps ==> a == Drain(c)
      ensures c in lanes && lanes[c].queue == [] && lanes[c].sent == old(lanes)[c].sent
      ensures unsettled == old(unsettled) - Replies(old(lanes)[c].queue)
    {
      steps := [];
      while lanes[c].queue != []
        invariant c in lanes && !lanes[c].open && lanes[c].sent == old(lanes)[c].sent
        invariant unsettled - Replies(lanes[c].queue) == old(unsettled) - Replies(old(lanes)[c].queue)
        invariant Run(old(Now()), steps, Now()) && forall a :: a in steps ==> a == Drain(c)
        decreases |lanes[c].queue|
      {
        ghost var s := Now();
        var item := lanes[c].queue[0];
        lanes := lanes[c := lanes[c].(queue := lanes[c].queue[1..])];
        Move(item, Settled(false));
        if item.Reply? {
          unsettled := unsettled - 1;
        }
        assert Now() == Apply(s, Drain(c));
        RunExtends(old(Now()), steps, s, Drain(c));
        steps := steps + [Drain(c)];
      }
    }

    /** Any other task's next atomic step. */
    method Meanwhile(a: Action)
      requires Enabled(Now(), a)
      modifies this
      ensures Now() == Apply(old(Now()), a)
    {
      var next := Apply(Now(), a);
      unsettled, calls, lanes, refusing, stopping :=
        next.unsettled, next.calls, next.lanes, next.refusing, next.stopping;
    }

    /** What the other tasks get done between two polls, as far as it is possible. */
    method Others(acts: seq<Action>) returns (ghost steps: seq<Action>)
      requires !stopping && forall a :: a in acts ==> !a.Stop?
      modifies this
      ensures Run(old(Now()), steps, Now()) && !stopping && (old(refusing) ==> refusing)
    {
      steps := [];
      for i := 0 to |acts|
        invariant Run(old(Now()), steps, Now()) && !stopping && (old(refusing) ==> refusing)
      {
        if Enabled(Now(), acts[i]) {
          ghost var s := Now();
          Meanwhile(acts[i]);
          RunExtends(old(Now()), steps, s, acts[i]);
          steps := steps + [acts[i]];
        }
      }
    }

    /** The drain's polls of the counter: it may be zero in between without being seen. */
    method Wait(meanwhile: seq<seq<Action>>) returns (ghost steps: seq<Action>)
      requires !stopping && forall acts, a :: acts in meanwhile && a in acts ==> !a.Stop?
      modifies this
      ensures Run(old(Now()), steps, Now()) && !stopping && (old(refusing) ==> refusing)
    {
      steps := [];
      var i := 0;
      while unsettled > 0 && i < |meanwhile|
        invariant 0 <= i <= |meanwhile|
        invariant Run(old(Now()), steps, Now()) && !stopping && (old(refusing) ==> refusing)
        decreases |meanwhile| - i
      {
        ghost var s := Now();
        ghost var more := Others(meanwhile[i]);
        RunJoins(old(Now()), steps, s, more, Now());
        steps := steps + more;
        i := i + 1;
      }
    }

    /** `shutdown`: refuse new connections, poll the counter while the other tasks go on, with
        `meanwhile[i]` before poll `i + 1`, and only after the last poll stop the writers. If the
        counter was seen at zero, every call accepted until then was answered on its socket or
        its socket is broken. */
    method Shutdown(meanwhile: seq<seq<Action>>) returns (drained: bool, ghost steps: seq<Action>)
      requires HostDrain.Inv(Now()) && !stopping && forall acts, a :: acts in meanwhile && a in acts ==> !a.Stop?
      modifies this
      ensures Run(Apply(old(Now()), Refuse), steps, Now().(stopping := false)) && refusing && stopping
      ensures drained <==> unsettled == 0
      ensures drained ==> forall t :: t in calls ==> AnsweredOrBroken(Now(), t)
    {
      refusing := true;
      HostDrain.StepKeepsInv(old(Now()), Refuse);
      steps := Wait(meanwhile);
      HostDrain.RunKeepsInv(Apply(old(Now()), Refuse), steps, Now());
      drained := unsettled <= 0;
      if drained {
        ZeroMeansAnswered(Now());
      }
      stopping := true;
    }
  }

  /** How many of the queued frames settle a call. */
  function Replies(queue: seq<Item>): nat {
    if queue == [] then 0 else (if queue[0].Reply? then 1 else 0) + Replies(queue[1..])
  }

  /** The call's own result is on its connection's socket, or that socket's writes fail. */
  predicate AnsweredOrBroken(h: Host, t: nat)
    requires t in h.calls
  {
    && h.calls[t].conn in h.lanes && h.calls[t].stage.Settled? && h.calls[t].outcome.Some?
    && (h.lanes[h.calls[t].conn].broken
        || FrameOf(h.calls[t].frame.id, h.calls[t].outcome.value) in h.lanes[h.calls[t].conn].sent)
  }

  lemma ZeroMeansAnswered(h: Host)
    requires HostDrain.Inv(h) && h.unsettled <= 0 && !h.stopping
    ensures h.unsettled == 0 && forall t :: t in h.calls ==> AnsweredOrBroken(h, t)
    ensures forall t :: t in h.calls ==> AnsweredOrBroken(h.(stopping := true), t)
  {
    assert HostDrain.Open(h.calls) == {};
    forall t | t in h.calls ensures AnsweredOrBroken(h, t) {
      assert t !in HostDrain.Open(h.calls);
      assert HostDrain.Placed(h.lanes[h.calls[t].conn], h.calls[t], t, h.stopping);
    }
  }

  lemma ThreeSteps(s: Host, t: Host, u: Host, v: Host, a: Action, b: Action, c: Action)
    requires Enabled(s, a) && t == Apply(s, a) && Enabled(t, b) && u == Apply(t, b) && Enabled(u, c) && v == Apply(u, c)
    ensures Run(s, [a, b, c], v)
  {
    assert Run(v, [], v);
    assert Run(u, [c], v) && Run(t, [b, c], v);
  }

  lemma {:induction false} RunExtends(s: Host, acts: seq<Action>, t: Host, a: Action)
    requires Run(s, acts, t) && Enabled(t, a)
    ensures Run(s, acts + [a], Apply(t, a))
    decreases |acts|
  {
    if acts == [] {
      assert Run(Apply(t, a), [], Apply(t, a));
      assert ([] + [a])[1..] == [];
    } else {
      RunExtends(Apply(s, acts[0]), acts[1..], t, a);
      assert (acts + [a])[1..] == acts[1..] + [a];
    }
  }

  lemma {:induction false} RunJoins(s: Host, acts: seq<Action>, t: Host, more: seq<Action>, u: Host)
    requires Run(s, acts, t) && Run(t, more, u)
    ensures Run(s, acts + more, u)
    decreases |acts|
  {
    if acts == [] {
      assert [] + more == more;
    } else {
      RunJoins(Apply(s, acts[0]), acts[1..], t, more, u);
      assert (acts + more)[1..] == acts[1..] + more;
    }
  }
}
