/** The leader side of the endpoint (crates/mandala-context/src/host.rs): call tasks, one writer
    per connection, and the counter the shutdown drain waits on. */
module Host {
  import opened Wrappers
  import opened Protocol

  /** An accepted call's way through the host. `InHand` spans the write and the decrement. */
  datatype Stage = Dispatching | Ready | Queued | InHand(written: bool) | Settled(written: bool)

  /** `outcome` is what the dispatch of this very call came to, once it has. */
  datatype Accepted = Accepted(conn: nat, frame: CallFrame, outcome: Option<Outcome>, stage: Stage)

  /** What travels to the writer: a call's result, or a frame that settles nothing. The ticket
      only names the call the frame came from. */
  datatype Item = Reply(ticket: nat, frame: ResultFrame) | Chatter

  datatype Hand = Empty | Holding(item: Item) | Done(item: Item)

  /** One connection. `sent` are the result frames written to its socket so far. */
  datatype Lane = Lane(
    queue: seq<Item>, open: bool, reading: bool, hand: Hand, broken: bool, sent: seq<ResultFrame>)

  /** `calls` is indexed by accept tickets; ids are the client's business. */
  datatype Host = Host(unsettled: int, calls: map<nat, Accepted>, lanes: map<nat, Lane>, refusing: bool, stopping: bool)

  datatype Action =
    | Connect(c: nat)
    | Accept(c: nat, t: nat, frame: CallFrame)
    | EndReading(c: nat)
    | Dispatch(t: nat, outcome: Outcome)
    | Send(t: nat)
    | Chat(c: nat)
    | Receive(c: nat)
    | Write(c: nat, ok: bool)
    | Count(c: nat)
    | CloseQueue(c: nat)
    | Drain(c: nat)
    | Refuse
    | Stop

  const QUEUE_CAPACITY: nat := 64

  function Start(): Host {
    Host(0, map[], map[], false, false)
  }

  function NewLane(): Lane {
    Lane([], true, true, Empty, false, [])
  }

  /** No task of the connection can still produce a result. */
  predicate NoSenders(h: Host, c: nat)
    requires c in h.lanes
  {
    !h.lanes[c].reading && forall t :: t in h.calls && h.calls[t].conn == c ==> h.calls[t].stage.Settled?
  }

  predicate Enabled(h: Host, a: Action) {
    match a
    case Connect(c) => c !in h.lanes && !h.refusing
    case Accept(c, t, _) => c in h.lanes && h.lanes[c].reading && t !in h.calls
    case EndReading(c) => c in h.lanes
    case Dispatch(t, _) => t in h.calls && h.calls[t].stage == Dispatching
    case Send(t) =>
      && t in h.calls && h.calls[t].stage == Ready && h.calls[t].outcome.Some? && h.calls[t].conn in h.lanes
      && (h.lanes[h.calls[t].conn].open ==> |h.lanes[h.calls[t].conn].queue| < QUEUE_CAPACITY)
    case Chat(c) => c in h.lanes && h.lanes[c].open && |h.lanes[c].queue| < QUEUE_CAPACITY
    case Receive(c) => c in h.lanes && h.lanes[c].open && h.lanes[c].hand == Empty && h.lanes[c].queue != []
    case Write(c, _) => c in h.lanes && h.lanes[c].hand.Holding?
    case Count(c) => c in h.lanes && h.lanes[c].hand.Done?
    case CloseQueue(c) =>
      && c in h.lanes && h.lanes[c].open && h.lanes[c].hand == Empty
      && (h.stopping || (h.lanes[c].queue == [] && NoSenders(h, c)))
    case Drain(c) => c in h.lanes && !h.lanes[c].open && h.lanes[c].queue != []
    case Refuse => true
    case Stop => h.refusing
  }

  /** The host with one lane replaced and, for a reply, its call moved to another stage. */
  function Update(h: Host, c: nat, lane: Lane, item: Item, stage: Stage): Host {
    h.(lanes := h.lanes[c := lane],
       calls := if item.Reply? && item.ticket in h.calls
                then h.calls[item.ticket := h.calls[item.ticket].(stage := stage)] else h.calls)
  }

  /** The decrement that settles a result frame. */
  function Less(h: Host, item: Item): int {
    h.unsettled - if item.Reply? then 1 else 0
  }

  function Apply(h: Host, a: Action): Host
    requires Enabled(h, a)
  {
    match a
    case Connect(c) => h.(lanes := h.lanes[c := NewLane()])
    case Accept(c, t, frame) =>
      h.(unsettled := h.unsettled + 1, calls := h.calls[t := Accepted(c, frame, None, Dispatching)])
    case EndReading(c) => h.(lanes := h.lanes[c := h.lanes[c].(reading := false)])
    case Dispatch(t, o) => h.(calls := h.calls[t := h.calls[t].(outcome := Some(o), stage := Ready)])
    case Send(t) =>
      var c := h.calls[t].conn;
      var lane, item := h.lanes[c], Reply(t, FrameOf(h.calls[t].frame.id, h.calls[t].outcome.value));
      if lane.open then Update(h, c, lane.(queue := lane.queue + [item]), item, Queued)
      else Update(h, c, lane, item, Settled(false)).(unsettled := Less(h, item))
    case Chat(c) => h.(lanes := h.lanes[c := h.lanes[c].(queue := h.lanes[c].queue + [Chatter])])
    case Receive(c) =>
      var lane, item := h.lanes[c], h.lanes[c].queue[0];
      Update(h, c, lane.(queue := lane.queue[1..], hand := Holding(item)), item, InHand(false))
    case Write(c, ok) =>
      var lane, item := h.lanes[c], h.lanes[c].hand.item;
      var written := !lane.broken && ok;
      Update(h, c, lane.(hand := Done(item), broken := !written,
                         sent := if written && item.Reply? then lane.sent + [item.frame] else lane.sent),
             item, InHand(written))
    case Count(c) =>
      var lane, item := h.lanes[c], h.lanes[c].hand.item;
      Update(h, c, lane.(hand := Empty), item, Settled(!lane.broken)).(unsettled := Less(h, item))
    case CloseQueue(c) => h.(lanes := h.lanes[c := h.lanes[c].(open := false)])
    case Drain(c) =>
      var lane, item := h.lanes[c], h.lanes[c].queue[0];
      Update(h, c, lane.(queue := lane.queue[1..]), item, Settled(false)).(unsettled := Less(h, item))
    case Refuse => h.(refusing := true)
    case Stop => h.(stopping := true)
  }

  predicate Run(h: Host, acts: seq<Action>, g: Host)
    decreases |acts|
  {
    if acts == [] then h == g else Enabled(h, acts[0]) && Run(Apply(h, acts[0]), acts[1..], g)
  }
}
