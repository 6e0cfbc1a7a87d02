/** The joining side of one connection (crates/mandala-context/src/client.rs): the waiter table,
    the reader that settles it and the calls that wait on it. */
module Client {
  import opened Wrappers
  import opened Protocol

  /** What a call returns to its caller. */
  datatype Reply = Answer(outcome: Outcome) | ConnectionLost

  datatype CallPhase = Minted | Registered | Sent | Cancelled | Returned(reply: Reply)

  /** `slot` is the call's oneshot: what the reader put there, if anything yet. */
  datatype Call = Call(tool: string, args: string, phase: CallPhase, slot: Option<Reply>)

  datatype Client = Client(
    nextId: nat, table: set<nat>, closed: bool, calls: map<nat, Call>, outbox: seq<CallFrame>, writing: bool)

  datatype Action =
    | Mint(tool: string, args: string)
    | Register(id: nat)
    | Send(id: nat)
    | Cancel(id: nat)
    | Flush
    | FlushFails
    | Receive(frame: ResultFrame)
    | Hangup
    | Await(id: nat)

  function Fresh(): Client {
    Client(1, {}, false, map[], [], true)
  }

  predicate At(k: Client, id: nat, ph: CallPhase) {
    id in k.calls && k.calls[id].phase == ph
  }

  predicate Enabled(k: Client, a: Action) {
    match a
    case Mint(_, _) => true
    case Register(id) => At(k, id, Minted)
    case Send(id) => At(k, id, Registered)
    case Cancel(id) => At(k, id, Minted) || At(k, id, Registered) || At(k, id, Sent)
    case Flush => k.writing && k.outbox != []
    case FlushFails => k.writing
    case Receive(_) => !k.closed
    case Hangup => !k.closed
    case Await(id) => At(k, id, Sent) && k.calls[id].slot.Some?
  }

  function Moved(k: Client, id: nat, ph: CallPhase): map<nat, Call>
    requires id in k.calls
  {
    k.calls[id := k.calls[id].(phase := ph)]
  }

  /** Calls whose waiter is in `ids` find `r` in their slot. */
  function Filled(calls: map<nat, Call>, ids: set<nat>, r: Reply): map<nat, Call> {
    map id | id in calls :: if id in ids then calls[id].(slot := Some(r)) else calls[id]
  }

  function Apply(k: Client, a: Action): Client
    requires Enabled(k, a)
  {
    match a
    case Mint(tool, args) => k.(nextId := k.nextId + 1, calls := k.calls[k.nextId := Call(tool, args, Minted, None)])
    case Register(id) =>
      if k.closed then k.(calls := Moved(k, id, Returned(ConnectionLost)))
      else k.(table := k.table + {id}, calls := Moved(k, id, Registered))
    case Send(id) =>
      if k.writing
      then k.(outbox := k.outbox + [CallFrame(id, k.calls[id].tool, k.calls[id].args)], calls := Moved(k, id, Sent))
      else k.(calls := Moved(k, id, Returned(ConnectionLost)))
    case Cancel(id) => k.(calls := Moved(k, id, Cancelled))
    case Flush => k.(outbox := k.outbox[1..])
    case FlushFails => k.(writing := false, outbox := [])
    case Receive(f) =>
      if f.id in k.table
      then k.(table := k.table - {f.id}, calls := Filled(k.calls, {f.id}, Answer(OutcomeOf(f))))
      else k
    case Hangup => k.(closed := true, table := {}, calls := Filled(k.calls, k.table, ConnectionLost))
    case Await(id) => k.(calls := Moved(k, id, Returned(k.calls[id].slot.value)))
  }

  /** A call in the table is unanswered, and every call that may still wait is in the table. */
  ghost predicate Inv(k: Client) {
    && k.nextId >= 1
    && (k.closed ==> k.table == {})
    && (forall id :: id in k.table ==> id in k.calls && k.calls[id].slot == None && k.calls[id].phase != Minted)
    && (forall id :: id in k.calls ==> 1 <= id < k.nextId)
    && (forall id :: id in k.calls && k.calls[id].phase in {Registered, Sent} ==>
          k.calls[id].slot.Some? || id in k.table)
    && (forall id :: id in k.calls && k.calls[id].phase == Minted ==> k.calls[id].slot == None)
  }

  lemma FreshInv()
    ensures Inv(Fresh())
  {
  }

  lemma StepKeepsInv(k: Client, a: Action)
    requires Inv(k) && Enabled(k, a)
    ensures Inv(Apply(k, a))
  {
    var l := Apply(k, a);
    match a
    case Receive(f) => assert forall id :: id in l.calls <==> id in k.calls;
    case Hangup => assert forall id :: id in l.calls <==> id in k.calls;
    case _ =>
  }

  predicate Run(k: Client, acts: seq<Action>, l: Client)
    decreases |acts|
  {
    if acts == [] then k == l else Enabled(k, acts[0]) && Run(Apply(k, acts[0]), acts[1..], l)
  }

  lemma {:induction false} RunKeepsInv(k: Client, acts: seq<Action>, l: Client)
    requires Inv(k) && Run(k, acts, l)
    ensures Inv(l)
    decreases |acts|
  {
    if acts != [] {
      StepKeepsInv(k, acts[0]);
      RunKeepsInv(Apply(k, acts[0]), acts[1..], l);
    }
  }

  /** Once the reader has seen the end, no waiter is left or ever added, and every call still
      waiting already holds its reply. Before that, every waiting call is in the table. */
  lemma NoOrphanWaiters(acts: seq<Action>, k: Client)
    requires Run(Fresh(), acts, k)
    ensures k.closed ==> k.table == {}
    ensures k.closed ==> forall id :: At(k, id, Sent) || At(k, id, Registered) ==> k.calls[id].slot.Some?
    ensures forall id :: (At(k, id, Sent) || At(k, id, Registered)) && k.calls[id].slot == None ==> id in k.table
  {
    RunKeepsInv(Fresh(), acts, k);
  }

  /** A returned call never changes again, and a filled slot keeps its first reply: whatever
      else happens on the connection, a call settles at most once. */
  lemma {:induction false} SettlesAtMostOnce(k: Client, acts: seq<Action>, l: Client, id: nat)
    requires Inv(k) && Run(k, acts, l) && id in k.calls
    ensures id in l.calls && l.calls[id].tool == k.calls[id].tool && l.calls[id].args == k.calls[id].args
    ensures k.calls[id].phase.Returned? ==> l.calls[id].phase == k.calls[id].phase
    ensures k.calls[id].slot.Some? ==> l.calls[id].slot == k.calls[id].slot
    decreases |acts|
  {
    if acts != [] {
      StepKeepsInv(k, acts[0]);
      StepKeepsSettlement(k, acts[0], id);
      SettlesAtMostOnce(Apply(k, acts[0]), acts[1..], l, id);
    }
  }

  lemma StepKeepsSettlement(k: Client, a: Action, id: nat)
    requires Inv(k) && Enabled(k, a) && id in k.calls
    ensures var l := Apply(k, a);
            && id in l.calls && l.calls[id].tool == k.calls[id].tool && l.calls[id].args == k.calls[id].args
            && (k.calls[id].phase.Returned? ==> l.calls[id].phase == k.calls[id].phase)
            && (k.calls[id].slot.Some? ==> l.calls[id].slot == k.calls[id].slot)
  {
  }

  /** The table behind its lock, as the program holds it: insertion, settlement and the drain
      at end of file are each one critical section. `slots` are the oneshots of the calls that
      were let in, with what the reader has put there. */
  class Waiters {
    var calls: set<nat>
    var closed: bool
    var slots: map<nat, Option<Reply>>

    /** This object's part of `k`: the table, the flag, and the slot of every call let in. */
    ghost predicate Shows(k: Client)
      reads this
    {
      && calls == k.table && closed == k.closed && calls <= slots.Keys
      && forall id :: id in slots ==> id in k.calls && k.calls[id].slot == slots[id]
    }

    constructor ()
      ensures Shows(Fresh()) && slots == map[]
    {
      calls, closed, slots := {}, false, map[];
    }

    /** `call`'s critical section: refuse once closed, else wait under the new id. */
    method Register(ghost k: Client, id: nat) returns (accepted: bool)
      requires Inv(k) && Shows(k) && Enabled(k, Action.Register(id))
      modifies this
      ensures Shows(Apply(k, Action.Register(id)))
      ensures accepted <==> !old(closed)
      ensures slots == if accepted then old(slots)[id := None] else old(slots)
    {
      if closed {
        return false;
      }
      calls := calls + {id};
      slots := slots[id := None];
      return true;
    }

    /** The reader's critical section for one result frame: whoever waits for it, and nobody else,
        finds its outcome. */
    method Settle(ghost k: Client, f: ResultFrame)
      requires Inv(k) && Shows(k) && Enabled(k, Receive(f))
      modifies this
      ensures Shows(Apply(k, Receive(f)))
      ensures slots == if f.id in old(calls) then old(slots)[f.id := Some(Answer(OutcomeOf(f)))] else old(slots)
    {
      if f.id in calls {
        calls := calls - {f.id};
        slots := slots[f.id := Some(Answer(OutcomeOf(f)))];
      }
    }

    /** The reader's last critical section: close, then fail whatever still waits. */
    method Close(ghost k: Client)
      requires Inv(k) && Shows(k) && Enabled(k, Hangup)
      modifies this
      ensures Shows(Apply(k, Hangup)) && closed && calls == {} && slots.Keys == old(slots).Keys
      ensures forall id :: id in slots ==>
                slots[id] == if id in old(calls) then Some(ConnectionLost) else old(slots)[id]
    {
      closed := true;
      while calls != {}
        invariant calls <= old(calls) && closed && slots.Keys == old(slots).Keys
        invariant forall id :: id in slots ==>
                    slots[id] == if id in old(calls) && id !in calls then Some(ConnectionLost) else old(slots)[id]
        decreases calls
      {
        var id :| id in calls;
        calls := calls - {id};
        slots := slots[id := Some(ConnectionLost)];
      }
    }

    /** What a call that was let in reads from its oneshot is what it returns with. */
    method Await(ghost k: Client, id: nat) returns (r: Reply)
      requires Shows(k) && Enabled(k, Action.Await(id)) && id in slots
      ensures Apply(k, Action.Await(id)).calls[id].phase == Returned(r) && slots[id] == Some(r)
    {
      r := slots[id].value;
    }
  }
}
