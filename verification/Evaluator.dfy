/** One evaluator and its worker, and the registry of workers in its own form: fields changed in
    place (crates/mandala-core/src/eval.rs). */
module Evaluator {
  import opened Wrappers
  import opened EvalWorkers
  import P = Process

  // ---- the registry ----

  class Workers {
    var latch: bool
    var live: seq<nat>
    var procs: map<nat, P.Proc>
    var shots: set<P.Shot>

    /** This class's part of `s`. */
    predicate Shows(s: State)
      reads this
    {
      latch == s.latch && live == s.live && procs == s.procs && shots == s.shots
    }

    method Push(ghost s: State, w: nat, pid: nat)
      requires Shows(s) && Enabled(s, Action.Push(w)) && s.workers[w].pid == pid
      modifies this`live
      ensures Shows(Apply(s, Action.Push(w))) && live == old(live) + [pid]
    {
      live := live + [pid];
    }

    method SetLatch(ghost s: State, ghost c: nat)
      requires Shows(s) && Enabled(s, Action.SetLatch(c))
      modifies this`latch
      ensures Shows(Apply(s, Action.SetLatch(c))) && latch
    {
      latch := true;
    }

    /** The end of `Worker::spawn`, under the registry's lock: a latch set since the first check
        refuses the child. The latch is stored outside the lock, so a shutdown may set it
        (`stored`) after this check and before the push. */
    method Register(ghost s: State, w: nat, pid: nat, stored: bool, ghost c: nat) returns (usable: bool)
      requires Shows(s) && Enabled(s, Recheck(w)) && s.workers[w].pid == pid && c !in s.callers
      modifies this`live, this`latch
      ensures usable <==> !old(latch)
      ensures live == (if usable then old(live) + [pid] else old(live)) && latch == (old(latch) || stored)
      ensures !usable ==> Shows(Apply(s, Recheck(w)))
      ensures usable ==>
                var cleared := Apply(s, Recheck(w));
                Shows(Apply(if stored then Apply(cleared, Action.SetLatch(c)) else cleared, Action.Push(w)))
    {
      if latch {
        return false;
      }
      ghost var now := Apply(s, Recheck(w));
      if stored {
        SetLatch(now, c);
        now := Apply(now, Action.SetLatch(c));
      }
      Push(now, w, pid);
      return true;
    }

    /** The first step of dropping a worker, under the lock. */
    method Deregister(ghost s: State, w: nat, pid: nat)
      requires Shows(s) && Enabled(s, Action.Deregister(w)) && s.workers[w].pid == pid
      modifies this`live
      ensures Shows(Apply(s, Action.Deregister(w)))
      ensures multiset(live) == multiset(old(live))[pid := 0]
    {
      live := Retain(live, pid);
    }

    /** The locked half of `shutdown_workers`: SIGKILL to each registered pid in turn. */
    method Sweep(ghost s: State, c: nat)
      requires Shows(s) && Enabled(s, Action.Sweep(c))
      modifies this`shots
      ensures Shows(Apply(s, Action.Sweep(c)))
      ensures forall p :: p in live && p in procs ==> P.Shot(p, Some(procs[p].uid)) in shots
      ensures forall shot :: shot in shots && shot !in old(shots) ==> shot.pgid in live
    {
      var i := 0;
      while i < |live|
        invariant 0 <= i <= |live|
        invariant shots == old(shots) + P.Volley(procs, Pids(live[..i]))
      {
        assert Pids(live[..i + 1]) == Pids(live[..i]) + {live[i]};
        assert P.Volley(procs, Pids(live[..i + 1])) == P.Volley(procs, Pids(live[..i])) + {P.Hit(procs, live[i])};
        shots := shots + {P.Hit(procs, live[i])};
        i := i + 1;
      }
      assert live[..i] == live;
      forall p | p in live && p in procs ensures P.Shot(p, Some(procs[p].uid)) in shots {
        assert p in Pids(live) && P.Hit(procs, p) in P.Volley(procs, Pids(live));
      }
    }
  }

  /** One pass that keeps every other pid. */
  method Retain(live: seq<nat>, pid: nat) returns (kept: seq<nat>)
    ensures kept == Without(live, pid)
    ensures multiset(kept) == multiset(live)[pid := 0]
  {
    kept := [];
    for i := 0 to |live|
      invariant kept + Without(live[i..], pid) == Without(live, pid)
    {
      NextIsKeptOrNot(kept, live, i, pid);
      if live[i] != pid {
        kept := kept + [live[i]];
      }
    }
    assert kept + [] == kept;
    WithoutKeepsTheRest(live, pid);
  }

  lemma NextIsKeptOrNot(kept: seq<nat>, live: seq<nat>, i: nat, pid: nat)
    requires i < |live|
    ensures kept + Without(live[i..], pid) ==
            (if live[i] == pid then kept else kept + [live[i]]) + Without(live[i + 1..], pid)
  {
    assert live[i..][1..] == live[i + 1..];
    Regroup(kept, [live[i]], Without(live[i + 1..], pid));
    assert [] + Without(live[i + 1..], pid) == Without(live[i + 1..], pid);
  }

  lemma Regroup(a: seq<nat>, b: seq<nat>, c: seq<nat>)
    ensures a + (b + c) == (a + b) + c
  {
  }

  lemma {:induction false} WithoutKeepsTheRest(live: seq<nat>, pid: nat)
    ensures multiset(Without(live, pid)) == multiset(live)[pid := 0]
    decreases |live|
  {
    if live != [] {
      WithoutKeepsTheRest(live[1..], pid);
      assert live == [live[0]] + live[1..];
      assert multiset(live) == multiset{live[0]} + multiset(live[1..]);
    }
  }

  // ---- one call ----

  /** What one exchange over the worker's pipes comes to. */
  datatype Reply =
    | WriteFailed
    | NoLineInTime
    | Closed
    | ReadFailed
    | NotAnObject
    | Object(id: Option<nat>, ok: Option<bool>, value: Option<string>, error: Option<string>)

  datatype Roundtrip = Answered(verdict: Result<Option<string>, string>) | Timeout | Transport

  datatype Outcome = Settled(verdict: Result<Option<string>, string>) | NotSpawned | TimedOut | Unavailable

  /** Only an object that echoes the request's own id is an answer. */
  function RoundtripOf(reply: Reply, id: nat): (r: Roundtrip)
    ensures r.Answered? <==> reply.Object? && reply.id == Some(id)
    ensures r.Timeout? <==> reply.NoLineInTime?
    ensures r.Answered? ==> (r.verdict.Ok? <==> reply.ok == Some(true))
    ensures r.Answered? && r.verdict.Ok? ==> r.verdict.value == reply.value
    ensures r.Answered? && r.verdict.Err? && reply.error.Some? ==> r.verdict.error == reply.error.value
    ensures r.Answered? && r.verdict.Err? && reply.error.None? ==> r.verdict.error == "unknown worker error"
  {
    match reply
    case NoLineInTime => Timeout
    case Object(got, ok, value, error) =>
      if got != Some(id) then Transport
      else if ok == Some(true) then Answered(Ok(value))
      else Answered(Err(if error.Some? then error.value else "unknown worker error"))
    case _ => Transport
  }

  /** A request on the wire: the worker process it went to and the id it carried. */
  datatype Request = Request(worker: nat, id: nat)

  predicate FreshWorker(sent: seq<Request>) {
    |sent| >= 2 && sent[|sent| - 2].worker < sent[|sent| - 1].worker
  }

  class Caller {
    var worker: Option<nat>
    var nextId: nat
    var started: nat
    ghost var sent: seq<Request>

    /** Requests are numbered from one in the order they went out, so no id is used twice. */
    ghost predicate Valid()
      reads this
    {
      && nextId == |sent| + 1
      && (forall i :: 0 <= i < |sent| ==> sent[i].id == i + 1 && sent[i].worker < started)
      && (worker.Some? ==> worker.value < started)
    }

    constructor ()
      ensures Valid() && worker.None? && nextId == 1 && sent == []
    {
      worker, nextId, started, sent := None, 1, 0, [];
    }

    /** `reload`: the next call starts a fresh worker. */
    method Reload()
      requires Valid()
      modifies this`worker
      ensures Valid() && worker.None?
    {
      worker := None;
    }

    method EnsureWorker(spawns: bool) returns (ok: bool)
      requires Valid()
      modifies this`worker, this`started
      ensures Valid() && started >= old(started)
      ensures ok <==> worker.Some?
      ensures ok <==> old(worker).Some? || spawns
      ensures old(worker).Some? ==> worker == old(worker)
      ensures old(worker).None? && ok ==> worker.value == old(started)
    {
      ok := worker.Some? || spawns;
      if worker.None? && spawns {
        worker, started := Some(started), started + 1;
      }
    }

    /** One request and what came of it; a worker that did not answer is dropped. */
    method Exchange(reply: Reply) returns (trip: Roundtrip)
      requires Valid() && worker.Some?
      modifies this`worker, this`nextId, this`sent
      ensures Valid() && nextId == old(nextId) + 1
      ensures sent == old(sent) + [Request(old(worker).value, old(nextId))]
      ensures trip == RoundtripOf(reply, old(nextId))
      ensures worker == if trip.Answered? then old(worker) else None
    {
      trip := RoundtripOf(reply, nextId);
      nextId, sent := nextId + 1, sent + [Request(worker.value, nextId)];
      if !trip.Answered? {
        worker := None;
      }
    }

    /** `worker_call`: `spawns[k]` says whether attempt `k` could start a worker, `replies[k]` what
        came of its request. Only a transport failure is retried, once, on a fresh worker and
        under a fresh id; the caller gets a verdict exactly when the last request was answered
        under its own id; and a worker outlives the call only if it did answer, so nothing a
        timed-out or failed exchange left in its pipe is read by a later call. */
    method WorkerCall(spawns: seq<bool>, replies: seq<Reply>) returns (out: Outcome, tries: seq<Roundtrip>)
      requires |spawns| == 2 && |replies| == 2 && Valid()
      modifies this
      ensures Valid() && old(sent) <= sent
      ensures |tries| <= 2 && nextId == old(nextId) + |tries|
      ensures forall k :: 0 <= k < |tries| ==> tries[k] == RoundtripOf(replies[k], old(nextId) + k)
      ensures |tries| == 0 <==> old(worker).None? && !spawns[0]
      ensures |tries| == 2 <==> (old(worker).Some? || spawns[0]) && tries[0].Transport? && spawns[1]
      ensures |tries| == 2 ==> FreshWorker(sent)
      ensures if out.Settled? then |tries| > 0 && tries[|tries| - 1] == Answered(out.verdict)
              else |tries| > 0 ==> !tries[|tries| - 1].Answered?
      ensures out.TimedOut? <==> |tries| > 0 && tries[|tries| - 1].Timeout?
      ensures out.Unavailable? <==> tries == [Transport, Transport]
      ensures out.Settled? <==> worker.Some?
      ensures worker.Some? ==> worker.value == sent[|sent| - 1].worker
    {
      tries := [];
      var attempt := 0;
      while attempt < 2
        invariant 0 <= attempt <= 2 && Valid() && old(sent) <= sent
        invariant |tries| == attempt && nextId == old(nextId) + attempt
        invariant forall k :: 0 <= k < attempt ==> tries[k] == RoundtripOf(replies[k], old(nextId) + k)
        invariant forall k :: 0 <= k < attempt ==> tries[k].Transport?
        invariant if attempt == 0 then worker == old(worker) else worker.None? && (old(worker).Some? || spawns[0])
        invariant attempt == 2 ==> spawns[1] && FreshWorker(sent)
      {
        var ready := EnsureWorker(spawns[attempt]);
        if !ready {
          return NotSpawned, tries;
        }
        var trip := Exchange(replies[attempt]);
        tries := tries + [trip];
        match trip {
          case Answered(verdict) => return Settled(verdict), tries;
          case Timeout => return TimedOut, tries;
          case Transport =>
        }
        attempt := attempt + 1;
      }
      return Unavailable, tries;
    }
  }
}
