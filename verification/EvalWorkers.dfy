/** Evaluation workers and their terminal shutdown (crates/mandala-core/src/eval.rs): any number
    of threads spawning and dropping workers race `shutdown_workers`, over a kernel that may hand
    out a pid again as soon as its process has been reaped. */
module EvalWorkers {
  import opened Wrappers
  import P = Process

  /** How far one `Worker` has got: its latch read, forked but not yet registered, cleared under the
      registry's lock but not yet pushed, registered and usable, or deregistered or refused and
      about to be killed and reaped. */
  datatype Stage =
    | Checked
    | Forked(pid: nat, uid: nat)
    | Cleared(pid: nat, uid: nat)
    | Live(pid: nat, uid: nat)
    | Ending(pid: nat, uid: nat)
    | Gone
  {
    predicate Owns() { Forked? || Cleared? || Live? || Ending? }
  }

  /** `latch` is SHUTTING_DOWN, set outside any lock; `live` is LIVE_WORKERS and `lock` the spawn
      that holds its lock between two steps; `callers` the shutdowns that have set the latch but
      not swept yet. */
  datatype State = State(
    procs: map<nat, P.Proc>, nextUid: nat, ours: set<nat>, shots: set<P.Shot>,
    latch: bool, lock: Option<nat>, live: seq<nat>, swept: bool, callers: set<nat>, workers: map<nat, Stage>)

  datatype Action =
    | ReadLatch(w: nat)
    | Fork(w: nat, pid: nat)
    | ForkFails(w: nat)
    | PipeFails(w: nat)
    | Recheck(w: nat)
    | Push(w: nat)
    | Deregister(w: nat)
    | KillChild(w: nat)
    | Reap(w: nat)
    | SetLatch(c: nat)
    | Sweep(c: nat)
    | Exit(pid: nat)
    | StrangerSpawns(pid: nat)
    | StrangerReaped(pid: nat)

  const START := State(map[], 0, {}, {}, false, None, [], false, {}, map[])

  function Pids(live: seq<nat>): set<nat> {
    set p | p in live
  }

  /** `Vec::retain(|&p| p != pid)`. */
  function Without(live: seq<nat>, pid: nat): seq<nat> {
    if live == [] then [] else (if live[0] == pid then [] else [live[0]]) + Without(live[1..], pid)
  }

  predicate Enabled(s: State, a: Action) {
    match a
    case ReadLatch(w) => w !in s.workers
    case Fork(w, pid) => w in s.workers && s.workers[w].Checked? && pid !in s.procs
    case ForkFails(w) => w in s.workers && s.workers[w].Checked?
    case PipeFails(w) => w in s.workers && s.workers[w].Forked?
    case Recheck(w) => w in s.workers && s.workers[w].Forked? && s.lock.None?
    case Push(w) => w in s.workers && s.workers[w].Cleared? && s.lock == Some(w)
    case Deregister(w) => w in s.workers && s.workers[w].Live? && s.lock.None?
    case KillChild(w) => w in s.workers && s.workers[w].Ending?
    case Reap(w) => w in s.workers && s.workers[w].Ending?
      && s.workers[w].pid in s.procs && s.procs[s.workers[w].pid].exited
    case SetLatch(c) => c !in s.callers
    case Sweep(c) => c in s.callers && s.lock.None?
    case Exit(pid) => pid in s.procs
    case StrangerSpawns(pid) => pid !in s.procs
    case StrangerReaped(pid) => pid in s.procs && s.procs[pid].uid !in s.ours
  }

  function Apply(s: State, a: Action): State
    requires Enabled(s, a)
  {
    match a
    case ReadLatch(w) => s.(workers := s.workers[w := if s.latch then Gone else Checked])
    case Fork(w, pid) =>
      s.(procs := s.procs[pid := P.Proc(s.nextUid, false)], nextUid := s.nextUid + 1, ours := s.ours + {s.nextUid},
         workers := s.workers[w := Forked(pid, s.nextUid)])
    case ForkFails(w) => s.(workers := s.workers[w := Gone])
    case PipeFails(w) => s.(workers := s.workers[w := Ending(s.workers[w].pid, s.workers[w].uid)])
    case Recheck(w) =>
      var k := s.workers[w];
      if s.latch then s.(workers := s.workers[w := Ending(k.pid, k.uid)])
      else s.(lock := Some(w), workers := s.workers[w := Cleared(k.pid, k.uid)])
    case Push(w) =>
      var k := s.workers[w];
      s.(live := s.live + [k.pid], lock := None, workers := s.workers[w := Live(k.pid, k.uid)])
    case Deregister(w) =>
      var k := s.workers[w];
      s.(live := Without(s.live, k.pid), workers := s.workers[w := Ending(k.pid, k.uid)])
    case KillChild(w) => s.(shots := s.shots + {P.Hit(s.procs, s.workers[w].pid)})
    case Reap(w) => s.(procs := s.procs - {s.workers[w].pid}, workers := s.workers[w := Gone])
    case SetLatch(c) => s.(latch := true, callers := s.callers + {c})
    case Sweep(c) => s.(shots := s.shots + P.Volley(s.procs, Pids(s.live)), swept := true, callers := s.callers - {c})
    case Exit(pid) => s.(procs := s.procs[pid := s.procs[pid].(exited := true)])
    case StrangerSpawns(pid) => s.(procs := s.procs[pid := P.Proc(s.nextUid, false)], nextUid := s.nextUid + 1)
    case StrangerReaped(pid) => s.(procs := s.procs - {pid})
  }

  predicate Run(s: State, acts: seq<Action>, t: State)
    decreases |acts|
  {
    if acts == [] then s == t else Enabled(s, acts[0]) && Run(Apply(s, acts[0]), acts[1..], t)
  }

  // ---- what every run keeps ----

  predicate Holds(s: State, k: Stage) {
    k.Owns() ==> k.pid in s.procs && s.procs[k.pid].uid == k.uid && k.uid in s.ours
  }

  /** Every worker's process is unreaped and still its own, and no two workers share one. */
  predicate Owned(s: State) {
    && (forall w :: w in s.workers ==> Holds(s, s.workers[w]))
    && (forall v, w :: v in s.workers && w in s.workers && v != w && s.workers[v].Owns() && s.workers[w].Owns() ==>
          s.workers[v].uid != s.workers[w].uid)
    && (forall u :: u in s.ours ==> u < s.nextUid)
  }

  /** Two unreaped processes never share a uid. */
  predicate Distinct(s: State) {
    && (forall p :: p in s.procs ==> s.procs[p].uid < s.nextUid)
    && (forall p, q :: p in s.procs && q in s.procs && p != q ==> s.procs[p].uid != s.procs[q].uid)
  }

  /** An unreaped process of ours belongs to a worker. */
  predicate Accounted(s: State) {
    forall p :: p in s.procs && s.procs[p].uid in s.ours ==> WorkerOf(s, s.procs[p].uid)
  }

  predicate WorkerOf(s: State, uid: nat) {
    exists w :: w in s.workers && s.workers[w].Owns() && s.workers[w].uid == uid
  }

  function Usable(workers: map<nat, Stage>): set<nat> {
    set w | w in workers && workers[w].Live?
  }

  function Registered(workers: map<nat, Stage>): set<nat> {
    set w | w in workers && workers[w].Live? :: workers[w].pid
  }

  predicate Killed(s: State, pid: nat, uid: nat) {
    P.Shot(pid, Some(uid)) in s.shots
  }

  predicate Swept(s: State) {
    && (s.callers != {} || s.swept ==> s.latch)
    && (s.swept ==> s.lock.None?)
    && (s.swept ==> forall w :: w in s.workers && s.workers[w].Live? ==> Killed(s, s.workers[w].pid, s.workers[w].uid))
  }

  /** The lock is held between steps exactly by the one spawn that has been cleared. */
  predicate Locked(s: State) {
    && (s.lock.Some? ==> s.lock.value in s.workers)
    && forall w :: w in s.workers ==> (s.workers[w].Cleared? <==> s.lock == Some(w))
  }

  predicate Aimed(s: State) {
    forall shot :: shot in s.shots ==> shot.target.Some? && shot.target.value in s.ours
  }

  predicate Inv(s: State) {
    Owned(s) && Distinct(s) && Accounted(s) && Pids(s.live) == Registered(s.workers)
    && Swept(s) && Locked(s) && Aimed(s)
  }

  lemma {:induction false} WithoutRemoves(live: seq<nat>, pid: nat)
    ensures Pids(Without(live, pid)) == Pids(live) - {pid}
  {
    if live != [] {
      WithoutRemoves(live[1..], pid);
      assert Pids(live) == {live[0]} + Pids(live[1..]);
      var head := if live[0] == pid then [] else [live[0]];
      assert Pids(head + Without(live[1..], pid)) == Pids(head) + Pids(Without(live[1..], pid));
    }
  }

  lemma StepKeepsHold(s: State, a: Action, w: nat)
    requires Owned(s) && Enabled(s, a) && w in Apply(s, a).workers
    ensures Holds(Apply(s, a), Apply(s, a).workers[w])
  {
    if w in s.workers {
      assert Holds(s, s.workers[w]);
    }
  }

  lemma StepKeepsOwned(s: State, a: Action)
    requires Owned(s) && Enabled(s, a)
    ensures Owned(Apply(s, a))
  {
    forall w | w in Apply(s, a).workers ensures Holds(Apply(s, a), Apply(s, a).workers[w]) {
      StepKeepsHold(s, a, w);
    }
    assert forall w :: w in s.workers ==> Holds(s, s.workers[w]);
  }

  lemma StepKeepsDistinct(s: State, a: Action)
    requires Distinct(s) && Enabled(s, a)
    ensures Distinct(Apply(s, a))
  {
  }

  lemma StepKeepsAccounted(s: State, a: Action)
    requires Owned(s) && Distinct(s) && Accounted(s) && Enabled(s, a)
    ensures Accounted(Apply(s, a))
  {
    var t := Apply(s, a);
    forall p | p in t.procs && t.procs[p].uid in t.ours ensures WorkerOf(t, t.procs[p].uid) {
      if p in s.procs && s.procs[p].uid in s.ours && s.procs[p].uid == t.procs[p].uid {
        var w :| w in s.workers && s.workers[w].Owns() && s.workers[w].uid == s.procs[p].uid;
        assert w in t.workers && t.workers[w].Owns() && t.workers[w].uid == s.procs[p].uid;
      } else {
        assert a.Fork? && t.workers[a.w].Owns() && t.workers[a.w].uid == t.procs[p].uid;
      }
    }
  }

  lemma StepKeepsRegistered(s: State, a: Action)
    requires Owned(s) && Pids(s.live) == Registered(s.workers) && Enabled(s, a)
    ensures Pids(Apply(s, a).live) == Registered(Apply(s, a).workers)
  {
    var t := Apply(s, a);
    if a.Push? {
      var k := s.workers[a.w];
      forall p ensures p in Registered(t.workers) <==> p in Registered(s.workers) + {k.pid} {
        if p in Registered(s.workers) {
          var w :| w in s.workers && s.workers[w].Live? && s.workers[w].pid == p;
          assert t.workers[w] == s.workers[w];
        }
        assert t.workers[a.w].Live? && t.workers[a.w].pid == k.pid;
      }
    } else if a.Deregister? {
      var k := s.workers[a.w];
      WithoutRemoves(s.live, k.pid);
      forall p ensures p in Registered(t.workers) <==> p in Registered(s.workers) - {k.pid} {
        if p in Registered(s.workers) - {k.pid} {
          var w :| w in s.workers && s.workers[w].Live? && s.workers[w].pid == p;
          assert t.workers[w] == s.workers[w];
        }
      }
    } else {
      assert Usable(t.workers) == Usable(s.workers);
      assert forall w :: w in Usable(s.workers) ==> t.workers[w] == s.workers[w];
      forall p ensures p in Registered(t.workers) <==> p in Registered(s.workers) {
        if p in Registered(s.workers) {
          var w :| w in s.workers && s.workers[w].Live? && s.workers[w].pid == p;
          assert w in Usable(s.workers);
        }
        if p in Registered(t.workers) {
          var w :| w in t.workers && t.workers[w].Live? && t.workers[w].pid == p;
          assert w in Usable(t.workers);
        }
      }
    }
  }

  lemma StepKeepsSwept(s: State, a: Action)
    requires Inv(s) && Enabled(s, a)
    ensures Swept(Apply(s, a))
  {
    var t := Apply(s, a);
    if t.swept {
      forall w | w in t.workers && t.workers[w].Live? ensures Killed(t, t.workers[w].pid, t.workers[w].uid) {
        assert w in s.workers && s.workers[w] == t.workers[w];
        if a.Sweep? {
          assert s.workers[w].pid in Registered(s.workers);
          assert P.Hit(s.procs, s.workers[w].pid) in P.Volley(s.procs, Pids(s.live));
        } else {
          assert Killed(s, s.workers[w].pid, s.workers[w].uid);
        }
      }
    }
  }

  lemma StepKeepsLocked(s: State, a: Action)
    requires Locked(s) && Enabled(s, a)
    ensures Locked(Apply(s, a))
  {
  }

  lemma RegisteredIsHit(s: State, pid: nat)
    requires Owned(s) && pid in Registered(s.workers)
    ensures P.Hit(s.procs, pid).target.Some? && P.Hit(s.procs, pid).target.value in s.ours
  {
    var w :| w in s.workers && s.workers[w].Live? && s.workers[w].pid == pid;
    assert s.workers[w].Owns();
  }

  lemma StepKeepsAimed(s: State, a: Action)
    requires Inv(s) && Enabled(s, a)
    ensures Aimed(Apply(s, a))
  {
    if a.Sweep? {
      forall shot | shot in P.Volley(s.procs, Pids(s.live)) ensures shot.target.Some? && shot.target.value in s.ours {
        RegisteredIsHit(s, shot.pgid);
      }
    }
  }

  lemma StepKeepsInv(s: State, a: Action)
    requires Inv(s) && Enabled(s, a)
    ensures Inv(Apply(s, a))
  {
    StepKeepsOwned(s, a);
    StepKeepsDistinct(s, a);
    StepKeepsAccounted(s, a);
    StepKeepsRegistered(s, a);
    StepKeepsSwept(s, a);
    StepKeepsLocked(s, a);
    StepKeepsAimed(s, a);
  }

  lemma {:induction false} RunKeepsInv(s: State, acts: seq<Action>, t: State)
    requires Inv(s) && Run(s, acts, t)
    ensures Inv(t)
    decreases |acts|
  {
    if acts != [] {
      StepKeepsInv(s, acts[0]);
      RunKeepsInv(Apply(s, acts[0]), acts[1..], t);
    }
  }

  /** However workers and pids come and go: the registered pids are exactly those of the usable
      workers, each still held by its worker's own unreaped process; and every signal ever sent
      reached a process this program had started and not yet reaped. */
  lemma RegisteredPidsAreUnreaped(acts: seq<Action>, t: State)
    requires Run(START, acts, t)
    ensures forall w :: w in t.workers && t.workers[w].Live? ==> t.workers[w].pid in t.live
    ensures forall p :: p in t.live ==>
              exists w :: w in t.workers && t.workers[w].Live? && t.workers[w].pid == p
                          && p in t.procs && t.procs[p].uid == t.workers[w].uid
    ensures forall shot :: shot in t.shots ==> shot.target.Some? && shot.target.value in t.ours
  {
    RunKeepsInv(START, acts, t);
    forall w | w in t.workers && t.workers[w].Live? ensures t.workers[w].pid in t.live {
      assert t.workers[w].pid in Registered(t.workers);
    }
    forall p | p in t.live
      ensures exists w :: w in t.workers && t.workers[w].Live? && t.workers[w].pid == p
                          && p in t.procs && t.procs[p].uid == t.workers[w].uid
    {
      assert p in Registered(t.workers);
      var w :| w in t.workers && t.workers[w].Live? && t.workers[w].pid == p;
      assert t.workers[w].Owns();
    }
  }

  /** Once a shutdown has swept, every usable worker has been sent SIGKILL, and each unreaped
      process of ours has been too unless its worker is on its way out, or forked and bound to be
      refused. */
  lemma ShutdownIsComplete(acts: seq<Action>, t: State)
    requires Run(START, acts, t) && t.swept
    ensures forall w :: w in t.workers && t.workers[w].Live? ==> Killed(t, t.workers[w].pid, t.workers[w].uid)
    ensures forall p :: p in t.procs && t.procs[p].uid in t.ours ==>
              Killed(t, p, t.procs[p].uid)
              || (exists w :: w in t.workers && t.workers[w] in {Ending(p, t.procs[p].uid), Forked(p, t.procs[p].uid)})
    ensures forall w :: Enabled(t, Recheck(w)) ==> Apply(t, Recheck(w)).workers[w].Ending?
  {
    RunKeepsInv(START, acts, t);
    forall p | p in t.procs && t.procs[p].uid in t.ours
      ensures Killed(t, p, t.procs[p].uid)
              || (exists w :: w in t.workers && t.workers[w] in {Ending(p, t.procs[p].uid), Forked(p, t.procs[p].uid)})
    {
      UnreapedIsKilledOrLeaving(t, p);
    }
  }

  /** Pids of unreaped processes are not shared, so a worker found by uid holds that very pid. */
  lemma UnreapedIsKilledOrLeaving(t: State, p: nat)
    requires Inv(t) && t.swept && p in t.procs && t.procs[p].uid in t.ours
    ensures Killed(t, p, t.procs[p].uid)
            || (exists w :: w in t.workers && t.workers[w] in {Ending(p, t.procs[p].uid), Forked(p, t.procs[p].uid)})
  {
    var w :| w in t.workers && t.workers[w].Owns() && t.workers[w].uid == t.procs[p].uid;
    assert t.workers[w].pid == p;
  }

  function Holder(s: State): set<nat> {
    if s.lock.Some? then {s.lock.value} else {}
  }

  /** From the moment the latch is set, which it stays, at most the one spawn that holds the lock
      just then still becomes usable; no spawn that begins later does. */
  lemma {:induction false} OnlyTheLockHolderAfterTheLatch(s: State, acts: seq<Action>, t: State)
    requires s.latch && Run(s, acts, t)
    ensures t.latch && Usable(t.workers) <= Usable(s.workers) + Holder(s) && Holder(t) <= Holder(s)
    ensures forall w :: w !in s.workers && w in t.workers ==> t.workers[w].Gone?
    decreases |acts|
  {
    if acts != [] {
      var u := Apply(s, acts[0]);
      OnlyTheLockHolderAfterTheLatch(u, acts[1..], t);
      GoneStaysGone(u, acts[1..], t);
    }
  }

  /** From the sweep on no spawn, begun before or after, yields a usable worker. */
  lemma NoWorkerAfterTheSweep(acts: seq<Action>, s: State, more: seq<Action>, t: State)
    requires Run(START, acts, s) && s.swept && Run(s, more, t)
    ensures Usable(t.workers) <= Usable(s.workers)
    ensures forall w :: w !in s.workers && w in t.workers ==> t.workers[w].Gone?
  {
    RunKeepsInv(START, acts, s);
    OnlyTheLockHolderAfterTheLatch(s, more, t);
  }

  /** Between the latch and the sweep one can: a spawn that read the latch just before. */
  lemma LockHolderBecomesUsable(s: State, w: nat, c: nat)
    requires Inv(s) && !s.latch && c !in s.callers && Enabled(s, Recheck(w))
    ensures var u := Apply(s, Recheck(w)); var v := Apply(u, SetLatch(c));
            v.latch && Enabled(v, Push(w)) && Apply(v, Push(w)).workers[w].Live? && !Enabled(v, Sweep(c))
  {
  }

  lemma {:induction false} GoneStaysGone(s: State, acts: seq<Action>, t: State)
    requires Run(s, acts, t)
    ensures forall w :: w in s.workers && s.workers[w].Gone? ==> w in t.workers && t.workers[w].Gone?
    decreases |acts|
  {
    if acts != [] {
      GoneStaysGone(Apply(s, acts[0]), acts[1..], t);
    }
  }
}
