/** The registry in its own form: fields changed under the lock, one method per critical section
    (crates/mandala-deploy/src/process.rs). Each method takes exactly the step of `Process` that
    carries its name, so everything proved of runs holds of any sequence of calls. */
module ProcessRegistry {
  import opened Wrappers
  import opened Process

  class Children {
    var groups: set<nat>
    var stopping: bool
    var guards: map<nat, Guard>
    var procs: map<nat, Proc>
    var nextUid: nat
    var ours: set<nat>
    var shots: set<Shot>

    constructor ()
      ensures Now() == START
    {
      groups, stopping, guards := {}, false, map[];
      procs, nextUid, ours, shots := map[], 0, {}, {};
    }

    function Now(): State
      reads this
    {
      State(procs, nextUid, ours, shots, groups, stopping, guards)
    }

    /** `spawn_std` and `spawn`: fork and registration in one critical section. `pid` is the
        kernel's choice among the pids free at that moment. */
    method Spawn(g: nat, pid: nat) returns (child: Option<Guard>)
      requires Enabled(Now(), Action.Spawn(g, pid))
      modifies this
      ensures Now() == Apply(old(Now()), Action.Spawn(g, pid))
      ensures child.Some? <==> !old(stopping)
      ensures child.Some? ==> child.value == Guard(pid, old(nextUid), false) && guards == old(guards)[g := child.value]
      ensures child.Some? ==> groups == old(groups) + {pid} && procs == old(procs)[pid := Proc(old(nextUid), false)]
      ensures child.None? ==> groups == old(groups) && guards == old(guards) && procs == old(procs)
      ensures shots == old(shots)
    {
      if stopping {
        return None;
      }
      procs := procs[pid := Proc(nextUid, false)];
      ours := ours + {nextUid};
      groups := groups + {pid};
      guards := guards[g := Guard(pid, nextUid, false)];
      nextUid := nextUid + 1;
      return Some(guards[g]);
    }

    /** One turn of `wait_std` and of the poll in `wait_with_output`: reap and unregister together.
        A status already collected is reported again. */
    method TryWait(g: nat) returns (reaped: bool)
      requires Enabled(Now(), Action.TryWait(g))
      modifies this
      ensures Now() == Apply(old(Now()), Action.TryWait(g))
      ensures reaped <==> g in guards && guards[g].reaped
      ensures var guard := old(guards)[g];
              && (reaped <==> guard.reaped || (guard.pgid in old(procs) && old(procs)[guard.pgid].exited))
              && groups == (if reaped then old(groups) - {guard.pgid} else old(groups))
              && procs == (if reaped && !guard.reaped then old(procs) - {guard.pgid} else old(procs))
              && shots == old(shots)
    {
      var pgid := guards[g].pgid;
      reaped := guards[g].reaped || (pgid in procs && procs[pgid].exited);
      if reaped {
        if !guards[g].reaped {
          procs := procs - {pgid};
        }
        guards := guards[g := guards[g].(reaped := true)];
        groups := groups - {pgid};
      }
    }

    method SignalGroup(pgid: nat)
      modifies this`shots
      ensures shots == old(shots) + {Hit(procs, pgid)}
    {
      shots := shots + {Hit(procs, pgid)};
    }

    /** An unreaped group is killed, a reaped one is not; either way its guard and its entry go. */
    method Drop(g: nat)
      requires g in guards
      modifies this
      ensures Now() == Apply(old(Now()), Action.Drop(g))
      ensures old(guards)[g].reaped ==> shots == old(shots)
      ensures Inv(old(Now())) && !old(guards)[g].reaped ==>
                shots == old(shots) + {Shot(old(guards)[g].pgid, Some(old(guards)[g].uid))}
      ensures groups == old(groups) - {old(guards)[g].pgid} && guards == old(guards) - {g} && procs == old(procs)
    {
      assert Inv(Now()) ==> Holds(Now(), guards[g]);
      if !guards[g].reaped {
        SignalGroup(guards[g].pgid);
      }
      groups := groups - {guards[g].pgid};
      guards := guards - {g};
    }

    /** The forwarder's sweep, one signal per registered group. */
    method Forward()
      modifies this
      ensures Now() == Apply(old(Now()), Action.Forward)
      ensures stopping && groups == old(groups) && guards == old(guards) && procs == old(procs)
      ensures forall shot :: shot in shots <==>
                shot in old(shots)
                || (shot.pgid in groups
                    && shot.target == if shot.pgid in procs then Some(procs[shot.pgid].uid) else None)
    {
      stopping := true;
      var left := groups;
      while left != {}
        invariant left <= groups
        invariant Now() == old(Now()).(stopping := true, shots := old(shots) + Volley(procs, groups - left))
        decreases left
      {
        var pgid :| pgid in left;
        SignalGroup(pgid);
        assert groups - (left - {pgid}) == (groups - left) + {pgid};
        assert Volley(procs, groups - (left - {pgid})) == Volley(procs, groups - left) + {Hit(procs, pgid)};
        left := left - {pgid};
      }
      assert groups - left == groups;
    }

    method Uninstall()
      modifies this
      ensures Now() == Apply(old(Now()), Action.Uninstall) && !stopping && shots == old(shots)
    {
      stopping := false;
    }

    /** What the kernel and other threads do between two critical sections. */
    method Meanwhile(a: Action)
      requires Enabled(Now(), a) && (a.Exit? || a.OrphanReaped? || a.StrangerSpawns? || a.StrangerReaped?)
      modifies this
      ensures Now() == Apply(old(Now()), a)
    {
      match a
      case Exit(pid) => { procs := procs[pid := procs[pid].(exited := true)]; }
      case OrphanReaped(pid) => { procs := procs - {pid}; }
      case StrangerSpawns(pid) => { procs := procs[pid := Proc(nextUid, false)]; nextUid := nextUid + 1; }
      case StrangerReaped(pid) => { procs := procs - {pid}; }
    }

    /** `wait_std`: polls under the lock, with the lock free between polls for the `kernel` moves
        that happen to be possible. The whole wait is a run. It reports a status for a leader it
        reaped itself and unregistered in the same step, or at once for one reaped before. */
    method WaitStd(g: nat, kernel: seq<Action>) returns (reaped: bool, ghost steps: seq<Action>)
      requires g in guards
      requires forall a :: a in kernel ==> a.Exit? || a.OrphanReaped? || a.StrangerSpawns? || a.StrangerReaped?
      modifies this
      ensures Run(old(Now()), steps, Now())
      ensures forall a :: a in steps ==> a == Action.TryWait(g) || a in kernel
      ensures g in guards && guards[g].reaped == reaped && guards[g].pgid == old(guards[g].pgid)
      ensures reaped ==> guards[g].pgid !in groups
      ensures reaped && !old(guards[g].reaped) ==> guards[g].pgid !in procs
      ensures old(guards[g].reaped) ==> reaped && steps == [Action.TryWait(g)]
    {
      steps := [];
      var i := 0;
      while true
        invariant 0 <= i <= |kernel|
        invariant Run(old(Now()), steps, Now())
        invariant forall a :: a in steps ==> a == Action.TryWait(g) || a in kernel
        invariant g in guards && guards[g].reaped == old(guards[g].reaped) && guards[g].pgid == old(guards[g].pgid)
        invariant guards[g].reaped ==> i == 0 && steps == []
        decreases |kernel| - i
      {
        ghost var s := Now();
        reaped := TryWait(g);
        RunExtends(old(Now()), steps, s, Action.TryWait(g));
        steps := steps + [Action.TryWait(g)];
        if reaped || i == |kernel| {
          return;
        }
        if Enabled(Now(), kernel[i]) {
          ghost var u := Now();
          Meanwhile(kernel[i]);
          RunExtends(old(Now()), steps, u, kernel[i]);
          steps := steps + [kernel[i]];
        }
        i := i + 1;
      }
    }
  }
}
