/** The registry of owned process groups (crates/mandala-deploy/src/process.rs), over a kernel
    that may hand out a pid again as soon as its process has been reaped. */
module Process {
  import opened Wrappers

  /** A process from spawn to reap; `uid` tells apart the processes that share a pid over time. */
  datatype Proc = Proc(uid: nat, exited: bool)

  /** A group signal and the process that held the group's pid when it was sent. */
  datatype Shot = Shot(pgid: nat, target: Option<nat>)

  /** A `ChildGroup`; `uid` is the process it was made for. */
  datatype Guard = Guard(pgid: nat, uid: nat, reaped: bool)

  /** `procs` are the unreaped processes by pid, `ours` the uids this process ever spawned. */
  datatype State = State(
    procs: map<nat, Proc>, nextUid: nat, ours: set<nat>, shots: set<Shot>,
    groups: set<nat>, stopping: bool, guards: map<nat, Guard>)

  datatype Action =
    | Spawn(g: nat, pid: nat)
    | TryWait(g: nat)
    | Drop(g: nat)
    | Forward
    | Uninstall
    | Exit(pid: nat)
    | OrphanReaped(pid: nat)
    | StrangerSpawns(pid: nat)
    | StrangerReaped(pid: nat)

  const START := State(map[], 0, {}, {}, {}, false, map[])

  /** The groups of guards whose leader has not been reaped. */
  function Owned(guards: map<nat, Guard>): set<nat> {
    set g | g in guards && !guards[g].reaped :: guards[g].pgid
  }

  function Hit(procs: map<nat, Proc>, pgid: nat): Shot {
    Shot(pgid, if pgid in procs then Some(procs[pgid].uid) else None)
  }

  function Volley(procs: map<nat, Proc>, groups: set<nat>): set<Shot> {
    set p | p in groups :: Hit(procs, p)
  }

  predicate Enabled(s: State, a: Action) {
    match a
    case Spawn(g, pid) => g !in s.guards && pid !in s.procs
    case TryWait(g) => g in s.guards
    case Drop(g) => g in s.guards
    case Forward => true
    case Uninstall => true
    case Exit(pid) => pid in s.procs
    case OrphanReaped(pid) =>
      pid in s.procs && s.procs[pid].exited && s.procs[pid].uid in s.ours
      && forall g :: g in s.guards ==> s.guards[g].uid != s.procs[pid].uid
    case StrangerSpawns(pid) => pid !in s.procs
    case StrangerReaped(pid) => pid in s.procs && s.procs[pid].uid !in s.ours
  }

  /** Waiting again on a child that was reaped reports its status again, and takes its group out of
      the registry again. Each action is one critical section of the registry's lock, or a move of the kernel. */
  function Apply(s: State, a: Action): State
    requires Enabled(s, a)
  {
    match a
    case Spawn(g, pid) =>
      if s.stopping then s
      else s.(procs := s.procs[pid := Proc(s.nextUid, false)], nextUid := s.nextUid + 1, ours := s.ours + {s.nextUid},
              groups := s.groups + {pid}, guards := s.guards[g := Guard(pid, s.nextUid, false)])
    case TryWait(g) =>
      var guard := s.guards[g];
      if guard.reaped then s.(groups := s.groups - {guard.pgid})
      else if guard.pgid in s.procs && s.procs[guard.pgid].exited
      then s.(procs := s.procs - {guard.pgid}, groups := s.groups - {guard.pgid},
              guards := s.guards[g := guard.(reaped := true)])
      else s
    case Drop(g) =>
      var guard := s.guards[g];
      s.(shots := s.shots + (if guard.reaped then {} else {Hit(s.procs, guard.pgid)}),
         groups := s.groups - {guard.pgid}, guards := s.guards - {g})
    case Forward => s.(stopping := true, shots := s.shots + Volley(s.procs, s.groups))
    case Uninstall => s.(stopping := false)
    case Exit(pid) => s.(procs := s.procs[pid := s.procs[pid].(exited := true)])
    case OrphanReaped(pid) => s.(procs := s.procs - {pid})
    case StrangerSpawns(pid) => s.(procs := s.procs[pid := Proc(s.nextUid, false)], nextUid := s.nextUid + 1)
    case StrangerReaped(pid) => s.(procs := s.procs - {pid})
  }

  predicate Run(s: State, acts: seq<Action>, t: State)
    decreases |acts|
  {
    if acts == [] then s == t else Enabled(s, acts[0]) && Run(Apply(s, acts[0]), acts[1..], t)
  }

  // ---- no signal reaches a recycled group ----

  /** An unreaped guard's pid is still held by the process it was made for. */
  predicate Holds(s: State, guard: Guard) {
    && guard.uid in s.ours && guard.uid < s.nextUid
    && (!guard.reaped ==> guard.pgid in s.procs && s.procs[guard.pgid].uid == guard.uid)
  }

  predicate Inv(s: State) {
    && (forall g :: g in s.guards ==> Holds(s, s.guards[g]))
    && (forall g, h :: g in s.guards && h in s.guards && g != h ==> s.guards[g].uid != s.guards[h].uid)
    && (forall u :: u in s.ours ==> u < s.nextUid)
    && (forall p :: p in s.procs ==> s.procs[p].uid < s.nextUid)
    && (forall p, q :: p in s.procs && q in s.procs && p != q ==> s.procs[p].uid != s.procs[q].uid)
    && s.groups <= Owned(s.guards)
    && (forall shot :: shot in s.shots ==> shot.target.Some? && shot.target.value in s.ours)
  }

  lemma OwnedGroupIsHit(s: State, pgid: nat)
    requires Inv(s) && pgid in Owned(s.guards)
    ensures Hit(s.procs, pgid).target.Some? && Hit(s.procs, pgid).target.value in s.ours
  {
    var g :| g in s.guards && !s.guards[g].reaped && s.guards[g].pgid == pgid;
    assert Holds(s, s.guards[g]);
  }

  lemma DropKeepsInv(s: State, g: nat)
    requires Inv(s) && g in s.guards
    ensures Inv(Apply(s, Drop(g)))
  {
    var t := Apply(s, Drop(g));
    if !s.guards[g].reaped {
      OwnedGroupIsHit(s, s.guards[g].pgid);
    }
    forall p | p in t.groups ensures p in Owned(t.guards) {
      var h :| h in s.guards && !s.guards[h].reaped && s.guards[h].pgid == p;
      assert h in t.guards;
    }
  }

  lemma TryWaitKeepsInv(s: State, g: nat)
    requires Inv(s) && Enabled(s, TryWait(g))
    ensures Inv(Apply(s, TryWait(g)))
  {
    var t := Apply(s, TryWait(g));
    assert Holds(s, s.guards[g]);
    forall h | h in t.guards ensures Holds(t, t.guards[h]) {
      assert Holds(s, s.guards[h]);
    }
    forall p | p in t.groups ensures p in Owned(t.guards) {
      var h :| h in s.guards && !s.guards[h].reaped && s.guards[h].pgid == p;
      assert h in t.guards;
    }
  }

  lemma SpawnKeepsInv(s: State, g: nat, pid: nat)
    requires Inv(s) && Enabled(s, Spawn(g, pid))
    ensures Inv(Apply(s, Spawn(g, pid)))
  {
    var t := Apply(s, Spawn(g, pid));
    forall h | h in t.guards ensures Holds(t, t.guards[h]) {
      if h in s.guards {
        assert Holds(s, s.guards[h]);
      }
    }
    forall p | p in t.groups ensures p in Owned(t.guards) {
      if p in s.groups {
        var h :| h in s.guards && !s.guards[h].reaped && s.guards[h].pgid == p;
        assert h in t.guards && t.guards[h] == s.guards[h];
      } else {
        assert g in t.guards && t.guards[g].pgid == p;
      }
    }
  }

  lemma ForwardKeepsInv(s: State)
    requires Inv(s)
    ensures Inv(Apply(s, Forward))
  {
    forall shot | shot in Volley(s.procs, s.groups) ensures shot.target.Some? && shot.target.value in s.ours {
      OwnedGroupIsHit(s, shot.pgid);
    }
  }

  lemma KernelKeepsInv(s: State, a: Action)
    requires Inv(s) && Enabled(s, a) && (a.Exit? || a.OrphanReaped? || a.StrangerSpawns? || a.StrangerReaped?)
    ensures Inv(Apply(s, a))
  {
    var t := Apply(s, a);
    forall h | h in t.guards ensures Holds(t, t.guards[h]) {
      assert Holds(s, s.guards[h]);
    }
  }

  lemma StepKeepsInv(s: State, a: Action)
    requires Inv(s) && Enabled(s, a)
    ensures Inv(Apply(s, a))
  {
    match a
    case Spawn(g, pid) => SpawnKeepsInv(s, g, pid);
    case TryWait(g) => TryWaitKeepsInv(s, g);
    case Drop(g) => DropKeepsInv(s, g);
    case Forward => ForwardKeepsInv(s);
    case Uninstall =>
      assert forall g :: g in s.guards ==> Holds(Apply(s, a), s.guards[g]) == Holds(s, s.guards[g]);
    case _ => KernelKeepsInv(s, a);
  }

  lemma {:induction false} RunKeepsInv(s: State, acts: seq<Action>, t: State)
    requires Inv(s) && Run(s, acts, t)
    ensures Inv(t)
    decreases |acts|
  {
    if acts != [] {
      StepKeepsInv(s, acts[0]);
      RunKeepsInv(Apply(s, acts[0]), acts[1..], t);
    }
  }

  // ---- no group outlives its guard unsignalled ----

  predicate Guarded(s: State, uid: nat) {
    exists g :: g in s.guards && s.guards[g].uid == uid
  }

  predicate WasShot(s: State, uid: nat) {
    exists shot :: shot in s.shots && shot.target == Some(uid)
  }

  /** At some point of the run a guard of this process has been told that it was reaped. */
  ghost predicate SeenReaped(s: State, acts: seq<Action>, uid: nat)
    decreases |acts|
  {
    || (exists g :: g in s.guards && s.guards[g].uid == uid && s.guards[g].reaped)
    || (acts != [] && Enabled(s, acts[0]) && SeenReaped(Apply(s, acts[0]), acts[1..], uid))
  }

  lemma ShotsStay(s: State, a: Action, uid: nat)
    requires Enabled(s, a) && WasShot(s, uid)
    ensures WasShot(Apply(s, a), uid)
  {
    var shot :| shot in s.shots && shot.target == Some(uid);
    assert shot in Apply(s, a).shots;
  }

  /** A step keeps the guard of a process, or it drops a reaped one, or it shoots the process. */
  lemma StepTendsGuard(s: State, a: Action, uid: nat)
    requires Inv(s) && Enabled(s, a) && Guarded(s, uid)
    ensures Guarded(Apply(s, a), uid) || WasShot(Apply(s, a), uid) || SeenReaped(s, [], uid)
  {
    var t := Apply(s, a);
    var g :| g in s.guards && s.guards[g].uid == uid;
    assert Holds(s, s.guards[g]);
    if g in t.guards {
      assert t.guards[g].uid == uid;
    } else if !s.guards[g].reaped {
      assert Shot(s.guards[g].pgid, Some(uid)) in t.shots;
    }
  }

  lemma {:induction false} ShotForGood(s: State, acts: seq<Action>, t: State, uid: nat)
    requires Run(s, acts, t) && WasShot(s, uid)
    ensures WasShot(t, uid)
    decreases |acts|
  {
    if acts != [] {
      ShotsStay(s, acts[0], uid);
      ShotForGood(Apply(s, acts[0]), acts[1..], t, uid);
    }
  }

  lemma {:induction false} GuardsAreTended(s: State, acts: seq<Action>, t: State, uid: nat)
    requires Inv(s) && Run(s, acts, t) && Guarded(s, uid)
    ensures Guarded(t, uid) || WasShot(t, uid) || SeenReaped(s, acts, uid)
    decreases |acts|
  {
    if acts != [] {
      var u := Apply(s, acts[0]);
      StepKeepsInv(s, acts[0]);
      StepTendsGuard(s, acts[0], uid);
      if Guarded(u, uid) {
        GuardsAreTended(u, acts[1..], t, uid);
      } else if WasShot(u, uid) {
        ShotForGood(u, acts[1..], t, uid);
      }
    }
  }

  /** However a guard goes, early returns and cancellation included: its child had been reaped by
      it, or was shot. */
  lemma GoneGuardWasReapedOrShot(acts: seq<Action>, s: State, more: seq<Action>, t: State, g: nat)
    requires Run(START, acts, s) && Run(s, more, t) && g in s.guards && !Guarded(t, s.guards[g].uid)
    ensures SeenReaped(s, more, s.guards[g].uid) || WasShot(t, s.guards[g].uid)
  {
    RunKeepsInv(START, acts, s);
    GuardsAreTended(s, more, t, s.guards[g].uid);
  }

  /** Every process of ours that nobody has reaped is guarded still, or was shot in its own group. */
  predicate Tended(s: State) {
    forall p :: p in s.procs && s.procs[p].uid in s.ours ==>
                  HeldBy(s, p, s.procs[p].uid) || Shot(p, Some(s.procs[p].uid)) in s.shots
  }

  predicate HeldBy(s: State, p: nat, uid: nat) {
    exists g :: g in s.guards && s.guards[g] == Guard(p, uid, false)
  }

  lemma StepKeepsTended(s: State, a: Action)
    requires Inv(s) && Tended(s) && Enabled(s, a)
    ensures Tended(Apply(s, a))
  {
    var t := Apply(s, a);
    forall p | p in t.procs && t.procs[p].uid in t.ours
      ensures HeldBy(t, p, t.procs[p].uid) || Shot(p, Some(t.procs[p].uid)) in t.shots
    {
      StepTends(s, a, p);
    }
  }

  lemma StepTends(s: State, a: Action, p: nat)
    requires Inv(s) && Tended(s) && Enabled(s, a) && p in Apply(s, a).procs
    requires Apply(s, a).procs[p].uid in Apply(s, a).ours
    ensures var t := Apply(s, a); HeldBy(t, p, t.procs[p].uid) || Shot(p, Some(t.procs[p].uid)) in t.shots
  {
    var t := Apply(s, a);
    var uid := t.procs[p].uid;
    if p in s.procs && s.procs[p].uid == uid && uid in s.ours {
      if HeldBy(s, p, uid) {
        var g :| g in s.guards && s.guards[g] == Guard(p, uid, false);
        assert Holds(s, s.guards[g]);
        if a == Drop(g) {
          assert Hit(s.procs, p) == Shot(p, Some(uid));
        } else {
          assert g in t.guards && t.guards[g] == Guard(p, uid, false);
        }
      }
    } else {
      assert a.Spawn? && a.pid == p;
      assert t.guards[a.g] == Guard(p, uid, false);
    }
  }

  lemma {:induction false} RunKeepsTended(s: State, acts: seq<Action>, t: State)
    requires Inv(s) && Tended(s) && Run(s, acts, t)
    ensures Tended(t)
    decreases |acts|
  {
    if acts != [] {
      StepKeepsInv(s, acts[0]);
      StepKeepsTended(s, acts[0]);
      RunKeepsTended(Apply(s, acts[0]), acts[1..], t);
    }
  }

  /** So nothing spawned here is ever left behind without a signal to its own group. */
  lemma NothingIsLeftBehind(acts: seq<Action>, t: State)
    requires Run(START, acts, t)
    ensures forall p :: p in t.procs && t.procs[p].uid in t.ours ==>
                          HeldBy(t, p, t.procs[p].uid) || Shot(p, Some(t.procs[p].uid)) in t.shots
  {
    RunKeepsTended(START, acts, t);
  }

  /** However pids are recycled, every signal ever sent hit an unreaped process this process had
      spawned itself; a registered group always belongs to an unreaped guard; and an unreaped
      guard's pid is still its own process. */
  lemma NoSignalToARecycledGroup(acts: seq<Action>, t: State)
    requires Run(START, acts, t)
    ensures forall shot :: shot in t.shots ==> shot.target.Some? && shot.target.value in t.ours
    ensures t.groups <= Owned(t.guards)
    ensures forall g :: g in t.guards && !t.guards[g].reaped ==>
              t.guards[g].pgid in t.procs && t.procs[t.guards[g].pgid].uid == t.guards[g].uid
  {
    RunKeepsInv(START, acts, t);
    forall g | g in t.guards ensures Holds(t, t.guards[g]) {
    }
  }

  // ---- when the registry is complete ----

  predicate Exact(s: State) {
    s.groups == Owned(s.guards)
  }

  /** A reaped guard is dropped, or waited on again, while its old pid, handed out again, is
      registered for another group: that group's entry goes. */
  predicate StaleRemoval(s: State, a: Action) {
    (a.Drop? || a.TryWait?) && a.g in s.guards && s.guards[a.g].reaped && s.guards[a.g].pgid in s.groups
  }

  lemma ReapedGuardOwnsNothing(s: State, g: nat)
    requires g in s.guards && s.guards[g].reaped
    ensures Owned(s.guards - {g}) == Owned(s.guards)
  {
    forall p | p in Owned(s.guards) ensures p in Owned(s.guards - {g}) {
      var h :| h in s.guards && !s.guards[h].reaped && s.guards[h].pgid == p;
      assert h in s.guards - {g};
    }
  }

  lemma OthersStayOwned(s: State, g: nat, guards: map<nat, Guard>, p: nat)
    requires g in s.guards && p in Owned(s.guards) && p != s.guards[g].pgid
    requires guards == s.guards - {g} || guards == s.guards[g := s.guards[g].(reaped := true)]
    ensures p in Owned(guards)
  {
    var h :| h in s.guards && !s.guards[h].reaped && s.guards[h].pgid == p;
    assert h in guards && guards[h] == s.guards[h];
  }

  lemma NobodyElseOwnsIt(s: State, g: nat, guards: map<nat, Guard>, p: nat)
    requires Inv(s) && g in s.guards && !s.guards[g].reaped && p in Owned(guards)
    requires guards == s.guards - {g} || guards == s.guards[g := s.guards[g].(reaped := true)]
    ensures p in Owned(s.guards) && p != s.guards[g].pgid
  {
    var h :| h in guards && !guards[h].reaped && guards[h].pgid == p;
    assert h != g && guards[h] == s.guards[h] && Holds(s, s.guards[h]) && Holds(s, s.guards[g]);
  }

  lemma UnreapedGuardOwnsItsGroup(s: State, g: nat, guards: map<nat, Guard>)
    requires Inv(s) && g in s.guards && !s.guards[g].reaped
    requires guards == s.guards - {g} || guards == s.guards[g := s.guards[g].(reaped := true)]
    ensures Owned(guards) == Owned(s.guards) - {s.guards[g].pgid}
  {
    forall p | p in Owned(s.guards) - {s.guards[g].pgid} ensures p in Owned(guards) {
      OthersStayOwned(s, g, guards, p);
    }
    forall p | p in Owned(guards) ensures p in Owned(s.guards) - {s.guards[g].pgid} {
      NobodyElseOwnsIt(s, g, guards, p);
    }
  }

  /** From a complete registry one step leads to a complete one exactly when it removes nothing
      stale. */
  lemma StepStaysExactIffNotStale(s: State, a: Action)
    requires Inv(s) && Exact(s) && Enabled(s, a)
    ensures Exact(Apply(s, a)) <==> !StaleRemoval(s, a)
  {
    match a
    case Spawn(g, pid) =>
      if !s.stopping {
        var t := Apply(s, a);
        forall p ensures p in Owned(t.guards) <==> p in Owned(s.guards) || p == pid {
          if p in Owned(s.guards) {
            var h :| h in s.guards && !s.guards[h].reaped && s.guards[h].pgid == p;
            assert h in t.guards && t.guards[h] == s.guards[h];
          }
          if p == pid {
            assert t.guards[g].pgid == p && !t.guards[g].reaped;
          }
        }
      }
    case TryWait(g) =>
      if !s.guards[g].reaped && s.guards[g].pgid in s.procs && s.procs[s.guards[g].pgid].exited {
        UnreapedGuardOwnsItsGroup(s, g, Apply(s, a).guards);
      }
    case Drop(g) =>
      if s.guards[g].reaped {
        ReapedGuardOwnsNothing(s, g);
      } else {
        UnreapedGuardOwnsItsGroup(s, g, s.guards - {g});
      }
    case _ =>
  }

  /** Every state along the run has a complete registry. */
  predicate ExactThroughout(s: State, acts: seq<Action>)
    decreases |acts|
  {
    Exact(s) && (acts == [] || (Enabled(s, acts[0]) && ExactThroughout(Apply(s, acts[0]), acts[1..])))
  }

  predicate NoStaleRemoval(s: State, acts: seq<Action>)
    decreases |acts|
  {
    acts == [] || (Enabled(s, acts[0]) && !StaleRemoval(s, acts[0]) && NoStaleRemoval(Apply(s, acts[0]), acts[1..]))
  }

  /** The registry is the set of owned unreaped groups all along a run exactly when no guard
      removes a group that is not its own any more. */
  lemma {:induction false} RegistryIsCompleteIffNoStaleRemoval(s: State, acts: seq<Action>, t: State)
    requires Inv(s) && Exact(s) && Run(s, acts, t)
    ensures ExactThroughout(s, acts) <==> NoStaleRemoval(s, acts)
    decreases |acts|
  {
    if acts != [] {
      var u := Apply(s, acts[0]);
      StepKeepsInv(s, acts[0]);
      StepStaysExactIffNotStale(s, acts[0]);
      if Exact(u) {
        RegistryIsCompleteIffNoStaleRemoval(u, acts[1..], t);
      } else {
        assert !ExactThroughout(u, acts[1..]);
      }
    }
  }

  /** A forwarded signal reaches every owned group when the registry is complete. */
  lemma ForwardReachesEveryGroup(s: State, g: nat)
    requires Inv(s) && Exact(s) && g in s.guards && !s.guards[g].reaped
    ensures Shot(s.guards[g].pgid, Some(s.guards[g].uid)) in Apply(s, Forward).shots
  {
    assert Holds(s, s.guards[g]);
    assert s.guards[g].pgid in Owned(s.guards);
    assert Hit(s.procs, s.guards[g].pgid) in Volley(s.procs, s.groups);
  }

  /** While termination is under way no spawn succeeds, whatever else happens. */
  lemma {:induction false} NothingIsSpawnedWhileStopping(s: State, acts: seq<Action>, t: State)
    requires s.stopping && Run(s, acts, t) && Uninstall !in acts
    ensures t.stopping && t.guards.Keys <= s.guards.Keys && t.ours == s.ours
    decreases |acts|
  {
    if acts != [] {
      NothingIsSpawnedWhileStopping(Apply(s, acts[0]), acts[1..], t);
    }
  }

  /** One group waited for and its pid recycled by a second spawn; then its guard is dropped, or
      waited on once more. */
  function Recycled(): seq<Action> {
    [Spawn(1, 5), Exit(5), TryWait(1), Spawn(2, 5)]
  }

  /** Two guards on one pid, the first reaped, the second the only one registered. */
  predicate TwoOnOnePid(s: State) {
    && s.groups == {5} && s.shots == {} && !s.stopping
    && 1 in s.guards && s.guards[1] == Guard(5, 0, true)
    && 2 in s.guards && s.guards[2] == Guard(5, 1, false)
    && 5 in s.procs && s.procs[5] == Proc(1, false)
  }

  lemma RecyclingHappens() returns (d: State)
    ensures Run(START, Recycled(), d) && TwoOnOnePid(d)
  {
    var a := Apply(START, Spawn(1, 5));
    var b := Apply(a, Exit(5));
    var c := Apply(b, TryWait(1));
    d := Apply(c, Spawn(2, 5));
    assert Run(c, [Spawn(2, 5)], d);
    assert Run(b, [TryWait(1), Spawn(2, 5)], d);
    assert Run(a, [Exit(5), TryWait(1), Spawn(2, 5)], d);
  }

  lemma LateRemovalHidesTheGroup(d: State, late: Action)
    requires TwoOnOnePid(d) && late in {Drop(1), TryWait(1)}
    ensures Enabled(d, late) && StaleRemoval(d, late)
    ensures var t := Apply(Apply(d, late), Forward);
            2 in t.guards && !t.guards[2].reaped && t.guards[2].uid == 1 && 5 in t.procs && t.procs[5] == Proc(1, false)
            && t.stopping && t.groups == {} && t.shots == {}
  {
    assert Apply(d, late).groups == {};
  }

  lemma {:induction false} RunExtends(s: State, acts: seq<Action>, t: State, a: Action)
    requires Run(s, acts, t) && Enabled(t, a)
    ensures Run(s, acts + [a], Apply(t, a))
    decreases |acts|
  {
    if acts == [] {
      assert Run(Apply(t, a), [], Apply(t, a));
      assert ([] + [a])[1..] == [];
    } else {
      RunExtends(Apply(s, acts[0]), acts[1..], t, a);
      assert (acts + [a])[1..] == acts[1..] + [a];
    }
  }

  /** After either, the second group is unreaped and owned, yet a forwarded signal does not reach
      it. */
  lemma RecycledGroupEscapesTermination(late: Action) returns (t: State)
    requires late in {Drop(1), TryWait(1)}
    ensures Run(START, Recycled() + [late] + [Forward], t)
    ensures 2 in t.guards && !t.guards[2].reaped && t.guards[2].uid == 1 && 5 in t.procs && t.procs[5] == Proc(1, false)
    ensures t.stopping && t.groups == {} && t.shots == {}
  {
    var d := RecyclingHappens();
    LateRemovalHidesTheGroup(d, late);
    RunExtends(START, Recycled(), d, late);
    RunExtends(START, Recycled() + [late], Apply(d, late), Forward);
    t := Apply(Apply(d, late), Forward);
  }
}
