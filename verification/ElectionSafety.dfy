/** What the election guarantees: one serving host at a time, across any number of leaders, as long
    as nobody gives back an address that the walk of a contender still needs. */
module ElectionSafety {
  import opened Wrappers
  import opened Election
  import Identity

  predicate HostAt(ports: seq<nat>, w: World, k: nat)
    requires k < |ports|
  {
    Serving(w, Local(ports[k]))
  }

  /** A contender at this port has to step on: it is taken, but not by a serving host. */
  predicate Blocked(ports: seq<nat>, w: World, k: nat)
    requires k < |ports|
  {
    Local(ports[k]) in w.at && !HostAt(ports, w, k)
  }

  predicate NoneServes(ports: seq<nat>, w: World, i: nat, j: nat)
    requires j <= |ports|
  {
    forall n :: i <= n < j ==> !HostAt(ports, w, n)
  }

  predicate Leaderless(w: World) {
    forall a :: a in w.at ==> !Serving(w, a)
  }

  /** The contender has left index `k` behind and will still bind, if it can. */
  predicate Past(ports: seq<nat>, ph: Phase, k: nat) {
    match ph
    case Binding(i) => k < i
    case ProbingTaken(i, _) => k <= i && k + 1 < |ports|
    case _ => false
  }

  /** No serving host stands between the contender and an attempt to bind at index `k`, or, for
      the end of the walk, between it and the answer that the ports are exhausted. */
  predicate MayReach(ports: seq<nat>, w: World, ph: Phase, k: nat)
    requires k <= |ports|
  {
    var end := if k < |ports| then k + 1 else k;
    match ph
    case Scanning(i, _) => NoneServes(ports, w, i, |ports|) && NoneServes(ports, w, 0, end)
    case Binding(i) => i <= k && NoneServes(ports, w, i, end)
    case ProbingTaken(i, _) => i < k && NoneServes(ports, w, i, end)
    case _ => false
  }

  /** The contender can do no harm. Without a leader it has left no free port behind; with one it
      meets the leader before it meets a free port or the end of the walk. */
  predicate Placed(ports: seq<nat>, w: World, ph: Phase) {
    if Leaderless(w) then forall k :: 0 <= k < |ports| && Past(ports, ph, k) ==> Blocked(ports, w, k)
    else forall k :: 0 <= k <= |ports| && MayReach(ports, w, ph, k) ==> k < |ports| && Blocked(ports, w, k)
  }

  predicate InRange(ports: seq<nat>, ph: Phase) {
    match ph
    case Scanning(i, _) => i < |ports|
    case Binding(i) => i < |ports|
    case ProbingTaken(i, _) => i < |ports|
    case Publishing(i) => i < |ports|
    case _ => true
  }

  predicate OnWalk(ports: seq<nat>, a: Addr) {
    exists k :: 0 <= k < |ports| && a == Local(ports[k])
  }

  predicate Owns(w: World, c: nat, a: Addr) {
    a in w.at && w.at[a] == Host(c)
  }

  /** What holds in every reachable world, whatever is given back. */
  predicate WellFormed(ports: seq<nat>, w: World) {
    && (forall a :: a in w.refusing ==> a in w.at && w.at[a].Host?)
    && (forall a :: a in w.at && w.at[a].Host? ==> OnWalk(ports, a))
    && (forall c :: c in w.procs ==> InRange(ports, w.procs[c]))
    && (forall c :: c in w.procs && w.procs[c].Publishing? ==> Owns(w, c, Local(ports[w.procs[c].i])))
  }

  predicate OneServing(w: World) {
    forall a, b :: a in w.at && b in w.at && Serving(w, a) && Serving(w, b) ==> a == b
  }

  predicate AllPlaced(ports: seq<nat>, w: World) {
    forall c :: c in w.procs ==> Placed(ports, w, w.procs[c])
  }

  predicate Kept(ports: seq<nat>, w: World) {
    WellFormed(ports, w) && OneServing(w) && AllPlaced(ports, w)
  }

  // ---- what may be given back ----

  /** A host on another address serves. */
  predicate Guarded(w: World, addr: Addr) {
    exists a :: a in w.at && a != addr && Serving(w, a)
  }

  /** With a host elsewhere, the contender may still come to bind at the address; with none, it has
      left the address, or a free port, behind. */
  predicate Needs(ports: seq<nat>, w: World, addr: Addr, ph: Phase) {
    if Guarded(w, addr) then
      exists k :: 0 <= k < |ports| && Local(ports[k]) == addr && MayReach(ports, w, ph, k)
    else
      exists k :: 0 <= k < |ports| && Past(ports, ph, k) && (Local(ports[k]) == addr || Local(ports[k]) !in w.at)
  }

  predicate Needed(ports: seq<nat>, w: World, addr: Addr) {
    exists c :: c in w.procs && Needs(ports, w, addr, w.procs[c])
  }

  /** Going on without a leader, the contender has left a free port behind. */
  predicate LeftFree(ports: seq<nat>, w: World, ph: Phase) {
    exists k :: 0 <= k < |ports| && Past(ports, ph, k) && Local(ports[k]) !in w.at
  }

  /** The step gives back nothing that is needed. Squatters, hosts whose leader left or died, and
      hosts that are not published yet are judged alike; a host that starts to refuse blocks its
      port like a squatter. */
  predicate Harmless(ports: seq<nat>, w: World, a: Action)
    requires Enabled(ports, w, a)
  {
    var gone := GivenBack(ports, w, a);
    if gone.Some? then !Needed(ports, w, gone.value)
    else a.Refuse? && !Guarded(w, a.addr) ==> forall c :: c in w.procs ==> !LeftFree(ports, w, w.procs[c])
  }

  // ---- well-formedness ----

  lemma StepKeepsWellFormed(ports: seq<nat>, w: World, a: Action)
    requires WellFormed(ports, w) && Enabled(ports, w, a)
    ensures WellFormed(ports, Apply(ports, w, a))
  {
    var t := Apply(ports, w, a);
    forall c | c in t.procs && t.procs[c].Publishing? ensures Owns(t, c, Local(ports[t.procs[c].i])) {
      if c in w.procs && w.procs[c].Publishing? {
        assert Owns(w, c, Local(ports[w.procs[c].i]));
      }
    }
  }

  // ---- steps that give nothing back ----

  /** The step gives nothing back and no host stops serving. */
  predicate Grows(ports: seq<nat>, w: World, a: Action)
    requires Enabled(ports, w, a)
  {
    GivenBack(ports, w, a).None? && !a.Refuse?
  }

  lemma LeaderIsOnTheWalk(ports: seq<nat>, w: World) returns (h: nat)
    requires WellFormed(ports, w) && !Leaderless(w)
    ensures h < |ports| && HostAt(ports, w, h)
  {
    var a :| a in w.at && Serving(w, a);
    assert OnWalk(ports, a);
    h :| 0 <= h < |ports| && a == Local(ports[h]);
  }

  /** What a contender may reach after a reaction, it might have reached before. */
  lemma ReactionReachesNoMore(ports: seq<nat>, w: World, c: nat, o: Obs, k: nat)
    requires WellFormed(ports, w) && Enabled(ports, w, Sense(c, o)) && !Leaderless(w) && k <= |ports|
    requires MayReach(ports, w, React(ports, w.procs[c], o).value, k)
    ensures MayReach(ports, w, w.procs[c], k)
  {
    var h := LeaderIsOnTheWalk(ports, w);
    var end := if k < |ports| then k + 1 else k;
    match w.procs[c]
    case Scanning(i, _) =>
      assert NoneServes(ports, w, i, |ports|);
      assert NoneServes(ports, w, 0, end);
    case ProbingTaken(i, _) => assert NoneServes(ports, w, i, end);
    case _ =>
  }

  /** Reacting without binding, a contender stays in its place. */
  lemma ReactionPlaced(ports: seq<nat>, w: World, c: nat, o: Obs)
    requires Kept(ports, w) && Enabled(ports, w, Sense(c, o)) && !o.BindOk? && o != Written(false)
    ensures Placed(ports, w, React(ports, w.procs[c], o).value)
  {
    var next := React(ports, w.procs[c], o).value;
    assert Placed(ports, w, w.procs[c]);
    if !Leaderless(w) {
      forall k | 0 <= k <= |ports| && MayReach(ports, w, next, k) ensures k < |ports| && Blocked(ports, w, k) {
        ReactionReachesNoMore(ports, w, c, o, k);
      }
    }
  }

  /** With a leader about, nobody gets to bind, and nobody comes to the end of the walk. */
  lemma NobodyBindsBesideAHost(ports: seq<nat>, w: World, c: nat)
    requires Kept(ports, w) && Enabled(ports, w, Sense(c, BindOk))
    ensures Leaderless(w)
  {
    var i := w.procs[c].i;
    assert Placed(ports, w, w.procs[c]);
    assert !Leaderless(w) ==> MayReach(ports, w, Binding(i), i);
  }

  /** The first to bind leaves everybody else in place. */
  lemma BindPlaces(ports: seq<nat>, w: World, c: nat, ph: Phase)
    requires WellFormed(ports, w) && Leaderless(w) && Enabled(ports, w, Sense(c, BindOk))
    requires Placed(ports, w, w.procs[c]) && Placed(ports, w, ph) && InRange(ports, ph)
    ensures Placed(ports, Apply(ports, w, Sense(c, BindOk)), ph)
  {
    var t := Apply(ports, w, Sense(c, BindOk));
    var m := w.procs[c].i;
    assert HostAt(ports, t, m) && !Leaderless(t) && !Blocked(ports, w, m);
    assert !Past(ports, ph, m);
    forall k | 0 <= k <= |ports| && MayReach(ports, t, ph, k) ensures k < |ports| && Blocked(ports, t, k) {
      BoundStopsThere(ports, t, ph, m, k);
      assert Past(ports, w.procs[c], k) && Blocked(ports, w, k);
    }
  }

  /** Nobody who has not passed a serving host reaches beyond it. */
  lemma BoundStopsThere(ports: seq<nat>, w: World, ph: Phase, m: nat, k: nat)
    requires m < |ports| && k <= |ports| && HostAt(ports, w, m) && InRange(ports, ph)
    requires !Past(ports, ph, m) && MayReach(ports, w, ph, k)
    ensures k < m
  {
    var end := if k < |ports| then k + 1 else k;
    match ph
    case Scanning(i, _) => assert NoneServes(ports, w, 0, end);
    case Binding(i) => assert NoneServes(ports, w, i, end);
    case ProbingTaken(i, _) => assert NoneServes(ports, w, i, end);
    case _ =>
  }

  /** Taking an address that was free leaves everybody in place. */
  lemma SquatPlaces(ports: seq<nat>, w: World, addr: Addr, ph: Phase)
    requires addr !in w.at && addr !in w.refusing && Placed(ports, w, ph)
    ensures Placed(ports, Apply(ports, w, Squat(addr)), ph)
  {
    var t := Apply(ports, w, Squat(addr));
    assert forall a :: a in t.at ==> (Serving(t, a) <==> a in w.at && Serving(w, a));
    assert Leaderless(t) <==> Leaderless(w);
    forall k | 0 <= k < |ports| ensures HostAt(ports, t, k) <==> HostAt(ports, w, k) {
    }
    forall k | 0 <= k <= |ports| ensures MayReach(ports, t, ph, k) ==> MayReach(ports, w, ph, k) {
      SameHostsSameReach(ports, t, w, ph, k);
    }
  }

  /** Where a contender may come depends on the serving hosts alone. */
  lemma SameHostsSameReach(ports: seq<nat>, w: World, t: World, ph: Phase, k: nat)
    requires k <= |ports| && forall n :: 0 <= n < |ports| ==> (HostAt(ports, w, n) <==> HostAt(ports, t, n))
    ensures MayReach(ports, w, ph, k) <==> MayReach(ports, t, ph, k)
  {
    forall i: nat, j: nat | j <= |ports| ensures NoneServes(ports, w, i, j) <==> NoneServes(ports, t, i, j) {
    }
  }

  /** Phases, listeners and refusals are all that counts. */
  lemma SameGroundSamePlace(ports: seq<nat>, w: World, t: World, ph: Phase)
    requires w.at == t.at && w.refusing == t.refusing
    ensures Placed(ports, w, ph) <==> Placed(ports, t, ph)
    ensures OneServing(w) <==> OneServing(t)
  {
    assert forall a :: a in w.at ==> (Serving(w, a) <==> Serving(t, a));
    forall k | 0 <= k <= |ports| ensures MayReach(ports, w, ph, k) <==> MayReach(ports, t, ph, k) {
      SameHostsSameReach(ports, w, t, ph, k);
    }
  }

  lemma GrowingStepKeeps(ports: seq<nat>, w: World, a: Action)
    requires Kept(ports, w) && Enabled(ports, w, a) && Grows(ports, w, a)
    ensures Kept(ports, Apply(ports, w, a))
  {
    var t := Apply(ports, w, a);
    StepKeepsWellFormed(ports, w, a);
    forall c | c in t.procs ensures Placed(ports, t, t.procs[c]) {
      GrowingStepPlaces(ports, w, a, c);
    }
    if a.Sense? && a.o.BindOk? {
      NobodyBindsBesideAHost(ports, w, a.c);
    }
  }

  lemma GrowingStepPlaces(ports: seq<nat>, w: World, a: Action, c: nat)
    requires Kept(ports, w) && Enabled(ports, w, a) && Grows(ports, w, a) && c in Apply(ports, w, a).procs
    ensures var t := Apply(ports, w, a); Placed(ports, t, t.procs[c])
  {
    var t := Apply(ports, w, a);
    match a
    case Sense(d, o) =>
      if o.BindOk? {
        NobodyBindsBesideAHost(ports, w, d);
        if c != d {
          BindPlaces(ports, w, d, w.procs[c]);
        }
      } else {
        if c == d {
          ReactionPlaced(ports, w, d, o);
        }
        SameGroundSamePlace(ports, w, t, t.procs[c]);
      }
    case Squat(addr) => SquatPlaces(ports, w, addr, w.procs[c]);
    case Arrive(_) => SameGroundSamePlace(ports, w, t, t.procs[c]);
    case Die(_) => SameGroundSamePlace(ports, w, t, t.procs[c]);
  }

  // ---- steps that give something back ----

  /** With another host serving, a contender stays in place unless it may come to the address. */
  lemma PlacedBesideAHostIff(ports: seq<nat>, w: World, addr: Addr, ph: Phase)
    requires OneServing(w) && Guarded(w, addr) && addr in w.at && Placed(ports, w, ph)
    ensures Placed(ports, Without(w, addr), ph) <==>
            forall k :: 0 <= k < |ports| && Local(ports[k]) == addr ==> !MayReach(ports, w, ph, k)
  {
    var t := Without(w, addr);
    var host :| host in w.at && host != addr && Serving(w, host);
    assert Serving(t, host) && !Leaderless(w) && !Leaderless(t);
    forall k | 0 <= k <= |ports| ensures MayReach(ports, t, ph, k) <==> MayReach(ports, w, ph, k) {
      SameHostsSameReach(ports, w, t, ph, k);
    }
    assert forall k :: 0 <= k < |ports| ==>
             (Blocked(ports, t, k) <==> Blocked(ports, w, k) && Local(ports[k]) != addr);
  }

  /** With none left, a contender is in place unless it has left the address, or a free port,
      behind. */
  lemma PlacedWithoutLeaderIff(ports: seq<nat>, w: World, addr: Addr, ph: Phase)
    requires !Guarded(w, addr)
    ensures Leaderless(Without(w, addr))
    ensures Placed(ports, Without(w, addr), ph) <==>
            forall k :: 0 <= k < |ports| && Past(ports, ph, k) ==> Local(ports[k]) != addr && Local(ports[k]) in w.at
  {
    var t := Without(w, addr);
    assert forall a :: a in t.at ==> (Serving(t, a) <==> Serving(w, a));
    assert forall k :: 0 <= k < |ports| ==>
             (Blocked(ports, t, k) <==> Local(ports[k]) != addr && Local(ports[k]) in w.at);
  }

  lemma PlacedUnlessItNeeds(ports: seq<nat>, w: World, addr: Addr, ph: Phase)
    requires OneServing(w) && addr in w.at && Placed(ports, w, ph)
    ensures Placed(ports, Without(w, addr), ph) <==> !Needs(ports, w, addr, ph)
  {
    if Guarded(w, addr) {
      PlacedBesideAHostIff(ports, w, addr, ph);
    } else {
      PlacedWithoutLeaderIff(ports, w, addr, ph);
    }
  }

  lemma OneServingWithout(w: World, addr: Addr)
    requires OneServing(w)
    ensures OneServing(Without(w, addr))
  {
    var t := Without(w, addr);
    assert forall a :: a in t.at && Serving(t, a) ==> a in w.at && Serving(w, a);
  }

  /** The contenders that stay, and those that do not need anything any more. */
  lemma WhoStays(ports: seq<nat>, w: World, a: Action, c: nat)
    requires WellFormed(ports, w) && Enabled(ports, w, a) && GivenBack(ports, w, a).Some?
    ensures var gone, t := GivenBack(ports, w, a).value, Apply(ports, w, a);
            && gone in w.at && t.at == Without(w, gone).at && t.refusing == Without(w, gone).refusing
            && (c in t.procs ==> c in w.procs && (t.procs[c] == w.procs[c] || t.procs[c] == Finished(Io)))
            && (c in w.procs && !(c in t.procs && t.procs[c] == w.procs[c]) ==> w.procs[c].Publishing?)
  {
    if a.Sense? || a.Die? {
      assert Owns(w, a.c, Local(ports[w.procs[a.c].i]));
    }
  }

  lemma GivingBackKeepsIff(ports: seq<nat>, w: World, a: Action)
    requires Kept(ports, w) && Enabled(ports, w, a) && GivenBack(ports, w, a).Some?
    ensures Kept(ports, Apply(ports, w, a)) <==> Harmless(ports, w, a)
  {
    var t, gone := Apply(ports, w, a), GivenBack(ports, w, a).value;
    StepKeepsWellFormed(ports, w, a);
    WhoStays(ports, w, a, 0);
    OneServingWithout(w, gone);
    assert Serving(t, gone) ==> gone in t.at;
    forall c ensures c in t.procs ==> (Placed(ports, t, t.procs[c]) <==> PlacedAfter(ports, w, gone, c))
             ensures c in w.procs && !PlacedAfter(ports, w, gone, c) ==> c in t.procs {
      WhoStays(ports, w, a, c);
      if c in w.procs {
        PlacedUnlessItNeeds(ports, w, gone, w.procs[c]);
      }
      if c in t.procs {
        SameGroundSamePlace(ports, Without(w, gone), t, t.procs[c]);
      }
    }
    SameGroundSamePlace(ports, Without(w, gone), t, Begin);
  }

  predicate PlacedAfter(ports: seq<nat>, w: World, gone: Addr, c: nat) {
    c in w.procs ==> !Needs(ports, w, gone, w.procs[c])
  }

  lemma RefusingKeepsIff(ports: seq<nat>, w: World, addr: Addr)
    requires Kept(ports, w) && Enabled(ports, w, Refuse(addr))
    ensures Kept(ports, Apply(ports, w, Refuse(addr))) <==> Harmless(ports, w, Refuse(addr))
  {
    var t := Apply(ports, w, Refuse(addr));
    StepKeepsWellFormed(ports, w, Refuse(addr));
    assert forall a :: a in t.at && Serving(t, a) ==> a in w.at && Serving(w, a);
    if Guarded(w, addr) {
      assert addr in w.refusing;
      assert t == w;
    } else {
      assert Leaderless(t);
      forall c | c in w.procs ensures Placed(ports, t, w.procs[c]) <==> !LeftFree(ports, w, w.procs[c]) {
        assert forall k :: 0 <= k < |ports| ==> (Blocked(ports, t, k) <==> Local(ports[k]) in w.at);
      }
    }
  }

  /** From a kept world exactly the harmless steps lead to a kept one. */
  lemma StepKeepsIffHarmless(ports: seq<nat>, w: World, a: Action)
    requires Kept(ports, w) && Enabled(ports, w, a)
    ensures Kept(ports, Apply(ports, w, a)) <==> Harmless(ports, w, a)
  {
    if GivenBack(ports, w, a).Some? {
      GivingBackKeepsIff(ports, w, a);
    } else if a.Refuse? {
      RefusingKeepsIff(ports, w, a.addr);
    } else {
      GrowingStepKeeps(ports, w, a);
    }
  }

  // ---- runs ----

  /** Every step of the run is harmless where it is taken. */
  predicate HarmlessRun(ports: seq<nat>, w: World, acts: seq<Action>)
    decreases |acts|
  {
    acts == []
    || (Enabled(ports, w, acts[0]) && Harmless(ports, w, acts[0])
        && HarmlessRun(ports, Apply(ports, w, acts[0]), acts[1..]))
  }

  lemma {:induction false} RunKeeps(ports: seq<nat>, w: World, acts: seq<Action>, t: World)
    requires Kept(ports, w) && Run(ports, w, acts, t) && HarmlessRun(ports, w, acts)
    ensures Kept(ports, t)
    decreases |acts|
  {
    if acts != [] {
      StepKeepsIffHarmless(ports, w, acts[0]);
      RunKeeps(ports, Apply(ports, w, acts[0]), acts[1..], t);
    }
  }

  /** One serving host; whoever leads from a serving host leads from that one; and nobody is told
      that the ports are exhausted while it serves. */
  ghost predicate OneContext(ports: seq<nat>, w: World) {
    && OneServing(w)
    && (forall c, d :: LeadsNow(w, c) && LeadsNow(w, d) ==> c == d)
    && (forall c, o :: TellsExhausted(ports, w, c, o) ==> Leaderless(w))
  }

  /** The contender has returned as leader and its host still serves. */
  predicate LeadsNow(w: World, c: nat) {
    Leads(w, c) && Owns(w, c, Local(w.procs[c].outcome.port)) && Serving(w, Local(w.procs[c].outcome.port))
  }

  predicate TellsExhausted(ports: seq<nat>, w: World, c: nat, o: Obs) {
    Enabled(ports, w, Sense(c, o)) && React(ports, w.procs[c], o) == Some(Finished(PortsExhausted))
  }

  lemma KeptMeansOneContext(ports: seq<nat>, w: World)
    requires Kept(ports, w)
    ensures OneContext(ports, w)
  {
    forall c, o | TellsExhausted(ports, w, c, o) ensures Leaderless(w) {
      if !Leaderless(w) {
        var h := LeaderIsOnTheWalk(ports, w);
        ExhaustedWalksToTheEnd(ports, w, c, o);
      }
    }
  }

  lemma ExhaustedWalksToTheEnd(ports: seq<nat>, w: World, c: nat, o: Obs)
    requires WellFormed(ports, w) && TellsExhausted(ports, w, c, o) && !Leaderless(w)
    ensures MayReach(ports, w, w.procs[c], |ports|)
  {
    var h := LeaderIsOnTheWalk(ports, w);
  }

  lemma FreshIsKept(ports: seq<nat>, w: World)
    requires Fresh(w)
    ensures Kept(ports, w)
  {
  }

  /** One host at a time, over any number of leaders. Contenders arrive and die, leaders serve, drain
      and leave, squatters come and go, discovery says anything, all in any order, as long as nothing
      is given back that the walk of a contender needs at that moment. */
  lemma OneHostAtATime(ports: seq<nat>, w: World, acts: seq<Action>, t: World)
    requires Fresh(w) && Run(ports, w, acts, t) && HarmlessRun(ports, w, acts)
    ensures OneContext(ports, t)
  {
    FreshIsKept(ports, w);
    RunKeeps(ports, w, acts, t);
    KeptMeansOneContext(ports, t);
  }

  // ---- as long as no leader leaves ----

  /** Somebody has been told that the ports are exhausted, or probes the last of them. */
  predicate SomebodyAtTheEnd(ports: seq<nat>, w: World) {
    exists c :: c in w.procs && AtTheEnd(ports, w.procs[c])
  }

  predicate AtTheEnd(ports: seq<nat>, ph: Phase) {
    ph == Finished(PortsExhausted) || (ph.ProbingTaken? && ph.i + 1 == |ports|)
  }

  /** No leader that has returned leaves or starts to refuse, and no port comes free once somebody is
      at the end of the walk. */
  predicate Steady(ports: seq<nat>, w: World, a: Action)
    requires Enabled(ports, w, a)
  {
    && !a.Refuse? && (a.Release? ==> w.at[a.addr] == Squatter)
    && (GivenBack(ports, w, a).Some? && OnWalk(ports, GivenBack(ports, w, a).value) ==> !SomebodyAtTheEnd(ports, w))
  }

  predicate SteadyRun(ports: seq<nat>, w: World, acts: seq<Action>)
    decreases |acts|
  {
    acts == []
    || (Enabled(ports, w, acts[0]) && Steady(ports, w, acts[0])
        && SteadyRun(ports, Apply(ports, w, acts[0]), acts[1..]))
  }

  /** One host, who leads it if anybody has ever led, and nobody turned away before or while it is
      there. */
  ghost predicate OneLeader(w: World) {
    && (forall c, d :: Leads(w, c) && Leads(w, d) ==> c == d)
    && (forall a, b :: a in w.at && b in w.at && w.at[a].Host? && w.at[b].Host? ==> a == b)
    && (forall c, a :: c in w.procs && w.procs[c] == Finished(PortsExhausted) && a in w.at ==> !w.at[a].Host?)
    && (forall c :: Leads(w, c) ==> Owns(w, c, Local(w.procs[c].outcome.port)))
  }

  /** What the phase says about the listeners while no leader leaves. */
  predicate Backed(ports: seq<nat>, w: World, c: nat, ph: Phase) {
    match ph
    case ProbingTaken(i, _) => i + 1 == |ports| ==> Local(ports[i]) in w.at
    case Finished(PortsExhausted) => AllSquatted(ports, w)
    case Finished(Leader(p)) => Owns(w, c, Local(p))
    case _ => true
  }

  predicate AllSquatted(ports: seq<nat>, w: World) {
    forall k :: 0 <= k < |ports| ==> Local(ports[k]) in w.at && w.at[Local(ports[k])] == Squatter
  }

  predicate KeptSteady(ports: seq<nat>, w: World) {
    Kept(ports, w) && w.refusing == {} && forall c :: c in w.procs ==> Backed(ports, w, c, w.procs[c])
  }

  /** Whoever is told that the ports are exhausted has left squatters on all of them. */
  lemma ExhaustedLeavesSquatters(ports: seq<nat>, w: World, c: nat, o: Obs)
    requires KeptSteady(ports, w) && TellsExhausted(ports, w, c, o)
    ensures AllSquatted(ports, w)
  {
    KeptMeansOneContext(ports, w);
    assert Placed(ports, w, w.procs[c]) && Backed(ports, w, c, w.procs[c]);
    forall k | 0 <= k < |ports| ensures Local(ports[k]) in w.at && w.at[Local(ports[k])] == Squatter {
      assert k + 1 < |ports| ==> Past(ports, w.procs[c], k) && Blocked(ports, w, k);
      assert !Serving(w, Local(ports[k]));
    }
  }

  lemma SteadyStepBacks(ports: seq<nat>, w: World, a: Action, c: nat)
    requires KeptSteady(ports, w) && Enabled(ports, w, a) && Steady(ports, w, a)
    requires c in w.procs && c in Apply(ports, w, a).procs && Apply(ports, w, a).procs[c] == w.procs[c]
    ensures Backed(ports, Apply(ports, w, a), c, w.procs[c])
  {
    var t := Apply(ports, w, a);
    assert Backed(ports, w, c, w.procs[c]);
    if GivenBack(ports, w, a).Some? {
      WhoStays(ports, w, a, c);
      if AtTheEnd(ports, w.procs[c]) {
        assert SomebodyAtTheEnd(ports, w);
        assert forall k :: 0 <= k < |ports| ==> OnWalk(ports, Local(ports[k]));
      }
    }
  }

  lemma SteadyStepKeeps(ports: seq<nat>, w: World, a: Action)
    requires KeptSteady(ports, w) && Enabled(ports, w, a) && Harmless(ports, w, a) && Steady(ports, w, a)
    ensures KeptSteady(ports, Apply(ports, w, a))
  {
    var t := Apply(ports, w, a);
    StepKeepsIffHarmless(ports, w, a);
    forall c | c in t.procs ensures Backed(ports, t, c, t.procs[c]) {
      if c in w.procs && t.procs[c] == w.procs[c] {
        SteadyStepBacks(ports, w, a, c);
      } else if a.Sense? && a.c == c {
        if TellsExhausted(ports, w, c, a.o) {
          ExhaustedLeavesSquatters(ports, w, c, a.o);
        }
        assert w.procs[c].Publishing? ==> Owns(w, c, Local(ports[w.procs[c].i]));
      }
    }
  }

  lemma {:induction false} SteadyRunKeeps(ports: seq<nat>, w: World, acts: seq<Action>, t: World)
    requires KeptSteady(ports, w) && Run(ports, w, acts, t)
    requires HarmlessRun(ports, w, acts) && SteadyRun(ports, w, acts)
    ensures KeptSteady(ports, t)
    decreases |acts|
  {
    if acts != [] {
      SteadyStepKeeps(ports, w, acts[0]);
      SteadyRunKeeps(ports, Apply(ports, w, acts[0]), acts[1..], t);
    }
  }

  lemma SteadyMeansOneLeader(ports: seq<nat>, w: World)
    requires KeptSteady(ports, w)
    ensures OneLeader(w)
  {
    assert forall a :: a in w.at && w.at[a].Host? ==> Serving(w, a);
    forall c | Leads(w, c) ensures Owns(w, c, Local(w.procs[c].outcome.port)) {
      assert Backed(ports, w, c, w.procs[c]);
    }
    forall c, a | c in w.procs && w.procs[c] == Finished(PortsExhausted) && a in w.at ensures !w.at[a].Host? {
      assert Backed(ports, w, c, w.procs[c]);
      assert w.at[a].Host? ==> OnWalk(ports, a);
    }
  }

  /** As long as no leader that has returned leaves, at most one contender ever returns as leader, at
      most one host is ever bound, and nobody is ever told that the ports are exhausted before or
      while there is one. Contenders may die and squatters may leave where that is harmless. */
  lemma AtMostOneLeader(ports: seq<nat>, w: World, acts: seq<Action>, t: World)
    requires Fresh(w) && Run(ports, w, acts, t) && HarmlessRun(ports, w, acts) && SteadyRun(ports, w, acts)
    ensures OneLeader(t)
  {
    FreshIsKept(ports, w);
    SteadyRunKeeps(ports, w, acts, t);
    SteadyMeansOneLeader(ports, t);
  }

  // ---- a leader that keeps serving is never displaced ----

  /** The action leaves the host on port `q` in place and answering. */
  predicate Spares(q: nat, w: World, l: nat, a: Action) {
    && a != Release(Local(q)) && a != Refuse(Local(q))
    && !(a.Sense? && a.c == l && a.o == Written(false)) && a != Die(l)
  }

  /** Every action of the run spares the host. */
  predicate ServesThroughout(ports: seq<nat>, q: nat, l: nat, w: World, acts: seq<Action>)
    decreases |acts|
  {
    if acts == [] then true
    else Spares(q, w, l, acts[0]) && Enabled(ports, w, acts[0])
         && ServesThroughout(ports, q, l, Apply(ports, w, acts[0]), acts[1..])
  }

  /** A contender that has not walked past the leader's port. */
  predicate Contained(L: nat, ph: Phase) {
    match ph
    case Begin => true
    case ProbingDiscovery(_, _) => true
    case Scanning(i, _) => i <= L
    case Refreshing(_, _) => true
    case Finished(Follower(_)) => true
    case Finished(TokenUnavailable) => true
    case Finished(LeaderBusy) => true
    case _ => false
  }

  /** Only the contender that bound a port can publish on it. */
  ghost predicate PublishersOwn(ports: seq<nat>, w: World, q: nat, l: nat) {
    && Local(q) in w.at && w.at[Local(q)] == Host(l) && Local(q) !in w.refusing
    && forall d :: d in w.procs && w.procs[d].Publishing? && w.procs[d].i < |ports| ==>
         ports[w.procs[d].i] == q ==> d == l
  }

  lemma {:induction false} ContainedStays(ports: seq<nat>, w: World, acts: seq<Action>, t: World,
  L: nat, l: nat, c: nat)
    requires L < |ports| && Run(ports, w, acts, t)
    requires PublishersOwn(ports, w, ports[L], l) && ServesThroughout(ports, ports[L], l, w, acts)
    requires c in w.procs ==> Contained(L, w.procs[c])
    ensures c in t.procs ==> Contained(L, t.procs[c])
    ensures PublishersOwn(ports, t, ports[L], l)
    decreases |acts|
  {
    if acts != [] {
      var u := Apply(ports, w, acts[0]);
      assert PublishersOwn(ports, u, ports[L], l);
      assert c in u.procs ==> Contained(L, u.procs[c]);
      ContainedStays(ports, u, acts[1..], t, L, l, c);
    }
  }

  /** A leader on any port of the range that keeps answering is never displaced by a contender
      that starts later: the contender follows, reports the leader busy, or gives up on the
      token, whatever squatters come and go and whatever discovery says. */
  lemma ServingLeaderIsNeverDisplaced(
    id: Identity.ContextIdentity, w: World, acts: seq<Action>, t: World, q: nat, l: nat, c: nat)
    requires Identity.WellFormed(id) && Identity.NoOverflow(id)
    requires id.base <= q < id.base + id.range
    requires PublishersOwn(Identity.Ports(id), w, q, l) && c !in w.procs
    requires Run(Identity.Ports(id), w, acts, t) && ServesThroughout(Identity.Ports(id), q, l, w, acts)
    ensures Serving(t, Local(q)) && t.at[Local(q)] == Host(l)
    ensures c in t.procs && t.procs[c].Finished? ==>
              t.procs[c].outcome.Follower? || t.procs[c].outcome in {LeaderBusy, TokenUnavailable}
    ensures c in t.procs ==> !t.procs[c].Publishing?
  {
    var ports := Identity.Ports(id);
    Identity.CoveredWithoutOverflow(id);
    assert q in ports;
    var L :| 0 <= L < |ports| && ports[L] == q;
    ContainedStays(ports, w, acts, t, L, l, c);
  }
}
