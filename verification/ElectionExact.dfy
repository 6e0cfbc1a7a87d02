/** The condition of ElectionSafety is exact: wherever something needed is given back, the contenders
    that are there, and one newcomer, can go on to split the context. */
module ElectionExact {
  import opened Wrappers
  import opened Election
  import opened ElectionSafety

  /** No listener goes, no host stops serving and no contender dies. */
  predicate Keeps(a: Action) {
    !a.Release? && !a.Refuse? && !a.Die? && !(a.Sense? && a.o == Written(false))
  }

  /** Some run leads from `w` to `t` in which nothing more is given back. */
  ghost predicate CanReach(ports: seq<nat>, w: World, t: World) {
    exists acts :: Run(ports, w, acts, t) && forall a :: a in acts ==> Keeps(a)
  }

  /** Whatever happens from here on, there is one context, as long as nothing more is given back. */
  ghost predicate Secure(ports: seq<nat>, w: World) {
    forall t :: CanReach(ports, w, t) ==> OneContext(ports, t)
  }

  predicate Different(ports: seq<nat>) {
    forall i, j :: 0 <= i < j < |ports| ==> ports[i] != ports[j]
  }

  // ---- kept worlds are secure ----

  lemma {:induction false} KeepingRunKeeps(ports: seq<nat>, w: World, acts: seq<Action>, t: World)
    requires Kept(ports, w) && Run(ports, w, acts, t) && forall a :: a in acts ==> Keeps(a)
    ensures Kept(ports, t)
    decreases |acts|
  {
    if acts != [] {
      assert Keeps(acts[0]);
      GrowingStepKeeps(ports, w, acts[0]);
      KeepingRunKeeps(ports, Apply(ports, w, acts[0]), acts[1..], t);
    }
  }

  lemma KeptIsSecure(ports: seq<nat>, w: World)
    requires Kept(ports, w)
    ensures Secure(ports, w)
  {
    forall t | CanReach(ports, w, t) ensures OneContext(ports, t) {
      var acts :| Run(ports, w, acts, t) && forall a :: a in acts ==> Keeps(a);
      KeepingRunKeeps(ports, w, acts, t);
      KeptMeansOneContext(ports, t);
    }
  }

  // ---- going on ----

  lemma {:induction false} RunAppend(ports: seq<nat>, w: World, acts: seq<Action>, t: World, a: Action)
    requires Run(ports, w, acts, t) && Enabled(ports, t, a)
    ensures Run(ports, w, acts + [a], Apply(ports, t, a))
    decreases |acts|
  {
    if acts == [] {
      assert [a][1..] == [];
    } else {
      RunAppend(ports, Apply(ports, w, acts[0]), acts[1..], t, a);
      assert (acts + [a])[1..] == acts[1..] + [a];
    }
  }

  lemma Stay(ports: seq<nat>, w: World)
    ensures CanReach(ports, w, w)
  {
    assert Run(ports, w, [], w);
  }

  lemma Onward(ports: seq<nat>, w: World, t: World, a: Action) returns (u: World)
    requires CanReach(ports, w, t) && WellFormed(ports, t) && Enabled(ports, t, a) && Keeps(a)
    ensures u == Apply(ports, t, a) && CanReach(ports, w, u) && WellFormed(ports, u)
  {
    u := Apply(ports, t, a);
    var acts :| Run(ports, w, acts, t) && forall a :: a in acts ==> Keeps(a);
    RunAppend(ports, w, acts, t, a);
    assert Run(ports, w, acts + [a], u);
    StepKeepsWellFormed(ports, t, a);
  }

  /** Same listeners, and only contender `d` has moved, to phase `ph`. */
  predicate OnlyMoved(t: World, u: World, d: nat, ph: Phase) {
    u.at == t.at && u.refusing == t.refusing && u.procs == t.procs[d := ph]
  }

  /** The contender sees something, and binds nothing. */
  lemma Looks(ports: seq<nat>, w: World, t: World, d: nat, o: Obs) returns (u: World)
    requires CanReach(ports, w, t) && WellFormed(ports, t) && d in t.procs && !o.BindOk? && !o.Written?
    requires React(ports, t.procs[d], o).Some? && MaySee(ports, t, t.procs[d], o)
    ensures CanReach(ports, w, u) && WellFormed(ports, u) && OnlyMoved(t, u, d, React(ports, t.procs[d], o).value)
  {
    u := Onward(ports, w, t, Sense(d, o));
  }

  lemma Binds(ports: seq<nat>, w: World, t: World, d: nat, f: nat) returns (u: World)
    requires CanReach(ports, w, t) && WellFormed(ports, t) && d in t.procs && f < |ports|
    requires t.procs[d] == Binding(f) && Local(ports[f]) !in t.at
    ensures CanReach(ports, w, u) && WellFormed(ports, u) && u.refusing == t.refusing
    ensures u.at == t.at[Local(ports[f]) := Host(d)] && u.procs == t.procs[d := Publishing(f)]
  {
    u := Onward(ports, w, t, Sense(d, BindOk));
  }

  lemma Arrives(ports: seq<nat>, w: World, t: World, d: nat) returns (u: World)
    requires CanReach(ports, w, t) && WellFormed(ports, t) && d !in t.procs
    ensures CanReach(ports, w, u) && WellFormed(ports, u) && OnlyMoved(t, u, d, ScanFrom(ports, 0))
  {
    u := Onward(ports, w, t, Arrive(d));
    u := Looks(ports, w, u, d, DiscoveryRead(None));
  }

  /** A scanning contender that meets no serving host comes to the bind. */
  lemma {:induction false} ScansToTheEnd(ports: seq<nat>, w: World, t: World, d: nat, i: nat) returns (u: World)
    requires CanReach(ports, w, t) && WellFormed(ports, t) && i <= |ports| && NoneServes(ports, t, i, |ports|)
    requires d in t.procs && t.procs[d] == ScanFrom(ports, i)
    ensures CanReach(ports, w, u) && WellFormed(ports, u) && OnlyMoved(t, u, d, BindFrom(ports, 0))
    decreases |ports| - i
  {
    if i == |ports| {
      u := t;
    } else {
      assert !HostAt(ports, t, i);
      u := Looks(ports, w, t, d, Answered(Dead));
      SameGround(ports, t, u);
      u := ScansToTheEnd(ports, w, u, d, i + 1);
    }
  }

  lemma NewcomerScans(ports: seq<nat>, w: World, t: World, d: nat) returns (u: World)
    requires CanReach(ports, w, t) && WellFormed(ports, t) && Leaderless(t) && d !in t.procs
    ensures CanReach(ports, w, u) && WellFormed(ports, u) && OnlyMoved(t, u, d, BindFrom(ports, 0))
  {
    u := Arrives(ports, w, t, d);
    SameGround(ports, t, u);
    u := ScansToTheEnd(ports, w, u, d, 0);
  }

  /** A contender steps over a taken port that no host serves. */
  lemma StepsOn(ports: seq<nat>, w: World, t: World, d: nat, m: nat) returns (u: World)
    requires CanReach(ports, w, t) && WellFormed(ports, t) && m + 1 < |ports| && Blocked(ports, t, m)
    requires d in t.procs && t.procs[d] == Binding(m)
    ensures CanReach(ports, w, u) && WellFormed(ports, u) && OnlyMoved(t, u, d, Binding(m + 1))
  {
    u := Looks(ports, w, t, d, BindInUse);
    assert !HostAt(ports, u, m);
    u := Looks(ports, w, u, d, Answered(Dead));
  }

  lemma {:induction false} StepsOver(ports: seq<nat>, w: World, t: World, d: nat, m: nat, i: nat) returns (u: World)
    requires CanReach(ports, w, t) && WellFormed(ports, t) && m <= i < |ports|
    requires forall k :: m <= k < i ==> Blocked(ports, t, k)
    requires d in t.procs && t.procs[d] == Binding(m)
    ensures CanReach(ports, w, u) && WellFormed(ports, u) && OnlyMoved(t, u, d, Binding(i))
    decreases i - m
  {
    if m == i {
      u := t;
    } else {
      u := StepsOn(ports, w, t, d, m);
      assert forall k :: m <= k < i ==> (Blocked(ports, u, k) <==> Blocked(ports, t, k));
      u := StepsOver(ports, w, u, d, m + 1, i);
    }
  }

  // ---- other worlds are not ----

  lemma SecondHost(ports: seq<nat>, w: World, t: World, c: nat, m: nat) returns (u: World)
    requires CanReach(ports, w, t) && WellFormed(ports, t) && !Leaderless(t) && m < |ports|
    requires c in t.procs && t.procs[c] == Binding(m) && Local(ports[m]) !in t.at
    ensures CanReach(ports, w, u) && !OneContext(ports, u)
  {
    var host :| host in t.at && Serving(t, host);
    u := Binds(ports, w, t, c, m);
    assert Serving(u, host) && Serving(u, Local(ports[m])) && host != Local(ports[m]);
  }

  lemma TurnedAway(ports: seq<nat>, w: World, t: World, c: nat) returns (u: World)
    requires CanReach(ports, w, t) && WellFormed(ports, t) && !Leaderless(t) && ports != []
    requires c in t.procs && t.procs[c] == Binding(|ports| - 1) && Blocked(ports, t, |ports| - 1)
    ensures CanReach(ports, w, u) && !OneContext(ports, u)
  {
    u := Looks(ports, w, t, c, BindInUse);
    SameGround(ports, t, u);
    assert !HostAt(ports, u, |ports| - 1);
    assert TellsExhausted(ports, u, c, Answered(Dead));
  }

  lemma LaterReach(ports: seq<nat>, t: World, u: World, m: nat, k: nat)
    requires m < k <= |ports| && MayReach(ports, t, Binding(m), k)
    requires forall n :: 0 <= n < |ports| ==> (HostAt(ports, u, n) <==> HostAt(ports, t, n))
    ensures MayReach(ports, u, Binding(m + 1), k)
  {
  }

  /** Beside a serving host, a contender that comes to a free port, or to the end, splits the context
      or is turned away. */
  lemma {:induction false} WalkBreaks(ports: seq<nat>, w: World, t: World, c: nat, m: nat, k: nat) returns (u: World)
    requires CanReach(ports, w, t) && WellFormed(ports, t) && !Leaderless(t) && m <= k <= |ports| && m < |ports|
    requires c in t.procs && t.procs[c] == Binding(m) && MayReach(ports, t, Binding(m), k)
    requires k < |ports| ==> !Blocked(ports, t, k)
    ensures CanReach(ports, w, u) && !OneContext(ports, u)
    decreases |ports| - m
  {
    assert !HostAt(ports, t, m);
    if Local(ports[m]) !in t.at {
      u := SecondHost(ports, w, t, c, m);
    } else if m + 1 == |ports| {
      u := TurnedAway(ports, w, t, c);
    } else {
      u := StepsOn(ports, w, t, c, m);
      SameGround(ports, t, u);
      LaterReach(ports, t, u, m, k);
      u := WalkBreaks(ports, w, u, c, m + 1, k);
    }
  }

  lemma ReachBreaks(ports: seq<nat>, w: World, t: World, c: nat, k: nat) returns (u: World)
    requires CanReach(ports, w, t) && WellFormed(ports, t) && !Leaderless(t) && k <= |ports|
    requires c in t.procs && MayReach(ports, t, t.procs[c], k) && (k < |ports| ==> !Blocked(ports, t, k))
    ensures CanReach(ports, w, u) && !OneContext(ports, u)
  {
    var end := if k < |ports| then k + 1 else k;
    match t.procs[c]
    case Binding(m) => {
      u := WalkBreaks(ports, w, t, c, m, k);
    }
    case ProbingTaken(m, _) => {
      u := ProbeBreaks(ports, w, t, c, m, k);
    }
    case Scanning(i, _) => {
      u := ScansOn(ports, w, t, c, i);
      SameGround(ports, t, u);
      assert NoneServes(ports, t, 0, end);
      assert MayReach(ports, u, Binding(0), k);
      u := WalkBreaks(ports, w, u, c, 0, k);
    }
    case _ =>
  }

  lemma ProbeBreaks(ports: seq<nat>, w: World, t: World, c: nat, m: nat, k: nat) returns (u: World)
    requires CanReach(ports, w, t) && WellFormed(ports, t) && !Leaderless(t) && k <= |ports|
    requires c in t.procs && t.procs[c].ProbingTaken? && t.procs[c].i == m
    requires MayReach(ports, t, t.procs[c], k) && (k < |ports| ==> !Blocked(ports, t, k))
    ensures CanReach(ports, w, u) && !OneContext(ports, u)
  {
    assert !HostAt(ports, t, m);
    if m + 1 == |ports| {
      u := t;
      assert TellsExhausted(ports, u, c, Answered(Dead));
    } else {
      u := Looks(ports, w, t, c, Answered(Dead));
      SameGround(ports, t, u);
      LaterReach(ports, t, u, m, k);
      u := WalkBreaks(ports, w, u, c, m + 1, k);
    }
  }

  lemma SameGround(ports: seq<nat>, t: World, u: World)
    requires u.at == t.at && u.refusing == t.refusing
    ensures Leaderless(u) <==> Leaderless(t)
    ensures forall k :: 0 <= k < |ports| ==> (HostAt(ports, u, k) <==> HostAt(ports, t, k))
    ensures forall k :: 0 <= k < |ports| ==> (Blocked(ports, u, k) <==> Blocked(ports, t, k))
  {
    assert forall a :: a in t.at ==> (Serving(u, a) <==> Serving(t, a));
  }

  lemma {:induction false} FirstFree(ports: seq<nat>, w: World, k: nat) returns (f: nat)
    requires k < |ports| && Local(ports[k]) !in w.at
    ensures f <= k && Local(ports[f]) !in w.at
    ensures forall n :: 0 <= n < f ==> Local(ports[n]) in w.at
    decreases k
  {
    if n :| 0 <= n < k && Local(ports[n]) !in w.at {
      f := FirstFree(ports, w, n);
    } else {
      f := k;
    }
  }

  lemma {:induction false} UnusedNumber(s: set<nat>) returns (d: nat)
    ensures forall x :: x in s ==> x < d
    decreases |s|
  {
    d := 0;
    if s != {} {
      var x :| x in s;
      d := UnusedNumber(s - {x});
      d := if x < d then d else x + 1;
      assert forall y :: y in s ==> y == x || y in s - {x};
    }
  }

  /** A newcomer comes to the first free port. */
  lemma NewcomerComes(ports: seq<nat>, w: World, t: World, d: nat, f: nat) returns (u: World)
    requires CanReach(ports, w, t) && WellFormed(ports, t) && Leaderless(t) && d !in t.procs
    requires f < |ports| && forall n :: 0 <= n < f ==> Local(ports[n]) in t.at
    ensures CanReach(ports, w, u) && WellFormed(ports, u) && OnlyMoved(t, u, d, Binding(f))
  {
    u := NewcomerScans(ports, w, t, d);
    SameGround(ports, t, u);
    assert forall n :: 0 <= n < f ==> Blocked(ports, u, n);
    u := StepsOver(ports, w, u, d, 0, f);
  }

  /** Without a leader, a contender that has left a free port behind and goes on to bind meets no
      host a newcomer binds there. */
  lemma PassesTheNewcomer(ports: seq<nat>, w: World, t: World, c: nat, f: nat) returns (u: World)
    requires Different(ports) && CanReach(ports, w, t) && WellFormed(ports, t) && Leaderless(t)
    requires f < |ports| && Local(ports[f]) !in t.at && forall n :: 0 <= n < f ==> Local(ports[n]) in t.at
    requires c in t.procs && Past(ports, t.procs[c], f) && !(t.procs[c].ProbingTaken? && t.procs[c].i == f)
    ensures CanReach(ports, w, u) && !OneContext(ports, u)
  {
    var d := UnusedNumber(t.procs.Keys);
    assert d !in t.procs;
    u := NewcomerComes(ports, w, t, d, f);
    u := Binds(ports, w, u, d, f);
    assert Serving(u, Local(ports[f])) && !Leaderless(u);
    assert forall n :: 0 <= n < |ports| && n != f ==> !HostAt(ports, u, n);
    u := ReachBreaks(ports, w, u, c, |ports|);
  }

  /** Without a leader, a contender that has left a free port behind lets a newcomer split the
      context. */
  lemma LeftBehindBreaks(ports: seq<nat>, w: World, c: nat, k: nat) returns (u: World)
    requires Different(ports) && WellFormed(ports, w) && Leaderless(w) && k < |ports|
    requires c in w.procs && Past(ports, w.procs[c], k) && !Blocked(ports, w, k)
    ensures CanReach(ports, w, u) && !OneContext(ports, u)
  {
    Stay(ports, w);
    assert !HostAt(ports, w, k);
    var f := FirstFree(ports, w, k);
    if w.procs[c].ProbingTaken? && w.procs[c].i == f {
      u := Looks(ports, w, w, c, Answered(Dead));
      SameGround(ports, w, u);
      u := PassesTheNewcomer(ports, w, u, c, f);
    } else {
      u := PassesTheNewcomer(ports, w, w, c, f);
    }
  }

  lemma NotKeptBreaks(ports: seq<nat>, w: World) returns (u: World)
    requires Different(ports) && WellFormed(ports, w) && !Kept(ports, w)
    ensures CanReach(ports, w, u) && !OneContext(ports, u)
  {
    Stay(ports, w);
    if !OneServing(w) {
      u := w;
    } else {
      var c :| c in w.procs && !Placed(ports, w, w.procs[c]);
      if Leaderless(w) {
        var k :| 0 <= k < |ports| && Past(ports, w.procs[c], k) && !Blocked(ports, w, k);
        u := LeftBehindBreaks(ports, w, c, k);
      } else {
        var k :| 0 <= k <= |ports| && MayReach(ports, w, w.procs[c], k) && (k < |ports| ==> !Blocked(ports, w, k));
        u := ReachBreaks(ports, w, w, c, k);
      }
    }
  }

  // ---- the condition is exact ----

  /** The invariant is the weakest there is: a world has it exactly when no run on from there that
      gives nothing back can split the context or turn a contender away beside a serving host. */
  lemma KeptIffSecure(ports: seq<nat>, w: World)
    requires Different(ports) && WellFormed(ports, w)
    ensures Kept(ports, w) <==> Secure(ports, w)
  {
    if Kept(ports, w) {
      KeptIsSecure(ports, w);
    } else {
      var u := NotKeptBreaks(ports, w);
    }
  }

  /** From a secure world exactly the harmless steps lead to a secure one. */
  lemma HarmlessIffStillSecure(ports: seq<nat>, w: World, a: Action)
    requires Different(ports) && WellFormed(ports, w) && Secure(ports, w) && Enabled(ports, w, a)
    ensures Harmless(ports, w, a) <==> Secure(ports, Apply(ports, w, a))
  {
    KeptIffSecure(ports, w);
    StepKeepsIffHarmless(ports, w, a);
    StepKeepsWellFormed(ports, w, a);
    KeptIffSecure(ports, Apply(ports, w, a));
  }

  ghost predicate SecureThroughout(ports: seq<nat>, w: World, acts: seq<Action>)
    decreases |acts|
  {
    Secure(ports, w)
    && (acts == [] || (Enabled(ports, w, acts[0]) && SecureThroughout(ports, Apply(ports, w, acts[0]), acts[1..])))
  }

  lemma {:induction false} HarmlessRunIffSecure(ports: seq<nat>, w: World, acts: seq<Action>, t: World)
    requires Different(ports) && Kept(ports, w) && Run(ports, w, acts, t)
    ensures HarmlessRun(ports, w, acts) <==> SecureThroughout(ports, w, acts)
    decreases |acts|
  {
    KeptIffSecure(ports, w);
    if acts != [] {
      var u := Apply(ports, w, acts[0]);
      HarmlessIffStillSecure(ports, w, acts[0]);
      StepKeepsWellFormed(ports, w, acts[0]);
      KeptIffSecure(ports, u);
      if Kept(ports, u) {
        HarmlessRunIffSecure(ports, u, acts[1..], t);
      }
    }
  }

  /** From the start on, a run gives nothing needed back if and only if the context is secure all
      along it. */
  lemma HarmlessRunsAreTheSecureOnes(ports: seq<nat>, w: World, acts: seq<Action>, t: World)
    requires Different(ports) && Fresh(w) && Run(ports, w, acts, t)
    ensures HarmlessRun(ports, w, acts) <==> SecureThroughout(ports, w, acts)
  {
    FreshIsKept(ports, w);
    HarmlessRunIffSecure(ports, w, acts, t);
  }

  // ---- how it splits ----

  /** Two different contenders lead, each from a host of its own that serves. */
  predicate Split(w: World, c: nat, d: nat, p: nat, q: nat) {
    && c != d && p != q && LeadsNow(w, c) && LeadsNow(w, d)
    && w.procs[c].outcome.port == p && w.procs[d].outcome.port == q
  }

  /** A contender binds the unbound port it stands at and publishes itself. */
  lemma BindsAndLeads(ports: seq<nat>, w: World, t: World, c: nat, i: nat) returns (u: World)
    requires CanReach(ports, w, t) && WellFormed(ports, t) && c in t.procs && i < |ports|
    requires t.procs[c] == Binding(i) && Local(ports[i]) !in t.at
    ensures CanReach(ports, w, u) && WellFormed(ports, u) && u.refusing == t.refusing
    ensures u.procs == t.procs[c := Finished(Leader(ports[i]))] && u.at == t.at[Local(ports[i]) := Host(c)]
    ensures LeadsNow(u, c) && forall e :: e != c && LeadsNow(t, e) ==> LeadsNow(u, e)
  {
    u := Publishes(ports, w, t, c, i);
    LeadsBesides(ports, t, u, c, i);
  }

  lemma Publishes(ports: seq<nat>, w: World, t: World, c: nat, i: nat) returns (u: World)
    requires CanReach(ports, w, t) && WellFormed(ports, t) && c in t.procs && i < |ports|
    requires t.procs[c] == Binding(i) && Local(ports[i]) !in t.at
    ensures CanReach(ports, w, u) && WellFormed(ports, u) && u.refusing == t.refusing
    ensures u.procs == t.procs[c := Finished(Leader(ports[i]))] && u.at == t.at[Local(ports[i]) := Host(c)]
  {
    u := Binds(ports, w, t, c, i);
    u := Onward(ports, w, u, Sense(c, Written(true)));
  }

  lemma LeadsBesides(ports: seq<nat>, t: World, u: World, c: nat, i: nat)
    requires WellFormed(ports, t) && i < |ports| && Local(ports[i]) !in t.at && u.refusing == t.refusing
    requires u.procs == t.procs[c := Finished(Leader(ports[i]))] && u.at == t.at[Local(ports[i]) := Host(c)]
    ensures LeadsNow(u, c) && forall e :: e != c && LeadsNow(t, e) ==> LeadsNow(u, e)
  {
  }

  /** The contender's next bind is at index `m`. */
  predicate BindsNext(ph: Phase, m: nat) {
    ph == Binding(m) || (ph.ProbingTaken? && ph.i + 1 == m)
  }

  lemma ComesToBind(ports: seq<nat>, w: World, t: World, c: nat, m: nat) returns (u: World)
    requires CanReach(ports, w, t) && WellFormed(ports, t) && Leaderless(t) && m < |ports|
    requires c in t.procs && BindsNext(t.procs[c], m)
    ensures CanReach(ports, w, u) && WellFormed(ports, u) && OnlyMoved(t, u, c, Binding(m))
  {
    u := t;
    if t.procs[c].ProbingTaken? {
      assert !HostAt(ports, t, m - 1);
      u := Looks(ports, w, t, c, Answered(Dead));
    }
  }

  /** A contender that may reach index `k` comes to bind somewhere in front of it. */
  lemma ComesToWalk(ports: seq<nat>, w: World, t: World, d: nat, k: nat) returns (u: World, m: nat)
    requires CanReach(ports, w, t) && WellFormed(ports, t) && d in t.procs && k < |ports|
    requires MayReach(ports, t, t.procs[d], k)
    ensures CanReach(ports, w, u) && WellFormed(ports, u) && m <= k && OnlyMoved(t, u, d, Binding(m))
    ensures forall n :: m <= n < k ==> MayReach(ports, t, t.procs[d], n)
  {
    u, m := t, 0;
    match t.procs[d] {
      case Binding(i) =>
        m := i;
      case ProbingTaken(i, _) =>
        assert NoneServes(ports, t, i, k + 1) && !HostAt(ports, t, i);
        u := Looks(ports, w, t, d, Answered(Dead));
        m := i + 1;
      case Scanning(i, _) =>
        u := ScansOn(ports, w, t, d, i);
      case _ =>
    }
  }

  lemma ScansOn(ports: seq<nat>, w: World, t: World, d: nat, i: nat) returns (u: World)
    requires CanReach(ports, w, t) && WellFormed(ports, t) && NoneServes(ports, t, i, |ports|)
    requires d in t.procs && t.procs[d].Scanning? && t.procs[d].i == i
    ensures CanReach(ports, w, u) && WellFormed(ports, u) && OnlyMoved(t, u, d, Binding(0))
  {
    assert !HostAt(ports, t, i);
    u := Looks(ports, w, t, d, Answered(Dead));
    SameGround(ports, t, u);
    u := ScansToTheEnd(ports, w, u, d, i + 1);
  }

  /** If all it passes is taken, it comes to bind there. */
  lemma Comes(ports: seq<nat>, w: World, t: World, d: nat, k: nat) returns (u: World)
    requires CanReach(ports, w, t) && WellFormed(ports, t) && d in t.procs && k < |ports|
    requires MayReach(ports, t, t.procs[d], k)
    requires forall n :: 0 <= n < k && MayReach(ports, t, t.procs[d], n) ==> Blocked(ports, t, n)
    ensures CanReach(ports, w, u) && WellFormed(ports, u) && OnlyMoved(t, u, d, Binding(k))
  {
    var m;
    u, m := ComesToWalk(ports, w, t, d, k);
    SameGround(ports, t, u);
    u := StepsOver(ports, w, u, d, m, k);
  }

  lemma ReleaseLeavesTheRest(ports: seq<nat>, w: World, k: nat)
    requires Different(ports) && WellFormed(ports, w) && k < |ports| && !HostAt(ports, w, k)
    requires Enabled(ports, w, Release(Local(ports[k])))
    ensures var t := Apply(ports, w, Release(Local(ports[k])));
            && WellFormed(ports, t) && CanReach(ports, t, t) && t.procs == w.procs && Local(ports[k]) !in t.at
            && (Leaderless(t) <==> Leaderless(w))
            && (forall a :: a in w.at && Serving(w, a) ==> a in t.at && Serving(t, a) && t.at[a] == w.at[a])
            && (forall n :: 0 <= n < |ports| ==> (HostAt(ports, t, n) <==> HostAt(ports, w, n)))
            && (forall n :: 0 <= n < |ports| && n != k ==> (Blocked(ports, t, n) <==> Blocked(ports, w, n)))
  {
    var t := Apply(ports, w, Release(Local(ports[k])));
    StepKeepsWellFormed(ports, w, Release(Local(ports[k])));
    Stay(ports, t);
    assert forall a :: a in w.at && Serving(w, a) ==> a in t.at && Serving(t, a);
    assert forall a :: a in t.at && Serving(t, a) ==> a in w.at && Serving(w, a);
  }

  /** A contender at the bind of one free port, and a newcomer to another. */
  lemma TwoBind(ports: seq<nat>, u: World, v: World, c: nat, i: nat, k: nat, d: nat) returns (t: World)
    requires CanReach(ports, u, v) && WellFormed(ports, v) && Leaderless(v) && k < i < |ports| && ports[k] != ports[i]
    requires c in v.procs && v.procs[c] == Binding(i) && d !in v.procs
    requires Local(ports[i]) !in v.at && Local(ports[k]) !in v.at
    requires forall n :: 0 <= n < k ==> Blocked(ports, v, n)
    ensures CanReach(ports, u, t) && Split(t, c, d, ports[i], ports[k])
  {
    forall n | 0 <= n < k ensures Local(ports[n]) in v.at {
      assert Blocked(ports, v, n);
    }
    t := NewcomerComes(ports, u, v, d, k);
    t := TwoLead(ports, u, t, c, i, k, d);
  }

  lemma TwoLead(ports: seq<nat>, u: World, v: World, c: nat, i: nat, k: nat, d: nat) returns (t: World)
    requires CanReach(ports, u, v) && WellFormed(ports, v) && k < i < |ports| && ports[k] != ports[i] && c != d
    requires c in v.procs && v.procs[c] == Binding(i) && d in v.procs && v.procs[d] == Binding(k)
    requires Local(ports[i]) !in v.at && Local(ports[k]) !in v.at
    ensures CanReach(ports, u, t) && Split(t, c, d, ports[i], ports[k])
  {
    t := BindsAndLeads(ports, u, v, d, k);
    t := BindsAndLeads(ports, u, t, c, i);
  }

  /** Without a leader: once a contender on its way to the first free port has stepped past
      `ports[k]`, that port coming free is enough for a newcomer and the contender to lead two hosts
      of one checkout. */
  lemma ReleaseBehindAContenderSplits(ports: seq<nat>, w: World, c: nat, m: nat, i: nat, k: nat, d: nat)
    returns (t: World)
    requires Different(ports) && WellFormed(ports, w) && Leaderless(w) && k < m <= i < |ports|
    requires c in w.procs && BindsNext(w.procs[c], m) && d !in w.procs
    requires (forall n :: 0 <= n < i ==> Blocked(ports, w, n)) && Local(ports[i]) !in w.at
    requires Enabled(ports, w, Release(Local(ports[k])))
    ensures CanReach(ports, Apply(ports, w, Release(Local(ports[k]))), t) && Split(t, c, d, ports[i], ports[k])
  {
    var u := Apply(ports, w, Release(Local(ports[k])));
    ReleaseLeavesTheRest(ports, w, k);
    assert forall n :: 0 <= n < i && n != k ==> Blocked(ports, u, n);
    t := ComesToBind(ports, u, u, c, m);
    SameGround(ports, u, t);
    t := StepsOver(ports, u, t, c, m, i);
    SameGround(ports, u, t);
    t := TwoBind(ports, u, t, c, i, k, d);
  }

  lemma OneMoreLeads(ports: seq<nat>, u: World, c: nat, d: nat, k: nat) returns (t: World)
    requires CanReach(ports, u, u) && WellFormed(ports, u) && k < |ports| && Local(ports[k]) !in u.at
    requires LeadsNow(u, c) && d in u.procs && MayReach(ports, u, u.procs[d], k)
    requires forall n :: 0 <= n < k && MayReach(ports, u, u.procs[d], n) ==> Blocked(ports, u, n)
    ensures CanReach(ports, u, t) && Split(t, c, d, u.procs[c].outcome.port, ports[k])
  {
    t := Comes(ports, u, u, d, k);
    t := BindsAndLeads(ports, u, t, d, k);
  }

  /** With a leader: any contender that may still come to bind at `ports[k]`, scanning past the leader,
      in front of the port or probing one in front of it, takes it as soon as it comes free, while
      the leader goes on serving. */
  lemma ReleaseBeforeALeaderSplits(ports: seq<nat>, w: World, c: nat, k: nat, d: nat) returns (t: World)
    requires Different(ports) && Kept(ports, w) && k < |ports| && LeadsNow(w, c)
    requires d in w.procs && MayReach(ports, w, w.procs[d], k)
    requires Enabled(ports, w, Release(Local(ports[k])))
    ensures CanReach(ports, Apply(ports, w, Release(Local(ports[k]))), t)
    ensures Split(t, c, d, w.procs[c].outcome.port, ports[k])
  {
    var u := Apply(ports, w, Release(Local(ports[k])));
    assert Placed(ports, w, w.procs[d]) && !Leaderless(w);
    assert Blocked(ports, w, k);
    ReleaseLeavesTheRest(ports, w, k);
    forall n | 0 <= n < k && MayReach(ports, u, u.procs[d], n) ensures Blocked(ports, u, n) {
      SameHostsSameReach(ports, w, u, w.procs[d], n);
    }
    SameHostsSameReach(ports, w, u, w.procs[d], k);
    t := OneMoreLeads(ports, u, c, d, k);
  }

  /** And why no port may come free once somebody was told that there is none, if nobody is to be
      turned away before there is a leader: a newcomer leads from it. */
  lemma ReleaseBehindAnExhaustedContender(ports: seq<nat>, w: World, c: nat, k: nat, d: nat) returns (t: World)
    requires Different(ports) && WellFormed(ports, w) && Leaderless(w) && k < |ports|
    requires c in w.procs && w.procs[c] == Finished(PortsExhausted) && d !in w.procs
    requires forall n :: 0 <= n < |ports| ==> Local(ports[n]) in w.at
    requires Enabled(ports, w, Release(Local(ports[k])))
    ensures CanReach(ports, Apply(ports, w, Release(Local(ports[k]))), t) && LeadsNow(t, d) && !OneLeader(t)
  {
    var u := Apply(ports, w, Release(Local(ports[k])));
    assert !HostAt(ports, w, k);
    ReleaseLeavesTheRest(ports, w, k);
    t := NewcomerComes(ports, u, u, d, k);
    t := BindsAndLeads(ports, u, t, d, k);
    assert t.procs[c] == Finished(PortsExhausted) && Local(ports[k]) in t.at;
  }
}
