/** The session of one process (crates/mandala-context/src/fleet.rs): one role behind a lock,
    any number of callers, and the retry discipline across leader failover. */
module Session {
  import opened Wrappers

  // ---- one caller ----

  /** Where an attempt executes: in this process's own host or over one client connection. */
  datatype Exec = OnHost(host: nat) | OnClient(client: nat)

  datatype CallResult =
    | Value
    | ToolError
    | Failover(retried: bool, promoted: bool)
    | AcquireFailed
    | SessionClosed

  /** `again` is set in the retry and keeps whether the re-race promoted this process. */
  datatype Phase =
    | Entering
    | Trying(exec: Exec, again: Option<bool>)
    | Racing(stale: nat)
    | Reraced(promoted: bool)
    | Returned(result: CallResult)

  datatype Rerace = Promoted | Reconnected | RoleClosed | RaceFailed

  datatype Obs =
    | Snapped(exec: Option<Exec>)
    | Answered(ok: bool)
    | Lost
    | Reacquired(outcome: Rerace)

  /** One caller's reaction; `None` when the observation does not belong to the phase. */
  function React(idempotent: bool, ph: Phase, o: Obs): Option<Phase> {
    match (ph, o)
    case (Entering, Snapped(e)) => Some(if e.Some? then Trying(e.value, None) else Returned(SessionClosed))
    case (Trying(_, _), Answered(ok)) => Some(Returned(if ok then Value else ToolError))
    case (Trying(OnClient(c), again), Lost) =>
      Some(if again.Some? then Returned(Failover(true, again.value)) else Racing(c))
    case (Racing(_), Reacquired(RoleClosed)) => Some(Returned(SessionClosed))
    case (Racing(_), Reacquired(RaceFailed)) => Some(Returned(AcquireFailed))
    case (Racing(_), Reacquired(r)) =>
      Some(if idempotent then Reraced(r == Promoted) else Returned(Failover(false, r == Promoted)))
    case (Reraced(p), Snapped(e)) => Some(if e.Some? then Trying(e.value, Some(p)) else Returned(SessionClosed))
    case _ => None
  }

  // ---- the session ----

  datatype Role = Leader(host: nat) | Follower(client: nat) | Closed

  /** One attempt of a call. `made` names the one invocation it led to: the id minted on its
      connection, or the entry in this process's own log of dispatches. */
  datatype Attempt = Attempt(exec: Exec, made: Option<nat>)

  datatype Caller = Caller(idempotent: bool, phase: Phase, attempts: seq<Attempt>)

  /** A successful acquisition that replaced the connection `stale`. */
  datatype Race = Race(stale: nat, next: Role)

  /** `clients` and `hosts` are every connection and every host this session has held, `dead`
      the connections known to be lost. */
  datatype Session = Session(
    role: Role, clients: set<nat>, hosts: set<nat>, dead: set<nat>, races: seq<Race>, callers: map<nat, Caller>)

  datatype Action =
    | Enter(k: nat, idempotent: bool)
    | Step(k: nat, o: Obs)
    | Rerace(k: nat, next: Option<Role>)
    | Resubscribe(stale: nat, next: Option<Role>)
    | Make(k: nat, n: nat)
    | Die(client: nat)
    | Shutdown

  function View(r: Role): Option<Exec> {
    match r
    case Leader(h) => Some(OnHost(h))
    case Follower(c) => Some(OnClient(c))
    case Closed => None
  }

  /** What an acquisition may come to: a new host of our own or a connection never used before. */
  predicate Acquirable(s: Session, next: Option<Role>) {
    next.Some? ==>
      match next.value
      case Leader(h) => h !in s.hosts
      case Follower(c) => c !in s.clients
      case Closed => false
  }

  /** `reacquire`, under the lock: only the holder of the session's present connection races. */
  function Reacquire(s: Session, stale: nat, next: Option<Role>): (Session, Rerace) {
    match s.role
    case Leader(_) => (s, Promoted)
    case Closed => (s, RoleClosed)
    case Follower(c) =>
      if c != stale then (s, Reconnected)
      else match next
        case None => (s, RaceFailed)
        case Some(Leader(h)) =>
          (s.(role := Leader(h), hosts := s.hosts + {h}, races := s.races + [Race(stale, Leader(h))]), Promoted)
        case Some(Follower(d)) =>
          (s.(role := Follower(d), clients := s.clients + {d},
              races := s.races + [Race(stale, Follower(d))]), Reconnected)
        case Some(Closed) => (s, RaceFailed)
  }

  predicate LastMade(c: Caller) {
    c.attempts != [] && c.attempts[|c.attempts| - 1].made.Some?
  }

  predicate MaySee(s: Session, c: Caller, o: Obs) {
    match o
    case Snapped(e) => e == View(s.role)
    case Answered(_) => LastMade(c)
    case Lost => LastMade(c) && c.phase.Trying? && c.phase.exec.OnClient? && c.phase.exec.client in s.dead
    case Reacquired(_) => false
  }

  predicate Enabled(s: Session, a: Action) {
    match a
    case Enter(k, _) => k !in s.callers
    case Step(k, o) =>
      k in s.callers && React(s.callers[k].idempotent, s.callers[k].phase, o).Some? && MaySee(s, s.callers[k], o)
    case Rerace(k, next) => k in s.callers && s.callers[k].phase.Racing? && Acquirable(s, next)
    case Resubscribe(stale, next) => stale in s.clients && Acquirable(s, next)
    case Make(k, _) => k in s.callers && s.callers[k].phase.Trying?
      && s.callers[k].attempts != [] && !LastMade(s.callers[k])
    case Die(c) => c in s.clients
    case Shutdown => true
  }

  function Advance(c: Caller, o: Obs): Caller
    requires React(c.idempotent, c.phase, o).Some?
  {
    c.(phase := React(c.idempotent, c.phase, o).value,
       attempts := if o.Snapped? && o.exec.Some? then c.attempts + [Attempt(o.exec.value, None)] else c.attempts)
  }

  function Apply(s: Session, a: Action): Session
    requires Enabled(s, a)
  {
    match a
    case Enter(k, idem) => s.(callers := s.callers[k := Caller(idem, Entering, [])])
    case Step(k, o) => s.(callers := s.callers[k := Advance(s.callers[k], o)])
    case Rerace(k, next) =>
      var (t, r) := Reacquire(s, s.callers[k].phase.stale, next);
      t.(callers := s.callers[k := Advance(s.callers[k], Reacquired(r))])
    case Resubscribe(stale, next) => Reacquire(s, stale, next).0
    case Make(k, n) =>
      var c := s.callers[k];
      var last := |c.attempts| - 1;
      s.(callers := s.callers[k := c.(attempts := c.attempts[last := c.attempts[last].(made := Some(n))])])
    case Die(c) => s.(dead := s.dead + {c})
    case Shutdown => s.(role := Closed)
  }

  /** A session as its constructor leaves it: already leading, or following its first connection. */
  predicate Initial(s: Session) {
    && s.callers == map[] && s.races == [] && s.dead == {}
    && match s.role
       case Leader(h) => s.hosts == {h} && s.clients == {}
       case Follower(c) => s.hosts == {} && s.clients == {c}
       case Closed => false
  }

  predicate Run(s: Session, acts: seq<Action>, t: Session)
    decreases |acts|
  {
    if acts == [] then s == t else Enabled(s, acts[0]) && Run(Apply(s, acts[0]), acts[1..], t)
  }

  // ---- attempts ----

  /** How many attempts a caller has behind it, phase by phase. */
  predicate Disciplined(c: Caller) {
    var n := |c.attempts|;
    match c.phase
    case Entering => n == 0
    case Trying(e, again) => n == (if again.Some? then 2 else 1)
      && c.attempts[n - 1].exec == e && (n == 2 ==> c.idempotent)
    case Racing(_) => n == 1
    case Reraced(_) => n == 1 && c.idempotent
    case Returned(Failover(retried, _)) => n == (if retried then 2 else 1) && (retried <==> c.idempotent)
    case Returned(Value) => 1 <= n <= (if c.idempotent then 2 else 1) && LastMade(c)
    case Returned(ToolError) => 1 <= n <= (if c.idempotent then 2 else 1) && LastMade(c)
    case Returned(AcquireFailed) => n == 1
    case Returned(SessionClosed) => n <= 1
  }

  predicate AllDisciplined(s: Session) {
    forall k :: k in s.callers ==> Disciplined(s.callers[k])
  }

  lemma StepKeepsDiscipline(s: Session, a: Action)
    requires AllDisciplined(s) && Enabled(s, a)
    ensures AllDisciplined(Apply(s, a))
  {
    if a.Rerace? {
      assert Disciplined(s.callers[a.k]);
    }
  }

  lemma {:induction false} RunKeepsDiscipline(s: Session, acts: seq<Action>, t: Session)
    requires AllDisciplined(s) && Run(s, acts, t)
    ensures AllDisciplined(t)
    decreases |acts|
  {
    if acts != [] {
      StepKeepsDiscipline(s, acts[0]);
      RunKeepsDiscipline(Apply(s, acts[0]), acts[1..], t);
    }
  }

  /** Whatever dies, promotes or shuts down, a mutation is attempted at most once and an
      idempotent call at most twice. A failover error says which it was: every idempotent call that
      ends in one was retried, and no mutation was. */
  lemma AttemptsAreBounded(s: Session, acts: seq<Action>, t: Session, k: nat)
    requires Initial(s) && Run(s, acts, t) && k in t.callers
    ensures var c := t.callers[k];
            && |c.attempts| <= (if c.idempotent then 2 else 1)
            && (c.phase.Returned? && c.phase.result.Failover? ==>
                  (c.phase.result.retried <==> c.idempotent) && |c.attempts| == if c.idempotent then 2 else 1)
            && (c.phase == Returned(Value) || c.phase == Returned(ToolError) ==> LastMade(c))
  {
    RunKeepsDiscipline(s, acts, t);
  }

  /** Once a call has returned, a tool's own error included, it is never tried again. */
  lemma {:induction false} ReturnedCallsAreNotRetried(s: Session, acts: seq<Action>, t: Session, k: nat)
    requires Run(s, acts, t) && k in s.callers && s.callers[k].phase.Returned?
    ensures k in t.callers && t.callers[k].phase == s.callers[k].phase
    ensures |t.callers[k].attempts| == |s.callers[k].attempts|
    decreases |acts|
  {
    if acts != [] {
      ReturnedCallsAreNotRetried(Apply(s, acts[0]), acts[1..], t, k);
    }
  }

  // ---- the role ----

  predicate Forward(from: Role, to: Role) {
    match from
    case Leader(_) => to == from || to == Closed
    case Closed => to == Closed
    case Follower(_) => true
  }

  /** A leader stays the leader it is or closes, a closed session stays closed, and neither ever
      acquires again: no later step adds an acquisition. */
  lemma {:induction false} RoleOnlyMovesForward(s: Session, acts: seq<Action>, t: Session)
    requires Run(s, acts, t)
    ensures Forward(s.role, t.role)
    ensures !s.role.Follower? ==> t.races == s.races && t.hosts == s.hosts && t.clients == s.clients
    ensures s.races <= t.races
    decreases |acts|
  {
    if acts != [] {
      RoleOnlyMovesForward(Apply(s, acts[0]), acts[1..], t);
    }
  }

  /** Every acquisition replaced a different connection, the session's present one has replaced
      none, and a session that follows has never led. */
  predicate RolesOk(s: Session) {
    && (forall i, j :: 0 <= i < j < |s.races| ==> s.races[i].stale != s.races[j].stale)
    && (forall i :: 0 <= i < |s.races| ==> s.races[i].stale in s.clients && s.races[i].next != Closed)
    && (s.role.Follower? ==>
          && s.role.client in s.clients && s.hosts == {}
          && forall i :: 0 <= i < |s.races| ==> s.races[i].stale != s.role.client && s.races[i].next.Follower?)
    && (s.role.Leader? ==> s.hosts == {s.role.host})
    && (forall i :: 0 <= i < |s.races| && s.races[i].next.Leader? ==>
          i == |s.races| - 1 && s.hosts == {s.races[i].next.host})
    && (forall g, h :: g in s.hosts && h in s.hosts ==> g == h)
  }

  lemma ReacquireKeepsRoles(s: Session, stale: nat, next: Option<Role>)
    requires RolesOk(s) && Acquirable(s, next)
    ensures RolesOk(Reacquire(s, stale, next).0)
  {
  }

  lemma StepKeepsRoles(s: Session, a: Action)
    requires RolesOk(s) && Enabled(s, a)
    ensures RolesOk(Apply(s, a))
  {
    match a
    case Rerace(k, next) => ReacquireKeepsRoles(s, s.callers[k].phase.stale, next);
    case Resubscribe(stale, next) => ReacquireKeepsRoles(s, stale, next);
    case _ =>
  }

  lemma {:induction false} RunKeepsRoles(s: Session, acts: seq<Action>, t: Session)
    requires RolesOk(s) && Run(s, acts, t)
    ensures RolesOk(t)
    decreases |acts|
  {
    if acts != [] {
      StepKeepsRoles(s, acts[0]);
      RunKeepsRoles(Apply(s, acts[0]), acts[1..], t);
    }
  }

  /** However many callers and subscriptions lost one connection, it is replaced at most once;
      a session leads at most once in its life, and only after every connection it ever took,
      so it never follows a host of its own. */
  lemma OneAcquisitionPerLostClient(s: Session, acts: seq<Action>, t: Session)
    requires Initial(s) && Run(s, acts, t)
    ensures forall i, j :: 0 <= i < j < |t.races| ==> t.races[i].stale != t.races[j].stale
    ensures forall g, h :: g in t.hosts && h in t.hosts ==> g == h
    ensures t.role.Follower? ==> t.hosts == {}
    ensures forall i :: 0 <= i < |t.races| && t.races[i].next.Leader? ==> i == |t.races| - 1
    ensures s.role.Leader? ==> t.races == []
  {
    RunKeepsRoles(s, acts, t);
    RoleOnlyMovesForward(s, acts, t);
  }

  /** A failover that reports a promotion tells the truth: this process has led. */
  lemma PromotedMeansLed(s: Session, acts: seq<Action>, t: Session, k: nat)
    requires Initial(s) && Run(s, acts, t) && k in t.callers
    requires t.callers[k].phase.Returned? && t.callers[k].phase.result.Failover? && t.callers[k].phase.result.promoted
    ensures t.hosts != {}
  {
    HonestRun(s, acts, t);
  }

  /** Every caller that has been told of a promotion belongs to a session that has led. */
  predicate Honest(s: Session) {
    && (s.role.Leader? ==> s.hosts != {})
    && forall k :: k in s.callers && Told(s.callers[k].phase) ==> s.hosts != {}
  }

  predicate Told(ph: Phase) {
    match ph
    case Trying(_, Some(p)) => p
    case Reraced(p) => p
    case Returned(Failover(_, p)) => p
    case _ => false
  }

  lemma {:induction false} HonestRun(s: Session, acts: seq<Action>, t: Session)
    requires Honest(s) && Run(s, acts, t)
    ensures Honest(t)
    decreases |acts|
  {
    if acts != [] {
      HonestStep(s, acts[0]);
      HonestRun(Apply(s, acts[0]), acts[1..], t);
    }
  }

  lemma HonestStep(s: Session, a: Action)
    requires Honest(s) && Enabled(s, a)
    ensures Honest(Apply(s, a))
  {
    if a.Step? || a.Rerace? {
      assert Told(s.callers[a.k].phase) ==> s.hosts != {};
    }
  }
}
