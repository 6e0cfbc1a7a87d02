/** Leader election for one checkout (crates/mandala-context/src/lib.rs): what one contender
    does with what it sees, and how any number of contenders share the loopback ports. */
module Election {
  import opened Wrappers

  /** Where a probe may be sent. A discovery url can name any endpoint at all. */
  datatype Addr = Local(port: nat) | Elsewhere(endpoint: nat)

  /** What one classified handshake says about the listener. */
  datatype Probe = OurLeader | TokenMismatch | Foreign | Dead | Busy

  datatype Outcome =
    | Leader(port: nat)
    | Follower(addr: Addr)
    | Io
    | PortsExhausted
    | TokenUnavailable
    | LeaderBusy

  /** Where a contender stands in `acquire`. Indices count along the port sequence; `attempt`
      counts handshakes against one busy endpoint and `polls` reads of the discovery file. */
  datatype Phase =
    | Begin
    | ProbingDiscovery(addr: Addr, attempt: nat)
    | Scanning(i: nat, attempt: nat)
    | Binding(i: nat)
    | ProbingTaken(i: nat, attempt: nat)
    | Refreshing(addr: Addr, polls: nat)
    | Publishing(i: nat)
    | Finished(outcome: Outcome)

  /** Everything the environment can tell a contender, one value per atomic interaction. */
  datatype Obs =
    | DiscoveryRead(found: Option<Addr>)
    | Answered(probe: Probe)
    | BindOk
    | BindInUse
    | BindFailed
    | Written(ok: bool)
    | Polled(joined: bool)
    | WindowClosed

  const BUSY_PROBE_ATTEMPTS: nat := 3
  /** The two-second race window in polls of fifty milliseconds. */
  const TOKEN_RACE_POLLS: nat := 40

  function ScanFrom(ports: seq<nat>, i: nat): Phase {
    if i < |ports| then Scanning(i, 1) else BindFrom(ports, 0)
  }

  function BindFrom(ports: seq<nat>, i: nat): Phase {
    if i < |ports| then Binding(i) else Finished(PortsExhausted)
  }

  /** The four arms every probe ends in: join, give up, poll for a token, or step on. */
  function Settle(p: Probe, addr: Addr, onward: Phase): Phase {
    match p
    case OurLeader => Finished(Follower(addr))
    case Busy => Finished(LeaderBusy)
    case TokenMismatch => Refreshing(addr, 0)
    case Foreign => onward
    case Dead => onward
  }

  predicate Retries(p: Probe, attempt: nat) {
    p == Busy && attempt < BUSY_PROBE_ATTEMPTS
  }

  /** One contender's reaction; `None` when the observation does not belong to the phase. */
  function React(ports: seq<nat>, ph: Phase, o: Obs): Option<Phase> {
    match (ph, o)
    case (Begin, DiscoveryRead(found)) =>
      Some(if found.Some? then ProbingDiscovery(found.value, 1) else ScanFrom(ports, 0))
    case (ProbingDiscovery(a, n), Answered(p)) =>
      Some(if Retries(p, n) then ProbingDiscovery(a, n + 1) else Settle(p, a, ScanFrom(ports, 0)))
    case (Scanning(i, n), Answered(p)) =>
      if i >= |ports| then None
      else Some(if Retries(p, n) then Scanning(i, n + 1)
                else Settle(p, Local(ports[i]), ScanFrom(ports, i + 1)))
    case (Binding(i), BindOk) => if i < |ports| then Some(Publishing(i)) else None
    case (Binding(i), BindInUse) => if i < |ports| then Some(ProbingTaken(i, 1)) else None
    case (Binding(i), BindFailed) => Some(Finished(Io))
    case (ProbingTaken(i, n), Answered(p)) =>
      if i >= |ports| then None
      else Some(if Retries(p, n) then ProbingTaken(i, n + 1)
                else Settle(p, Local(ports[i]), BindFrom(ports, i + 1)))
    case (Refreshing(a, k), Polled(joined)) =>
      if k >= TOKEN_RACE_POLLS then None
      else Some(if joined then Finished(Follower(a)) else Refreshing(a, k + 1))
    case (Refreshing(a, k), WindowClosed) => Some(Finished(TokenUnavailable))
    case (Publishing(i), Written(ok)) =>
      if i < |ports| then Some(Finished(if ok then Leader(ports[i]) else Io)) else None
    case _ => None
  }

  /** An upper bound on the interactions a contender still has ahead of it. */
  function Remaining(n: nat, ph: Phase): nat {
    var race := TOKEN_RACE_POLLS + 2;
    match ph
    case Begin => 7 * n + race + 9
    case ProbingDiscovery(_, k) => 7 * n + race + 8 - (if k < 4 then k else 4)
    case Scanning(i, k) => (if i < n then 3 * (n - i) else 0) + 4 * n + race + 4 - (if k < 4 then k else 4)
    case Binding(i) => (if i < n then 4 * (n - i) else 0) + race
    case ProbingTaken(i, k) => (if i < n then 4 * (n - i) else 0) + race - (if k < 4 then k else 4)
    case Refreshing(_, k) => 1 + (if k < TOKEN_RACE_POLLS then TOKEN_RACE_POLLS - k else 0)
    case Publishing(_) => 1
    case Finished(_) => 0
  }

  /** `acquire` always comes to an end: each interaction uses up the bound. */
  lemma EveryInteractionMakesProgress(ports: seq<nat>, ph: Phase, o: Obs)
    requires React(ports, ph, o).Some?
    requires ph.ProbingDiscovery? || ph.Scanning? || ph.ProbingTaken? ==> 1 <= ph.attempt <= BUSY_PROBE_ATTEMPTS
    ensures Remaining(|ports|, React(ports, ph, o).value) < Remaining(|ports|, ph)
    ensures var next := React(ports, ph, o).value;
            next.ProbingDiscovery? || next.Scanning? || next.ProbingTaken? ==> 1 <= next.attempt <= BUSY_PROBE_ATTEMPTS
  {
    match ph
    case Scanning(i, k) => assert Remaining(|ports|, ph) == 3 * (|ports| - i) + 4 * |ports| + TOKEN_RACE_POLLS + 6 - k;
    case ProbingTaken(i, k) =>
    case _ =>
  }

  // ---- the shared world ----

  /** Who holds an address; an address absent from the map is unbound. */
  datatype Occupant = Squatter | Host(leader: nat)

  /** Contenders are numbered; nothing bounds how many arrive. `refusing` are the hosts that
      already drop new connections before the hello. */
  datatype World = World(at: map<Addr, Occupant>, refusing: set<Addr>, procs: map<nat, Phase>)

  datatype Action =
    | Sense(c: nat, o: Obs)
    | Arrive(c: nat)
    | Die(c: nat)
    | Squat(addr: Addr)
    | Release(addr: Addr)
    | Refuse(addr: Addr)

  function Target(ports: seq<nat>, ph: Phase): Option<Addr> {
    match ph
    case ProbingDiscovery(a, _) => Some(a)
    case Refreshing(a, _) => Some(a)
    case Scanning(i, _) => if i < |ports| then Some(Local(ports[i])) else None
    case Binding(i) => if i < |ports| then Some(Local(ports[i])) else None
    case ProbingTaken(i, _) => if i < |ports| then Some(Local(ports[i])) else None
    case Publishing(i) => if i < |ports| then Some(Local(ports[i])) else None
    case _ => None
  }

  predicate Serving(w: World, a: Addr) {
    a in w.at && w.at[a].Host? && a !in w.refusing
  }

  /** A serving host answers as itself or times out; anything else may do all but claim our flake. */
  predicate MayAnswer(w: World, a: Addr, p: Probe) {
    if Serving(w, a) then p in {OurLeader, TokenMismatch, Busy}
    else if a in w.at then p in {Foreign, Dead, Busy}
    else p in {Dead, Busy}
  }

  /** What the world lets a contender see. Discovery reads are unconstrained. */
  predicate MaySee(ports: seq<nat>, w: World, ph: Phase, o: Obs) {
    var target := Target(ports, ph);
    match o
    case Answered(p) => target.Some? && MayAnswer(w, target.value, p)
    case BindOk => target.Some? && target.value !in w.at
    case BindInUse => target.Some? && target.value in w.at
    case Polled(joined) => target.Some? && (joined ==> Serving(w, target.value))
    case _ => true
  }

  /** The listener at the address belongs to a contender that has not returned yet. */
  predicate StillPublishing(w: World, addr: Addr) {
    && addr in w.at && w.at[addr].Host? && w.at[addr].leader in w.procs
    && w.procs[w.at[addr].leader].Publishing?
  }

  /** A contender may die anywhere on its way. A host leaves, or starts to refuse, only after its
      leader has returned. */
  predicate Enabled(ports: seq<nat>, w: World, a: Action) {
    match a
    case Sense(c, o) => c in w.procs && React(ports, w.procs[c], o).Some? && MaySee(ports, w, w.procs[c], o)
    case Arrive(c) => c !in w.procs
    case Squat(addr) => addr !in w.at
    case Die(c) => c in w.procs && !w.procs[c].Finished?
    case Release(addr) => addr in w.at && !StillPublishing(w, addr)
    case Refuse(addr) => addr in w.at && w.at[addr].Host? && !StillPublishing(w, addr)
  }

  /** The world without a listener at the address. */
  function Without(w: World, addr: Addr): World {
    w.(at := w.at - {addr}, refusing := w.refusing - {addr})
  }

  /** The address a step gives back. */
  function GivenBack(ports: seq<nat>, w: World, a: Action): Option<Addr>
    requires Enabled(ports, w, a)
  {
    match a
    case Release(addr) => Some(addr)
    case Sense(c, Written(false)) => Target(ports, w.procs[c])
    case Die(c) => if w.procs[c].Publishing? then Target(ports, w.procs[c]) else None
    case _ => None
  }

  /** The bind takes the port; a host whose discovery write failed, or whose contender dies before
      it has returned, goes with its port. */
  function Apply(ports: seq<nat>, w: World, a: Action): World
    requires Enabled(ports, w, a)
  {
    var gone := GivenBack(ports, w, a);
    var left := if gone.Some? then Without(w, gone.value) else w;
    match a
    case Sense(c, o) =>
      var at := if o.BindOk? then left.at[Target(ports, w.procs[c]).value := Host(c)] else left.at;
      left.(at := at, procs := w.procs[c := React(ports, w.procs[c], o).value])
    case Arrive(c) => w.(procs := w.procs[c := Begin])
    case Die(c) => left.(procs := w.procs - {c})
    case Squat(addr) => w.(at := w.at[addr := Squatter])
    case Release(addr) => left
    case Refuse(addr) => w.(refusing := w.refusing + {addr})
  }

  /** `t` is what the actions lead to from `w`. */
  predicate Run(ports: seq<nat>, w: World, acts: seq<Action>, t: World)
    decreases |acts|
  {
    if acts == [] then w == t
    else Enabled(ports, w, acts[0]) && Run(ports, Apply(ports, w, acts[0]), acts[1..], t)
  }

  /** No contender has arrived and no context serves yet; anything may squat anywhere. */
  predicate Fresh(w: World) {
    w.procs == map[] && w.refusing == {} && forall a :: a in w.at ==> w.at[a] == Squatter
  }

  predicate Leads(w: World, c: nat) {
    c in w.procs && w.procs[c].Finished? && w.procs[c].outcome.Leader?
  }
}
