/** A session over real connections: the callers of module Session, each remote attempt one minted
    call on one connection of module Multiplex, each local attempt one entry in this process's log.
    What is executed, anywhere, on behalf of a call (crates/mandala-context/src/fleet.rs). */
module Fleet {
  import opened Wrappers
  import opened Protocol
  import Client
  import Multiplex
  import Session

  /** One connection of one host. */
  datatype Site = Site(host: nat, conn: nat)

  datatype Want = Want(tool: string, args: string)

  /** One in-process dispatch: whose attempt it served, what it ran, how it ended. */
  datatype Local = Local(caller: nat, i: nat, want: Want, ok: bool)

  /** `nets` are the leaders' endpoints with all their clients, `sites` where each connection of
      this session sits, `wants` what each caller asked for. */
  datatype World = World(
    nets: map<nat, Multiplex.Net>, session: Session.Session, wants: map<nat, Want>, sites: map<nat, Site>,
    locals: seq<Local>)

  datatype Action =
    | Open(h: nat)
    | AtNet(h: nat, move: Multiplex.Action)
    | Locate(client: nat, site: Site)
    | Ask(k: nat, idempotent: bool, want: Want)
    | AtSession(act: Session.Action)
    | Issue(k: nat)
    | RunHere(k: nat, ok: bool)

  predicate HasAttempt(w: World, k: nat, i: nat) {
    k in w.session.callers && i < |w.session.callers[k].attempts|
  }

  function AttemptAt(w: World, k: nat, i: nat): Session.Attempt
    requires HasAttempt(w, k, i)
  {
    w.session.callers[k].attempts[i]
  }

  predicate Placed(w: World, client: nat) {
    client in w.sites && w.sites[client].host in w.nets && w.sites[client].conn in w.nets[w.sites[client].host].clients
  }

  /** The client end of one of this session's connections. */
  function ClientEnd(w: World, client: nat): Client.Client
    requires Placed(w, client)
  {
    w.nets[w.sites[client].host].clients[w.sites[client].conn]
  }

  /** What the attempt's own invocation, and nothing else, lets its caller see. */
  predicate Told(w: World, a: Session.Attempt, o: Session.Obs) {
    a.made.Some?
    && match a.exec
       case OnHost(_) => a.made.value < |w.locals| && o == Session.Answered(w.locals[a.made.value].ok)
       case OnClient(client) =>
         && Placed(w, client) && a.made.value in ClientEnd(w, client).calls
         && ClientEnd(w, client).calls[a.made.value].phase.Returned?
         && o == Reported(ClientEnd(w, client).calls[a.made.value].phase.reply)
  }

  function Reported(r: Client.Reply): Session.Obs {
    match r
    case Answer(o) => Session.Answered(o.Success?)
    case ConnectionLost => Session.Lost
  }

  function LastAttempt(w: World, k: nat): Session.Attempt
    requires k in w.session.callers && w.session.callers[k].attempts != []
  {
    var attempts := w.session.callers[k].attempts;
    attempts[|attempts| - 1]
  }

  predicate Enabled(w: World, a: Action) {
    match a
    case Open(h) => h !in w.nets
    case AtNet(h, move) => h in w.nets && Multiplex.Enabled(w.nets[h], move)
    case Locate(client, site) =>
      && client !in w.sites && site !in w.sites.Values
      && site.host in w.nets && site.conn in w.nets[site.host].clients
    case Ask(k, idempotent, _) => k !in w.wants && Session.Enabled(w.session, Session.Enter(k, idempotent))
    case AtSession(act) =>
      && Session.Enabled(w.session, act) && !act.Make? && !act.Enter?
      && (act.Step? && (act.o.Answered? || act.o.Lost?) ==>
            w.session.callers[act.k].attempts != [] && Told(w, LastAttempt(w, act.k), act.o))
    case Issue(k) =>
      && Session.Enabled(w.session, Session.Make(k, 0)) && k in w.wants
      && LastAttempt(w, k).exec.OnClient? && Placed(w, LastAttempt(w, k).exec.client)
      && var site := w.sites[LastAttempt(w, k).exec.client];
         Multiplex.Enabled(w.nets[site.host], Multiplex.AtClient(site.conn, Mints(w.wants[k])))
    case RunHere(k, _) =>
      Session.Enabled(w.session, Session.Make(k, 0)) && k in w.wants && LastAttempt(w, k).exec.OnHost?
  }

  function Mints(want: Want): Client.Action {
    Client.Mint(want.tool, want.args)
  }

  function Apply(w: World, a: Action): World
    requires Enabled(w, a)
  {
    match a
    case Open(h) => w.(nets := w.nets[h := Multiplex.Start()])
    case AtNet(h, move) => w.(nets := w.nets[h := Multiplex.Apply(w.nets[h], move)])
    case Locate(client, site) => w.(sites := w.sites[client := site])
    case Ask(k, idempotent, want) =>
      w.(wants := w.wants[k := want], session := Session.Apply(w.session, Session.Enter(k, idempotent)))
    case AtSession(act) => w.(session := Session.Apply(w.session, act))
    case Issue(k) =>
      var client := LastAttempt(w, k).exec.client;
      var site := w.sites[client];
      w.(nets := w.nets[site.host :=
                       Multiplex.Apply(w.nets[site.host], Multiplex.AtClient(site.conn, Mints(w.wants[k])))],
         session := Session.Apply(w.session, Session.Make(k, ClientEnd(w, client).nextId)))
    case RunHere(k, ok) =>
      w.(locals := w.locals + [Local(k, |w.session.callers[k].attempts| - 1, w.wants[k], ok)],
         session := Session.Apply(w.session, Session.Make(k, |w.locals|)))
  }

  predicate Run(w: World, acts: seq<Action>, v: World)
    decreases |acts|
  {
    if acts == [] then w == v else Enabled(w, acts[0]) && Run(Apply(w, acts[0]), acts[1..], v)
  }

  /** A session just acquired; no call has been made and no leader's endpoint is open yet. */
  predicate Initial(w: World) {
    w.nets == map[] && w.wants == map[] && w.sites == map[] && w.locals == [] && Session.Initial(w.session)
  }

  // ---- what every run keeps ----

  ghost predicate NetsOk(w: World) {
    forall h :: h in w.nets ==> Multiplex.Reached(w.nets[h])
  }

  predicate SitesOk(w: World) {
    && (forall c :: c in w.sites ==> Placed(w, c))
    && (forall c, d :: c in w.sites && d in w.sites && c != d ==> w.sites[c] != w.sites[d])
  }

  /** The attempt's minted call exists on its connection and asks for what the caller wants. */
  predicate Issued(w: World, a: Session.Attempt, want: Want) {
    && a.exec.OnClient? && a.made.Some? && Placed(w, a.exec.client)
    && a.made.value in ClientEnd(w, a.exec.client).calls
    && ClientEnd(w, a.exec.client).calls[a.made.value].tool == want.tool
    && ClientEnd(w, a.exec.client).calls[a.made.value].args == want.args
  }

  predicate Logged(w: World, k: nat, i: nat, a: Session.Attempt, want: Want) {
    && a.exec.OnHost? && a.made.Some? && a.made.value < |w.locals|
    && var entry := w.locals[a.made.value]; entry.caller == k && entry.i == i && entry.want == want
  }

  predicate MadeOk(w: World, k: nat, i: nat)
    requires HasAttempt(w, k, i)
  {
    AttemptAt(w, k, i).made.Some? ==>
      && k in w.wants
      && (Issued(w, AttemptAt(w, k, i), w.wants[k]) || Logged(w, k, i, AttemptAt(w, k, i), w.wants[k]))
  }

  predicate LocalOk(w: World, n: nat)
    requires n < |w.locals|
  {
    var entry := w.locals[n];
    HasAttempt(w, entry.caller, entry.i) && AttemptAt(w, entry.caller, entry.i).exec.OnHost?
    && AttemptAt(w, entry.caller, entry.i).made == Some(n)
  }

  /** Two attempts made over one connection have minted different ids. */
  predicate Apart(w: World, k: nat, i: nat, l: nat, j: nat)
    requires HasAttempt(w, k, i) && HasAttempt(w, l, j)
  {
    var a, b := AttemptAt(w, k, i), AttemptAt(w, l, j);
    a.exec.OnClient? && b.exec == a.exec && a.made.Some? && b.made == a.made ==> k == l && i == j
  }

  predicate HasAnswer(c: Session.Caller) {
    c.phase == Session.Returned(Session.Value) || c.phase == Session.Returned(Session.ToolError)
  }

  function AnswerOf(c: Session.Caller): Session.Obs {
    Session.Answered(c.phase == Session.Returned(Session.Value))
  }

  predicate AnswerOk(w: World, c: Session.Caller) {
    HasAnswer(c) ==> c.attempts != [] && Told(w, c.attempts[|c.attempts| - 1], AnswerOf(c))
  }

  ghost predicate Inv(w: World) {
    && NetsOk(w) && SitesOk(w) && Session.AllDisciplined(w.session)
    && (forall k, i :: HasAttempt(w, k, i) ==> MadeOk(w, k, i))
    && (forall n :: 0 <= n < |w.locals| ==> LocalOk(w, n))
    && (forall k, i, l, j :: HasAttempt(w, k, i) && HasAttempt(w, l, j) ==> Apart(w, k, i, l, j))
    && (forall k :: k in w.session.callers ==> AnswerOk(w, w.session.callers[k]))
  }

  // ---- what is executed on behalf of a call ----

  /** A dispatch by some host, or one in this process. */
  datatype Execution = ByHost(host: nat, ticket: nat) | InProcess(entry: nat)

  /** The execution was caused by attempt `i` of call `k`: it is a ticket of the call that attempt
      minted on its connection, or an entry logged for it. */
  predicate Serves(w: World, e: Execution, k: nat, i: nat) {
    HasAttempt(w, k, i)
    && var a := AttemptAt(w, k, i);
       match e
       case ByHost(h, t) =>
         && a.exec.OnClient? && a.made.Some? && a.exec.client in w.sites && w.sites[a.exec.client].host == h
         && h in w.nets && t in w.nets[h].host.calls
         && w.nets[h].host.calls[t].conn == w.sites[a.exec.client].conn
         && w.nets[h].host.calls[t].frame.id == a.made.value
       case InProcess(n) => n < |w.locals| && w.locals[n].caller == k && w.locals[n].i == i
  }

  function ByHosts(w: World): set<Execution> {
    set h, t | h in w.nets && t in w.nets[h].host.calls :: ByHost(h, t)
  }

  function InProcesses(w: World): set<Execution> {
    set n | 0 <= n < |w.locals| :: InProcess(n)
  }

  /** Everything any host, or this process, has executed on behalf of the call's first `n` attempts. */
  function ExecutionsUpTo(w: World, k: nat, n: nat): set<Execution> {
    set e | e in ByHosts(w) + InProcesses(w) && exists i :: 0 <= i < n && Serves(w, e, k, i)
  }

  function Executions(w: World, k: nat): set<Execution>
    requires k in w.session.callers
  {
    ExecutionsUpTo(w, k, |w.session.callers[k].attempts|)
  }

  // ---- steps ----

  /** Calls are never forgotten, keep what they ask for, and a returned one keeps its reply. */
  predicate KeepsCalls(k: Client.Client, l: Client.Client) {
    forall id :: id in k.calls ==>
      && id in l.calls && l.calls[id].tool == k.calls[id].tool && l.calls[id].args == k.calls[id].args
      && (k.calls[id].phase.Returned? ==> l.calls[id].phase == k.calls[id].phase)
  }

  lemma ClientKeepsCalls(k: Client.Client, a: Client.Action)
    requires Client.Inv(k) && Client.Enabled(k, a)
    ensures KeepsCalls(k, Client.Apply(k, a))
  {
    forall id | id in k.calls
      ensures var l := Client.Apply(k, a);
              && id in l.calls && l.calls[id].tool == k.calls[id].tool && l.calls[id].args == k.calls[id].args
              && (k.calls[id].phase.Returned? ==> l.calls[id].phase == k.calls[id].phase)
    {
      Client.StepKeepsSettlement(k, a, id);
    }
  }

  lemma NetKeepsCalls(n: Multiplex.Net, a: Multiplex.Action, c: nat)
    requires Multiplex.Enabled(n, a) && c in n.clients && Client.Inv(n.clients[c])
    ensures c in Multiplex.Apply(n, a).clients && KeepsCalls(n.clients[c], Multiplex.Apply(n, a).clients[c])
  {
    match a
    case AtClient(d, move) => if d == c { ClientKeepsCalls(n.clients[c], move); }
    case Flush(d) => if d == c { ClientKeepsCalls(n.clients[c], Client.Flush); }
    case Hear(d) => if d == c { ClientKeepsCalls(n.clients[c], Client.Receive(Multiplex.NextFrame(n, c))); }
    case _ =>
  }

  lemma NetKeepsClients(n: Multiplex.Net, a: Multiplex.Action, c: nat)
    requires Multiplex.Enabled(n, a) && c in n.clients
    ensures c in Multiplex.Apply(n, a).clients
  {
  }

  /** One host's system takes a step; the others stand still. */
  predicate NetStep(w: World, v: World, h: nat, move: Multiplex.Action) {
    h in w.nets && Multiplex.Enabled(w.nets[h], move)
    && v.nets == w.nets[h := Multiplex.Apply(w.nets[h], move)]
  }

  predicate Opens(w: World, v: World, h: nat) {
    h !in w.nets && v.nets == w.nets[h := Multiplex.Start()]
  }

  /** Nothing outside the session's own callers is forgotten. */
  ghost predicate Later(w: World, v: World) {
    && (v.nets == w.nets || (exists h :: Opens(w, v, h)) || exists h, move :: NetStep(w, v, h, move))
    && (forall c :: c in w.sites ==> c in v.sites && v.sites[c] == w.sites[c])
    && (forall k :: k in w.wants ==> k in v.wants && v.wants[k] == w.wants[k])
    && w.locals <= v.locals
  }

  lemma StepIsLater(w: World, a: Action)
    requires Enabled(w, a)
    ensures Later(w, Apply(w, a))
  {
    var v := Apply(w, a);
    if a.Open? {
      assert Opens(w, v, a.h);
    } else if a.AtNet? {
      assert NetStep(w, v, a.h, a.move);
    } else if a.Issue? {
      var site := w.sites[LastAttempt(w, a.k).exec.client];
      assert NetStep(w, v, site.host, Multiplex.AtClient(site.conn, Mints(w.wants[a.k])));
    }
  }

  lemma LaterKeepsNet(w: World, v: World, h: nat)
    requires Later(w, v) && h in w.nets && h in v.nets && Multiplex.Reached(w.nets[h])
    ensures Multiplex.Reached(v.nets[h])
  {
    if v.nets[h] != w.nets[h] {
      var g, move :| NetStep(w, v, g, move);
      Multiplex.StepIsReached(w.nets[h], move);
    }
  }

  lemma NewNetIsStart(w: World, v: World, h: nat)
    requires Later(w, v) && h !in w.nets && h in v.nets
    ensures v.nets[h] == Multiplex.Start()
  {
  }

  lemma LaterKeepsNets(w: World, v: World)
    requires NetsOk(w) && Later(w, v)
    ensures NetsOk(v)
  {
    forall h | h in v.nets ensures Multiplex.Reached(v.nets[h]) {
      if h in w.nets {
        LaterKeepsNet(w, v, h);
      } else {
        NewNetIsStart(w, v, h);
        Multiplex.StartIsReached();
      }
    }
  }

  /** The connection is placed and its client end sound. */
  ghost predicate Sound(w: World, client: nat) {
    Placed(w, client) && Client.Inv(ClientEnd(w, client))
  }

  lemma EndIsSound(w: World, client: nat)
    requires NetsOk(w) && Placed(w, client)
    ensures Sound(w, client)
  {
    Multiplex.ClientIsSound(w.nets[w.sites[client].host], w.sites[client].conn);
  }

  lemma LaterKeepsPlace(w: World, v: World, client: nat)
    requires Later(w, v) && Placed(w, client)
    ensures Placed(v, client)
  {
    var h, c := w.sites[client].host, w.sites[client].conn;
    if v.nets != w.nets && !(exists g :: Opens(w, v, g)) {
      var g, move :| NetStep(w, v, g, move);
      if g == h {
        NetKeepsClients(w.nets[h], move, c);
      }
    }
  }

  /** The client end of a connection keeps its calls through every step. */
  lemma LaterKeepsEnd(w: World, v: World, client: nat)
    requires Later(w, v) && Sound(w, client)
    ensures Placed(v, client) && KeepsCalls(ClientEnd(w, client), ClientEnd(v, client))
  {
    var h, c := w.sites[client].host, w.sites[client].conn;
    LaterKeepsPlace(w, v, client);
    if v.nets[h] != w.nets[h] {
      var g, move :| NetStep(w, v, g, move);
      NetKeepsCalls(w.nets[h], move, c);
    }
  }

  lemma StepKeepsSites(w: World, a: Action)
    requires SitesOk(w) && Enabled(w, a)
    ensures SitesOk(Apply(w, a))
  {
    StepIsLater(w, a);
    var v := Apply(w, a);
    forall c | c in v.sites ensures Placed(v, c) {
      if c in w.sites {
        LaterKeepsPlace(w, v, c);
      }
    }
  }

  lemma StepKeepsDiscipline(w: World, a: Action)
    requires Session.AllDisciplined(w.session) && Enabled(w, a)
    ensures Session.AllDisciplined(Apply(w, a).session)
  {
    match a
    case Ask(k, idempotent, _) => Session.StepKeepsDiscipline(w.session, Session.Enter(k, idempotent));
    case AtSession(act) => Session.StepKeepsDiscipline(w.session, act);
    case Issue(k) =>
      Session.StepKeepsDiscipline(w.session, Session.Make(k, ClientEnd(w, LastAttempt(w, k).exec.client).nextId));
    case RunHere(k, _) => Session.StepKeepsDiscipline(w.session, Session.Make(k, |w.locals|));
    case _ =>
  }

  /** An attempt stays what it was, except that the step may be the one that makes it. */
  lemma StepKeepsAttempt(w: World, a: Action, k: nat, i: nat)
    requires Enabled(w, a) && HasAttempt(w, k, i)
    ensures HasAttempt(Apply(w, a), k, i) && AttemptAt(Apply(w, a), k, i).exec == AttemptAt(w, k, i).exec
    ensures AttemptAt(w, k, i).made.Some? ==> AttemptAt(Apply(w, a), k, i) == AttemptAt(w, k, i)
    ensures AttemptAt(w, k, i).made.None? && AttemptAt(Apply(w, a), k, i).made.Some? ==>
              (a.Issue? || a.RunHere?) && a.k == k && i == |w.session.callers[k].attempts| - 1
  {
  }

  /** A new attempt has made nothing yet. */
  lemma NewAttemptIsUnmade(w: World, a: Action, k: nat, i: nat)
    requires Enabled(w, a) && !HasAttempt(w, k, i) && HasAttempt(Apply(w, a), k, i)
    ensures AttemptAt(Apply(w, a), k, i).made.None?
  {
  }

  /** What an attempt has made stays made. */
  lemma IssuedStays(w: World, v: World, at: Session.Attempt, want: Want)
    requires Later(w, v) && Issued(w, at, want) && Sound(w, at.exec.client)
    ensures Issued(v, at, want)
  {
    LaterKeepsEnd(w, v, at.exec.client);
  }

  lemma MadeStays(w: World, v: World, k: nat, i: nat)
    requires Later(w, v) && HasAttempt(w, k, i) && HasAttempt(v, k, i) && AttemptAt(v, k, i) == AttemptAt(w, k, i)
    requires MadeOk(w, k, i) && NetsOk(w)
    ensures MadeOk(v, k, i)
  {
    var at := AttemptAt(w, k, i);
    if at.made.Some? && Issued(w, at, w.wants[k]) {
      EndIsSound(w, at.exec.client);
      IssuedStays(w, v, at, w.wants[k]);
    }
  }

  /** Exactly one minted call more on the one connection, named in the caller's last attempt. */
  predicate Mints1(w: World, v: World, k: nat, client: nat) {
    && k in w.session.callers && w.session.callers[k].attempts != [] && k in w.wants && k in v.session.callers
    && LastAttempt(w, k) == Session.Attempt(Session.OnClient(client), None)
    && Placed(w, client) && Placed(v, client)
    && var i := |w.session.callers[k].attempts| - 1;
       && |v.session.callers[k].attempts| == i + 1
       && v.session.callers[k].attempts[i]
          == Session.Attempt(Session.OnClient(client), Some(ClientEnd(w, client).nextId))
       && ClientEnd(v, client) == Client.Apply(ClientEnd(w, client), Mints(w.wants[k]))
  }

  lemma IssueMints(w: World, k: nat)
    requires Enabled(w, Issue(k))
    ensures Mints1(w, Apply(w, Issue(k)), k, LastAttempt(w, k).exec.client)
  {
  }

  /** The minted call asks for what the caller wants, and its id is new. */
  lemma MintedIsNew(w: World, v: World, k: nat, client: nat)
    requires Mints1(w, v, k, client) && Sound(w, client)
    ensures Issued(v, LastAttempt(v, k), w.wants[k])
    ensures ClientEnd(w, client).nextId !in ClientEnd(w, client).calls
  {
  }

  lemma StepKeepsMade(w: World, a: Action, k: nat, i: nat)
    requires NetsOk(w) && Enabled(w, a) && HasAttempt(Apply(w, a), k, i)
    requires HasAttempt(w, k, i) ==> MadeOk(w, k, i)
    ensures MadeOk(Apply(w, a), k, i)
  {
    var v := Apply(w, a);
    if !HasAttempt(w, k, i) {
      NewAttemptIsUnmade(w, a, k, i);
    } else {
      StepKeepsAttempt(w, a, k, i);
      StepIsLater(w, a);
      if AttemptAt(v, k, i) == AttemptAt(w, k, i) {
        MadeStays(w, v, k, i);
      } else if a.Issue? {
        IssueMints(w, k);
        EndIsSound(w, LastAttempt(w, k).exec.client);
        MintedIsNew(w, v, k, LastAttempt(w, k).exec.client);
      }
    }
  }

  lemma StepKeepsLocal(w: World, a: Action, n: nat)
    requires Enabled(w, a) && n < |Apply(w, a).locals| && (n < |w.locals| ==> LocalOk(w, n))
    ensures LocalOk(Apply(w, a), n)
  {
    if n < |w.locals| {
      StepKeepsAttempt(w, a, w.locals[n].caller, w.locals[n].i);
    }
  }

  lemma FreshIsApart(w: World, v: World, k: nat, i: nat, l: nat, j: nat, client: nat)
    requires Mints1(w, v, k, client) && Sound(w, client) && i == |w.session.callers[k].attempts| - 1
    requires HasAttempt(v, k, i) && HasAttempt(w, l, j) && HasAttempt(v, l, j)
    requires AttemptAt(v, l, j) == AttemptAt(w, l, j) && MadeOk(w, l, j)
    ensures Apart(v, k, i, l, j) && Apart(v, l, j, k, i)
  {
    MintedIsNew(w, v, k, client);
    var b := AttemptAt(w, l, j);
    if b.exec == Session.OnClient(client) && b.made.Some? {
      assert Issued(w, b, w.wants[l]);
    }
  }

  lemma IssueIsApart(w: World, v: World, k: nat, i: nat, l: nat, j: nat)
    requires NetsOk(w) && Enabled(w, Issue(k)) && v == Apply(w, Issue(k))
    requires i == |w.session.callers[k].attempts| - 1
    requires HasAttempt(w, l, j) && MadeOk(w, l, j) && AttemptAt(w, l, j).made.Some?
    requires HasAttempt(v, k, i) && HasAttempt(v, l, j)
    ensures Apart(v, k, i, l, j) && Apart(v, l, j, k, i)
  {
    var client := LastAttempt(w, k).exec.client;
    StepKeepsAttempt(w, Issue(k), l, j);
    IssueMints(w, k);
    EndIsSound(w, client);
    FreshIsApart(w, v, k, i, l, j, client);
  }

  /** The step makes attempt `i` of caller `k`. */
  predicate Flips(w: World, v: World, k: nat, i: nat)
    requires HasAttempt(w, k, i) && HasAttempt(v, k, i)
  {
    AttemptAt(w, k, i).made.None? && AttemptAt(v, k, i).made.Some?
  }

  lemma MadeIsNew(w: World, a: Action, k: nat, i: nat, l: nat, j: nat)
    requires NetsOk(w) && Enabled(w, a) && HasAttempt(w, k, i) && HasAttempt(w, l, j) && MadeOk(w, l, j)
    requires HasAttempt(Apply(w, a), k, i) && HasAttempt(Apply(w, a), l, j)
    requires Flips(w, Apply(w, a), k, i) && AttemptAt(w, l, j).made.Some?
    ensures Apart(Apply(w, a), k, i, l, j) && Apart(Apply(w, a), l, j, k, i)
  {
    StepKeepsAttempt(w, a, k, i);
    if a.Issue? {
      IssueIsApart(w, Apply(w, a), k, i, l, j);
    } else {
      assert AttemptAt(w, k, i).exec.OnHost?;
    }
  }

  lemma StepKeepsApart(w: World, a: Action, k: nat, i: nat, l: nat, j: nat)
    requires NetsOk(w) && Enabled(w, a) && HasAttempt(Apply(w, a), k, i) && HasAttempt(Apply(w, a), l, j)
    requires HasAttempt(w, k, i) ==> MadeOk(w, k, i)
    requires HasAttempt(w, l, j) ==> MadeOk(w, l, j)
    requires HasAttempt(w, k, i) && HasAttempt(w, l, j) ==> Apart(w, k, i, l, j)
    ensures Apart(Apply(w, a), k, i, l, j)
  {
    if !HasAttempt(w, k, i) {
      NewAttemptIsUnmade(w, a, k, i);
    } else if !HasAttempt(w, l, j) {
      NewAttemptIsUnmade(w, a, l, j);
    } else {
      StepKeepsAttempt(w, a, k, i);
      StepKeepsAttempt(w, a, l, j);
      if Flips(w, Apply(w, a), k, i) && AttemptAt(w, l, j).made.Some? {
        MadeIsNew(w, a, k, i, l, j);
      } else if Flips(w, Apply(w, a), l, j) && AttemptAt(w, k, i).made.Some? {
        MadeIsNew(w, a, l, j, k, i);
      }
    }
  }

  lemma ToldStays(w: World, v: World, at: Session.Attempt, o: Session.Obs)
    requires Later(w, v) && Told(w, at, o) && (at.exec.OnClient? ==> Sound(w, at.exec.client))
    ensures Told(v, at, o)
  {
    if at.exec.OnClient? {
      LaterKeepsEnd(w, v, at.exec.client);
    }
  }

  /** A caller that has its answer stays as it is. */
  lemma AnsweredStays(w: World, a: Action, k: nat)
    requires Enabled(w, a) && k in w.session.callers && HasAnswer(w.session.callers[k])
    ensures k in Apply(w, a).session.callers && Apply(w, a).session.callers[k] == w.session.callers[k]
  {
  }

  /** A caller gets its answer from its last attempt. */
  lemma AnswerIsTold(w: World, a: Action, k: nat)
    requires Enabled(w, a) && k in Apply(w, a).session.callers && HasAnswer(Apply(w, a).session.callers[k])
    requires k in w.session.callers ==> !HasAnswer(w.session.callers[k])
    ensures k in w.session.callers && w.session.callers[k].attempts != []
    ensures Apply(w, a).session.callers[k].attempts == w.session.callers[k].attempts
    ensures Told(w, LastAttempt(w, k), AnswerOf(Apply(w, a).session.callers[k]))
  {
  }

  lemma StepKeepsAnswer(w: World, a: Action, k: nat)
    requires NetsOk(w) && Enabled(w, a) && k in Apply(w, a).session.callers
    requires k in w.session.callers ==> AnswerOk(w, w.session.callers[k])
    ensures AnswerOk(Apply(w, a), Apply(w, a).session.callers[k])
  {
    var c := Apply(w, a).session.callers[k];
    if HasAnswer(c) {
      if k in w.session.callers && HasAnswer(w.session.callers[k]) {
        AnsweredStays(w, a, k);
      } else {
        AnswerIsTold(w, a, k);
      }
      StepIsLater(w, a);
      var at := LastAttempt(w, k);
      if at.exec.OnClient? {
        EndIsSound(w, at.exec.client);
      }
      ToldStays(w, Apply(w, a), at, AnswerOf(c));
    }
  }

  lemma StepKeepsInv(w: World, a: Action)
    requires Inv(w) && Enabled(w, a)
    ensures Inv(Apply(w, a))
  {
    var v := Apply(w, a);
    StepIsLater(w, a);
    LaterKeepsNets(w, v);
    StepKeepsSites(w, a);
    StepKeepsDiscipline(w, a);
    forall k, i | HasAttempt(v, k, i) ensures MadeOk(v, k, i) {
      StepKeepsMade(w, a, k, i);
    }
    forall n | 0 <= n < |v.locals| ensures LocalOk(v, n) {
      StepKeepsLocal(w, a, n);
    }
    forall k, i, l, j | HasAttempt(v, k, i) && HasAttempt(v, l, j) ensures Apart(v, k, i, l, j) {
      StepKeepsApart(w, a, k, i, l, j);
    }
    forall k | k in v.session.callers ensures AnswerOk(v, v.session.callers[k]) {
      StepKeepsAnswer(w, a, k);
    }
  }

  lemma {:induction false} RunKeepsInv(w: World, acts: seq<Action>, v: World)
    requires Inv(w) && Run(w, acts, v)
    ensures Inv(v)
    decreases |acts|
  {
    if acts != [] {
      StepKeepsInv(w, acts[0]);
      RunKeepsInv(Apply(w, acts[0]), acts[1..], v);
    }
  }

  // ---- at most once ----

  /** One attempt leads to at most one execution anywhere: a host accepts the call it minted once,
      and this process logs it once. */
  lemma OneExecutionPerAttempt(w: World, e: Execution, f: Execution, k: nat, i: nat)
    requires NetsOk(w) && Serves(w, e, k, i) && Serves(w, f, k, i)
    requires e.InProcess? ==> LocalOk(w, e.entry)
    requires f.InProcess? ==> LocalOk(w, f.entry)
    ensures e == f
  {
    if e.ByHost? && f.ByHost? {
      Multiplex.TicketsAreApart(w.nets[e.host], e.ticket, f.ticket);
    }
  }

  /** An execution serves one attempt of one call only. */
  lemma OneAttemptPerExecution(w: World, e: Execution, k: nat, i: nat, l: nat, j: nat)
    requires SitesOk(w) && Serves(w, e, k, i) && Serves(w, e, l, j) && Apart(w, k, i, l, j)
    ensures k == l && i == j
  {
    if e.ByHost? {
      var a, b := AttemptAt(w, k, i), AttemptAt(w, l, j);
      assert w.sites[a.exec.client] == w.sites[b.exec.client];
    }
  }

  predicate SameExecution(w: World, e: Execution, f: Execution, k: nat, i: nat) {
    Serves(w, e, k, i) && Serves(w, f, k, i) ==> e == f
  }

  lemma {:induction false} ExecutionsBounded(w: World, k: nat, n: nat)
    requires forall e, f, i :: SameExecution(w, e, f, k, i)
    ensures |ExecutionsUpTo(w, k, n)| <= n
    decreases n
  {
    if n > 0 {
      ExecutionsBounded(w, k, n - 1);
      var before, all := ExecutionsUpTo(w, k, n - 1), ExecutionsUpTo(w, k, n);
      forall e, f | e in all - before && f in all - before ensures e == f {
        assert Serves(w, e, k, n - 1) && Serves(w, f, k, n - 1) && SameExecution(w, e, f, k, n - 1);
      }
      AtMostOneMore(before, all);
    } else {
      assert ExecutionsUpTo(w, k, 0) == {};
    }
  }

  lemma AtMostOneMore(before: set<Execution>, all: set<Execution>)
    requires forall e, f :: e in all - before && f in all - before ==> e == f
    ensures |all| <= |before| + 1
  {
    var more := all - before;
    if more != {} {
      var e :| e in more;
      assert more == {e};
    }
    Subset(all, before + more);
  }

  lemma Subset(a: set<Execution>, b: set<Execution>)
    requires a <= b
    ensures |a| <= |b|
  {
    assert b == a + (b - a);
  }

  /** Whatever dies, promotes or shuts down, however late a lost attempt still reaches its host, and
      whatever the other clients do: the dispatches of a mutation, by every host there ever was and
      in this process, are at most one, those of an idempotent call at most two. Each ran the tool
      and arguments asked for, and serves no other call. */
  lemma MutationsRunAtMostOnce(w: World, acts: seq<Action>, v: World, k: nat)
    requires Initial(w) && Run(w, acts, v) && k in v.session.callers
    ensures |Executions(v, k)| <= if v.session.callers[k].idempotent then 2 else 1
    ensures forall e, i, l, j :: Serves(v, e, k, i) && Serves(v, e, l, j) ==> l == k
    ensures forall e, i :: Serves(v, e, k, i) ==> k in v.wants && Ran(v, e, v.wants[k])
  {
    RunKeepsInv(w, acts, v);
    assert Session.Disciplined(v.session.callers[k]);
    forall e, f, i ensures SameExecution(v, e, f, k, i) {
      if Serves(v, e, k, i) && Serves(v, f, k, i) {
        OneExecutionPerAttempt(v, e, f, k, i);
      }
    }
    ExecutionsBounded(v, k, |v.session.callers[k].attempts|);
    forall e, i, l, j | Serves(v, e, k, i) && Serves(v, e, l, j) ensures l == k {
      OneAttemptPerExecution(v, e, k, i, l, j);
    }
    forall e, i | Serves(v, e, k, i) ensures k in v.wants && Ran(v, e, v.wants[k]) {
      ExecutionRanTheWant(v, e, k, i);
    }
  }

  /** What the execution ran. */
  predicate Ran(w: World, e: Execution, want: Want) {
    match e
    case ByHost(h, t) =>
      && h in w.nets && t in w.nets[h].host.calls
      && w.nets[h].host.calls[t].frame.tool == want.tool && w.nets[h].host.calls[t].frame.args == want.args
    case InProcess(n) => n < |w.locals| && w.locals[n].want == want
  }

  lemma ExecutionRanTheWant(w: World, e: Execution, k: nat, i: nat)
    requires NetsOk(w) && Serves(w, e, k, i) && MadeOk(w, k, i) && (e.InProcess? ==> LocalOk(w, e.entry))
    ensures k in w.wants && Ran(w, e, w.wants[k])
  {
    if e.ByHost? {
      Multiplex.TicketIsPosted(w.nets[e.host], e.ticket);
    }
  }

  predicate Succeeded(w: World, e: Execution) {
    match e
    case ByHost(h, t) =>
      h in w.nets && t in w.nets[h].host.calls && w.nets[h].host.calls[t].outcome.Some?
      && w.nets[h].host.calls[t].outcome.value.Success?
    case InProcess(n) => n < |w.locals| && w.locals[n].ok
  }

  /** What an attempt's caller was told as an answer was an execution that ended that way. */
  lemma ToldWasExecuted(w: World, k: nat, i: nat, ok: bool) returns (e: Execution)
    requires NetsOk(w) && HasAttempt(w, k, i) && MadeOk(w, k, i) && Told(w, AttemptAt(w, k, i), Session.Answered(ok))
    ensures Serves(w, e, k, i) && e in Executions(w, k) && (Succeeded(w, e) <==> ok)
  {
    var a := AttemptAt(w, k, i);
    if a.exec.OnHost? {
      e := InProcess(a.made.value);
    } else {
      var site := w.sites[a.exec.client];
      var t := Multiplex.ReturnedWasRun(w.nets[site.host], site.conn, a.made.value);
      e := ByHost(site.host, t);
    }
    assert Serves(w, e, k, i) && e in ByHosts(w) + InProcesses(w);
  }

  lemma AnswerHasExecution(w: World, k: nat) returns (e: Execution)
    requires NetsOk(w) && k in w.session.callers && HasAnswer(w.session.callers[k])
    requires AnswerOk(w, w.session.callers[k]) && forall i :: HasAttempt(w, k, i) ==> MadeOk(w, k, i)
    ensures w.session.callers[k].attempts != []
    ensures Serves(w, e, k, |w.session.callers[k].attempts| - 1) && e in Executions(w, k)
    ensures Succeeded(w, e) <==> w.session.callers[k].phase == Session.Returned(Session.Value)
  {
    var i := |w.session.callers[k].attempts| - 1;
    e := ToldWasExecuted(w, k, i, w.session.callers[k].phase == Session.Returned(Session.Value));
  }

  /** A call that returned a value or a tool's error was executed, by its last attempt, with that
      very end. */
  lemma AnswersWereExecuted(w: World, acts: seq<Action>, v: World, k: nat) returns (e: Execution)
    requires Initial(w) && Run(w, acts, v) && k in v.session.callers && HasAnswer(v.session.callers[k])
    ensures v.session.callers[k].attempts != []
    ensures Serves(v, e, k, |v.session.callers[k].attempts| - 1) && e in Executions(v, k)
    ensures Succeeded(v, e) <==> v.session.callers[k].phase == Session.Returned(Session.Value)
  {
    RunKeepsInv(w, acts, v);
    e := AnswerHasExecution(v, k);
  }
}
