/** `acquire` as the program runs it, tied to the contender of module Election, and what its result
    says about the answers it got. */
module Acquire {
  import opened Wrappers
  import opened Election

  /** One answer and whom it came from. */
  datatype Fact =
    | Found(discovery: Option<Addr>)
    | Probed(addr: Addr, probe: Probe)
    | Tried(port: nat, o: Obs)
    | Wrote(ok: bool)
    | Asked(addr: Addr, joined: bool)
    | DeadlinePassed

  /** Everything outside the process: the discovery file, the listeners and the kernel. It may
      answer anything; `seen` records what it answered, `log` also whom it was asked about. */
  class Surroundings {
    ghost var seen: seq<Obs>
    ghost var log: seq<Fact>

    constructor ()
      ensures seen == [] && log == []
    {
      seen, log := [], [];
    }

    method ReadDiscovery() returns (found: Option<Addr>)
      modifies this
      ensures seen == old(seen) + [DiscoveryRead(found)] && log == old(log) + [Found(found)]
    {
      found := *;
      seen, log := seen + [DiscoveryRead(found)], log + [Found(found)];
    }

    method Connect(addr: Addr) returns (p: Probe)
      modifies this
      ensures seen == old(seen) + [Answered(p)] && log == old(log) + [Probed(addr, p)]
    {
      p := *;
      seen, log := seen + [Answered(p)], log + [Probed(addr, p)];
    }

    method Bind(port: nat) returns (o: Obs)
      modifies this
      ensures o in {BindOk, BindInUse, BindFailed}
      ensures seen == old(seen) + [o] && log == old(log) + [Tried(port, o)]
    {
      var a, b := *, *;
      o := if a then BindOk else if b then BindInUse else BindFailed;
      seen, log := seen + [o], log + [Tried(port, o)];
    }

    method WriteDiscovery() returns (ok: bool)
      modifies this
      ensures seen == old(seen) + [Written(ok)] && log == old(log) + [Wrote(ok)]
    {
      ok := *;
      seen, log := seen + [Written(ok)], log + [Wrote(ok)];
    }

    method Poll(addr: Addr) returns (joined: bool)
      modifies this
      ensures seen == old(seen) + [Polled(joined)] && log == old(log) + [Asked(addr, joined)]
    {
      joined := *;
      seen, log := seen + [Polled(joined)], log + [Asked(addr, joined)];
    }

    /** Whether the deadline is still ahead; it never is after `TOKEN_RACE_POLLS` polls. */
    method BeforeDeadline(polls: nat) returns (open: bool)
      modifies this
      ensures open ==> polls < TOKEN_RACE_POLLS && seen == old(seen) && log == old(log)
      ensures !open ==> seen == old(seen) + [WindowClosed] && log == old(log) + [DeadlinePassed]
    {
      open := *;
      if polls >= TOKEN_RACE_POLLS {
        open := false;
      }
      if !open {
        seen, log := seen + [WindowClosed], log + [DeadlinePassed];
      }
    }
  }

  /** Where a contender stands after a history, if that history can happen to it at all. */
  ghost function Follow(ports: seq<nat>, history: seq<Obs>): Option<Phase>
    decreases |history|
  {
    if history == [] then Some(Begin)
    else
      var before := Follow(ports, history[..|history| - 1]);
      if before.None? then None else React(ports, before.value, history[|history| - 1])
  }

  lemma FollowOne(ports: seq<nat>, history: seq<Obs>, o: Obs)
    requires Follow(ports, history).Some?
    ensures Follow(ports, history + [o]) == React(ports, Follow(ports, history).value, o)
  {
    assert (history + [o])[..|history + [o]| - 1] == history;
  }

  /** No answers can keep `acquire` busy for longer than this many interactions. */
  lemma {:induction false} HistoriesAreBounded(ports: seq<nat>, history: seq<Obs>)
    requires Follow(ports, history).Some?
    ensures var ph := Follow(ports, history).value;
            && |history| + Remaining(|ports|, ph) <= 7 * |ports| + TOKEN_RACE_POLLS + 11
            && (ph.ProbingDiscovery? || ph.Scanning? || ph.ProbingTaken? ==> 1 <= ph.attempt <= BUSY_PROBE_ATTEMPTS)
    decreases |history|
  {
    if history != [] {
      var before := history[..|history| - 1];
      HistoriesAreBounded(ports, before);
      EveryInteractionMakesProgress(ports, Follow(ports, before).value, history[|history| - 1]);
    }
  }

  // ---- what an acquisition looks like from outside ----

  /** One retried handshake: up to three connections to one address, all but the last timed out. */
  predicate Handshake(addr: Addr, facts: seq<Fact>, p: Probe) {
    && 1 <= |facts| <= 3 && facts[|facts| - 1] == Probed(addr, p)
    && (forall k :: 0 <= k < |facts| - 1 ==> facts[k] == Probed(addr, Busy))
    && (p == Busy ==> |facts| == 3)
  }

  /** The handshake says that this is not our leader's address. */
  predicate Passed(addr: Addr, facts: seq<Fact>) {
    Handshake(addr, facts, Foreign) || Handshake(addr, facts, Dead)
  }

  /** Polls of one leader for a fresh token, all but the last in vain. */
  predicate Joining(addr: Addr, facts: seq<Fact>, out: Outcome) {
    && 1 <= |facts| <= 41
    && (forall k :: 0 <= k < |facts| - 1 ==> facts[k] == Asked(addr, false))
    && ((facts[|facts| - 1] == Asked(addr, true) && out == Follower(addr))
        || (facts[|facts| - 1] == DeadlinePassed && out == TokenUnavailable))
  }

  predicate JoiningAfter(addr: Addr, facts: seq<Fact>, k: nat, out: Outcome) {
    k <= |facts| && Handshake(addr, facts[..k], TokenMismatch) && Joining(addr, facts[k..], out)
  }

  /** The handshake with this address decides the acquisition. */
  predicate Decided(addr: Addr, facts: seq<Fact>, out: Outcome) {
    || (Handshake(addr, facts, OurLeader) && out == Follower(addr))
    || (Handshake(addr, facts, Busy) && out == LeaderBusy)
    || exists k: nat :: k <= |facts| && JoiningAfter(addr, facts, k, out)
  }

  /** The discovery file, and the endpoint it names. */
  predicate Discovered(facts: seq<Fact>, out: Option<Outcome>) {
    && facts != [] && facts[0].Found?
    && match facts[0].discovery
       case None => |facts| == 1 && out.None?
       case Some(a) => if out.None? then Passed(a, facts[1..]) else Decided(a, facts[1..], out.value)
  }

  /** The first `n` ports were probed in order, and none is our leader's. */
  predicate ScannedTo(ports: seq<nat>, n: nat, facts: seq<Fact>)
    requires n <= |ports|
    decreases n, 1
  {
    if n == 0 then facts == []
    else exists k: nat :: k <= |facts| && ScanCut(ports, n, facts, k)
  }

  predicate ScanCut(ports: seq<nat>, n: nat, facts: seq<Fact>, k: nat)
    requires 0 < n <= |ports| && k <= |facts|
    decreases n, 0
  {
    ScannedTo(ports, n - 1, facts[..k]) && Passed(Local(ports[n - 1]), facts[k..])
  }

  predicate Scanned(ports: seq<nat>, facts: seq<Fact>, out: Option<Outcome>) {
    if out.None? then ScannedTo(ports, |ports|, facts)
    else exists n: nat, k: nat :: n < |ports| && k <= |facts| && ScanEnds(ports, n, k, facts, out.value)
  }

  predicate ScanEnds(ports: seq<nat>, n: nat, k: nat, facts: seq<Fact>, out: Outcome)
    requires n < |ports| && k <= |facts|
  {
    ScannedTo(ports, n, facts[..k]) && Decided(Local(ports[n]), facts[k..], out)
  }

  /** The first `n` ports were tried in order; each was taken, by somebody who is not our leader. */
  predicate TakenTo(ports: seq<nat>, n: nat, facts: seq<Fact>)
    requires n <= |ports|
    decreases n, 1
  {
    if n == 0 then facts == []
    else exists k: nat :: k < |facts| && TakenCut(ports, n, facts, k)
  }

  predicate TakenCut(ports: seq<nat>, n: nat, facts: seq<Fact>, k: nat)
    requires 0 < n <= |ports| && k < |facts|
    decreases n, 0
  {
    && TakenTo(ports, n - 1, facts[..k])
    && facts[k] == Tried(ports[n - 1], BindInUse) && Passed(Local(ports[n - 1]), facts[k + 1..])
  }

  /** What this bind comes to decides the acquisition. */
  predicate BindEnds(port: nat, facts: seq<Fact>, out: Outcome) {
    || (facts == [Tried(port, BindOk), Wrote(true)] && out == Leader(port))
    || (facts == [Tried(port, BindOk), Wrote(false)] && out == Io)
    || (facts == [Tried(port, BindFailed)] && out == Io)
    || (facts != [] && facts[0] == Tried(port, BindInUse) && Decided(Local(port), facts[1..], out))
  }

  predicate Raced(ports: seq<nat>, facts: seq<Fact>, out: Outcome) {
    || (out == PortsExhausted && TakenTo(ports, |ports|, facts))
    || exists n: nat, k: nat :: n < |ports| && k <= |facts| && RaceEnds(ports, n, k, facts, out)
  }

  predicate RaceEnds(ports: seq<nat>, n: nat, k: nat, facts: seq<Fact>, out: Outcome)
    requires n < |ports| && k <= |facts|
  {
    TakenTo(ports, n, facts[..k]) && BindEnds(ports[n], facts[k..], out)
  }

  /** The whole record: discovery up to `i`, the scan up to `j`, then the race for a port. */
  predicate Transcript(ports: seq<nat>, log: seq<Fact>, i: nat, j: nat, out: Outcome) {
    && i <= j <= |log|
    && ((i == j == |log| && Discovered(log, Some(out)))
        || (j == |log| && Discovered(log[..i], None) && Scanned(ports, log[i..], Some(out)))
        || (Discovered(log[..i], None) && Scanned(ports, log[i..j], None) && Raced(ports, log[j..], out)))
  }

  // ---- the program ----

  /** The probing phase a handshake loop is in, at its `n`-th attempt. */
  datatype Site = AtDiscovery(addr: Addr) | AtScan(i: nat) | AtTaken(i: nat)

  function Probing(site: Site, n: nat): Phase {
    match site
    case AtDiscovery(a) => ProbingDiscovery(a, n)
    case AtScan(i) => Scanning(i, n)
    case AtTaken(i) => ProbingTaken(i, n)
  }

  function SiteAddr(ports: seq<nat>, site: Site): Addr
    requires !site.AtDiscovery? ==> site.i < |ports|
  {
    match site
    case AtDiscovery(a) => a
    case AtScan(i) => Local(ports[i])
    case AtTaken(i) => Local(ports[i])
  }

  function Onward(ports: seq<nat>, site: Site): Phase {
    match site
    case AtDiscovery(_) => ScanFrom(ports, 0)
    case AtScan(i) => ScanFrom(ports, i + 1)
    case AtTaken(i) => BindFrom(ports, i + 1)
  }

  method ProbeWithBusyRetry(env: Surroundings, ports: seq<nat>, site: Site)
    returns (p: Probe, ghost facts: seq<Fact>)
    requires !site.AtDiscovery? ==> site.i < |ports|
    requires Follow(ports, env.seen) == Some(Probing(site, 1))
    modifies env
    ensures Follow(ports, env.seen) == Some(Settle(p, SiteAddr(ports, site), Onward(ports, site)))
    ensures env.log == old(env.log) + facts && Handshake(SiteAddr(ports, site), facts, p)
  {
    var addr := SiteAddr(ports, site);
    facts := [];
    for attempt := 1 to BUSY_PROBE_ATTEMPTS
      invariant Follow(ports, env.seen) == Some(Probing(site, attempt))
      invariant env.log == old(env.log) + facts && |facts| == attempt - 1
      invariant forall k :: 0 <= k < |facts| ==> facts[k] == Probed(addr, Busy)
    {
      ghost var before := env.seen;
      p := env.Connect(addr);
      FollowOne(ports, before, Answered(p));
      facts := facts + [Probed(addr, p)];
      if p != Busy {
        return;
      }
    }
    ghost var before := env.seen;
    p := env.Connect(addr);
    FollowOne(ports, before, Answered(p));
    facts := facts + [Probed(addr, p)];
  }

  method JoinWithRefreshedToken(env: Surroundings, ports: seq<nat>, addr: Addr)
    returns (out: Outcome, ghost facts: seq<Fact>)
    requires Follow(ports, env.seen) == Some(Refreshing(addr, 0))
    modifies env
    ensures Follow(ports, env.seen) == Some(Finished(out))
    ensures env.log == old(env.log) + facts && Joining(addr, facts, out)
  {
    var polls := 0;
    facts := [];
    while true
      invariant polls <= TOKEN_RACE_POLLS
      invariant Follow(ports, env.seen) == Some(Refreshing(addr, polls))
      invariant env.log == old(env.log) + facts && |facts| == polls
      invariant forall k :: 0 <= k < |facts| ==> facts[k] == Asked(addr, false)
      decreases TOKEN_RACE_POLLS - polls
    {
      ghost var before := env.seen;
      var open := env.BeforeDeadline(polls);
      if !open {
        FollowOne(ports, before, WindowClosed);
        return TokenUnavailable, facts + [DeadlinePassed];
      }
      var joined := env.Poll(addr);
      FollowOne(ports, before, Polled(joined));
      facts := facts + [Asked(addr, joined)];
      if joined {
        return Follower(addr), facts;
      }
      polls := polls + 1;
    }
  }

  lemma CutBetween(addr: Addr, a: seq<Fact>, b: seq<Fact>, out: Outcome)
    requires Handshake(addr, a, TokenMismatch) && Joining(addr, b, out)
    ensures Decided(addr, a + b, out)
  {
    assert (a + b)[..|a|] == a && (a + b)[|a|..] == b;
    assert JoiningAfter(addr, a + b, |a|, out);
  }

  lemma HandshakeConcludes(addr: Addr, facts: seq<Fact>, p: Probe)
    requires Handshake(addr, facts, p)
    ensures p == OurLeader ==> Decided(addr, facts, Follower(addr))
    ensures p == Busy ==> Decided(addr, facts, LeaderBusy)
    ensures p in {Foreign, Dead} ==> Passed(addr, facts)
  {
  }

  /** The early returns of one probe: join, poll for a token, or give up. */
  method Conclude(env: Surroundings, ports: seq<nat>, site: Site)
    returns (out: Option<Outcome>, ghost facts: seq<Fact>)
    requires !site.AtDiscovery? ==> site.i < |ports|
    requires Follow(ports, env.seen) == Some(Probing(site, 1))
    modifies env
    ensures out.Some? ==> Follow(ports, env.seen) == Some(Finished(out.value))
    ensures out.None? ==> Follow(ports, env.seen) == Some(Onward(ports, site))
    ensures env.log == old(env.log) + facts
    ensures if out.None? then Passed(SiteAddr(ports, site), facts)
            else Decided(SiteAddr(ports, site), facts, out.value)
  {
    var p;
    p, facts := ProbeWithBusyRetry(env, ports, site);
    HandshakeConcludes(SiteAddr(ports, site), facts, p);
    match p {
      case OurLeader => return Some(Follower(SiteAddr(ports, site))), facts;
      case Busy => return Some(LeaderBusy), facts;
      case TokenMismatch =>
        var o;
        o, facts := AskForAToken(env, ports, SiteAddr(ports, site), old(env.log), facts);
        return Some(o), facts;
      case _ => return None, facts;
    }
  }

  /** Our own leader rejected the token: poll for a fresh one. */
  method AskForAToken(env: Surroundings, ports: seq<nat>, addr: Addr, ghost before: seq<Fact>, ghost shook: seq<Fact>)
    returns (out: Outcome, ghost facts: seq<Fact>)
    requires Follow(ports, env.seen) == Some(Refreshing(addr, 0))
    requires env.log == before + shook && Handshake(addr, shook, TokenMismatch)
    modifies env
    ensures Follow(ports, env.seen) == Some(Finished(out))
    ensures env.log == before + facts && Decided(addr, facts, out)
  {
    ghost var polls;
    out, polls := JoinWithRefreshedToken(env, ports, addr);
    CutBetween(addr, shook, polls, out);
    Regroup(before, shook, polls);
    facts := shook + polls;
  }

  /** The discovery url is authoritative: it is probed before anything else. */
  method TryDiscovery(env: Surroundings, ports: seq<nat>) returns (out: Option<Outcome>, ghost facts: seq<Fact>)
    requires env.seen == []
    modifies env
    ensures out.Some? ==> Follow(ports, env.seen) == Some(Finished(out.value))
    ensures out.None? ==> Follow(ports, env.seen) == Some(ScanFrom(ports, 0))
    ensures env.log == old(env.log) + facts && Discovered(facts, out)
  {
    ghost var before := env.seen;
    var existing := env.ReadDiscovery();
    FollowOne(ports, before, DiscoveryRead(existing));
    facts := [Found(existing)];
    if existing.None? {
      return None, facts;
    }
    ghost var more;
    out, more := Conclude(env, ports, AtDiscovery(existing.value));
    facts := facts + more;
    assert facts[1..] == more;
  }

  lemma ScanGoesOn(ports: seq<nat>, i: nat, facts: seq<Fact>, more: seq<Fact>)
    requires i < |ports| && ScannedTo(ports, i, facts) && Passed(Local(ports[i]), more)
    ensures ScannedTo(ports, i + 1, facts + more)
  {
    assert (facts + more)[..|facts|] == facts && (facts + more)[|facts|..] == more;
    assert ScanCut(ports, i + 1, facts + more, |facts|);
  }

  lemma ScanComesToAnEnd(ports: seq<nat>, i: nat, facts: seq<Fact>, more: seq<Fact>, out: Outcome)
    requires i < |ports| && ScannedTo(ports, i, facts) && Decided(Local(ports[i]), more, out)
    ensures Scanned(ports, facts + more, Some(out))
  {
    assert (facts + more)[..|facts|] == facts && (facts + more)[|facts|..] == more;
    assert ScanEnds(ports, i, |facts|, facts + more, out);
  }

  method ScanTurn(env: Surroundings, ports: seq<nat>, i: nat, ghost start: seq<Fact>, ghost facts: seq<Fact>)
    returns (out: Option<Outcome>, ghost next: seq<Fact>)
    requires i < |ports| && Follow(ports, env.seen) == Some(ScanFrom(ports, i))
    requires env.log == start + facts && ScannedTo(ports, i, facts)
    modifies env
    ensures out.Some? ==> Follow(ports, env.seen) == Some(Finished(out.value))
    ensures out.None? ==> Follow(ports, env.seen) == Some(ScanFrom(ports, i + 1))
    ensures env.log == start + next
    ensures if out.None? then ScannedTo(ports, i + 1, next) else Scanned(ports, next, out)
  {
    ghost var more;
    out, more := Conclude(env, ports, AtScan(i));
    next := facts + more;
    Regroup(start, facts, more);
    if out.Some? {
      ScanComesToAnEnd(ports, i, facts, more, out.value);
    } else {
      ScanGoesOn(ports, i, facts, more);
    }
  }

  lemma Regroup(a: seq<Fact>, b: seq<Fact>, c: seq<Fact>)
    ensures (a + b) + c == a + (b + c)
  {
  }

  /** The whole range is inspected before anything is bound. */
  method ScanPorts(env: Surroundings, ports: seq<nat>) returns (out: Option<Outcome>, ghost facts: seq<Fact>)
    requires Follow(ports, env.seen) == Some(ScanFrom(ports, 0))
    modifies env
    ensures out.Some? ==> Follow(ports, env.seen) == Some(Finished(out.value))
    ensures out.None? ==> Follow(ports, env.seen) == Some(BindFrom(ports, 0))
    ensures env.log == old(env.log) + facts && Scanned(ports, facts, out)
  {
    facts := [];
    for i := 0 to |ports|
      invariant Follow(ports, env.seen) == Some(ScanFrom(ports, i))
      invariant env.log == old(env.log) + facts && ScannedTo(ports, i, facts)
    {
      out, facts := ScanTurn(env, ports, i, old(env.log), facts);
      if out.Some? {
        return;
      }
    }
    out := None;
  }

  /** The leader writes the discovery file; without it there is no leader. */
  method Publish(env: Surroundings, ports: seq<nat>, i: nat) returns (out: Outcome)
    requires i < |ports| && Follow(ports, env.seen) == Some(Publishing(i))
    modifies env
    ensures Follow(ports, env.seen) == Some(Finished(out))
    ensures out == (if out.Leader? then Leader(ports[i]) else Io) && env.log == old(env.log) + [Wrote(out.Leader?)]
  {
    ghost var before := env.seen;
    var written := env.WriteDiscovery();
    FollowOne(ports, before, Written(written));
    return if written then Leader(ports[i]) else Io;
  }

  /** One port of the race: bind it and publish, or see who holds it. */
  method TryPort(env: Surroundings, ports: seq<nat>, i: nat) returns (out: Option<Outcome>, ghost facts: seq<Fact>)
    requires i < |ports| && Follow(ports, env.seen) == Some(Binding(i))
    modifies env
    ensures out.Some? ==> Follow(ports, env.seen) == Some(Finished(out.value))
    ensures out.None? ==> Follow(ports, env.seen) == Some(BindFrom(ports, i + 1))
    ensures env.log == old(env.log) + facts
    ensures out.Some? ==> BindEnds(ports[i], facts, out.value)
    ensures out.None? ==>
              facts != [] && facts[0] == Tried(ports[i], BindInUse) && Passed(Local(ports[i]), facts[1..])
  {
    ghost var before := env.seen;
    var bound := env.Bind(ports[i]);
    FollowOne(ports, before, bound);
    if bound == BindOk {
      var o := Publish(env, ports, i);
      BoundEnds(ports[i], o);
      return Some(o), [Tried(ports[i], bound), Wrote(o.Leader?)];
    } else if bound == BindFailed {
      return Some(Io), [Tried(ports[i], bound)];
    }
    out, facts := SeeWhoHolds(env, ports, i, old(env.log));
  }

  /** The port is taken: join whoever holds it, give up, or step on. */
  method SeeWhoHolds(env: Surroundings, ports: seq<nat>, i: nat, ghost before: seq<Fact>)
    returns (out: Option<Outcome>, ghost facts: seq<Fact>)
    requires i < |ports| && Follow(ports, env.seen) == Some(ProbingTaken(i, 1))
    requires env.log == before + [Tried(ports[i], BindInUse)]
    modifies env
    ensures out.Some? ==> Follow(ports, env.seen) == Some(Finished(out.value))
    ensures out.None? ==> Follow(ports, env.seen) == Some(BindFrom(ports, i + 1))
    ensures env.log == before + facts
    ensures out.Some? ==> BindEnds(ports[i], facts, out.value)
    ensures out.None? ==>
              facts != [] && facts[0] == Tried(ports[i], BindInUse) && Passed(Local(ports[i]), facts[1..])
  {
    ghost var more;
    out, more := Conclude(env, ports, AtTaken(i));
    TakenEnds(ports[i], more);
    Regroup(before, [Tried(ports[i], BindInUse)], more);
    facts := [Tried(ports[i], BindInUse)] + more;
  }

  lemma BoundEnds(port: nat, out: Outcome)
    requires out == Leader(port) || out == Io
    ensures BindEnds(port, [Tried(port, BindOk), Wrote(out.Leader?)], out)
  {
  }

  lemma TakenEnds(port: nat, more: seq<Fact>)
    ensures var facts := [Tried(port, BindInUse)] + more;
            && facts[0] == Tried(port, BindInUse) && facts[1..] == more
            && forall out :: Decided(Local(port), more, out) ==> BindEnds(port, facts, out)
  {
    assert ([Tried(port, BindInUse)] + more)[1..] == more;
  }

  lemma RaceGoesOn(ports: seq<nat>, i: nat, facts: seq<Fact>, more: seq<Fact>)
    requires i < |ports| && TakenTo(ports, i, facts)
    requires more != [] && more[0] == Tried(ports[i], BindInUse) && Passed(Local(ports[i]), more[1..])
    ensures TakenTo(ports, i + 1, facts + more)
  {
    assert (facts + more)[..|facts|] == facts && (facts + more)[|facts| + 1..] == more[1..];
    assert TakenCut(ports, i + 1, facts + more, |facts|);
  }

  lemma RaceComesToAnEnd(ports: seq<nat>, i: nat, facts: seq<Fact>, more: seq<Fact>, out: Outcome)
    requires i < |ports| && TakenTo(ports, i, facts) && BindEnds(ports[i], more, out)
    ensures Raced(ports, facts + more, out)
  {
    assert (facts + more)[..|facts|] == facts && (facts + more)[|facts|..] == more;
    assert RaceEnds(ports, i, |facts|, facts + more, out);
  }

  method RaceTurn(env: Surroundings, ports: seq<nat>, i: nat, ghost start: seq<Fact>, ghost facts: seq<Fact>)
    returns (out: Option<Outcome>, ghost next: seq<Fact>)
    requires i < |ports| && Follow(ports, env.seen) == Some(Binding(i))
    requires env.log == start + facts && TakenTo(ports, i, facts)
    modifies env
    ensures out.Some? ==> Follow(ports, env.seen) == Some(Finished(out.value))
    ensures out.None? ==> Follow(ports, env.seen) == Some(BindFrom(ports, i + 1))
    ensures env.log == start + next
    ensures if out.None? then TakenTo(ports, i + 1, next) else Raced(ports, next, out.value)
  {
    ghost var more;
    out, more := TryPort(env, ports, i);
    next := facts + more;
    Regroup(start, facts, more);
    if out.Some? {
      RaceComesToAnEnd(ports, i, facts, more, out.value);
    } else {
      RaceGoesOn(ports, i, facts, more);
    }
  }

  /** Every contender walks the same order, so concurrent first claims race for the same port. */
  method RaceForAPort(env: Surroundings, ports: seq<nat>) returns (out: Outcome, ghost facts: seq<Fact>)
    requires Follow(ports, env.seen) == Some(BindFrom(ports, 0))
    modifies env
    ensures Follow(ports, env.seen) == Some(Finished(out))
    ensures env.log == old(env.log) + facts && Raced(ports, facts, out)
  {
    facts := [];
    for i := 0 to |ports|
      invariant Follow(ports, env.seen) == Some(BindFrom(ports, i))
      invariant env.log == old(env.log) + facts && TakenTo(ports, i, facts)
    {
      var o;
      o, facts := RaceTurn(env, ports, i, old(env.log), facts);
      if o.Some? {
        return o.value, facts;
      }
    }
    return PortsExhausted, facts;
  }

  lemma TranscriptOf(ports: seq<nat>, a: seq<Fact>, b: seq<Fact>, c: seq<Fact>, out: Outcome)
    requires Discovered(a, None) && Scanned(ports, b, None) && Raced(ports, c, out)
    ensures Transcript(ports, a + b + c, |a|, |a| + |b|, out)
  {
    var log := a + b + c;
    assert log[..|a|] == a && log[|a|..|a| + |b|] == b && log[|a| + |b|..] == c;
  }

  lemma TranscriptOfScan(ports: seq<nat>, a: seq<Fact>, b: seq<Fact>, out: Outcome)
    requires Discovered(a, None) && Scanned(ports, b, Some(out))
    ensures Transcript(ports, a + b, |a|, |a| + |b|, out)
  {
    assert (a + b)[..|a|] == a && (a + b)[|a|..] == b;
  }

  /** Whatever the surroundings answer, the program's outcome is the one the contender of the
      election reaches on the same answers; its record is a discovery probe, a scan and a race for
      a port; and the outcome is the one the last answers warrant, and no other. */
  method Acquire(env: Surroundings, ports: seq<nat>) returns (out: Outcome)
    requires env.seen == [] && env.log == []
    modifies env
    ensures Follow(ports, env.seen) == Some(Finished(out))
    ensures exists i: nat, j: nat :: Transcript(ports, env.log, i, j, out)
    ensures forall o :: Warrants(ports, env.log, o) <==> o == out
  {
    var first;
    ghost var a, b, c;
    first, a := TryDiscovery(env, ports);
    assert env.log == a;
    if first.Some? {
      assert Transcript(ports, env.log, |a|, |a|, first.value);
      TranscriptWarrants(ports, env.log, |a|, |a|, first.value);
      return first.value;
    }
    first, b := ScanPorts(env, ports);
    assert env.log == a + b;
    if first.Some? {
      TranscriptOfScan(ports, a, b, first.value);
      TranscriptWarrants(ports, a + b, |a|, |a| + |b|, first.value);
      return first.value;
    }
    out, c := RaceForAPort(env, ports);
    TranscriptOf(ports, a, b, c, out);
    TranscriptWarrants(ports, a + b + c, |a|, |a| + |b|, out);
  }

  // ---- what the outcome says about the answers ----

  /** The answers that call for an outcome, read off the end of the record. */
  predicate Warrants(ports: seq<nat>, log: seq<Fact>, out: Outcome) {
    var n := |log|;
    && n > 0
    && match out
       case Follower(a) => log[n - 1] == Probed(a, OurLeader) || log[n - 1] == Asked(a, true)
       case LeaderBusy =>
         n >= 3 && log[n - 1].Probed? && log[n - 1].probe == Busy && log[n - 3] == log[n - 2] == log[n - 1]
       case TokenUnavailable => log[n - 1] == DeadlinePassed
       case Leader(p) => n >= 2 && log[n - 2] == Tried(p, BindOk) && log[n - 1] == Wrote(true)
       case Io => log[n - 1] == Wrote(false) || (log[n - 1].Tried? && log[n - 1].o == BindFailed)
       case PortsExhausted =>
         && (log[n - 1].Found? || (log[n - 1].Probed? && log[n - 1].probe in {Foreign, Dead}))
         && exists k: nat :: k <= n && TakenTo(ports, |ports|, log[k..])
  }

  lemma OneIsWarranted(ports: seq<nat>, log: seq<Fact>, a: Outcome, b: Outcome)
    requires Warrants(ports, log, a) && Warrants(ports, log, b)
    ensures a == b
  {
  }

  /** What ends a record warrants the outcome also behind anything else. */
  predicate EndsIn(facts: seq<Fact>, out: Outcome) {
    && facts != [] && !out.PortsExhausted? && Warrants([], facts, out)
  }

  lemma DecidedEndsIn(addr: Addr, facts: seq<Fact>, out: Outcome)
    requires Decided(addr, facts, out)
    ensures EndsIn(facts, out)
  {
    if k: nat :| k <= |facts| && JoiningAfter(addr, facts, k, out) {
      assert facts[k..][|facts[k..]| - 1] == facts[|facts| - 1];
    }
  }

  lemma EndsBehind(ports: seq<nat>, facts: seq<Fact>, k: nat, out: Outcome)
    requires k <= |facts| && EndsIn(facts[k..], out)
    ensures EndsIn(facts, out) && Warrants(ports, facts, out)
  {
    var rest := facts[k..];
    assert rest[|rest| - 1] == facts[|facts| - 1];
    assert |rest| >= 2 ==> rest[|rest| - 2] == facts[|facts| - 2];
    assert |rest| >= 3 ==> rest[|rest| - 3] == facts[|facts| - 3];
  }

  lemma BindEndsIn(port: nat, facts: seq<Fact>, out: Outcome)
    requires BindEnds(port, facts, out)
    ensures EndsIn(facts, out)
  {
    if facts[0] == Tried(port, BindInUse) {
      DecidedEndsIn(Local(port), facts[1..], out);
      EndsBehind([], facts, 1, out);
    }
  }

  /** Where every bind failed to take a port, and where there was none to take. */
  lemma ExhaustedEnds(ports: seq<nat>, facts: seq<Fact>)
    requires ports != [] && TakenTo(ports, |ports|, facts)
    ensures facts != [] && facts[|facts| - 1].Probed? && facts[|facts| - 1].probe in {Foreign, Dead}
  {
    var k: nat :| k < |facts| && TakenCut(ports, |ports|, facts, k);
    PassedEnds(Local(ports[|ports| - 1]), facts[k + 1..]);
    assert facts[k + 1..][|facts[k + 1..]| - 1] == facts[|facts| - 1];
  }

  lemma PassedEnds(addr: Addr, facts: seq<Fact>)
    requires Passed(addr, facts)
    ensures facts != [] && facts[|facts| - 1].Probed? && facts[|facts| - 1].probe in {Foreign, Dead}
  {
  }

  lemma ExhaustedWarrants(ports: seq<nat>, log: seq<Fact>, i: nat, j: nat)
    requires i <= j <= |log| && Discovered(log[..i], None) && Scanned(ports, log[i..j], None)
    requires TakenTo(ports, |ports|, log[j..])
    ensures Warrants(ports, log, PortsExhausted)
  {
    if ports != [] {
      ExhaustedEnds(ports, log[j..]);
      assert log[j..][|log[j..]| - 1] == log[|log| - 1];
    } else {
      assert log[j..] == [] && log[i..j] == [];
      assert i == |log| && log[..i] == log;
      if log[0].discovery.Some? {
        PassedEnds(log[0].discovery.value, log[1..]);
        assert log[1..][|log[1..]| - 1] == log[|log| - 1];
      }
    }
  }

  lemma DiscoveryIsWarranted(ports: seq<nat>, log: seq<Fact>, out: Outcome)
    requires Discovered(log, Some(out))
    ensures Warrants(ports, log, out)
  {
    DecidedEndsIn(log[0].discovery.value, log[1..], out);
    EndsBehind(ports, log, 1, out);
  }

  lemma ScanEndsIn(ports: seq<nat>, facts: seq<Fact>, out: Outcome)
    requires Scanned(ports, facts, Some(out))
    ensures EndsIn(facts, out)
  {
    var n: nat, k: nat :| n < |ports| && k <= |facts| && ScanEnds(ports, n, k, facts, out);
    DecidedEndsIn(Local(ports[n]), facts[k..], out);
    EndsBehind(ports, facts, k, out);
  }

  lemma TranscriptIsWarranted(ports: seq<nat>, log: seq<Fact>, i: nat, j: nat, out: Outcome)
    requires Transcript(ports, log, i, j, out)
    ensures Warrants(ports, log, out)
  {
    if i == j == |log| && Discovered(log, Some(out)) {
      DiscoveryIsWarranted(ports, log, out);
    } else if j == |log| && Scanned(ports, log[i..], Some(out)) {
      ScanEndsIn(ports, log[i..], out);
      EndsBehind(ports, log, i, out);
    } else {
      RaceIsWarranted(ports, log, i, j, out);
    }
  }

  lemma RaceIsWarranted(ports: seq<nat>, log: seq<Fact>, i: nat, j: nat, out: Outcome)
    requires i <= j <= |log| && Discovered(log[..i], None) && Scanned(ports, log[i..j], None)
    requires Raced(ports, log[j..], out)
    ensures Warrants(ports, log, out)
  {
    var facts := log[j..];
    if out == PortsExhausted && TakenTo(ports, |ports|, facts) {
      ExhaustedWarrants(ports, log, i, j);
    } else {
      var n: nat, k: nat :| n < |ports| && k <= |facts| && RaceEnds(ports, n, k, facts, out);
      BindEndsIn(ports[n], facts[k..], out);
      EndsBehind(ports, facts, k, out);
      EndsBehind(ports, log, j, out);
    }
  }

  /** A record warrants the outcome it ended with and no other: a follower's last answer was its
      leader's own or a successful poll of it, a busy leader timed out three times, a leader's last
      two were its bind and its write, and without any port every one of them was taken by
      somebody else. */
  lemma TranscriptWarrants(ports: seq<nat>, log: seq<Fact>, i: nat, j: nat, out: Outcome)
    requires Transcript(ports, log, i, j, out)
    ensures forall o :: Warrants(ports, log, o) <==> o == out
  {
    TranscriptIsWarranted(ports, log, i, j, out);
    forall o | Warrants(ports, log, o) ensures o == out {
      OneIsWarranted(ports, log, o, out);
    }
  }
}
