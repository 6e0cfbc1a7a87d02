/** `ContextSession::call` as the program runs it, tied to the caller of module Session. */
module SessionCall {
  import opened Wrappers
  import opened Session
  import S = Session

  /** The role behind its lock, as the program holds it: each method is one critical section. */
  class SharedRole {
    var role: Role
    ghost var clients: set<nat>
    ghost var hosts: set<nat>
    ghost var races: seq<Race>

    /** This object's part of `s`. */
    ghost predicate Shows(s: Session)
      reads this
    {
      role == s.role && clients == s.clients && hosts == s.hosts && races == s.races
    }

    method Snapshot() returns (exec: Option<Exec>)
      ensures exec == View(role)
      ensures exec.None? <==> role.Closed?
      ensures role.Leader? ==> exec == Some(OnHost(role.host))
      ensures role.Follower? ==> exec == Some(OnClient(role.client))
    {
      match role {
        case Leader(h) => exec := Some(OnHost(h));
        case Follower(c) => exec := Some(OnClient(c));
        case Closed => exec := None;
      }
    }

    /** `reacquire`; `next` is what an acquisition made now would come to. The role changes only if
        it still follows the stale connection and the acquisition succeeds, and the answer tells
        what the role is then. */
    method Reacquire(ghost s: Session, stale: nat, next: Option<Role>) returns (r: Rerace)
      requires Shows(s) && Acquirable(s, next)
      modifies this
      ensures Shows(S.Reacquire(s, stale, next).0) && r == S.Reacquire(s, stale, next).1
      ensures role == if old(role) == Follower(stale) && next.Some? then next.value else old(role)
      ensures r == RoleClosed <==> role.Closed?
      ensures r == Promoted <==> role.Leader?
      ensures r == RaceFailed <==> old(role) == Follower(stale) && next.None?
    {
      if role.Leader? {
        return Promoted;
      } else if role.Closed? {
        return RoleClosed;
      } else if role.client != stale {
        return Reconnected;
      } else if next.None? {
        return RaceFailed;
      }
      role := next.value;
      races := races + [Race(stale, role)];
      if role.Leader? {
        hosts := hosts + {role.host};
        return Promoted;
      }
      clients := clients + {role.client};
      return Reconnected;
    }

    /** `shutdown` replaces the role and hands back the old one, whose host it then drains. */
    method Shutdown(ghost s: Session) returns (was: Role)
      requires Shows(s)
      modifies this
      ensures Shows(Apply(s, Action.Shutdown)) && was == old(role) && role.Closed?
    {
      was := role;
      role := Closed;
    }
  }

  /** The lock and the executing side, shared with every other task: they may answer anything.
      `seen` records the answers, `tried` where the attempts of this call ran and `raced` the
      connections it reported lost. */
  class Surroundings {
    ghost var seen: seq<Obs>
    ghost var tried: seq<Exec>
    ghost var raced: seq<nat>

    constructor ()
      ensures seen == [] && tried == [] && raced == []
    {
      seen, tried, raced := [], [], [];
    }

    method Snapshot() returns (exec: Option<Exec>)
      modifies this
      ensures seen == old(seen) + [Snapped(exec)] && tried == old(tried) && raced == old(raced)
    {
      exec := *;
      seen := seen + [Snapped(exec)];
    }

    /** One attempt: an answer, or the connection that was lost under it. A local attempt
        always answers. */
    method Attempt(exec: Exec) returns (answer: Option<bool>)
      modifies this
      ensures exec.OnHost? ==> answer.Some?
      ensures seen == old(seen) + [if answer.Some? then Answered(answer.value) else Lost]
      ensures tried == old(tried) + [exec] && raced == old(raced)
    {
      answer := *;
      if exec.OnHost? && !answer.Some? {
        answer := Some(false);
      }
      seen := seen + [if answer.Some? then Answered(answer.value) else Lost];
      tried := tried + [exec];
    }

    method Reacquire(stale: nat) returns (r: Rerace)
      modifies this
      ensures seen == old(seen) + [Reacquired(r)] && tried == old(tried) && raced == old(raced) + [stale]
    {
      r := *;
      seen, raced := seen + [Reacquired(r)], raced + [stale];
    }
  }

  /** Where a caller stands after a history, if that history can happen to it at all. */
  ghost function Follow(idempotent: bool, history: seq<Obs>): Option<Phase>
    decreases |history|
  {
    if history == [] then Some(Entering)
    else
      var before := Follow(idempotent, history[..|history| - 1]);
      if before.None? then None else React(idempotent, before.value, history[|history| - 1])
  }

  lemma FollowOne(idempotent: bool, history: seq<Obs>, o: Obs)
    requires Follow(idempotent, history).Some?
    ensures Follow(idempotent, history + [o]) == React(idempotent, Follow(idempotent, history).value, o)
  {
    assert (history + [o])[..|history + [o]| - 1] == history;
  }

  // ---- what a call looks like from outside ----

  function Told(ok: bool): CallResult {
    if ok then Value else ToolError
  }

  /** What one snapshot and one attempt show: the session closed, an answer, or a lost connection. */
  predicate Attempted(seen: seq<Obs>, tried: seq<Exec>, result: Option<CallResult>) {
    match result
    case Some(SessionClosed) => seen == [Snapped(None)] && tried == []
    case Some(Value) => |tried| == 1 && seen == [Snapped(Some(tried[0])), Answered(true)]
    case Some(ToolError) => |tried| == 1 && seen == [Snapped(Some(tried[0])), Answered(false)]
    case None => |tried| == 1 && tried[0].OnClient? && seen == [Snapped(Some(tried[0])), Lost]
    case _ => false
  }

  /** The call settled with its first attempt, or with the re-race. */
  predicate SettledAtOnce(idempotent: bool, seen: seq<Obs>, tried: seq<Exec>, raced: seq<nat>, result: CallResult) {
    || (raced == [] && Attempted(seen, tried, Some(result)))
    || (Raced(seen, tried, raced) && |seen| == 3 && |tried| == 1
        && match seen[2].outcome
           case RoleClosed => result == SessionClosed
           case RaceFailed => result == AcquireFailed
           case Promoted => !idempotent && result == Failover(false, true)
           case Reconnected => !idempotent && result == Failover(false, false))
  }

  /** The first attempt lost its connection, and that connection was reported. */
  predicate Raced(seen: seq<Obs>, tried: seq<Exec>, raced: seq<nat>) {
    && |seen| >= 3 && |tried| >= 1 && Attempted(seen[..2], tried[..1], None)
    && raced == [tried[0].client] && seen[2].Reacquired?
  }

  /** The call settled with its second attempt, behind a successful re-race. */
  predicate SettledByRetry(idempotent: bool, seen: seq<Obs>, tried: seq<Exec>, raced: seq<nat>, result: CallResult) {
    && idempotent && Raced(seen, tried, raced) && seen[2].outcome in {Promoted, Reconnected}
    && (Attempted(seen[3..], tried[1..], Some(result))
        || (Attempted(seen[3..], tried[1..], None) && result == Failover(true, seen[2].outcome == Promoted)))
  }

  /** The whole table of what a caller may see and what it returns then. */
  predicate Settles(idempotent: bool, seen: seq<Obs>, tried: seq<Exec>, raced: seq<nat>, result: CallResult) {
    || SettledAtOnce(idempotent, seen, tried, raced, result)
    || SettledByRetry(idempotent, seen, tried, raced, result)
  }

  /** A failover is reported truthfully, an idempotent call that was re-raced looks at the role again
      and tries again unless the session closed, and an answer is the last one there was. */
  lemma SettlingSays(idempotent: bool, seen: seq<Obs>, tried: seq<Exec>, raced: seq<nat>, result: CallResult)
    requires Settles(idempotent, seen, tried, raced, result)
    ensures result.Failover? ==> (result.retried <==> idempotent)
    ensures |tried| <= if idempotent then 2 else 1
    ensures idempotent && |seen| > 2 && seen[2] in {Reacquired(Promoted), Reacquired(Reconnected)} ==>
              |seen| > 3 && seen[3].Snapped? && (seen[3].exec.Some? ==> tried == [tried[0], seen[3].exec.value])
    ensures result in {Value, ToolError} <==> seen[|seen| - 1] == Answered(result == Value)
    ensures result == AcquireFailed <==> seen[|seen| - 1] == Reacquired(RaceFailed)
    ensures result == SessionClosed <==> seen[|seen| - 1] in {Snapped(None), Reacquired(RoleClosed)}
  {
    if SettledByRetry(idempotent, seen, tried, raced, result) {
      assert seen[3..][|seen[3..]| - 1] == seen[|seen| - 1];
      assert seen[3] == seen[3..][0];
      assert |tried| > 1 ==> tried[1] == tried[1..][0];
    }
  }

  // ---- the program ----

  /** One snapshot and one attempt, from either phase that starts one. */
  method TryOnce(env: Surroundings, idempotent: bool)
    returns (result: Option<CallResult>, exec: Option<Exec>, ghost saw: seq<Obs>, ghost ran: seq<Exec>)
    requires Follow(idempotent, env.seen) == Some(Entering)
             || (Follow(idempotent, env.seen).Some? && Follow(idempotent, env.seen).value.Reraced?)
    modifies env
    ensures env.seen == old(env.seen) + saw && env.tried == old(env.tried) + ran && env.raced == old(env.raced)
    ensures Attempted(saw, ran, result) && ran == if exec.Some? then [exec.value] else []
    ensures result.Some? ==> Follow(idempotent, env.seen) == Some(Returned(result.value)) && !result.value.Failover?
    ensures result.None? ==> exec.Some? && exec.value.OnClient?
    ensures result.None? ==>
              Follow(idempotent, env.seen)
              == Some(if old(Follow(idempotent, env.seen)) == Some(Entering) then Racing(exec.value.client)
                      else Returned(Failover(true, old(Follow(idempotent, env.seen)).value.promoted)))
  {
    ghost var before := env.seen;
    exec := env.Snapshot();
    FollowOne(idempotent, before, Snapped(exec));
    if exec.None? {
      return Some(SessionClosed), exec, [Snapped(exec)], [];
    }
    ghost var between := env.seen;
    var answer := env.Attempt(exec.value);
    FollowOne(idempotent, between, if answer.Some? then Answered(answer.value) else Lost);
    saw := [Snapped(exec), if answer.Some? then Answered(answer.value) else Lost];
    assert env.seen == before + saw;
    return if answer.None? then None else Some(Told(answer.value)), exec, saw, [exec.value];
  }

  lemma RetrySettles(first: seq<Obs>, tried: Exec, r: Rerace, saw: seq<Obs>, ran: seq<Exec>,
                     settled: Option<CallResult>)
    requires Attempted(first, [tried], None) && r in {Promoted, Reconnected} && Attempted(saw, ran, settled)
    ensures tried.OnClient?
    ensures Settles(true, first + [Reacquired(r)] + saw, [tried] + ran, [tried.client],
                    if settled.Some? then settled.value else Failover(true, r == Promoted))
  {
    var seen, both := first + [Reacquired(r)] + saw, [tried] + ran;
    assert seen[..2] == first && both[..1] == [tried] && seen[2] == Reacquired(r);
    assert seen[3..] == saw && both[1..] == ran;
  }

  lemma RaceSettles(idempotent: bool, first: seq<Obs>, tried: Exec, r: Rerace, result: CallResult)
    requires Attempted(first, [tried], None)
    requires match r
             case RoleClosed => result == SessionClosed
             case RaceFailed => result == AcquireFailed
             case _ => !idempotent && result == Failover(false, r == Promoted)
    ensures tried.OnClient? && Settles(idempotent, first + [Reacquired(r)], [tried], [tried.client], result)
  {
    var seen := first + [Reacquired(r)];
    assert seen[..2] == first && [tried][..1] == [tried] && seen[2] == Reacquired(r);
  }

  /** The re-race behind a lost connection, as far as it settles the call. */
  method RaceAgain(env: Surroundings, idempotent: bool, lost: nat) returns (result: Option<CallResult>, r: Rerace)
    requires Follow(idempotent, env.seen) == Some(Racing(lost))
    modifies env
    ensures env.seen == old(env.seen) + [Reacquired(r)]
    ensures env.tried == old(env.tried) && env.raced == old(env.raced) + [lost]
    ensures result.Some? ==> Follow(idempotent, env.seen) == Some(Returned(result.value))
    ensures result.None? ==> idempotent && r in {Promoted, Reconnected}
    ensures result.None? ==> Follow(idempotent, env.seen) == Some(Reraced(r == Promoted))
    ensures result.Some? ==>
              match r
              case RoleClosed => result.value == SessionClosed
              case RaceFailed => result.value == AcquireFailed
              case _ => !idempotent && result.value == Failover(false, r == Promoted)
  {
    ghost var before := env.seen;
    r := env.Reacquire(lost);
    FollowOne(idempotent, before, Reacquired(r));
    if r == RoleClosed {
      return Some(SessionClosed), r;
    } else if r == RaceFailed {
      return Some(AcquireFailed), r;
    }
    return if idempotent then None else Some(Failover(false, r == Promoted)), r;
  }

  /** Whatever the lock and the leaders answer, the program's result is the one the caller of
      the session reaches on the same answers, and the one the table gives for them. */
  method Call(env: Surroundings, idempotent: bool) returns (result: CallResult)
    requires env.seen == [] && env.tried == [] && env.raced == []
    modifies env
    ensures Follow(idempotent, env.seen) == Some(Returned(result))
    ensures Settles(idempotent, env.seen, env.tried, env.raced, result)
  {
    var settled, exec;
    ghost var first, tried, saw, ran;
    settled, exec, first, tried := TryOnce(env, idempotent);
    if settled.Some? {
      return settled.value;
    }
    var again, r := RaceAgain(env, idempotent, exec.value.client);
    if again.Some? {
      RaceSettles(idempotent, first, exec.value, r, again.value);
      return again.value;
    }
    settled, exec, saw, ran := TryOnce(env, idempotent);
    RetrySettles(first, tried[0], r, saw, ran, settled);
    return if settled.Some? then settled.value else Failover(true, r == Promoted);
  }
}
