/** The registry of runs and its pruning (crates/mandala-core/src/registry.rs). */
module RunRegistry {
  import opened Wrappers
  import opened Order
  import opened RunId

  /** A run directory's `meta.json`: unpublished, or with the pids it records. */
  datatype Meta = Unpublished | Published(pid: Option<int>, supervisor: Option<int>)

  /** What one pruning is given: the cap, the age limit in days (zero for none), the clock, and
      the pids that are alive. */
  datatype Policy = Policy(keep: nat, maxAgeDays: nat, now: Instant, alive: set<int>)

  const I64_MAX: nat := 0x7FFF_FFFF_FFFF_FFFF
  const DAY: nat := 86_400_000_000_000

  /** `NaiveDateTime::signed_duration_since` in nanoseconds: one day has 86400 seconds, and a leap
      second counts only when the earlier time of day stands in it. */
  function Since(now: Instant, then_: Instant): int {
    var adjust :=
      if now.second > then_.second then (if LeapSecond(then_) then 1 else 0)
      else if now.second < then_.second then (if LeapSecond(now) then -1 else 0)
      else 0;
    (now.day - then_.day) * DAY + (now.second - then_.second + adjust) * 1_000_000_000 + now.nanos - then_.nanos
  }

  /** `num_days`, truncated towards zero. */
  function WholeDays(elapsed: int): int {
    if elapsed >= 0 then elapsed / DAY else -(-elapsed / DAY)
  }

  predicate ExpiredAt(p: Policy, started: Instant) {
    p.maxAgeDays > 0 && WholeDays(Since(p.now, started)) >= if p.maxAgeDays > I64_MAX then I64_MAX else p.maxAgeDays
  }

  predicate Expired(p: Policy, id: string)
    requires IsRunId(id)
  {
    ExpiredAt(p, Started(id))
  }

  predicate PidAlive(p: Policy, pid: Option<int>) {
    pid.Some? && pid.value != 0 && pid.value in p.alive
  }

  /** The pid in the id itself, consulted while a run has published nothing. */
  function AllocatingPid(id: string, meta: Meta): Option<int>
    requires IsRunId(id)
  {
    if meta.Unpublished? && Num(id[23..]) <= I64_MAX then Some(Num(id[23..])) else None
  }

  predicate Live(p: Policy, id: string, meta: Meta)
    requires IsRunId(id)
  {
    || (meta.Published? && (PidAlive(p, meta.pid) || PidAlive(p, meta.supervisor)))
    || PidAlive(p, AllocatingPid(id, meta))
  }

  function RunIds(runs: map<string, Meta>): set<string> {
    set id | id in runs && IsRunId(id)
  }

  function Inactive(runs: map<string, Meta>, p: Policy): set<string> {
    set id | id in runs && IsRunId(id) && !Live(p, id, runs[id])
  }

  /** The inactive runs that sort at or after `id`. */
  function AtLeastAsRecent(runs: map<string, Meta>, p: Policy, id: string): set<string> {
    set x | x in Inactive(runs, p) && (x == id || Less(id, x))
  }

  /** Everything stays but inactive runs that are expired or beyond the cap. */
  predicate Stays(runs: map<string, Meta>, p: Policy, id: string) {
    id in Inactive(runs, p) ==> |AtLeastAsRecent(runs, p, id)| <= p.keep && !Expired(p, id)
  }

  function Pruned(runs: map<string, Meta>, p: Policy): map<string, Meta> {
    map id | id in runs && Stays(runs, p, id) :: runs[id]
  }

  function Dropped(runs: map<string, Meta>, p: Policy): set<string> {
    set id | id in runs && !Stays(runs, p, id)
  }

  predicate Descending(ids: seq<string>) {
    forall i, j :: 0 <= i < j < |ids| ==> Less(ids[j], ids[i])
  }

  /** The registry directory: entry names and what their `meta.json` holds. */
  class Directory {
    var runs: map<string, Meta>

    /** `list_runs_in`: the valid ids, most recent first; other entries are no runs. */
    method ListRuns() returns (ids: seq<string>)
      ensures Descending(ids) && Elements(ids) == RunIds(runs)
    {
      var sorted := Sort(RunIds(runs));
      ids := Reversed(sorted);
    }

    /** `prune_policy`: the removals happen one by one, newest run first, under a count of the
        inactive runs met so far; deletions are taken to succeed. */
    method PrunePolicy(p: Policy)
      modifies this
      ensures runs == Pruned(old(runs), p)
      ensures forall id :: id in runs ==> id in old(runs) && runs[id] == old(runs)[id]
    {
      ghost var before := runs;
      var ids := ListRuns();
      var survivors := 0;
      var i := 0;
      while i < |ids|
        invariant 0 <= i <= |ids|
        invariant survivors == Met(Inactive(before, p), ids, i) && runs == Left(before, Dropped(before, p), ids, i)
      {
        survivors := PruneOne(p, before, ids, i, survivors);
        i := i + 1;
      }
      AllVisited(before, p, ids);
    }

    /** One turn of the loop: a live run is passed over, any other counts and goes if it is one too
        many or expired. */
    method PruneOne(p: Policy, ghost before: map<string, Meta>, ids: seq<string>, i: nat, met: nat)
      returns (survivors: nat)
      requires i < |ids| && Descending(ids) && Elements(ids) == RunIds(before)
      requires met == Met(Inactive(before, p), ids, i) && runs == Left(before, Dropped(before, p), ids, i)
      modifies this
      ensures survivors == Met(Inactive(before, p), ids, i + 1)
      ensures runs == Left(before, Dropped(before, p), ids, i + 1)
    {
      Visit(before, p, ids, i);
      if Live(p, ids[i], runs[ids[i]]) {
        return met;
      }
      survivors := met + 1;
      if survivors > p.keep || Expired(p, ids[i]) {
        runs := runs - {ids[i]};
      }
    }
  }

  method Reversed(sorted: seq<string>) returns (ids: seq<string>)
    requires Ascending(sorted)
    ensures Descending(ids) && Elements(ids) == Elements(sorted)
  {
    ids := [];
    var i := |sorted|;
    while i > 0
      invariant 0 <= i <= |sorted| && |ids| == |sorted| - i
      invariant forall k :: 0 <= k < |ids| ==> ids[k] == sorted[|sorted| - 1 - k]
    {
      i := i - 1;
      ids := ids + [sorted[i]];
    }
    ReverseDescends(sorted, ids);
  }

  lemma ReverseDescends(sorted: seq<string>, ids: seq<string>)
    requires Ascending(sorted) && |ids| == |sorted|
    requires forall k :: 0 <= k < |ids| ==> ids[k] == sorted[|sorted| - 1 - k]
    ensures Descending(ids) && Elements(ids) == Elements(sorted)
  {
    forall x ensures x in ids <==> x in sorted {
      if x in sorted {
        var k :| 0 <= k < |sorted| && sorted[k] == x;
        assert ids[|sorted| - 1 - k] == x;
      }
    }
  }

  /** How many of the first `i` runs are among the inactive ones. */
  function Met(inactive: set<string>, ids: seq<string>, i: nat): nat
    requires i <= |ids|
  {
    if i == 0 then 0
    else if ids[i - 1] in inactive then Met(inactive, ids, i - 1) + 1
    else Met(inactive, ids, i - 1)
  }

  /** What is left of the directory when only the first `i` runs have been visited. */
  function Left(before: map<string, Meta>, dropped: set<string>, ids: seq<string>, i: nat): map<string, Meta>
    requires i <= |ids|
  {
    if i == 0 then before
    else if ids[i - 1] in dropped then Left(before, dropped, ids, i - 1) - {ids[i - 1]}
    else Left(before, dropped, ids, i - 1)
  }

  /** The runs visited before `ids[i]` are those that sort after it. */
  lemma SeenAreNewer(runs: map<string, Meta>, ids: seq<string>, i: nat, x: string)
    requires i < |ids| && Descending(ids) && Elements(ids) == RunIds(runs)
    ensures Among(ids, i, x) <==> x in RunIds(runs) && Less(ids[i], x)
  {
    Irreflexive(ids[i]);
    if x in RunIds(runs) && Less(ids[i], x) {
      assert x in Elements(ids);
      var k :| 0 <= k < |ids| && ids[k] == x;
      if k > i {
        Asymmetric(ids[i], x);
      }
    }
    if Among(ids, i, x) {
      assert x in Elements(ids);
    }
  }

  lemma SeenOne(ids: seq<string>, i: nat)
    requires i < |ids|
    ensures forall x :: x in ids[..i + 1] <==> x in ids[..i] || x == ids[i]
  {
    assert ids[..i + 1] == ids[..i] + [ids[i]];
  }

  lemma NotSeenYet(ids: seq<string>, i: nat)
    requires i < |ids| && Descending(ids)
    ensures ids[i] !in ids[..i]
  {
    Irreflexive(ids[i]);
  }

  predicate NoneTwice(ids: seq<string>) {
    forall i, j :: 0 <= i < j < |ids| ==> ids[i] != ids[j]
  }

  lemma DescendingHasNoneTwice(ids: seq<string>)
    requires Descending(ids)
    ensures NoneTwice(ids)
  {
    forall i, j | 0 <= i < j < |ids| ensures ids[i] != ids[j] {
      Irreflexive(ids[i]);
    }
  }

  /** The inactive ones among the first `i` runs. */
  function MetSet(inactive: set<string>, ids: seq<string>, i: nat): set<string>
    requires i <= |ids|
  {
    if i == 0 then {}
    else if ids[i - 1] in inactive then MetSet(inactive, ids, i - 1) + {ids[i - 1]}
    else MetSet(inactive, ids, i - 1)
  }

  predicate Among(ids: seq<string>, i: nat, x: string)
    requires i <= |ids|
  {
    exists k :: 0 <= k < i && ids[k] == x
  }

  lemma AmongOneMore(ids: seq<string>, i: nat, x: string)
    requires i < |ids|
    ensures Among(ids, i + 1, x) <==> Among(ids, i, x) || ids[i] == x
  {
  }

  lemma NotAmongEarlier(ids: seq<string>, i: nat)
    requires i < |ids| && NoneTwice(ids)
    ensures !Among(ids, i, ids[i])
  {
  }

  lemma {:induction false} MetAt(inactive: set<string>, ids: seq<string>, i: nat, x: string)
    requires i <= |ids|
    ensures x in MetSet(inactive, ids, i) <==> x in inactive && Among(ids, i, x)
    decreases i
  {
    if i > 0 {
      MetAt(inactive, ids, i - 1, x);
      AmongOneMore(ids, i - 1, x);
    }
  }

  lemma AddOne(a: set<string>, x: string)
    requires x !in a
    ensures |a + {x}| == |a| + 1
  {
  }

  lemma {:induction false} MetIsSize(inactive: set<string>, ids: seq<string>, i: nat)
    requires i <= |ids| && NoneTwice(ids)
    ensures Met(inactive, ids, i) == |MetSet(inactive, ids, i)|
    decreases i
  {
    if i > 0 {
      MetIsSize(inactive, ids, i - 1);
      MetAt(inactive, ids, i - 1, ids[i - 1]);
      NotAmongEarlier(ids, i - 1);
      AddOne(MetSet(inactive, ids, i - 1), ids[i - 1]);
    }
  }

  lemma {:induction false} LeftAt(before: map<string, Meta>, dropped: set<string>, ids: seq<string>, i: nat, id: string)
    requires i <= |ids|
    ensures id in Left(before, dropped, ids, i) <==> id in before && !(id in dropped && id in ids[..i])
    ensures id in Left(before, dropped, ids, i) ==> Left(before, dropped, ids, i)[id] == before[id]
    decreases i
  {
    if i > 0 {
      LeftAt(before, dropped, ids, i - 1, id);
      SeenOne(ids, i - 1);
    }
  }

  lemma MetIsRank(runs: map<string, Meta>, p: Policy, ids: seq<string>, i: nat)
    requires i < |ids| && Descending(ids) && Elements(ids) == RunIds(runs) && ids[i] in Inactive(runs, p)
    ensures MetSet(Inactive(runs, p), ids, i + 1) == AtLeastAsRecent(runs, p, ids[i])
  {
    forall x ensures x in MetSet(Inactive(runs, p), ids, i + 1) <==> x in AtLeastAsRecent(runs, p, ids[i]) {
      MetAt(Inactive(runs, p), ids, i + 1, x);
      AmongOneMore(ids, i, x);
      SeenAreNewer(runs, ids, i, x);
    }
  }

  /** Counting `ids[i]` makes the count the number of inactive runs at least as recent. */
  lemma CountIsRank(runs: map<string, Meta>, p: Policy, ids: seq<string>, i: nat)
    requires i < |ids| && Descending(ids) && Elements(ids) == RunIds(runs) && ids[i] in Inactive(runs, p)
    ensures Met(Inactive(runs, p), ids, i + 1) == |AtLeastAsRecent(runs, p, ids[i])|
  {
    DescendingHasNoneTwice(ids);
    MetIsSize(Inactive(runs, p), ids, i + 1);
    MetIsRank(runs, p, ids, i);
  }

  /** One turn of the loop, in terms of its two guards. */
  lemma Visit(runs: map<string, Meta>, p: Policy, ids: seq<string>, i: nat)
    requires i < |ids| && Descending(ids) && Elements(ids) == RunIds(runs)
    ensures IsRunId(ids[i]) && ids[i] in runs && ids[i] in Left(runs, Dropped(runs, p), ids, i)
    ensures Left(runs, Dropped(runs, p), ids, i)[ids[i]] == runs[ids[i]]
    ensures ids[i] in Inactive(runs, p) <==> !Live(p, ids[i], runs[ids[i]])
    ensures ids[i] in Dropped(runs, p) <==>
            ids[i] in Inactive(runs, p) && (Met(Inactive(runs, p), ids, i + 1) > p.keep || Expired(p, ids[i]))
  {
    assert ids[i] in Elements(ids);
    LeftAt(runs, Dropped(runs, p), ids, i, ids[i]);
    NotSeenYet(ids, i);
    if ids[i] in Inactive(runs, p) {
      CountIsRank(runs, p, ids, i);
    }
  }

  lemma AllVisited(runs: map<string, Meta>, p: Policy, ids: seq<string>)
    requires Elements(ids) == RunIds(runs)
    ensures Left(runs, Dropped(runs, p), ids, |ids|) == Pruned(runs, p)
  {
    var left := Left(runs, Dropped(runs, p), ids, |ids|);
    assert ids[..|ids|] == ids;
    forall id ensures id in left <==> id in Pruned(runs, p) {
      LeftAt(runs, Dropped(runs, p), ids, |ids|, id);
      assert id in ids <==> id in Elements(ids);
    }
    forall id | id in left ensures left[id] == Pruned(runs, p)[id] {
      LeftAt(runs, Dropped(runs, p), ids, |ids|, id);
    }
  }

  // ---- what pruning promises ----

  /** A live run and a directory entry that is no run are never touched. */
  lemma LiveRunsAreNeverRemoved(runs: map<string, Meta>, p: Policy, id: string)
    requires id in runs && (IsRunId(id) ==> Live(p, id, runs[id]))
    ensures id in Pruned(runs, p) && Pruned(runs, p)[id] == runs[id]
  {
    assert id !in Inactive(runs, p);
  }

  /** A process that exists owns the run: one its `meta.json` records, or, while that is unpublished,
      the one whose number the id ends in. */
  predicate Owned(id: string, meta: Meta, alive: set<int>)
    requires IsRunId(id)
  {
    match meta
    case Published(pid, supervisor) => exists n :: n in alive && n != 0 && (pid == Some(n) || supervisor == Some(n))
    case Unpublished => Num(id[23..]) in alive && 0 < Num(id[23..]) <= 0x7FFF_FFFF_FFFF_FFFF
  }

  /** The runs nobody owns that sort after `id`. */
  function NewerUnowned(runs: map<string, Meta>, alive: set<int>, id: string): set<string> {
    set x | x in runs && IsRunId(x) && !Owned(x, runs[x], alive) && Less(id, x)
  }

  lemma LiveIffOwned(p: Policy, id: string, meta: Meta)
    requires IsRunId(id)
    ensures Live(p, id, meta) <==> Owned(id, meta, p.alive)
  {
    match meta
    case Published(pid, supervisor) =>
      assert PidAlive(p, pid) ==> pid.value in p.alive;
      assert PidAlive(p, supervisor) ==> supervisor.value in p.alive;
    case Unpublished =>
  }

  lemma NewerAndItself(runs: map<string, Meta>, p: Policy, id: string)
    requires id in Inactive(runs, p)
    ensures AtLeastAsRecent(runs, p, id) == NewerUnowned(runs, p.alive, id) + {id}
    ensures |AtLeastAsRecent(runs, p, id)| == |NewerUnowned(runs, p.alive, id)| + 1
  {
    forall x ensures x in AtLeastAsRecent(runs, p, id) <==> x in NewerUnowned(runs, p.alive, id) + {id} {
      if x in runs && IsRunId(x) {
        LiveIffOwned(p, x, runs[x]);
      }
    }
    Irreflexive(id);
    AddOne(NewerUnowned(runs, p.alive, id), id);
  }

  /** A run stays, with its `meta.json`, exactly if somebody alive owns it, or if it has not expired
      and fewer than `keep` newer runs are owned by nobody. An entry that is no run stays. */
  lemma WhoStays(runs: map<string, Meta>, p: Policy, id: string)
    requires id in runs
    ensures IsRunId(id) ==>
              (id in Pruned(runs, p) <==>
                Owned(id, runs[id], p.alive) || (!Expired(p, id) && |NewerUnowned(runs, p.alive, id)| < p.keep))
    ensures !IsRunId(id) ==> id in Pruned(runs, p)
    ensures id in Pruned(runs, p) ==> Pruned(runs, p)[id] == runs[id]
  {
    if IsRunId(id) {
      LiveIffOwned(p, id, runs[id]);
      if !Live(p, id, runs[id]) {
        NewerAndItself(runs, p, id);
      }
    }
  }

  /** So a run whose recorded process, supervisor or allocating process is alive is never removed,
      whatever its age and the cap. */
  lemma ALivingOwnerProtects(runs: map<string, Meta>, p: Policy, id: string, n: int)
    requires id in runs && IsRunId(id) && n != 0 && n in p.alive
    requires match runs[id]
             case Published(pid, supervisor) => pid == Some(n) || supervisor == Some(n)
             case Unpublished => n == Num(id[23..]) <= 0x7FFF_FFFF_FFFF_FFFF
    ensures id in Pruned(runs, p) && Pruned(runs, p)[id] == runs[id]
  {
    WhoStays(runs, p, id);
  }

  lemma InactiveAfterPruning(runs: map<string, Meta>, p: Policy)
    ensures forall id :: id in Inactive(Pruned(runs, p), p) <==> id in Inactive(runs, p) && Stays(runs, p, id)
  {
  }

  lemma SubsetSize(a: set<string>, b: set<string>)
    requires a <= b
    ensures |a| <= |b|
  {
    assert b == a + (b - a);
  }

  /** Pruning again with the same clock and liveness changes nothing. */
  lemma PruningTwiceChangesNothing(runs: map<string, Meta>, p: Policy)
    ensures Pruned(Pruned(runs, p), p) == Pruned(runs, p)
  {
    var after := Pruned(runs, p);
    InactiveAfterPruning(runs, p);
    forall id | id in after ensures Stays(after, p, id) {
      if id in Inactive(after, p) {
        assert Stays(runs, p, id);
        SubsetSize(AtLeastAsRecent(after, p, id), AtLeastAsRecent(runs, p, id));
      }
    }
    assert forall id :: id in after ==> id in runs && after[id] == runs[id];
  }

  /** At most `keep` inactive runs are left. */
  lemma AtMostKeepInactiveRunsRemain(runs: map<string, Meta>, p: Policy)
    ensures |Inactive(Pruned(runs, p), p)| <= p.keep
  {
    var left := Inactive(Pruned(runs, p), p);
    InactiveAfterPruning(runs, p);
    if left != {} {
      LeastExists(left);
      var oldest :| IsLeast(oldest, left);
      assert Stays(runs, p, oldest);
      SubsetSize(left, AtLeastAsRecent(runs, p, oldest));
    }
  }

  lemma MoreRecentCountsLess(runs: map<string, Meta>, p: Policy, a: string, b: string)
    requires Less(a, b)
    ensures AtLeastAsRecent(runs, p, b) <= AtLeastAsRecent(runs, p, a) || b !in Inactive(runs, p)
  {
    forall x | x in AtLeastAsRecent(runs, p, b) ensures b in Inactive(runs, p) ==> x in AtLeastAsRecent(runs, p, a) {
      if x != b {
        Transitive(a, b, x);
      }
    }
  }

  /** A run that is removed though not expired started no later than any inactive run that stays,
      and at least `keep` inactive runs sort after it. */
  lemma OnlyOlderRunsAreRemoved(runs: map<string, Meta>, p: Policy, gone: string, kept: string)
    requires gone in Inactive(runs, p) && gone !in Pruned(runs, p) && !Expired(p, gone)
    requires kept in Inactive(runs, p) && kept in Pruned(runs, p)
    ensures Less(gone, kept) && !Before(Started(kept), Started(gone))
    ensures |AtLeastAsRecent(runs, p, gone) - {gone}| >= p.keep
  {
    Connected(gone, kept);
    if Less(kept, gone) {
      MoreRecentCountsLess(runs, p, kept, gone);
      SubsetSize(AtLeastAsRecent(runs, p, gone), AtLeastAsRecent(runs, p, kept));
    }
    TextOrderIsChronological(gone, kept);
  }

  // ---- expiry follows age ----

  /** The clock's readings and the instants of valid ids. */
  predicate OnClock(t: Instant) {
    t.second < 86400 && t.nanos < 2_000_000_000
  }

  predicate Behind(now: Instant, t: Instant) {
    now.second < t.second || (now.second == t.second && now.nanos < t.nanos)
  }

  /** Strictly inside a leap second at the very end of a day. */
  predicate Lingers(t: Instant) {
    t.second == 86399 && t.nanos > 1_000_000_000
  }

  lemma StartsOnClock(id: string)
    requires IsRunId(id)
    ensures OnClock(Started(id))
  {
    var s := StampOf(id);
    assert 3600 * s.hour + 60 * s.minute + 59 < 86400;
  }

  /** Expired means that many midnights apart, one less if the time of day is not reached yet. */
  lemma ExpiryCountsDays(p: Policy, t: Instant)
    requires OnClock(p.now) && !LeapSecond(p.now) && OnClock(t) && p.maxAgeDays > 0
    ensures var days := p.now.day - t.day - if Behind(p.now, t) then 1 else 0;
            var limit := if p.maxAgeDays > I64_MAX then I64_MAX else p.maxAgeDays;
            (ExpiredAt(p, t) ==> days >= limit) && (!Lingers(t) && days >= limit ==> ExpiredAt(p, t))
  {
    var rest := Since(p.now, t) - (p.now.day - t.day) * DAY;
    assert Behind(p.now, t) ==> rest < 0;
    assert Behind(p.now, t) && !Lingers(t) ==> rest + DAY >= 0;
    assert !Behind(p.now, t) ==> 0 <= rest < DAY;
  }

  /** Away from the lingering case: with an age limit of `n` days a run expires when `n` days have
      passed, counted from its time of day to the present one; without a limit it never does. */
  lemma ExpiresByAge(p: Policy, t: Instant)
    requires OnClock(p.now) && !LeapSecond(p.now) && OnClock(t) && !Lingers(t)
    ensures ExpiredAt(p, t) <==>
            p.maxAgeDays > 0
            && p.now.day - t.day - (if Behind(p.now, t) then 1 else 0) >=
               (if p.maxAgeDays > I64_MAX then I64_MAX else p.maxAgeDays)
  {
    if p.maxAgeDays > 0 {
      ExpiryCountsDays(p, t);
    }
  }

  /** Older runs expire no later than newer ones, leap seconds or not, unless the older one started
      strictly inside a leap second at the end of its day. */
  lemma OlderRunsExpireFirst(p: Policy, older: Instant, newer: Instant)
    requires OnClock(p.now) && !LeapSecond(p.now) && OnClock(older) && OnClock(newer)
    requires !Before(newer, older) && ExpiredAt(p, newer) && !Lingers(older)
    ensures ExpiredAt(p, older)
  {
    ExpiryCountsDays(p, older);
    ExpiryCountsDays(p, newer);
  }

  /** Every such instant can outlive a newer one: at midnight two days on, the run started at the
      midnight just after it is a day old and it is not. */
  lemma LingeringRunsOutliveNewerOnes(older: Instant) returns (p: Policy, newer: Instant)
    requires OnClock(older) && Lingers(older)
    ensures OnClock(p.now) && !LeapSecond(p.now) && OnClock(newer) && !LeapSecond(newer) && Before(older, newer)
    ensures ExpiredAt(p, newer) && !ExpiredAt(p, older)
  {
    newer := Instant(older.day + 1, 0, 0);
    p := Policy(1, 1, Instant(older.day + 2, 0, 0), {});
    OneDayApart(p, older, newer);
  }

  function Unexpired(runs: map<string, Meta>, p: Policy): set<string> {
    set id | id in Inactive(runs, p) && !Expired(p, id)
  }

  function UnexpiredAtLeastAsRecent(runs: map<string, Meta>, p: Policy, id: string): set<string> {
    set x | x in Unexpired(runs, p) && (x == id || Less(id, x))
  }

  function ExpiredNewer(runs: map<string, Meta>, p: Policy, id: string): set<string> {
    set x | x in Inactive(runs, p) && Expired(p, x) && Less(id, x)
  }

  lemma Disjoint(a: set<string>, b: set<string>)
    requires a !! b
    ensures |a + b| == |a| + |b|
  {
  }

  /** Of the inactive runs exactly those stay that are unexpired and within the cap, counting the
      unexpired ones at least as recent, and the newer ones that have expired all the same. */
  lemma StaysIffWithinCap(runs: map<string, Meta>, p: Policy, id: string)
    requires id in Inactive(runs, p)
    ensures id in Pruned(runs, p) <==>
            id in Unexpired(runs, p)
            && |UnexpiredAtLeastAsRecent(runs, p, id)| + |ExpiredNewer(runs, p, id)| <= p.keep
  {
    if !Expired(p, id) {
      var a, b := UnexpiredAtLeastAsRecent(runs, p, id), ExpiredNewer(runs, p, id);
      assert AtLeastAsRecent(runs, p, id) == a + b;
      Disjoint(a, b);
    }
  }

  lemma NewerIsUnexpiredToo(p: Policy, id: string, x: string)
    requires OnClock(p.now) && !LeapSecond(p.now)
    requires IsRunId(id) && IsRunId(x) && !Lingers(Started(id)) && Less(id, x) && !Expired(p, id)
    ensures !Expired(p, x)
  {
    if Expired(p, x) {
      StartsOnClock(id);
      StartsOnClock(x);
      TextOrderIsChronological(id, x);
      OlderRunsExpireFirst(p, Started(id), Started(x));
    }
  }

  /** Only behind a run that started in such a leap second can newer ones have expired first. */
  lemma NothingNewerHasExpired(runs: map<string, Meta>, p: Policy, id: string)
    requires OnClock(p.now) && !LeapSecond(p.now)
    requires id in Unexpired(runs, p) && !Lingers(Started(id))
    ensures ExpiredNewer(runs, p, id) == {}
  {
    forall x | x in Inactive(runs, p) && Less(id, x) ensures !Expired(p, x) {
      NewerIsUnexpiredToo(p, id, x);
    }
  }

  /** For every other run, what stays is exactly the `keep` most recent of the unexpired ones. */
  lemma KeepsTheMostRecentUnexpired(runs: map<string, Meta>, p: Policy, id: string)
    requires OnClock(p.now) && !LeapSecond(p.now)
    requires id in Inactive(runs, p) && !Lingers(Started(id))
    ensures id in Pruned(runs, p) <==>
            id in Unexpired(runs, p) && |UnexpiredAtLeastAsRecent(runs, p, id)| <= p.keep
  {
    StaysIffWithinCap(runs, p, id);
    if id in Unexpired(runs, p) {
      NothingNewerHasExpired(runs, p, id);
    }
  }

  // ---- the exception, in run ids ----

  /** The id of process 1 with these fields. */
  lemma Composed(date: string, time: string, micros: string) returns (id: string)
    requires |date| == 8 && |time| == 6 && |micros| == 6 && Digits(date) && Digits(time) && Digits(micros)
    ensures id == date + "T" + time + "_" + micros + "-1"
    ensures Shaped(id) && id[23..] == "1"
    ensures id[0..8] == date && id[9..15] == time && id[16..22] == micros
  {
    id := date + "T" + time + "_" + micros + "-1";
    assert id[0..8] == date;
    assert id[9..15] == time;
    assert id[16..22] == micros;
    assert id[23..] == "1";
  }

  /** The fields both ids are made of. */
  lemma FieldsOf(id: string, date: string, time: string, day: nat, hour: nat, minute: nat, second: nat)
    requires Shaped(id) && id[23..] == "1" && id[0..8] == date && id[9..15] == time
    requires Digits(date) && Digits(time) && date[4] == '0' && date[5] == '7'
    requires day == 10 * (date[6] - '0') as nat + (date[7] - '0') as nat
    requires hour == 10 * (time[0] - '0') as nat + (time[1] - '0') as nat
    requires minute == 10 * (time[2] - '0') as nat + (time[3] - '0') as nat
    requires second == 10 * (time[4] - '0') as nat + (time[5] - '0') as nat
    ensures StampOf(id).(year := 0, micros := 0) == Stamp(0, 7, day, hour, minute, second, 0)
    ensures StampOf(id).micros < 1_000_000 && StampOf(id).micros == Num(id[16..22]) && Folded(id[23..]) == 1
  {
    Slices(id, 4, 6); Slices(id, 6, 8); Slices(id, 9, 11); Slices(id, 11, 13); Slices(id, 13, 15); Slices(id, 16, 22);
    assert id[4..6] == date[4..6] && id[6..8] == date[6..8];
    assert id[9..11] == time[0..2] && id[11..13] == time[2..4] && id[13..15] == time[4..6];
    TwoDigits(id[4..6]);
    TwoDigits(id[6..8]);
    TwoDigits(id[9..11]);
    TwoDigits(id[11..13]);
    TwoDigits(id[13..15]);
    MicrosAndProcess(id);
  }

  lemma MicrosAndProcess(id: string)
    requires Shaped(id) && id[23..] == "1"
    ensures StampOf(id).micros < 1_000_000 && StampOf(id).micros == Num(id[16..22]) && Folded(id[23..]) == 1
  {
    assert Power10(6) == 1_000_000;
    NumBound(id[16..22], 1_000_000);
    assert id[23..][..0] == [];
  }

  /** A valid id in the last second of a day. */
  lemma LastSecondOfADay() returns (id: string)
    ensures IsRunId(id) && Lingers(Started(id)) && id[0..4] == "2026"
    ensures StampOf(id).month == 7 && StampOf(id).day == 18
  {
    id := Composed("20260718", "235960", "500000");
    FieldsOf(id, "20260718", "235960", 18, 23, 59, 60);
    Slices(id, 16, 22);
    NotAllZeros(id[16..22], 0);
  }

  /** The id of the midnight after it. */
  lemma MidnightOfTheNext() returns (id: string)
    ensures IsRunId(id) && Started(id).second == 0 && Started(id).nanos == 0 && id[0..4] == "2026"
    ensures StampOf(id).month == 7 && StampOf(id).day == 19
  {
    var zeros := seq(6, _ => '0');
    Zeros(zeros);
    id := Composed("20260719", zeros, zeros);
    FieldsOf(id, "20260719", zeros, 19, 0, 0, 0);
  }

  lemma OneDayLater(older: string, newer: string)
    requires IsRunId(older) && IsRunId(newer) && older[0..4] == newer[0..4]
    requires StampOf(older).month == StampOf(newer).month && StampOf(newer).day == StampOf(older).day + 1
    ensures Started(newer).day == Started(older).day + 1
  {
    Slices(older, 0, 4);
  }

  /** With a cap of one, a run that has expired but is newer pushes out the most recent unexpired
      one, and goes itself. */
  lemma ExpiredRunPushesOutTheOther(runs: map<string, Meta>, p: Policy, older: string, newer: string)
    requires older in Unexpired(runs, p) && newer in Inactive(runs, p) && Expired(p, newer)
    requires Less(older, newer) && p.keep == 1
    ensures older !in Pruned(runs, p) && newer !in Pruned(runs, p)
  {
    Inhabited(UnexpiredAtLeastAsRecent(runs, p, older), older);
    Inhabited(ExpiredNewer(runs, p, older), newer);
    StaysIffWithinCap(runs, p, older);
    StaysIffWithinCap(runs, p, newer);
  }

  lemma Inhabited(s: set<string>, x: string)
    requires x in s
    ensures |s| >= 1
  {
  }

  lemma OneDayApart(p: Policy, older: Instant, newer: Instant)
    requires OnClock(older) && Lingers(older) && newer == Instant(older.day + 1, 0, 0)
    requires p.now == Instant(older.day + 2, 0, 0) && p.maxAgeDays == 1
    ensures ExpiredAt(p, newer) && !ExpiredAt(p, older) && Before(older, newer)
  {
  }

  /** Two run ids, a cap of one and an age limit of one day, at midnight two days after the first:
      the newer has expired, the older has not, and pruning removes both. */
  lemma TheOnlyUnexpiredRunIsRemoved() returns (runs: map<string, Meta>, p: Policy, older: string, newer: string)
    ensures runs.Keys == {older, newer} && p.keep == 1 && OnClock(p.now) && !LeapSecond(p.now)
    ensures older in Unexpired(runs, p) && Pruned(runs, p).Keys == {}
  {
    older := LastSecondOfADay();
    newer := MidnightOfTheNext();
    OneDayLater(older, newer);
    StartsOnClock(older);
    runs := map[older := Published(None, None), newer := Published(None, None)];
    p := Policy(1, 1, Instant(Started(older).day + 2, 0, 0), {});
    TextOrderIsChronological(older, newer);
    OneDayApart(p, Started(older), Started(newer));
    assert older in Unexpired(runs, p) && newer in Inactive(runs, p);
    ExpiredRunPushesOutTheOther(runs, p, older, newer);
  }
}
