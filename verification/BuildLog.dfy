/** The replayable subset of Nix's log a build stream keeps (crates/mandala-core/src/build_log.rs). */
module BuildLog {
  import opened Wrappers
  import opened Utf8

  const BUILD_LOG_MAX_BYTES: nat := 16 * 1024 * 1024
  const TERMINAL_RESERVE: nat := 64 * 1024
  const MAX_STRING: nat := 8192

  /** A parsed internal-json message. */
  datatype Message = Message(action: string, id: Option<nat>, typeCode: Option<int>, level: Option<int>)

  function IdOf(m: Message): nat {
    if m.id.Some? then m.id.value else 0
  }

  /** The activity kinds kept: build, copy, transfer and substitution, but no path queries (109). */
  predicate KeptActivity(code: Option<int>) {
    code.Some? && (100 <= code.value <= 105 || code.value == 108 || 110 <= code.value <= 112)
  }

  predicate KeptResult(code: Option<int>) {
    code.Some? && (102 <= code.value <= 106 || code.value == 108)
  }

  predicate IsStart(m: Message) {
    m.action == "start" && KeptActivity(m.typeCode)
  }

  /** `retain` on one line: the tracked activities afterwards, and whether the line is kept. A
      line that is no message is `None`. */
  function RetainStep(tracked: set<nat>, line: Option<Message>): (set<nat>, bool) {
    if line.None? then (tracked, false)
    else
      var m := line.value;
      if IsStart(m) then (tracked + {IdOf(m)}, true)
      else if m.action == "stop" then (tracked - {IdOf(m)}, IdOf(m) in tracked)
      else if m.action == "result" then (tracked, IdOf(m) in tracked && KeptResult(m.typeCode))
      else if m.action == "msg" then (tracked, m.level.Some? && m.level.value <= 1)
      else (tracked, false)
  }

  /** The tracked activities and the kept messages after a whole stream. */
  function Filtered(lines: seq<Option<Message>>): (r: (set<nat>, seq<Message>)) {
    if lines == [] then ({}, [])
    else
      var (tracked, kept) := Filtered(lines[..|lines| - 1]);
      var line := lines[|lines| - 1];
      var (next, keep) := RetainStep(tracked, line);
      (next, if keep && line.Some? then kept + [line.value] else kept)
  }

  function Id(m: Message): nat {
    match m.id
    case Some(n) => n
    case None => 0
  }

  /** What is worth keeping while these activities run: starts of builds, copies, transfers and
      substitutions; stops and phase, progress or diagnostic results of those; and messages of the
      two most severe levels. */
  predicate Wanted(running: set<nat>, m: Message) {
    || (m.action == "start" && m.typeCode.Some?
        && m.typeCode.value in {100, 101, 102, 103, 104, 105, 108, 110, 111, 112})
    || (m.action == "stop" && Id(m) in running)
    || (m.action == "result" && Id(m) in running && m.typeCode.Some?
        && m.typeCode.value in {102, 103, 104, 105, 106, 108})
    || (m.action == "msg" && m.level.Some? && m.level.value <= 1)
  }

  class BuildLogFilter {
    var activities: set<nat>

    constructor ()
      ensures activities == {}
    {
      activities := {};
    }

    method Retain(line: Option<Message>) returns (keep: bool)
      modifies this
      ensures (activities, keep) == RetainStep(old(activities), line)
      ensures keep <==> line.Some? && Wanted(old(activities), line.value)
      ensures forall id: nat :: id in activities <==>
                if line.Some? && Id(line.value) == id && line.value.action == "start" && keep then true
                else if line.Some? && Id(line.value) == id && line.value.action == "stop" then false
                else id in old(activities)
    {
      if line.None? {
        return false;
      }
      var m := line.value;
      var id := IdOf(m);
      if m.action == "start" && KeptActivity(m.typeCode) {
        activities := activities + {id};
        return true;
      } else if m.action == "stop" {
        keep := id in activities;
        activities := activities - {id};
      } else if m.action == "result" {
        return id in activities && KeptResult(m.typeCode);
      } else if m.action == "msg" {
        return m.level.Some? && m.level.value <= 1;
      } else {
        return false;
      }
    }
  }

  // ---- what is kept ----

  function AsLines(kept: seq<Message>): seq<Option<Message>> {
    seq(|kept|, i requires 0 <= i < |kept| => Some(kept[i]))
  }

  lemma AsLinesOneOn(kept: seq<Message>, m: Message)
    ensures AsLines(kept + [m])[..|AsLines(kept + [m])| - 1] == AsLines(kept)
    ensures AsLines(kept + [m])[|AsLines(kept + [m])| - 1] == Some(m)
  {
  }

  /** Filtering a filtered stream again, with a fresh filter, keeps everything and ends with the
      same tracked activities. */
  lemma {:induction false} FilteringTwiceChangesNothing(lines: seq<Option<Message>>)
    ensures Filtered(AsLines(Filtered(lines).1)) == Filtered(lines)
    decreases |lines|
  {
    if lines != [] {
      var before, line := lines[..|lines| - 1], lines[|lines| - 1];
      FilteringTwiceChangesNothing(before);
      var (tracked, kept) := Filtered(before);
      if RetainStep(tracked, line).1 {
        AsLinesOneOn(kept, line.value);
      } else {
        assert RetainStep(tracked, line).0 == tracked;
      }
    }
  }

  /** The activity's last start at or before `i` is at `j`, and it has not been stopped since. */
  predicate RunsSince(kept: seq<Message>, id: nat, j: nat, i: nat) {
    && j < i <= |kept|
    && IsStart(kept[j]) && IdOf(kept[j]) == id
    && forall k :: j < k < i ==> !(kept[k].action == "stop" && IdOf(kept[k]) == id)
  }

  ghost predicate Running(kept: seq<Message>, id: nat, i: nat) {
    exists j: nat :: RunsSince(kept, id, j, i)
  }

  lemma RunningOneOn(kept: seq<Message>, m: Message, id: nat)
    ensures Running(kept + [m], id, |kept| + 1) <==>
              (IsStart(m) && IdOf(m) == id)
              || (Running(kept, id, |kept|) && !(m.action == "stop" && IdOf(m) == id))
  {
    var longer := kept + [m];
    assert forall k :: 0 <= k < |kept| ==> longer[k] == kept[k];
    assert longer[|kept|] == m;
    if Running(longer, id, |kept| + 1) {
      var j: nat :| RunsSince(longer, id, j, |kept| + 1);
      if j < |kept| {
        assert RunsSince(kept, id, j, |kept|);
      }
    }
    if IsStart(m) && IdOf(m) == id {
      assert RunsSince(longer, id, |kept|, |kept| + 1);
    }
    if Running(kept, id, |kept|) && !(m.action == "stop" && IdOf(m) == id) {
      var j: nat :| RunsSince(kept, id, j, |kept|);
      assert RunsSince(longer, id, j, |kept| + 1);
    }
  }

  /** The filter tracks exactly the activities whose kept start has not been stopped: its set is
      empty once every kept start has been. */
  lemma {:induction false} TrackedAreTheRunning(lines: seq<Option<Message>>)
    ensures forall id: nat :: id in Filtered(lines).0 <==> Running(Filtered(lines).1, id, |Filtered(lines).1|)
    decreases |lines|
  {
    if lines != [] {
      var before, line := lines[..|lines| - 1], lines[|lines| - 1];
      TrackedAreTheRunning(before);
      var (tracked, kept) := Filtered(before);
      if RetainStep(tracked, line).1 {
        forall id: nat ensures id in Filtered(lines).0 <==> Running(kept + [line.value], id, |kept| + 1) {
          RunningOneOn(kept, line.value, id);
          assert |"start"| != |"stop"|;
          assert id in tracked <==> Running(kept, id, |kept|);
        }
        assert Filtered(lines).1 == kept + [line.value];
      } else {
        assert line.Some? && IdOf(line.value) !in tracked ==> tracked - {IdOf(line.value)} == tracked;
        assert Filtered(lines) == (tracked, kept);
      }
    }
  }

  /** Every kept stop and every kept result refers to an activity that is running there. */
  lemma {:induction false} KeptReferencesAreRunning(lines: seq<Option<Message>>, i: nat)
    requires i < |Filtered(lines).1|
    requires Filtered(lines).1[i].action == "stop" || Filtered(lines).1[i].action == "result"
    ensures Running(Filtered(lines).1, IdOf(Filtered(lines).1[i]), i)
    decreases |lines|
  {
    if lines != [] {
      var before, line := lines[..|lines| - 1], lines[|lines| - 1];
      var (tracked, kept) := Filtered(before);
      if i < |kept| {
        KeptReferencesAreRunning(before, i);
      } else {
        TrackedAreTheRunning(before);
      }
      var id := IdOf(Filtered(lines).1[i]);
      var j: nat :| RunsSince(kept, id, j, i);
      assert RunsSince(Filtered(lines).1, id, j, i);
    }
  }

  // ---- oversized strings ----

  /** `str::is_char_boundary`. */
  predicate IsCharBoundary(s: seq<Byte>, i: nat) {
    i == |s| || (i < |s| && !(0x80 <= s[i] <= 0xBF))
  }

  /** The bytes of the marker "… [truncated]". */
  const MARKER: seq<Byte> := [0xE2, 0x80, 0xA6, 32, 91, 116, 114, 117, 110, 99, 97, 116, 101, 100, 93]

  lemma CharHasTails(s: seq<Byte>, i: nat)
    requires s != [] && CharLen(s) > 0 && 0 < i < CharLen(s)
    ensures 0x80 <= s[i] <= 0xBF
  {
  }

  lemma CharLenOfPrefix(s: seq<Byte>, n: nat)
    requires s != [] && 0 < CharLen(s) <= n <= |s|
    ensures CharLen(s[..n]) == CharLen(s)
  {
  }

  /** Cut at a boundary, well-formed text stays well-formed on both sides. */
  lemma {:induction false} ValidAtBoundary(s: seq<Byte>, n: nat)
    requires Valid(s) && n <= |s| && IsCharBoundary(s, n)
    ensures Valid(s[..n]) && Valid(s[n..])
    decreases |s|
  {
    if n == 0 {
      assert s[..0] == [] && s[0..] == s;
    } else {
      var k := CharLen(s);
      if n < k {
        CharHasTails(s, n);
      }
      ValidAtBoundary(s[k..], n - k);
      CharLenOfPrefix(s, n);
      assert s[..n][k..] == s[k..][..n - k];
      assert s[k..][n - k..] == s[n..];
    }
  }

  lemma {:induction false} BoundaryIsNear(s: seq<Byte>, n: nat)
    requires Valid(s) && n <= |s|
    ensures exists k :: n - 3 <= k <= n && 0 <= k && IsCharBoundary(s, k)
    decreases |s|
  {
    if s == [] || n == 0 {
      assert s != [] ==> CharLen(s) > 0;
      assert IsCharBoundary(s, 0);
    } else {
      var c := CharLen(s);
      if n < c {
        assert IsCharBoundary(s, 0);
      } else {
        BoundaryIsNear(s[c..], n - c);
        var k :| n - c - 3 <= k <= n - c && 0 <= k && IsCharBoundary(s[c..], k);
        assert IsCharBoundary(s, k + c);
      }
    }
  }

  /** The last boundary at or below `n`. */
  function BoundaryAt(s: seq<Byte>, n: nat): (k: nat)
    requires n <= |s|
    ensures k <= n && forall i :: k < i <= n ==> !IsCharBoundary(s, i)
  {
    if n == 0 || IsCharBoundary(s, n) then n else BoundaryAt(s, n - 1)
  }

  /** An oversized string is cut at the last boundary within the limit, and marked. */
  function Bounded(text: seq<Byte>): seq<Byte> {
    if |text| <= MAX_STRING then text else text[..BoundaryAt(text, MAX_STRING)] + MARKER
  }

  /** The text up to the last boundary at or before the limit, and the marker. */
  predicate CutAt(text: seq<Byte>, end: nat, r: seq<Byte>) {
    && end <= |text| && r == text[..end] + MARKER && IsCharBoundary(text, end)
    && forall i :: end < i <= 8192 && i <= |text| ==> !IsCharBoundary(text, i)
  }

  /** What is left of a well-formed string is well-formed, at most the limit and the marker long,
      and shorter than the limit by less than one character. */
  lemma BoundedIsWellFormed(text: seq<Byte>)
    requires Valid(text)
    ensures Valid(Bounded(text)) && |Bounded(text)| <= MAX_STRING + |MARKER|
    ensures |text| <= 8192 ==> Bounded(text) == text
    ensures |text| > 8192 ==> exists end :: 8189 <= end <= 8192 && CutAt(text, end, Bounded(text))
  {
    if |text| > MAX_STRING {
      BoundaryIsNear(text, MAX_STRING);
      var end := BoundaryAt(text, MAX_STRING);
      BoundaryIsFound(text, MAX_STRING);
      ValidAtBoundary(text, end);
      JoinedWithMarker(text[..end]);
      assert CutAt(text, end, Bounded(text));
    }
  }

  lemma {:induction false} BoundaryIsFound(s: seq<Byte>, n: nat)
    requires Valid(s) && n <= |s|
    ensures IsCharBoundary(s, BoundaryAt(s, n))
    decreases n
  {
    if n == 0 {
      assert s != [] ==> CharLen(s) > 0;
    } else if !IsCharBoundary(s, n) {
      BoundaryIsFound(s, n - 1);
    }
  }

  /** Shortens an oversized string in place. */
  method BoundString(text: seq<Byte>) returns (r: seq<Byte>)
    requires Valid(text)
    ensures r == Bounded(text)
  {
    if |text| <= MAX_STRING {
      return text;
    }
    BoundaryIsFound(text, MAX_STRING);
    var end := MAX_STRING;
    while !IsCharBoundary(text, end)
      invariant 0 <= end <= MAX_STRING && BoundaryAt(text, MAX_STRING) == BoundaryAt(text, end)
      decreases end
    {
      end := end - 1;
    }
    r := text[..end] + MARKER;
  }

  lemma MarkerIsWellFormed()
    ensures Valid(MARKER)
  {
    assert CharLen(MARKER) == 3;
    AsciiPrefixIsValid(MARKER[3..], []);
    assert MARKER[3..] + [] == MARKER[3..];
  }

  lemma JoinedWithMarker(s: seq<Byte>)
    requires Valid(s)
    ensures Valid(s + MARKER)
  {
    MarkerIsWellFormed();
    ValidJoins(s, MARKER);
  }

  // ---- whole values ----

  datatype Json = Text(bytes: seq<Byte>) | List(items: seq<Json>) | Object(fields: seq<Field>) | Scalar

  datatype Field = Field(key: string, value: Json)

  /** `bound_strings`: every string in the value, however deep, and nothing else. */
  function BoundAll(j: Json): Json {
    match j
    case Text(bytes) => Text(Bounded(bytes))
    case List(items) => List(seq(|items|, i requires 0 <= i < |items| => BoundAll(items[i])))
    case Object(fields) =>
      Object(seq(|fields|, i requires 0 <= i < |fields| => Field(fields[i].key, BoundAll(fields[i].value))))
    case Scalar => Scalar
  }

  /** Every string in the value is well-formed and at most `limit` bytes long. */
  predicate Within(j: Json, limit: nat) {
    match j
    case Text(bytes) => Valid(bytes) && |bytes| <= limit
    case List(items) => forall i :: 0 <= i < |items| ==> Within(items[i], limit)
    case Object(fields) => forall i :: 0 <= i < |fields| ==> Within(fields[i].value, limit)
    case Scalar => true
  }

  /** No string of the bounded value is longer than the limit and the marker, and all stay UTF-8. */
  lemma {:induction false} BoundedValueFits(j: Json, limit: nat)
    requires Within(j, limit)
    ensures Within(BoundAll(j), MAX_STRING + |MARKER|)
  {
    match j
    case Text(bytes) => BoundedIsWellFormed(bytes);
    case List(items) =>
      forall i | 0 <= i < |items| ensures Within(BoundAll(items[i]), MAX_STRING + |MARKER|) {
        BoundedValueFits(items[i], limit);
      }
    case Object(fields) =>
      forall i | 0 <= i < |fields| ensures Within(BoundAll(fields[i].value), MAX_STRING + |MARKER|) {
        BoundedValueFits(fields[i].value, limit);
      }
    case Scalar =>
  }

  /** A value without oversized strings is left as it is. */
  lemma {:induction false} SmallValueIsUntouched(j: Json)
    requires Within(j, MAX_STRING)
    ensures BoundAll(j) == j
  {
    match j
    case Text(bytes) =>
    case List(items) =>
      forall i | 0 <= i < |items| ensures BoundAll(items[i]) == items[i] {
        SmallValueIsUntouched(items[i]);
      }
    case Object(fields) =>
      forall i | 0 <= i < |fields| ensures BoundAll(fields[i].value) == fields[i].value {
        SmallValueIsUntouched(fields[i].value);
      }
    case Scalar =>
  }
}
