/** The byte-budgeted append log of one event stream (crates/mandala-core/src/runner.rs). */
module EventWriter {
  import opened Wrappers
  import opened BuildLog

  /** One record to emit. `size` is its serialized length with the newline, `notice` the length
      the cap notice would have now. A nixlog record carries its parsed line. */
  datatype Emission =
    | Nixlog(line: Option<Message>, size: nat, notice: nat)
    | Plain(terminal: bool, size: nat, notice: nat)

  predicate IsTerminal(e: Emission) {
    e.Plain? && e.terminal
  }

  datatype Written = Record(e: Emission) | Notice(size: nat)

  /** The writer, and what it has appended since it was opened. */
  datatype Stream = Stream(tracked: set<nat>, bytes: nat, truncated: bool, written: seq<Written>)

  const ROOM: nat := 1024
  /** What detail may take up. */
  const DETAIL: nat := BUILD_LOG_MAX_BYTES - TERMINAL_RESERVE - ROOM

  function Limit(e: Emission): nat {
    if IsTerminal(e) then BUILD_LOG_MAX_BYTES else BUILD_LOG_MAX_BYTES - TERMINAL_RESERVE
  }

  /** Whether the record reaches the budget check at all. */
  function Passes(tracked: set<nat>, e: Emission): (set<nat>, bool) {
    if e.Nixlog? then RetainStep(tracked, e.line) else (tracked, true)
  }

  predicate OverBudget(s: Stream, e: Emission) {
    (!IsTerminal(e) && s.truncated) || s.bytes + e.size > Limit(e) - ROOM
  }

  /** `emit_at` on the build stream. */
  function Emit(s: Stream, e: Emission): Stream {
    var (tracked, passes) := Passes(s.tracked, e);
    var t := s.(tracked := tracked);
    if !passes then t
    else if OverBudget(s, e) then
      if s.truncated then t
      else if s.bytes + e.notice <= BUILD_LOG_MAX_BYTES
      then t.(truncated := true, bytes := s.bytes + e.notice, written := s.written + [Notice(e.notice)])
      else t.(truncated := true)
    else t.(bytes := s.bytes + e.size, written := s.written + [Record(e)])
  }

  /** `emit_at` on any other stream: neither filter nor budget. */
  function EmitUnbounded(s: Stream, e: Emission): Stream {
    s.(bytes := s.bytes + e.size, written := s.written + [Record(e)])
  }

  function EmitAll(s: Stream, emissions: seq<Emission>): Stream {
    if emissions == [] then s
    else Emit(EmitAll(s, emissions[..|emissions| - 1]), emissions[|emissions| - 1])
  }

  /** A build stream opened with `found` bytes in it. */
  function Opened(found: nat): Stream {
    Stream({}, found, false, [])
  }

  class EventFile {
    const filter: BuildLogFilter?
    var bytes: nat
    var truncated: bool
    var written: seq<Written>

    constructor (build: bool, length: nat)
      ensures bytes == length && !truncated && written == []
      ensures filter != null <==> build
      ensures filter != null ==> fresh(filter) && filter.activities == {}
    {
      bytes, truncated, written := length, false, [];
      var f: BuildLogFilter? := null;
      if build {
        f := new BuildLogFilter();
      }
      filter := f;
    }

    ghost function State(): Stream
      reads this, filter
    {
      Stream(if filter == null then {} else filter.activities, bytes, truncated, written)
    }

    method Append(w: Written, size: nat)
      modifies this`bytes, this`written
      ensures bytes == old(bytes) + size && written == old(written) + [w]
    {
      written := written + [w];
      bytes := bytes + size;
    }

    method EmitAt(e: Emission)
      modifies this, filter
      ensures State() == if filter == null then EmitUnbounded(old(State()), e) else Emit(old(State()), e)
      ensures filter == null ==> written == old(written) + [Record(e)] && bytes == old(bytes) + e.size
    {
      if e.Nixlog? && filter != null {
        var keep := filter.Retain(e.line);
        if !keep {
          return;
        }
      }
      var terminal := IsTerminal(e);
      if filter != null {
        var limit := if terminal then BUILD_LOG_MAX_BYTES else BUILD_LOG_MAX_BYTES - TERMINAL_RESERVE;
        if (!terminal && truncated) || bytes + e.size > limit - ROOM {
          if !truncated {
            truncated := true;
            if bytes + e.notice <= BUILD_LOG_MAX_BYTES {
              Append(Notice(e.notice), e.notice);
            }
          }
          return;
        }
      }
      Append(Record(e), e.size);
    }
  }

  // ---- the budget ----

  function Notices(written: seq<Written>): nat {
    if written == [] then 0
    else Notices(written[..|written| - 1]) + if written[|written| - 1].Notice? then 1 else 0
  }

  function SizeOf(w: Written): nat {
    if w.Record? then w.e.size else w.size
  }

  function Total(written: seq<Written>): nat {
    if written == [] then 0 else Total(written[..|written| - 1]) + SizeOf(written[|written| - 1])
  }

  lemma OneOn<T>(s: seq<T>, x: T)
    ensures (s + [x])[..|s + [x]| - 1] == s && (s + [x])[|s + [x]| - 1] == x
  {
  }

  lemma EmitKeepsBudget(s: Stream, e: Emission)
    requires s.bytes <= BUILD_LOG_MAX_BYTES && Notices(s.written) <= (if s.truncated then 1 else 0)
    ensures Emit(s, e).bytes <= BUILD_LOG_MAX_BYTES
    ensures Notices(Emit(s, e).written) <= (if Emit(s, e).truncated then 1 else 0)
  {
    OneOn(s.written, Notice(e.notice));
    OneOn(s.written, Record(e));
  }

  lemma EmitKeepsTotal(s: Stream, e: Emission, found: nat)
    requires s.bytes == found + Total(s.written)
    ensures Emit(s, e).bytes == found + Total(Emit(s, e).written)
  {
    OneOn(s.written, Notice(e.notice));
    OneOn(s.written, Record(e));
  }

  /** A build stream opened at or under sixteen MiB never exceeds it, its size is what was there
      plus everything written since, and each writer leaves at most one cap notice. */
  lemma {:induction false} StreamStaysInBudget(found: nat, emissions: seq<Emission>)
    requires found <= BUILD_LOG_MAX_BYTES
    ensures var s := EmitAll(Opened(found), emissions);
            && s.bytes == found + Total(s.written) <= BUILD_LOG_MAX_BYTES
            && Notices(s.written) <= (if s.truncated then 1 else 0)
    decreases |emissions|
  {
    if emissions != [] {
      var before, e := emissions[..|emissions| - 1], emissions[|emissions| - 1];
      StreamStaysInBudget(found, before);
      EmitKeepsBudget(EmitAll(Opened(found), before), e);
      EmitKeepsTotal(EmitAll(Opened(found), before), e, found);
    }
  }

  // ---- what is lost, and what is not ----

  /** The non-terminal records among what was written, in order. */
  function DetailOf(written: seq<Written>): seq<Emission> {
    if written == [] then []
    else
      var w := written[|written| - 1];
      DetailOf(written[..|written| - 1]) + if w.Record? && !IsTerminal(w.e) then [w.e] else []
  }

  /** The non-terminal records that pass a fresh filter, in order, and what it then tracks. */
  function Filtrate(emissions: seq<Emission>): (set<nat>, seq<Emission>) {
    if emissions == [] then ({}, [])
    else
      var (tracked, kept) := Filtrate(emissions[..|emissions| - 1]);
      var e := emissions[|emissions| - 1];
      var (next, passes) := Passes(tracked, e);
      (next, if passes && !IsTerminal(e) then kept + [e] else kept)
  }

  lemma DetailOneOn(written: seq<Written>, w: Written)
    ensures DetailOf(written + [w]) ==
            if w.Record? && !IsTerminal(w.e) then DetailOf(written) + [w.e] else DetailOf(written)
  {
    OneOn(written, w);
  }

  /** Everything written of the filtrate so far, or a prefix of it once the cap was reached. */
  predicate DetailOk(s: Stream, tracked: set<nat>, kept: seq<Emission>) {
    && s.tracked == tracked
    && DetailOf(s.written) <= kept
    && (!s.truncated ==> DetailOf(s.written) == kept)
  }

  lemma EmitKeepsDetail(s: Stream, e: Emission, tracked: set<nat>, kept: seq<Emission>)
    requires DetailOk(s, tracked, kept)
    ensures var (next, passes) := Passes(tracked, e);
            DetailOk(Emit(s, e), next, if passes && !IsTerminal(e) then kept + [e] else kept)
  {
    DetailOneOn(s.written, Record(e));
    DetailOneOn(s.written, Notice(e.notice));
  }

  /** The non-terminal records written are a prefix of those that pass the filter, all of them
      until the cap is reached: detail is cut off once and never resumes. */
  lemma {:induction false} DetailIsAPrefix(found: nat, emissions: seq<Emission>)
    ensures DetailOk(EmitAll(Opened(found), emissions), Filtrate(emissions).0, Filtrate(emissions).1)
    decreases |emissions|
  {
    if emissions != [] {
      var before, e := emissions[..|emissions| - 1], emissions[|emissions| - 1];
      DetailIsAPrefix(found, before);
      EmitKeepsDetail(EmitAll(Opened(found), before), e, Filtrate(before).0, Filtrate(before).1);
    }
  }

  /** The records that a fresh filter lets through, terminal ones and detail in one order. */
  function LetThrough(emissions: seq<Emission>): (set<nat>, seq<Emission>) {
    if emissions == [] then ({}, [])
    else
      var (tracked, kept) := LetThrough(emissions[..|emissions| - 1]);
      var e := emissions[|emissions| - 1];
      var (next, passes) := Passes(tracked, e);
      (next, if passes then kept + [e] else kept)
  }

  function Records(emissions: seq<Emission>): seq<Written> {
    seq(|emissions|, i requires 0 <= i < |emissions| => Record(emissions[i]))
  }

  /** As long as everything wanted fits in front of the reserve, everything wanted is written. */
  lemma {:induction false} NothingIsLostUnderTheCap(found: nat, emissions: seq<Emission>)
    requires found + Sum(LetThrough(emissions).1) <= DETAIL
    ensures var s := EmitAll(Opened(found), emissions);
            && s.written == Records(LetThrough(emissions).1) && s.bytes == found + Sum(LetThrough(emissions).1)
            && !s.truncated && s.tracked == LetThrough(emissions).0
    decreases |emissions|
  {
    if emissions != [] {
      var before, e := emissions[..|emissions| - 1], emissions[|emissions| - 1];
      var kept := LetThrough(before).1;
      OneOn(kept, e);
      assert Records(kept + [e]) == Records(kept) + [Record(e)];
      NothingIsLostUnderTheCap(found, before);
    }
  }

  /** A record passes the filter unless it is a log line the build filter does not want. */
  lemma WhatPasses(tracked: set<nat>, e: Emission)
    ensures Passes(tracked, e).1 <==> e.Plain? || (e.line.Some? && BuildLog.Wanted(tracked, e.line.value))
  {
  }

  /** The terminal records among what was written, in order. */
  function FinalsOf(written: seq<Written>): seq<Emission> {
    if written == [] then []
    else
      var w := written[|written| - 1];
      FinalsOf(written[..|written| - 1]) + if w.Record? && IsTerminal(w.e) then [w.e] else []
  }

  function Finals(emissions: seq<Emission>): seq<Emission> {
    if emissions == [] then []
    else
      var e := emissions[|emissions| - 1];
      Finals(emissions[..|emissions| - 1]) + if IsTerminal(e) then [e] else []
  }

  function Sum(emissions: seq<Emission>): nat {
    if emissions == [] then 0 else Sum(emissions[..|emissions| - 1]) + emissions[|emissions| - 1].size
  }

  function NoticeBytes(written: seq<Written>): nat {
    if written == [] then 0
    else
      var w := written[|written| - 1];
      NoticeBytes(written[..|written| - 1]) + if w.Notice? then w.size else 0
  }

  lemma WrittenOneOn(written: seq<Written>, w: Written)
    ensures FinalsOf(written + [w]) ==
            if w.Record? && IsTerminal(w.e) then FinalsOf(written) + [w.e] else FinalsOf(written)
    ensures NoticeBytes(written + [w]) == NoticeBytes(written) + if w.Notice? then w.size else 0
  {
    OneOn(written, w);
  }

  /** Terminal records find their reserve: detail stops short of it, so only terminal records and
      the notice have used any of it. */
  predicate ReserveOk(s: Stream, finals: seq<Emission>, n: nat) {
    && FinalsOf(s.written) == finals
    && s.bytes <= BUILD_LOG_MAX_BYTES - TERMINAL_RESERVE - ROOM + Sum(finals) + NoticeBytes(s.written)
    && NoticeBytes(s.written) <= (if s.truncated then n else 0)
  }

  lemma EmitKeepsReserve(s: Stream, e: Emission, finals: seq<Emission>, n: nat)
    requires ReserveOk(s, finals, n) && e.notice <= n
    requires IsTerminal(e) ==> Sum(finals) + e.size + n <= TERMINAL_RESERVE
    ensures ReserveOk(Emit(s, e), if IsTerminal(e) then finals + [e] else finals, n)
  {
    WrittenOneOn(s.written, Record(e));
    WrittenOneOn(s.written, Notice(e.notice));
    OneOn(finals, e);
  }

  /** From an empty file every terminal record is written, in order, as long as the terminal
      records and the notice together fit the 64 KiB reserve, however much detail there was. */
  lemma {:induction false} TerminalRecordsAreKept(emissions: seq<Emission>, n: nat)
    requires forall i :: 0 <= i < |emissions| ==> emissions[i].notice <= n
    requires Sum(Finals(emissions)) + n <= TERMINAL_RESERVE
    ensures FinalsOf(EmitAll(Opened(0), emissions).written) == Finals(emissions)
    ensures ReserveOk(EmitAll(Opened(0), emissions), Finals(emissions), n)
    decreases |emissions|
  {
    if emissions != [] {
      var before, e := emissions[..|emissions| - 1], emissions[|emissions| - 1];
      OneOn(Finals(before), e);
      assert Finals(emissions) == if IsTerminal(e) then Finals(before) + [e] else Finals(before);
      TerminalRecordsAreKept(before, n);
      EmitKeepsReserve(EmitAll(Opened(0), before), e, Finals(before), n);
    }
  }

  // ---- the reserve is exact ----

  /** However much detail surrounds them, these terminal records are all written, while no notice
      is longer than `n`. */
  ghost predicate AlwaysKept(finals: seq<Emission>, n: nat) {
    forall emissions :: Surrounds(emissions, finals, n) ==> FinalsOf(EmitAll(Opened(0), emissions).written) == finals
  }

  ghost predicate Surrounds(emissions: seq<Emission>, finals: seq<Emission>, n: nat) {
    Finals(emissions) == finals && forall i :: 0 <= i < |emissions| ==> emissions[i].notice <= n
  }

  /** The length of an ordinary record, a line of log with its envelope. */
  const RECORD: nat := 1024

  predicate OrdinaryDetail(emissions: seq<Emission>) {
    forall i :: 0 <= i < |emissions| && !IsTerminal(emissions[i]) ==> emissions[i].size == RECORD
  }

  /** The same, with detail of ordinary size only. */
  ghost predicate KeptInOrdinaryDetail(finals: seq<Emission>, n: nat) {
    forall emissions :: Surrounds(emissions, finals, n) && OrdinaryDetail(emissions) ==>
                          FinalsOf(EmitAll(Opened(0), emissions).written) == finals
  }

  function Details(k: nat, n: nat): seq<Emission> {
    seq(k, i => Plain(false, RECORD, n))
  }

  lemma {:induction false} DetailsFit(k: nat, n: nat)
    requires k * RECORD <= DETAIL
    ensures var s := EmitAll(Opened(0), Details(k, n));
            !s.truncated && s.bytes == k * RECORD && FinalsOf(s.written) == []
    ensures Finals(Details(k, n)) == []
    decreases k
  {
    if k > 0 {
      var before, e := Details(k - 1, n), Plain(false, RECORD, n);
      assert Details(k, n) == before + [e];
      DetailsFit(k - 1, n);
      EmitAllOneOn(Opened(0), before, e);
      FinalsOneOn(before, e);
      DetailFits(EmitAll(Opened(0), before), e);
    }
  }

  lemma DetailFits(s: Stream, e: Emission)
    requires !s.truncated && FinalsOf(s.written) == [] && e.Plain? && !e.terminal && s.bytes + e.size <= DETAIL
    ensures var t := Emit(s, e); !t.truncated && t.bytes == s.bytes + e.size && FinalsOf(t.written) == []
  {
    WrittenOneOn(s.written, Record(e));
  }

  /** What as much detail as fits, and one record more, leave: a truncated file with the notice
      behind the detail. */
  lemma DetailsFill(k: nat, n: nat)
    requires k * RECORD == DETAIL && n <= TERMINAL_RESERVE + ROOM
    ensures var s := EmitAll(Opened(0), Details(k + 1, n));
            s.truncated && s.bytes == DETAIL + n && FinalsOf(s.written) == []
    ensures Finals(Details(k + 1, n)) == []
  {
    var most, e := Details(k, n), Plain(false, RECORD, n);
    assert Details(k + 1, n) == most + [e];
    DetailsFit(k, n);
    EmitAllOneOn(Opened(0), most, e);
    FinalsOneOn(most, e);
    DetailOverflows(EmitAll(Opened(0), most), e, n);
  }

  lemma DetailOverflows(s: Stream, e: Emission, n: nat)
    requires !s.truncated && FinalsOf(s.written) == [] && s.bytes == DETAIL && n <= TERMINAL_RESERVE + ROOM
    requires e.Plain? && !e.terminal && e.size > 0 && e.notice == n
    ensures var t := Emit(s, e); t.truncated && t.bytes == DETAIL + n && FinalsOf(t.written) == []
  {
    WrittenOneOn(s.written, Notice(n));
  }

  lemma EmitAllOneOn(s: Stream, emissions: seq<Emission>, e: Emission)
    ensures EmitAll(s, emissions + [e]) == Emit(EmitAll(s, emissions), e)
  {
    OneOn(emissions, e);
  }

  lemma FinalsOneOn(emissions: seq<Emission>, e: Emission)
    ensures Finals(emissions + [e]) == if IsTerminal(e) then Finals(emissions) + [e] else Finals(emissions)
  {
    OneOn(emissions, e);
  }

  /** Behind the detail terminal records are written while they fit what is left. */
  predicate FillsUp(s: Stream, finals: seq<Emission>, n: nat) {
    && s.truncated && |FinalsOf(s.written)| <= |finals|
    && (|FinalsOf(s.written)| == |finals| ==>
          s.bytes == DETAIL + n + Sum(finals) && (finals != [] ==> s.bytes <= BUILD_LOG_MAX_BYTES - ROOM))
  }

  lemma EmitFillsUp(s: Stream, finals: seq<Emission>, e: Emission, n: nat)
    requires FillsUp(s, finals, n) && IsTerminal(e)
    ensures FillsUp(Emit(s, e), finals + [e], n)
  {
    WrittenOneOn(s.written, Record(e));
    OneOn(finals, e);
  }

  lemma {:induction false} KeptFitTheReserve(detail: seq<Emission>, n: nat, finals: seq<Emission>)
    requires FillsUp(EmitAll(Opened(0), detail), [], n) && Finals(detail) == []
    requires forall i :: 0 <= i < |finals| ==> IsTerminal(finals[i])
    ensures FillsUp(EmitAll(Opened(0), detail + finals), finals, n) && Finals(detail + finals) == finals
    decreases |finals|
  {
    if finals == [] {
      assert detail + finals == detail;
    } else {
      var before, e := finals[..|finals| - 1], finals[|finals| - 1];
      assert finals == before + [e] && detail + finals == (detail + before) + [e];
      KeptFitTheReserve(detail, n, before);
      EmitAllOneOn(Opened(0), detail + before, e);
      FinalsOneOn(detail + before, e);
      EmitFillsUp(EmitAll(Opened(0), detail + before), before, e, n);
    }
  }

  lemma DetailInFront(k: nat, m: nat, n: nat, finals: seq<Emission>)
    requires m <= n && forall i :: 0 <= i < |finals| ==> IsTerminal(finals[i]) && finals[i].notice <= n
    ensures forall i :: 0 <= i < |Details(k, m) + finals| ==> (Details(k, m) + finals)[i].notice <= n
    ensures OrdinaryDetail(Details(k, m) + finals)
  {
    var emissions := Details(k, m) + finals;
    forall i | 0 <= i < |emissions|
      ensures emissions[i].notice <= n && (IsTerminal(emissions[i]) || emissions[i].size == RECORD)
    {
      assert i < k ==> emissions[i] == Details(k, m)[i];
      assert i >= k ==> emissions[i] == finals[i - k];
    }
  }

  /** For every total past the reserve some detail of ordinary size makes a terminal record go
      missing. */
  lemma ExcessCanBeLost(finals: seq<Emission>, n: nat) returns (emissions: seq<Emission>)
    requires finals != [] && forall i :: 0 <= i < |finals| ==> IsTerminal(finals[i]) && finals[i].notice <= n
    requires Sum(finals) + n > TERMINAL_RESERVE
    ensures Surrounds(emissions, finals, n) && OrdinaryDetail(emissions)
    ensures |FinalsOf(EmitAll(Opened(0), emissions).written)| < |finals|
  {
    var m := if n <= TERMINAL_RESERVE then n else TERMINAL_RESERVE + 1;
    assert (DETAIL / RECORD) * RECORD == DETAIL;
    var k: nat :| k * RECORD == DETAIL;
    emissions := Details(k + 1, m) + finals;
    DetailInFront(k + 1, m, n, finals);
    DetailsFill(k, m);
    KeptFitTheReserve(Details(k + 1, m), m, finals);
  }

  /** Terminal records are safe from any amount of detail exactly when they and the notice fit the
      64 KiB reserve together, and it takes no unusual detail to lose them otherwise. */
  lemma ReserveIsExact(finals: seq<Emission>, n: nat)
    requires finals != [] && forall i :: 0 <= i < |finals| ==> IsTerminal(finals[i]) && finals[i].notice <= n
    ensures AlwaysKept(finals, n) <==> Sum(finals) + n <= TERMINAL_RESERVE
    ensures KeptInOrdinaryDetail(finals, n) <==> Sum(finals) + n <= TERMINAL_RESERVE
  {
    if Sum(finals) + n <= TERMINAL_RESERVE {
      forall emissions | Surrounds(emissions, finals, n)
        ensures FinalsOf(EmitAll(Opened(0), emissions).written) == finals
      {
        TerminalRecordsAreKept(emissions, n);
      }
    } else {
      var emissions := ExcessCanBeLost(finals, n);
      assert Surrounds(emissions, finals, n);
    }
  }
}
