/** What a host's state, lines and return code mean, told from the whole event history. */
module HostOutcome {
  import opened Wrappers
  import opened Events

  predicate Says(e: Event, name: string) {
    e.event == Some("milestone") && e.milestone == Some(name)
  }

  /** The state a milestone event names, if it names one. */
  function Named(e: Event): Option<HostState> {
    if Says(e, "eval") then Some(Evaluating)
    else if Says(e, "build") then Some(Building)
    else if Says(e, "copy") then Some(Copying)
    else if Says(e, "activate") then Some(Activating)
    else if Says(e, "wait") then Some(Waiting)
    else if Says(e, "confirm") then Some(Confirmed)
    else if Says(e, "reboot-pending") then Some(RebootPending)
    else if Says(e, "rollback") then Some(RolledBack)
    else None
  }

  lemma NamedIsFed(e: Event)
    requires e.event == Some("milestone")
    ensures Named(e) == MilestoneState(Text(e.milestone))
  {
  }

  predicate IsRollback(e: Event) {
    Says(e, "rollback")
  }

  predicate Ends(e: Event) {
    e.event == Some("status") && e.state == Some("done")
  }

  /** The verdict of an event that can end a host for good, rollbacks aside. */
  function Decides(e: Event): Option<HostState> {
    if Says(e, "confirm") then Some(Confirmed)
    else if Says(e, "reboot-pending") then Some(RebootPending)
    else if Ends(e) && e.rc.Some? && e.rc.value != 0 then Some(Failed)
    else None
  }

  predicate SomeRollback(events: seq<Event>) {
    exists i :: 0 <= i < |events| && IsRollback(events[i])
  }

  /** The first deciding event's verdict. */
  function FirstDecision(events: seq<Event>): Option<HostState> {
    if events == [] then None
    else if Decides(events[0]).Some? then Decides(events[0])
    else FirstDecision(events[1..])
  }

  /** The last recognised milestone, `Pending` before any. */
  function LastNamed(events: seq<Event>): HostState {
    if events == [] then Pending
    else if Named(events[|events| - 1]).Some? then Named(events[|events| - 1]).value
    else LastNamed(events[..|events| - 1])
  }

  lemma {:induction false} FirstDecisionOneOn(events: seq<Event>, e: Event)
    ensures FirstDecision(events + [e]) == if FirstDecision(events).Some? then FirstDecision(events) else Decides(e)
    decreases |events|
  {
    if events != [] {
      assert (events + [e])[1..] == events[1..] + [e];
      FirstDecisionOneOn(events[1..], e);
    } else {
      assert (events + [e])[1..] == [];
    }
  }

  lemma SomeRollbackOneOn(events: seq<Event>, e: Event)
    ensures SomeRollback(events + [e]) <==> SomeRollback(events) || IsRollback(e)
  {
    if SomeRollback(events) {
      var i :| 0 <= i < |events| && IsRollback(events[i]);
      assert (events + [e])[i] == events[i];
    }
    if IsRollback(e) {
      assert (events + [e])[|events|] == e;
    }
  }

  lemma {:induction false} LastNamedIsNotDecisive(events: seq<Event>)
    requires !SomeRollback(events) && FirstDecision(events).None?
    ensures !IsTerminal(LastNamed(events))
    decreases |events|
  {
    if events != [] {
      var before, e := events[..|events| - 1], events[|events| - 1];
      assert events == before + [e];
      FirstDecisionOneOn(before, e);
      SomeRollbackOneOn(before, e);
      LastNamedIsNotDecisive(before);
    }
  }

  lemma {:induction false} DecisionsAreTerminal(events: seq<Event>)
    ensures FirstDecision(events).Some? ==> FirstDecision(events).value in {Confirmed, RebootPending, Failed}
    decreases |events|
  {
    if events != [] {
      DecisionsAreTerminal(events[1..]);
    }
  }

  /** After any events a host is rolled back exactly when some rollback milestone occurred;
      otherwise the first confirm, reboot-pending or non-zero completion decides; otherwise the
      last recognised milestone, or pending. */
  lemma {:induction false} HostStateIsTheOutcome(events: seq<Event>)
    ensures FeedAll(NEW_HOST, events).state ==
            if SomeRollback(events) then RolledBack
            else if FirstDecision(events).Some? then FirstDecision(events).value
            else LastNamed(events)
    decreases |events|
  {
    if events != [] {
      var before, e := events[..|events| - 1], events[|events| - 1];
      assert events == before + [e];
      HostStateIsTheOutcome(before);
      FirstDecisionOneOn(before, e);
      SomeRollbackOneOn(before, e);
      DecisionsAreTerminal(before);
      if !SomeRollback(before) && FirstDecision(before).None? {
        LastNamedIsNotDecisive(before);
      }
      if e.event == Some("milestone") {
        NamedIsFed(e);
      }
    }
  }

  /** Every milestone's name, in order. */
  function AllMilestones(events: seq<Event>): seq<string> {
    if events == [] then []
    else
      var e := events[|events| - 1];
      AllMilestones(events[..|events| - 1]) + if e.event == Some("milestone") then [Text(e.milestone)] else []
  }

  /** The code of the last completion, if there was one. */
  function LastCode(events: seq<Event>): Option<int> {
    if events == [] then None
    else if Ends(events[|events| - 1]) then events[|events| - 1].rc
    else LastCode(events[..|events| - 1])
  }

  /** A host remembers every milestone, and the code of its last completion. */
  lemma {:induction false} HostRemembers(events: seq<Event>)
    ensures FeedAll(NEW_HOST, events).milestones == AllMilestones(events)
    ensures FeedAll(NEW_HOST, events).rc == LastCode(events)
    decreases |events|
  {
    if events != [] {
      HostRemembers(events[..|events| - 1]);
    }
  }

  datatype Counter = Built | Finished | Fetched | FetchedDone | Errors

  /** What a progress event says of a counter. */
  function Reported(e: Event, c: Counter): Option<int> {
    if e.event != Some("progress") then None
    else match c
      case Built => e.built
      case Finished => e.finished
      case Fetched => e.fetched
      case FetchedDone => e.fetchedDone
      case Errors => e.errors
  }

  function Shown(b: BuildView, c: Counter): int {
    match c
    case Built => b.built
    case Finished => b.finished
    case Fetched => b.fetched
    case FetchedDone => b.fetchedDone
    case Errors => b.errors
  }

  /** The last value reported for a counter, zero before any. */
  function LastCount(events: seq<Event>, c: Counter): int {
    if events == [] then 0
    else
      var reported := Reported(events[|events| - 1], c);
      if reported.Some? then reported.value else LastCount(events[..|events| - 1], c)
  }

  function LastCurrent(events: seq<Event>): string {
    if events == [] then ""
    else
      var e := events[|events| - 1];
      if e.event == Some("progress") && e.current.Some? then e.current.value else LastCurrent(events[..|events| - 1])
  }

  predicate SomeEnd(events: seq<Event>) {
    exists i :: 0 <= i < |events| && Ends(events[i])
  }

  /** The build pane shows the last value reported for each counter and the last current item. */
  lemma {:induction false} BuildShowsTheLastReport(events: seq<Event>, c: Counter)
    ensures Shown(FeedBuildAll(NEW_BUILD, events), c) == LastCount(events, c)
    ensures FeedBuildAll(NEW_BUILD, events).current == LastCurrent(events)
    decreases |events|
  {
    if events != [] {
      BuildShowsTheLastReport(events[..|events| - 1], c);
    }
  }

  /** It is done once some completion came, with the last one's code. */
  lemma {:induction false} BuildEnds(events: seq<Event>)
    ensures FeedBuildAll(NEW_BUILD, events).done <==> SomeEnd(events)
    ensures FeedBuildAll(NEW_BUILD, events).rc == LastCode(events)
    decreases |events|
  {
    if events != [] {
      var before, e := events[..|events| - 1], events[|events| - 1];
      BuildEnds(before);
      SomeEndOneOn(before, e);
      assert events == before + [e];
    }
  }

  lemma SomeEndOneOn(events: seq<Event>, e: Event)
    ensures SomeEnd(events + [e]) <==> SomeEnd(events) || Ends(e)
  {
    var longer := events + [e];
    if SomeEnd(events) {
      var i :| 0 <= i < |events| && Ends(events[i]);
      assert Ends(longer[i]);
    }
    if Ends(e) {
      assert Ends(longer[|events|]);
    }
  }

  /** Every line event's text, in order. */
  function AllLines(events: seq<Event>): seq<string> {
    if events == [] then []
    else
      var e := events[|events| - 1];
      AllLines(events[..|events| - 1]) + if e.event == Some("line") then [Text(e.line)] else []
  }

  function LastOf<T>(lines: seq<T>, cap: nat): seq<T> {
    if |lines| <= cap then lines else lines[|lines| - cap..]
  }

  /** The end of the list, at most `cap` long and shorter only if the list is. */
  lemma LastOfIsTheEnd<T>(lines: seq<T>, cap: nat)
    ensures var r := LastOf(lines, cap);
            |r| <= cap && |r| <= |lines| && (|r| == cap || |r| == |lines|) && r == lines[|lines| - |r|..]
  {
  }

  lemma PushKeepsLast<T>(lines: seq<T>, s: T, cap: nat)
    requires cap > 0
    ensures PushCapped(LastOf(lines, cap), s, cap) == LastOf(lines + [s], cap)
  {
  }

  lemma {:induction false} HostKeepsLastLines(events: seq<Event>)
    ensures FeedAll(NEW_HOST, events).lines == LastOf(AllLines(events), MAX_LINES)
    decreases |events|
  {
    if events != [] {
      var before, e := events[..|events| - 1], events[|events| - 1];
      HostKeepsLastLines(before);
      if e.event == Some("line") {
        PushKeepsLast(AllLines(before), Text(e.line), MAX_LINES);
      } else {
        assert AllLines(events) == AllLines(before);
      }
    }
  }

  lemma {:induction false} BuildKeepsLastLines(events: seq<Event>)
    ensures FeedBuildAll(NEW_BUILD, events).lines == LastOf(AllLines(events), BUILD_MAX_LINES)
    decreases |events|
  {
    if events != [] {
      var before, e := events[..|events| - 1], events[|events| - 1];
      BuildKeepsLastLines(before);
      if e.event == Some("line") {
        PushKeepsLast(AllLines(before), Text(e.line), BUILD_MAX_LINES);
      } else {
        assert AllLines(events) == AllLines(before);
      }
    }
  }

  // ---- the run's own return code ----

  predicate HasUnsuccessfulHost(hosts: map<string, HostView>) {
    exists name :: name in hosts && hosts[name].state in {Failed, RolledBack}
  }

  function EffectiveReturnCode(process: Option<int>, hosts: Option<map<string, HostView>>): Option<int> {
    match process
    case None => None
    case Some(rc) => Some(if rc == 0 && hosts.Some? && HasUnsuccessfulHost(hosts.value) then 1 else rc)
  }

  /** Every host after the events it was fed. */
  function Finals(histories: map<string, seq<Event>>): map<string, HostView> {
    map name | name in histories :: FeedAll(NEW_HOST, histories[name])
  }

  predicate EndsBadly(events: seq<Event>) {
    SomeRollback(events) || FirstDecision(events) == Some(Failed)
  }

  lemma UnsuccessfulIffEndsBadly(events: seq<Event>)
    ensures FeedAll(NEW_HOST, events).state in {Failed, RolledBack} <==> EndsBadly(events)
  {
    HostStateIsTheOutcome(events);
    DecisionsAreTerminal(events);
    if !SomeRollback(events) && FirstDecision(events).None? {
      LastNamedIsNotDecisive(events);
    }
  }

  /** Told from the events each host was fed: a clean process exit stays zero exactly when no
      host saw a rollback and no host's first decision is a failure; any other code is kept. */
  lemma ReturnCodeIsZeroIffNoHostFailed(process: int, histories: map<string, seq<Event>>)
    ensures EffectiveReturnCode(Some(process), Some(Finals(histories))) == Some(0) <==>
            process == 0 && forall name :: name in histories ==> !EndsBadly(histories[name])
    ensures process != 0 ==> EffectiveReturnCode(Some(process), Some(Finals(histories))) == Some(process)
  {
    var hosts := Finals(histories);
    forall name | name in histories ensures hosts[name].state in {Failed, RolledBack} <==> EndsBadly(histories[name]) {
      UnsuccessfulIffEndsBadly(histories[name]);
    }
    if name :| name in histories && EndsBadly(histories[name]) {
      assert name in hosts && hosts[name].state in {Failed, RolledBack};
    }
  }
}
