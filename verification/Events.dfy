/** Parsed run events, and the host and build models they drive
    (crates/mandala-core/src/runner.rs). */
module Events {
  import opened Wrappers

  /** The fields a reader looks at; `None` is a field that is absent or of another type. */
  datatype Event = Event(
    v: Option<int>, event: Option<string>, plugin: Option<string>, host: Option<string>,
    line: Option<string>, milestone: Option<string>, state: Option<string>, rc: Option<int>,
    built: Option<int>, finished: Option<int>, fetched: Option<int>, fetchedDone: Option<int>,
    errors: Option<int>, current: Option<string>)

  const MAX_LINES: nat := 2000
  const BUILD_MAX_LINES: nat := 200

  datatype HostState =
    | Pending | Evaluating | Building | Copying | Activating | Waiting
    | Confirmed | RebootPending | RolledBack | Failed

  predicate VersionSupported(v: Option<int>) {
    v == Some(1) || v == Some(2)
  }

  function MilestoneState(name: string): Option<HostState> {
    if name == "eval" then Some(Evaluating)
    else if name == "build" then Some(Building)
    else if name == "copy" then Some(Copying)
    else if name == "activate" then Some(Activating)
    else if name == "wait" then Some(Waiting)
    else if name == "confirm" then Some(Confirmed)
    else if name == "reboot-pending" then Some(RebootPending)
    else if name == "rollback" then Some(RolledBack)
    else None
  }

  predicate IsTerminal(s: HostState) {
    s in {Confirmed, RebootPending, RolledBack, Failed}
  }

  /** `get(..).and_then(as_str).unwrap_or("")`. */
  function Text(field: Option<string>): string {
    if field.Some? then field.value else ""
  }

  predicate IsDone(e: Event) {
    e.event == Some("status") && e.state == Some("done")
  }

  predicate NonZero(rc: Option<int>) {
    rc.Some? && rc.value != 0
  }

  function PushCapped<T>(lines: seq<T>, s: T, cap: nat): seq<T> {
    (if |lines| >= cap && |lines| > 0 then lines[1..] else lines) + [s]
  }

  /** What a host looks like to its observers. */
  datatype HostView = HostView(state: HostState, lines: seq<string>, milestones: seq<string>, rc: Option<int>)

  const NEW_HOST := HostView(Pending, [], [], None)

  function FeedHost(h: HostView, e: Event): HostView {
    if e.event == Some("line") then h.(lines := PushCapped(h.lines, Text(e.line), MAX_LINES))
    else if e.event == Some("milestone") then
      var next := MilestoneState(Text(e.milestone));
      h.(milestones := h.milestones + [Text(e.milestone)],
         state := if next.Some? && !IsTerminal(h.state) then next.value
                  else if next == Some(RolledBack) then RolledBack
                  else h.state)
    else if IsDone(e) then
      h.(rc := e.rc, state := if NonZero(e.rc) && !IsTerminal(h.state) then Failed else h.state)
    else h
  }

  function FeedAll(h: HostView, events: seq<Event>): HostView {
    if events == [] then h else FeedHost(FeedAll(h, events[..|events| - 1]), events[|events| - 1])
  }

  /** One host as the program keeps it, fields updated in place. */
  class HostRun {
    var state: HostState
    var lines: seq<string>
    var milestones: seq<string>
    var rc: Option<int>

    function View(): HostView
      reads this
    {
      HostView(state, lines, milestones, rc)
    }

    constructor ()
      ensures View() == NEW_HOST
    {
      state, lines, milestones, rc := Pending, [], [], None;
    }

    method PushLine(s: string)
      modifies this`lines
      ensures lines == PushCapped(old(lines), s, MAX_LINES)
    {
      if |lines| >= MAX_LINES {
        lines := lines[1..];
      }
      lines := lines + [s];
    }

    method Feed(e: Event)
      modifies this
      ensures View() == FeedHost(old(View()), e)
    {
      if e.event == Some("line") {
        PushLine(Text(e.line));
      } else if e.event == Some("milestone") {
        var name := Text(e.milestone);
        milestones := milestones + [name];
        var next := MilestoneState(name);
        if next.Some? && !IsTerminal(state) {
          state := next.value;
        } else if next == Some(RolledBack) {
          state := RolledBack;
        }
      } else if IsDone(e) {
        rc := e.rc;
        if NonZero(rc) && !IsTerminal(state) {
          state := Failed;
        }
      }
    }
  }

  // ---- the build model ----

  datatype BuildView = BuildView(
    built: int, finished: int, fetched: int, fetchedDone: int, errors: int, current: string,
    lines: seq<string>, done: bool, rc: Option<int>)

  const NEW_BUILD := BuildView(0, 0, 0, 0, 0, "", [], false, None)

  function Or(field: Option<int>, present: int): int {
    if field.Some? then field.value else present
  }

  function FeedBuild(b: BuildView, e: Event): BuildView {
    if e.event == Some("progress") then
      b.(built := Or(e.built, b.built), finished := Or(e.finished, b.finished), fetched := Or(e.fetched, b.fetched),
         fetchedDone := Or(e.fetchedDone, b.fetchedDone), errors := Or(e.errors, b.errors),
         current := if e.current.Some? then e.current.value else b.current)
    else if e.event == Some("line") then b.(lines := PushCapped(b.lines, Text(e.line), BUILD_MAX_LINES))
    else if IsDone(e) then b.(done := true, rc := e.rc)
    else b
  }

  function FeedBuildAll(b: BuildView, events: seq<Event>): BuildView {
    if events == [] then b else FeedBuild(FeedBuildAll(b, events[..|events| - 1]), events[|events| - 1])
  }

  /** The build pane's data as the program keeps it. */
  class BuildModel {
    var built: int
    var finished: int
    var fetched: int
    var fetchedDone: int
    var errors: int
    var current: string
    var lines: seq<string>
    var done: bool
    var rc: Option<int>

    function View(): BuildView
      reads this
    {
      BuildView(built, finished, fetched, fetchedDone, errors, current, lines, done, rc)
    }

    constructor ()
      ensures View() == NEW_BUILD
    {
      built, finished, fetched, fetchedDone, errors := 0, 0, 0, 0, 0;
      current, lines, done, rc := "", [], false, None;
    }

    method Feed(e: Event)
      modifies this
      ensures View() == FeedBuild(old(View()), e)
    {
      if e.event == Some("progress") {
        if e.built.Some? {
          built := e.built.value;
        }
        if e.finished.Some? {
          finished := e.finished.value;
        }
        if e.fetched.Some? {
          fetched := e.fetched.value;
        }
        if e.fetchedDone.Some? {
          fetchedDone := e.fetchedDone.value;
        }
        if e.errors.Some? {
          errors := e.errors.value;
        }
        if e.current.Some? {
          current := e.current.value;
        }
      } else if e.event == Some("line") {
        if |lines| >= BUILD_MAX_LINES {
          lines := lines[1..];
        }
        lines := lines + [Text(e.line)];
      } else if IsDone(e) {
        done := true;
        rc := e.rc;
      }
    }
  }
}
