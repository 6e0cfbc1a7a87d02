/** The incremental reader of a run's event files (crates/mandala-core/src/runner.rs). */
module Tailer {
  import opened Wrappers
  import opened Utf8
  import opened Tail
  import opened Events
  import Order

  /** The JSON reader: `None` for a line that is no JSON object. */
  type Parser = seq<Byte> -> Option<Event>

  /** One line handed to `route`, with the file it was read from. */
  datatype Routed = Routed(file: string, line: seq<Byte>)

  /** Where `route` sends a record. */
  datatype Target = ToNixlog | ToBuild | ToHost(name: string) | Nowhere

  function TargetOf(e: Option<Event>): Target {
    if e.None? || !VersionSupported(e.value.v) then Nowhere
    else if e.value.event == Some("nixlog") then ToNixlog
    else if e.value.plugin == Some("build") then ToBuild
    else if e.value.host.Some? && e.value.host.value != "" then ToHost(e.value.host.value)
    else Nowhere
  }

  /** The events of a log that go to one target, in order. */
  function EventsFor(parse: Parser, log: seq<Routed>, target: Target): seq<Event>
    requires target != Nowhere
  {
    if log == [] then []
    else
      var e := parse(log[|log| - 1].line);
      EventsFor(parse, log[..|log| - 1], target) + if TargetOf(e) == target then [e.value] else []
  }

  function Texts(events: seq<Event>): seq<string> {
    if events == [] then []
    else Texts(events[..|events| - 1]) + [Text(events[|events| - 1].line)]
  }

  /** The log's lines that came from one file, in order. */
  function LinesOf(log: seq<Routed>, file: string): seq<seq<Byte>> {
    if log == [] then []
    else LinesOf(log[..|log| - 1], file) + if log[|log| - 1].file == file then [log[|log| - 1].line] else []
  }

  function Tagged(file: string, lines: seq<seq<Byte>>): seq<Routed> {
    seq(|lines|, i requires 0 <= i < |lines| => Routed(file, lines[i]))
  }

  /** What is left of a file past an offset; reading past its end finds nothing. */
  function Rest(content: seq<Byte>, offset: nat): seq<Byte> {
    if offset <= |content| then content[offset..] else []
  }

  function OffsetOf(offsets: map<string, nat>, file: string): nat {
    if file in offsets then offsets[file] else 0
  }

  datatype Read = Eof | Partial | Invalid | Line(line: seq<Byte>)

  /** One `read_line` at the start of `s`. */
  function ReadLine(s: seq<Byte>): Read {
    if s == [] then Eof
    else match LineEnd(s)
      case None => if Valid(s) then Partial else Invalid
      case Some(n) => if Valid(s[..n]) then Line(s[..n]) else Invalid
  }

  lemma EventsForOneOn(parse: Parser, log: seq<Routed>, r: Routed, target: Target)
    requires target != Nowhere
    ensures TargetOf(parse(r.line)) == target ==>
              EventsFor(parse, log + [r], target) == EventsFor(parse, log, target) + [parse(r.line).value]
    ensures TargetOf(parse(r.line)) != target ==> EventsFor(parse, log + [r], target) == EventsFor(parse, log, target)
  {
    assert (log + [r])[..|log + [r]| - 1] == log;
  }

  /** Everything a frontend can see of a tailed run. */
  datatype RunView = RunView(hosts: map<string, HostView>, build: BuildView, nixlog: seq<string>)

  const NEW_RUN := RunView(map[], NEW_BUILD, [])

  function HostOf(v: RunView, name: string): HostView {
    if name in v.hosts then v.hosts[name] else NEW_HOST
  }

  function RouteView(v: RunView, e: Option<Event>): RunView {
    match TargetOf(e)
    case Nowhere => v
    case ToNixlog => v.(nixlog := v.nixlog + [Text(e.value.line)])
    case ToBuild => v.(build := FeedBuild(v.build, e.value))
    case ToHost(name) => v.(hosts := v.hosts[name := FeedHost(HostOf(v, name), e.value)])
  }

  lemma RoutedHosts(v: RunView, name: string, e: Event)
    requires TargetOf(Some(e)) == ToHost(name)
    ensures RouteView(v, Some(e)) ==
            v.(hosts := v.hosts[name := HostOf(v, name)][name := FeedHost(HostOf(v, name), e)])
  {
  }

  /** A record of a version this reader understands. */
  predicate Understood(e: Option<Event>) {
    e.Some? && e.value.v in {Some(1), Some(2)}
  }

  predicate ForTheBuild(e: Event) {
    e.event != Some("nixlog") && e.plugin == Some("build")
  }

  predicate ForAHost(e: Event, name: string) {
    e.event != Some("nixlog") && e.plugin != Some("build") && e.host == Some(name) && name != ""
  }

  /** A nixlog record goes to the log, any other of the build plugin to the build, any other that
      names a host to that host, and the rest nowhere. */
  lemma RecordsGoWhereTheySay(v: RunView, e: Option<Event>)
    ensures var w := RouteView(v, e);
            && w.nixlog == (if Understood(e) && e.value.event == Some("nixlog")
                            then v.nixlog + [if e.value.line.Some? then e.value.line.value else ""] else v.nixlog)
            && w.build == (if Understood(e) && ForTheBuild(e.value) then FeedBuild(v.build, e.value) else v.build)
            && forall name :: name !in w.hosts || !(Understood(e) && ForAHost(e.value, name)) ==>
                 (name in w.hosts <==> name in v.hosts) && (name in v.hosts ==> w.hosts[name] == v.hosts[name])
    ensures forall name :: Understood(e) && ForAHost(e.value, name) ==>
              name in RouteView(v, e).hosts && RouteView(v, e).hosts[name] == FeedHost(HostOf(v, name), e.value)
  {
  }

  /** The host is exactly the fold of its own events, and is listed as soon as it has one. */
  predicate HostFolds(parse: Parser, log: seq<Routed>, v: RunView, name: string) {
    var events := EventsFor(parse, log, ToHost(name));
    && (name in v.hosts <==> events != [])
    && HostOf(v, name) == FeedAll(NEW_HOST, events)
  }

  ghost predicate Folds(parse: Parser, log: seq<Routed>, v: RunView) {
    && (forall name :: HostFolds(parse, log, v, name))
    && v.build == FeedBuildAll(NEW_BUILD, EventsFor(parse, log, ToBuild))
    && v.nixlog == Texts(EventsFor(parse, log, ToNixlog))
  }

  lemma DropLast<T>(s: seq<T>, x: T)
    ensures (s + [x])[..|s + [x]| - 1] == s
  {
  }

  /** Routing a record feeds the host it names and leaves every other host as it was. */
  lemma RouteFeedsOneHost(v: RunView, e: Option<Event>, name: string)
    ensures TargetOf(e) == ToHost(name) ==>
              name in RouteView(v, e).hosts && HostOf(RouteView(v, e), name) == FeedHost(HostOf(v, name), e.value)
    ensures TargetOf(e) != ToHost(name) ==>
              (name in RouteView(v, e).hosts <==> name in v.hosts) && HostOf(RouteView(v, e), name) == HostOf(v, name)
  {
  }

  lemma FeedAllOneOn(events: seq<Event>, e: Event)
    ensures FeedAll(NEW_HOST, events + [e]) == FeedHost(FeedAll(NEW_HOST, events), e)
  {
    DropLast(events, e);
  }

  lemma HostFoldsOneOn(parse: Parser, log: seq<Routed>, v: RunView, r: Routed, name: string)
    requires HostFolds(parse, log, v, name)
    ensures HostFolds(parse, log + [r], RouteView(v, parse(r.line)), name)
  {
    EventsForOneOn(parse, log, r, ToHost(name));
    RouteFeedsOneHost(v, parse(r.line), name);
    if TargetOf(parse(r.line)) == ToHost(name) {
      FeedAllOneOn(EventsFor(parse, log, ToHost(name)), parse(r.line).value);
    }
  }

  lemma FoldsOneOn(parse: Parser, log: seq<Routed>, v: RunView, r: Routed)
    requires Folds(parse, log, v)
    ensures Folds(parse, log + [r], RouteView(v, parse(r.line)))
  {
    forall name ensures HostFolds(parse, log + [r], RouteView(v, parse(r.line)), name) {
      HostFoldsOneOn(parse, log, v, r, name);
    }
    EventsForOneOn(parse, log, r, ToBuild);
    EventsForOneOn(parse, log, r, ToNixlog);
    match TargetOf(parse(r.line))
    case ToBuild => DropLast(EventsFor(parse, log, ToBuild), parse(r.line).value);
    case ToNixlog => DropLast(EventsFor(parse, log, ToNixlog), parse(r.line).value);
    case _ =>
  }

  /** The view after routing a whole log. */
  function ViewOf(parse: Parser, log: seq<Routed>): RunView {
    if log == [] then NEW_RUN
    else RouteView(ViewOf(parse, log[..|log| - 1]), parse(log[|log| - 1].line))
  }

  lemma ViewOneOn(parse: Parser, log: seq<Routed>, r: Routed)
    ensures ViewOf(parse, log + [r]) == RouteView(ViewOf(parse, log), parse(r.line))
  {
    DropLast(log, r);
  }

  /** Routing keeps every model the fold of its own events, whatever else is routed between. */
  lemma {:induction false} ModelsAreFolds(parse: Parser, log: seq<Routed>)
    ensures Folds(parse, log, ViewOf(parse, log))
    decreases |log|
  {
    if log != [] {
      var before, r := log[..|log| - 1], log[|log| - 1];
      ModelsAreFolds(parse, before);
      FoldsOneOn(parse, before, ViewOf(parse, before), r);
      assert log == before + [r];
    }
  }

  lemma ReadingGoesOn(content: seq<Byte>, start: nat, line: seq<Byte>)
    requires ReadLine(Rest(content, start)) == Line(line)
    ensures 0 < |line| && start + |line| <= |content|
    ensures Readable(Rest(content, start)) == [line] + Readable(Rest(content, start + |line|))
    ensures Consumed(Rest(content, start)) == |line| + Consumed(Rest(content, start + |line|))
  {
    WholeLine(Rest(content, start), line);
    RestOfRest(content, start, |line|);
  }

  lemma WholeLine(s: seq<Byte>, line: seq<Byte>)
    requires ReadLine(s) == Line(line)
    ensures 0 < |line| <= |s|
    ensures Readable(s) == [line] + Readable(s[|line|..]) && Consumed(s) == |line| + Consumed(s[|line|..])
  {
    OneLineOn(s, |line|);
  }

  lemma RestOfRest(content: seq<Byte>, start: nat, n: nat)
    requires 0 < n <= |Rest(content, start)|
    ensures start + n <= |content| && Rest(content, start)[n..] == Rest(content, start + n)
  {
    DropTwice(content, start, n);
  }

  lemma ReadingStops(content: seq<Byte>, start: nat)
    requires !ReadLine(Rest(content, start)).Line?
    ensures Readable(Rest(content, start)) == [] && Consumed(Rest(content, start)) == 0
  {
  }

  lemma TaggedOneFirst(file: string, line: seq<Byte>, lines: seq<seq<Byte>>)
    ensures Tagged(file, [line] + lines) == [Routed(file, line)] + Tagged(file, lines)
  {
  }

  lemma Regroup<T>(a: seq<T>, b: seq<T>, c: seq<T>)
    ensures (a + b) + c == a + (b + c)
  {
  }

  /** A log and an offset. */
  datatype Tailed = Tailed(log: seq<Routed>, offset: nat)

  /** Where reading on from `offset` will end. */
  function Ahead(log: seq<Routed>, file: string, content: seq<Byte>, offset: nat): Tailed {
    Tailed(log + Tagged(file, Readable(Rest(content, offset))), offset + Consumed(Rest(content, offset)))
  }

  /** Taking a line does not change where reading will end. */
  lemma LineTaken(log: seq<Routed>, file: string, content: seq<Byte>, start: nat, line: seq<Byte>)
    requires ReadLine(Rest(content, start)) == Line(line)
    ensures 0 < |line| && start + |line| <= |content|
    ensures Ahead(log, file, content, start) == Ahead(log + [Routed(file, line)], file, content, start + |line|)
  {
    ReadingGoesOn(content, start, line);
    TaggedOneFirst(file, line, Readable(Rest(content, start + |line|)));
    Regroup(log, [Routed(file, line)], Tagged(file, Readable(Rest(content, start + |line|))));
  }

  lemma NothingLeft(log: seq<Routed>, file: string, content: seq<Byte>, start: nat)
    requires !ReadLine(Rest(content, start)).Line?
    ensures Ahead(log, file, content, start) == Tailed(log, start)
  {
    ReadingStops(content, start);
    assert log + [] == log;
  }

  /** Where reading ends when more bytes are appended before it gets there. */
  lemma AheadOfGrown(log: seq<Routed>, file: string, content: seq<Byte>, more: seq<Byte>, offset: nat)
    requires offset <= |content|
    ensures var part := Ahead(log, file, content, offset);
            Ahead(log, file, content + more, offset) == Ahead(part.log, file, content + more, part.offset)
  {
    var rest := Rest(content, offset);
    ResumedReadContinues(rest, more);
    GrownRest(content, more, offset, Consumed(rest));
    TaggedJoins(file, Readable(rest), Readable(Rest(content + more, offset + Consumed(rest))));
    Regroup(log, Tagged(file, Readable(rest)), Tagged(file, Readable(Rest(content + more, offset + Consumed(rest)))));
  }

  lemma GrownRest(content: seq<Byte>, more: seq<Byte>, offset: nat, n: nat)
    requires offset + n <= |content|
    ensures Rest(content + more, offset) == Rest(content, offset) + more
    ensures (Rest(content, offset) + more)[n..] == Rest(content + more, offset + n)
  {
  }

  lemma TaggedJoins(file: string, a: seq<seq<Byte>>, b: seq<seq<Byte>>)
    ensures Tagged(file, a + b) == Tagged(file, a) + Tagged(file, b)
  {
  }

  /** Reading past the end of a file goes nowhere. */
  lemma AheadPastTheEnd(log: seq<Routed>, file: string, content: seq<Byte>, offset: nat)
    ensures Ahead(log, file, content, offset).offset > |content| <==> offset > |content|
    ensures offset > |content| ==> Ahead(log, file, content, offset) == Tailed(log, offset)
  {
    if offset > |content| {
      NothingLeft(log, file, content, offset);
    }
  }

  /** A file that grows during its turn. Wherever the turn stands, if going on would end where the
      whole turn does, it still does after any bytes are appended: the turn ends where one read of
      the grown file would. */
  lemma GrowthDuringATurnIsSeenAtOnce(log: seq<Routed>, start: nat, now: seq<Routed>, offset: nat, file: string,
                                      content: seq<Byte>, more: seq<Byte>)
    requires Ahead(now, file, content, offset) == Ahead(log, file, content, start)
    ensures Ahead(now, file, content + more, offset) == Ahead(log, file, content + more, start)
  {
    AheadPastTheEnd(now, file, content, offset);
    AheadPastTheEnd(log, file, content, start);
    if start <= |content| {
      AheadOfGrown(log, file, content, more, start);
      AheadOfGrown(now, file, content, more, offset);
    }
  }

  lemma TaggedOneOn(file: string, lines: seq<seq<Byte>>, line: seq<Byte>)
    ensures Tagged(file, lines + [line]) == Tagged(file, lines) + [Routed(file, line)]
  {
  }

  /** The part of the reader that decides what is routed next. */
  datatype Tailing = Tailing(offsets: map<string, nat>, log: seq<Routed>)

  function PollStep(t: Tailing, file: string, content: seq<Byte>): Tailing {
    var ahead := Ahead(t.log, file, content, OffsetOf(t.offsets, file));
    Tailing(t.offsets[file := ahead.offset], ahead.log)
  }

  /** A directory listing: each `.jsonl` file with its content, or None if it cannot be opened. */
  type Directory = map<string, Option<seq<Byte>>>

  function PollFiles(t: Tailing, names: seq<string>, dir: Directory): Tailing
    requires forall n :: n in names ==> n in dir
  {
    if names == [] then t
    else
      var before, n := PollFiles(t, names[..|names| - 1], dir), names[|names| - 1];
      PollOne(before, n, dir[n])
  }

  lemma ListedNames(names: seq<string>, dir: Directory)
    requires Order.Elements(names) == dir.Keys
    ensures forall n :: n in names ==> n in dir
  {
    assert forall n :: n in names ==> n in Order.Elements(names);
  }

  lemma PollFilesOneOn(t: Tailing, names: seq<string>, i: nat, dir: Directory)
    requires i < |names| && forall n :: n in names ==> n in dir
    ensures PollFiles(t, names[..i + 1], dir) == PollOne(PollFiles(t, names[..i], dir), names[i], dir[names[i]])
  {
    assert names[..i + 1][..i] == names[..i];
  }

  function PollOne(t: Tailing, file: string, content: Option<seq<Byte>>): Tailing {
    if content.None? then t else PollStep(t, file, content.value)
  }

  /** The reader's state: resumable offsets, and models that always equal the fold of their
      events over everything routed so far. */
  class EventTailer {
    const parse: Parser
    var offsets: map<string, nat>
    var hosts: map<string, HostRun>
    var build: BuildModel
    var nixlog: seq<string>
    ghost var log: seq<Routed>
    ghost var view: RunView

    /** Each host has its own object, and the objects show what the views say. */
    ghost predicate ShowsHosts(views: map<string, HostView>)
      reads this, hosts.Values
    {
      && (forall g, h :: g in hosts && h in hosts && g != h ==> hosts[g] != hosts[h])
      && hosts.Keys == views.Keys
      && (forall h :: h in hosts ==> hosts[h].View() == views[h])
    }

    ghost predicate Shown()
      reads this, hosts.Values, build
    {
      && ShowsHosts(view.hosts)
      && build.View() == view.build && nixlog == view.nixlog
    }

    ghost function State(): Tailing
      reads this
    {
      Tailing(offsets, log)
    }

    ghost predicate Valid()
      reads this, hosts.Values, build
    {
      Shown() && view == ViewOf(parse, log)
    }

    constructor (parse: Parser)
      ensures Valid() && log == [] && offsets == map[] && this.parse == parse && view == NEW_RUN && fresh(build)
    {
      this.parse := parse;
      offsets, hosts, nixlog, log, view := map[], map[], [], [], NEW_RUN;
      build := new BuildModel();
    }

    /** Get or create the host's run: a new one shows a host without events. */
    method HostRunOf(name: string) returns (run: HostRun)
      requires ShowsHosts(view.hosts)
      modifies this`hosts
      ensures ShowsHosts(view.hosts[name := HostOf(view, name)]) && run == hosts[name]
      ensures fresh(hosts.Values - old(hosts.Values))
    {
      if name in hosts {
        run := hosts[name];
      } else {
        run := new HostRun();
        hosts := hosts[name := run];
      }
    }

    /** Feeding one listed run leaves every other as it was. */
    method FeedListed(name: string, run: HostRun, e: Event, ghost shown: map<string, HostView>)
      requires ShowsHosts(shown) && name in hosts && run == hosts[name]
      modifies run
      ensures ShowsHosts(shown[name := FeedHost(shown[name], e)])
    {
      run.Feed(e);
    }

    /** Get-or-create the host's run, then feed it. */
    method FeedHostRun(name: string, e: Event)
      requires Shown() && TargetOf(Some(e)) == ToHost(name)
      modifies this`hosts, this`view, hosts.Values
      ensures Shown() && view == RouteView(old(view), Some(e))
      ensures fresh(hosts.Values - old(hosts.Values))
    {
      var run := HostRunOf(name);
      FeedListed(name, run, e, view.hosts[name := HostOf(view, name)]);
      RoutedHosts(view, name, e);
      view := RouteView(view, Some(e));
    }

    method FeedTheBuild(e: Event)
      requires Shown() && TargetOf(Some(e)) == ToBuild
      modifies this`view, build
      ensures Shown() && view == RouteView(old(view), Some(e))
    {
      build.Feed(e);
      view := RouteView(view, Some(e));
    }

    method Route(line: seq<Byte>, ghost file: string)
      requires Shown()
      modifies this`hosts, this`log, this`nixlog, this`view, hosts.Values, build
      ensures Shown() && log == old(log) + [Routed(file, line)]
      ensures view == RouteView(old(view), parse(line))
      ensures fresh(hosts.Values - old(hosts.Values))
    {
      var e := parse(line);
      var target := TargetOf(e);
      match target {
        case ToNixlog =>
          nixlog := nixlog + [Text(e.value.line)];
          view := RouteView(view, e);
        case ToBuild =>
          FeedTheBuild(e.value);
        case ToHost(name) => FeedHostRun(name, e.value);
        case Nowhere =>
      }
      log := log + [Routed(file, line)];
    }

    /** Routing keeps the models the fold of the log. */
    method RouteWhole(line: seq<Byte>, ghost file: string)
      requires Valid()
      modifies this`hosts, this`log, this`nixlog, this`view, hosts.Values, build
      ensures Valid() && log == old(log) + [Routed(file, line)]
      ensures fresh(hosts.Values - old(hosts.Values))
    {
      ViewOneOn(parse, log, Routed(file, line));
      Route(line, file);
    }

    /** One file's turn of `poll`: from its recorded offset to the first line it cannot take. */
    method PollFile(file: string, content: seq<Byte>) returns (count: nat)
      requires Valid()
      modifies this, hosts.Values, build
      ensures Valid() && build == old(build)
      ensures fresh(hosts.Values - old(hosts.Values))
      ensures State() == PollStep(old(State()), file, content)
      ensures count == |log| - |old(log)|
    {
      var offset := OffsetOf(offsets, file);
      count, offset := ReadOn(file, content, offset);
      offsets := offsets[file := offset];
    }

    /** `poll`: every listed file once, in name order, skipping what cannot be opened. */
    method Poll(dir: Directory) returns (count: nat)
      requires Valid()
      modifies this, hosts.Values, build
      ensures Valid() && build == old(build)
      ensures fresh(hosts.Values - old(hosts.Values))
      ensures Order.Elements(Order.Listing(dir.Keys)) == dir.Keys
      ensures State() == PollFiles(old(State()), Order.Listing(dir.Keys), dir)
      ensures count == |log| - |old(log)|
    {
      var names := Order.Sort(dir.Keys);
      ListedNames(names, dir);
      count := PollNames(names, dir);
    }

    method PollNames(names: seq<string>, dir: Directory) returns (count: nat)
      requires Valid() && forall n :: n in names ==> n in dir
      modifies this, hosts.Values, build
      ensures Valid() && build == old(build)
      ensures fresh(hosts.Values - old(hosts.Values))
      ensures State() == PollFiles(old(State()), names, dir)
      ensures count == |log| - |old(log)|
    {
      count := 0;
      for i := 0 to |names|
        invariant Valid() && build == old(build) && fresh(hosts.Values - old(hosts.Values))
        invariant State() == PollFiles(old(State()), names[..i], dir)
        invariant count == |log| - |old(log)|
      {
        PollFilesOneOn(old(State()), names, i, dir);
        var n := PollEntry(names[i], dir[names[i]]);
        count := count + n;
      }
      assert names[..|names|] == names;
    }

    method PollEntry(file: string, content: Option<seq<Byte>>) returns (count: nat)
      requires Valid()
      modifies this, hosts.Values, build
      ensures Valid() && build == old(build)
      ensures fresh(hosts.Values - old(hosts.Values))
      ensures State() == PollOne(old(State()), file, content)
      ensures count == |log| - |old(log)|
    {
      count := 0;
      if content.Some? {
        count := PollFile(file, content.value);
      }
    }

    /** One `read_line`, and what it means for where reading will end. */
    method NextLine(ghost file: string, content: seq<Byte>, offset: nat, ghost before: seq<Routed>, ghost end: Tailed)
      returns (read: Read, next: nat, ghost after: seq<Routed>)
      requires Ahead(before, file, content, offset) == end
      ensures read.Line? ==> after == before + [Routed(file, read.line)] && offset < next <= |content|
      ensures read.Line? ==> Ahead(after, file, content, next) == end
      ensures !read.Line? ==> end == Tailed(before, offset)
    {
      read, next, after := ReadLine(Rest(content, offset)), offset, before;
      if read.Line? {
        LineTaken(before, file, content, offset, read.line);
        next, after := offset + |read.line|, before + [Routed(file, read.line)];
      } else {
        NothingLeft(before, file, content, offset);
      }
    }

    /** One `read_line` and, if it is a whole line, its routing. */
    method TakeLine(file: string, content: seq<Byte>, offset: nat, ghost end: Tailed)
      returns (more: bool, next: nat, ghost after: seq<Routed>)
      requires Valid() && Ahead(log, file, content, offset) == end
      modifies this`hosts, this`log, this`nixlog, this`view, hosts.Values, build
      ensures Valid() && fresh(hosts.Values - old(hosts.Values))
      ensures more ==> log == after && |log| == |old(log)| + 1 && offset < next <= |content|
      ensures more ==> Ahead(after, file, content, next) == end
      ensures !more ==> log == old(log) && end == Tailed(log, offset)
    {
      var read;
      read, next, after := NextLine(file, content, offset, log, end);
      more := read.Line?;
      if more {
        RouteWhole(read.line, file);
      }
    }

    method ReadOn(file: string, content: seq<Byte>, start: nat) returns (count: nat, offset: nat)
      requires Valid()
      modifies this`hosts, this`log, this`nixlog, this`view, hosts.Values, build
      ensures Valid() && fresh(hosts.Values - old(hosts.Values))
      ensures Tailed(log, offset) == Ahead(old(log), file, content, start)
      ensures count == |log| - |old(log)|
    {
      count, offset := 0, start;
      ghost var end := Ahead(log, file, content, start);
      while true
        invariant Valid() && fresh(hosts.Values - old(hosts.Values))
        invariant Ahead(log, file, content, offset) == end
        invariant count == |log| - |old(log)|
        decreases |content| - offset
      {
        var more, next;
        ghost var after;
        more, next, after := TakeLine(file, content, offset, end);
        if !more {
          return;
        }
        count, offset := count + 1, next;
      }
    }
  }
}
