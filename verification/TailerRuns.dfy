/** Any schedule of appends and polls: the reader's lines, offsets and models against one-shot
    reading of the finished files. */
module TailerRuns {
  import opened Utf8
  import opened Tail
  import opened Events
  import opened Tailer

  /** An append may cut anywhere, a poll takes one file's turn; `seen` is each file's length at
      its last poll. */
  datatype Move = Append(file: string, bytes: seq<Byte>) | Poll(file: string)

  datatype World = World(files: map<string, seq<Byte>>, seen: map<string, nat>, t: Tailing)

  const START := World(map[], map[], Tailing(map[], []))

  function ContentOf(w: World, file: string): seq<Byte> {
    if file in w.files then w.files[file] else []
  }

  function SeenOf(w: World, file: string): nat {
    if file in w.seen then w.seen[file] else 0
  }

  function Apply(w: World, m: Move): World {
    match m
    case Append(f, bytes) => w.(files := w.files[f := ContentOf(w, f) + bytes])
    case Poll(f) =>
      if f in w.files
      then World(w.files, w.seen[f := |w.files[f]|], PollStep(w.t, f, w.files[f]))
      else w
  }

  function After(moves: seq<Move>): World {
    if moves == [] then START else Apply(After(moves[..|moves| - 1]), moves[|moves| - 1])
  }

  /** What the reader has of one file: exactly the lines of the part it has seen. */
  predicate FileOk(w: World, f: string) {
    && SeenOf(w, f) <= |ContentOf(w, f)|
    && OffsetOf(w.t.offsets, f) == Consumed(ContentOf(w, f)[..SeenOf(w, f)])
    && LinesOf(w.t.log, f) == Readable(ContentOf(w, f)[..SeenOf(w, f)])
  }

  lemma LinesOfOneOn(log: seq<Routed>, r: Routed, g: string)
    ensures LinesOf(log + [r], g) == LinesOf(log, g) + if r.file == g then [r.line] else []
  {
    DropLast(log, r);
  }

  lemma {:induction false} LinesOfTagged(log: seq<Routed>, f: string, lines: seq<seq<Byte>>, g: string)
    ensures LinesOf(log + Tagged(f, lines), g) == LinesOf(log, g) + if f == g then lines else []
    decreases |lines|
  {
    if lines == [] {
      assert log + Tagged(f, lines) == log;
      assert LinesOf(log, g) + [] == LinesOf(log, g);
    } else {
      var before, line := lines[..|lines| - 1], lines[|lines| - 1];
      assert lines == before + [line];
      LinesOfTagged(log, f, before, g);
      TaggedOneOn(f, before, line);
      Regroup(log, Tagged(f, before), [Routed(f, line)]);
      LinesOfOneOn(log + Tagged(f, before), Routed(f, line), g);
      Regroup(LinesOf(log, g), before, [line]);
      Regroup(LinesOf(log, g), [], []);
    }
  }

  lemma AppendKeepsFile(w: World, f: string, bytes: seq<Byte>, g: string)
    requires FileOk(w, g)
    ensures FileOk(Apply(w, Append(f, bytes)), g)
  {
    if f == g {
      assert (ContentOf(w, f) + bytes)[..SeenOf(w, f)] == ContentOf(w, f)[..SeenOf(w, f)];
    }
  }

  lemma PollReadsOn(w: World, f: string)
    requires FileOk(w, f) && f in w.files
    ensures FileOk(Apply(w, Poll(f)), f)
  {
    var content, k := w.files[f], SeenOf(w, f);
    var part, more := content[..k], content[k..];
    assert part + more == content;
    ResumedReadContinues(part, more);
    LinesOfTagged(w.t.log, f, Readable(Rest(content, Consumed(part))), f);
    assert content[..|content|] == content;
  }

  lemma PollKeepsOthers(w: World, f: string, g: string)
    requires FileOk(w, g) && f != g
    ensures FileOk(Apply(w, Poll(f)), g)
  {
    if f in w.files {
      LinesOfTagged(w.t.log, f, Readable(Rest(w.files[f], OffsetOf(w.t.offsets, f))), g);
    }
  }

  lemma {:induction false} EveryFileOk(moves: seq<Move>, f: string)
    ensures FileOk(After(moves), f)
    decreases |moves|
  {
    if moves != [] {
      var w, m := After(moves[..|moves| - 1]), moves[|moves| - 1];
      EveryFileOk(moves[..|moves| - 1], f);
      if m.Append? {
        AppendKeepsFile(w, m.file, m.bytes, f);
      } else if m.file == f && f in w.files {
        PollReadsOn(w, f);
      } else if m.file != f {
        PollKeepsOthers(w, m.file, f);
      }
    }
  }

  /** For any schedule, cut wherever it may be: a file's routed lines are exactly what one read of
      the part seen so far delivers, in order and once each, and the offset is where that read
      ends: past a newline, with exactly the routed bytes before it. */
  lemma TailingEqualsOneShotReading(moves: seq<Move>, f: string)
    ensures SeenOf(After(moves), f) <= |ContentOf(After(moves), f)|
    ensures var w := After(moves);
            var part := ContentOf(w, f)[..SeenOf(w, f)];
            && LinesOf(w.t.log, f) == Readable(part)
            && OffsetOf(w.t.offsets, f) == Consumed(part)
            && Joined(LinesOf(w.t.log, f)) == part[..OffsetOf(w.t.offsets, f)]
            && (OffsetOf(w.t.offsets, f) > 0 ==> part[OffsetOf(w.t.offsets, f) - 1] == NEWLINE)
  {
    EveryFileOk(moves, f);
    var w := After(moves);
    ConsumedIsAtBoundary(ContentOf(w, f)[..SeenOf(w, f)]);
  }

  /** A file that is UTF-8 when it has been polled to its end has had every complete line routed,
      and only a partial line is left. */
  lemma Utf8FilesAreReadCompletely(moves: seq<Move>, f: string)
    requires SeenOf(After(moves), f) == |ContentOf(After(moves), f)| && Valid(ContentOf(After(moves), f))
    ensures LinesOf(After(moves).t.log, f) == CompleteLines(ContentOf(After(moves), f))
    ensures NEWLINE !in Rest(ContentOf(After(moves), f), OffsetOf(After(moves).t.offsets, f))
  {
    var w := After(moves);
    EveryFileOk(moves, f);
    assert ContentOf(w, f)[..SeenOf(w, f)] == ContentOf(w, f);
    WellFormedFilesReadToTheEnd(ContentOf(w, f));
  }

  // ---- models ----

  /** The events for one target among a file's lines, in order. */
  function EventsIn(parse: Parser, lines: seq<seq<Byte>>, target: Target): seq<Event>
    requires target != Nowhere
  {
    if lines == [] then []
    else
      var e := parse(lines[|lines| - 1]);
      EventsIn(parse, lines[..|lines| - 1], target) + if TargetOf(e) == target then [e.value] else []
  }

  /** Only `f` says anything about the target. */
  predicate OnlySource(parse: Parser, log: seq<Routed>, target: Target, f: string) {
    forall i :: 0 <= i < |log| && TargetOf(parse(log[i].line)) == target ==> log[i].file == f
  }

  lemma {:induction false} SingleSourceEvents(parse: Parser, log: seq<Routed>, target: Target, f: string)
    requires target != Nowhere && OnlySource(parse, log, target, f)
    ensures EventsFor(parse, log, target) == EventsIn(parse, LinesOf(log, f), target)
    decreases |log|
  {
    if log != [] {
      var before, r := log[..|log| - 1], log[|log| - 1];
      SingleSourceEvents(parse, before, target, f);
      if r.file == f {
        var lines := LinesOf(before, f);
        assert (lines + [r.line])[..|lines + [r.line]| - 1] == lines;
      } else {
        assert TargetOf(parse(log[|log| - 1].line)) != target;
        assert EventsFor(parse, log, target) == EventsFor(parse, before, target);
        assert LinesOf(log, f) == LinesOf(before, f);
      }
    }
  }

  /** In the finished files, only `f` has lines for the target. */
  ghost predicate OnlyFile(parse: Parser, w: World, target: Target, f: string) {
    forall g, i :: g != f && 0 <= i < |Readable(ContentOf(w, g))| ==>
      TargetOf(parse(Readable(ContentOf(w, g))[i])) != target
  }

  predicate FullyPolled(w: World, f: string) {
    SeenOf(w, f) == |ContentOf(w, f)|
  }

  lemma {:induction false} LoggedLineIsOfItsFile(log: seq<Routed>, i: nat)
    requires i < |log|
    ensures log[i].line in LinesOf(log, log[i].file)
    decreases |log|
  {
    if i < |log| - 1 {
      LoggedLineIsOfItsFile(log[..|log| - 1], i);
    }
  }

  lemma FinishedLogHasOnlySource(parse: Parser, moves: seq<Move>, target: Target, f: string)
    requires OnlyFile(parse, After(moves), target, f)
    requires forall g :: FullyPolled(After(moves), g)
    ensures OnlySource(parse, After(moves).t.log, target, f)
  {
    var w := After(moves);
    forall i | 0 <= i < |w.t.log| && TargetOf(parse(w.t.log[i].line)) == target ensures w.t.log[i].file == f {
      var g := w.t.log[i].file;
      EveryFileOk(moves, g);
      assert FullyPolled(w, g);
      assert ContentOf(w, g)[..SeenOf(w, g)] == ContentOf(w, g);
      LoggedLineIsOfItsFile(w.t.log, i);
      var k :| 0 <= k < |LinesOf(w.t.log, g)| && LinesOf(w.t.log, g)[k] == w.t.log[i].line;
    }
  }

  /** Once everything appended has been polled, a host that only one file reports on is exactly
      the fold of that file's records for it, whatever was interleaved; so is the build. */
  lemma FinalModelsAreFoldsOfTheFiles(parse: Parser, moves: seq<Move>, name: string, f: string)
    requires forall g :: FullyPolled(After(moves), g)
    ensures var w := After(moves);
            var v := ViewOf(parse, w.t.log);
            var lines := Readable(ContentOf(w, f));
            && (OnlyFile(parse, w, ToHost(name), f) ==>
                  && HostOf(v, name) == FeedAll(NEW_HOST, EventsIn(parse, lines, ToHost(name)))
                  && (name in v.hosts <==> EventsIn(parse, lines, ToHost(name)) != []))
            && (OnlyFile(parse, w, ToBuild, f) ==> v.build == FeedBuildAll(NEW_BUILD, EventsIn(parse, lines, ToBuild)))
            && (OnlyFile(parse, w, ToNixlog, f) ==> v.nixlog == Texts(EventsIn(parse, lines, ToNixlog)))
  {
    var w := After(moves);
    EveryFileOk(moves, f);
    assert FullyPolled(w, f);
    assert ContentOf(w, f)[..SeenOf(w, f)] == ContentOf(w, f);
    ModelsAreFolds(parse, w.t.log);
    assert HostFolds(parse, w.t.log, ViewOf(parse, w.t.log), name);
    TargetIsFold(parse, moves, ToHost(name), f);
    TargetIsFold(parse, moves, ToBuild, f);
    TargetIsFold(parse, moves, ToNixlog, f);
  }

  lemma TargetIsFold(parse: Parser, moves: seq<Move>, target: Target, f: string)
    requires target != Nowhere && forall g :: FullyPolled(After(moves), g)
    ensures OnlyFile(parse, After(moves), target, f) ==>
              EventsFor(parse, After(moves).t.log, target) == EventsIn(parse, LinesOf(After(moves).t.log, f), target)
  {
    if OnlyFile(parse, After(moves), target, f) {
      FinishedLogHasOnlySource(parse, moves, target, f);
      SingleSourceEvents(parse, After(moves).t.log, target, f);
    }
  }
}
