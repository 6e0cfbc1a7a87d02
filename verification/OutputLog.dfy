/** The bounded mirror of a launched run's output log (crates/mandala-core/src/runner.rs,
    `sync_output_log`). */
module OutputLog {
  import opened Wrappers
  import opened Utf8
  import opened Tail
  import Events
  import HostOutcome

  const OUTPUT_MAX: nat := 4000
  const RETURN: Byte := 13

  /** `trim_end_matches(['\r', '\n'])`. */
  function Clean(line: seq<Byte>): seq<Byte> {
    if line != [] && line[|line| - 1] in {RETURN, NEWLINE} then Clean(line[..|line| - 1]) else line
  }

  /** Exactly the carriage returns and newlines at the end go. */
  lemma {:induction false} CleanTrimsTheEnd(line: seq<Byte>)
    ensures Clean(line) <= line
    ensures forall k :: |Clean(line)| <= k < |line| ==> line[k] in {RETURN, NEWLINE}
    ensures Clean(line) != [] ==> Clean(line)[|Clean(line)| - 1] !in {RETURN, NEWLINE}
    decreases |line|
  {
    if line != [] && line[|line| - 1] in {RETURN, NEWLINE} {
      CleanTrimsTheEnd(line[..|line| - 1]);
    }
  }

  function Cleaned(lines: seq<seq<Byte>>): seq<seq<Byte>> {
    seq(|lines|, i requires 0 <= i < |lines| => Clean(lines[i]))
  }

  /** The mirror one read of the whole file would leave. */
  function Mirrored(content: seq<Byte>): seq<seq<Byte>> {
    HostOutcome.LastOf(Cleaned(Readable(content)), OUTPUT_MAX)
  }

  /** Reading has come to `offset`: the lines before it are mirrored, those after it are not yet. */
  predicate UpTo(content: seq<Byte>, offset: nat, output: seq<seq<Byte>>, done: seq<seq<Byte>>) {
    && offset <= |content|
    && output == HostOutcome.LastOf(Cleaned(done), OUTPUT_MAX)
    && Readable(content) == done + Readable(content[offset..])
    && Consumed(content) == offset + Consumed(content[offset..])
  }

  /** The complete line at `offset`, if there is one and it is UTF-8. */
  function Next(content: seq<Byte>, offset: nat): Option<seq<Byte>>
    requires offset <= |content|
  {
    var rest := content[offset..];
    match LineEnd(rest)
    case None => None
    case Some(n) => if Valid(rest[..n]) then Some(rest[..n]) else None
  }

  lemma OneMoreLine(content: seq<Byte>, offset: nat, output: seq<seq<Byte>>, done: seq<seq<Byte>>, n: nat)
    requires UpTo(content, offset, output, done) && LineEnd(content[offset..]) == Some(n)
             && Valid(content[offset..][..n])
    ensures UpTo(content, offset + n, Events.PushCapped(output, Clean(content[offset..][..n]), OUTPUT_MAX),
                 done + [content[offset..][..n]])
  {
    var rest := content[offset..];
    var line := rest[..n];
    OneLineOn(rest, n);
    DropTwice(content, offset, n);
    assert Cleaned(done + [line]) == Cleaned(done) + [Clean(line)];
    HostOutcome.PushKeepsLast(Cleaned(done), Clean(line), OUTPUT_MAX);
    assert done + ([line] + Readable(rest[n..])) == done + [line] + Readable(rest[n..]);
  }

  lemma NextLine(content: seq<Byte>, offset: nat, output: seq<seq<Byte>>, done: seq<seq<Byte>>)
    requires UpTo(content, offset, output, done) && Next(content, offset).Some?
    ensures var line := Next(content, offset).value;
            |line| > 0
            && UpTo(content, offset + |line|, Events.PushCapped(output, Clean(line), OUTPUT_MAX), done + [line])
  {
    OneMoreLine(content, offset, output, done, LineEnd(content[offset..]).value);
  }

  lemma Resume(seen: seq<Byte>, content: seq<Byte>)
    requires seen <= content
    ensures UpTo(content, Consumed(seen), Mirrored(seen), Readable(seen))
  {
    ResumedReadContinues(seen, content[|seen|..]);
    assert seen + content[|seen|..] == content;
  }

  lemma NothingMore(content: seq<Byte>, offset: nat, output: seq<seq<Byte>>, done: seq<seq<Byte>>)
    requires UpTo(content, offset, output, done) && Next(content, offset).None?
    ensures offset == Consumed(content) && output == Mirrored(content)
  {
    assert done + [] == done;
  }

  class Mirror {
    var offset: nat
    var output: seq<seq<Byte>>
    ghost var seen: seq<Byte>

    /** However often it was synced before: the mirror and the offset are those of one read of the
        file as it was at the last sync. */
    ghost predicate InStep()
      reads this
    {
      offset == Consumed(seen) && output == Mirrored(seen)
    }

    constructor ()
      ensures InStep() && seen == []
    {
      offset, output, seen := 0, [], [];
    }

    /** One sync of a log that has only grown. */
    method Sync(content: seq<Byte>)
      requires InStep() && seen <= content
      modifies this
      ensures InStep() && seen == content
    {
      ghost var done := Readable(seen);
      Resume(seen, content);
      var more := true;
      while more
        invariant more ==> UpTo(content, offset, output, done)
        invariant !more ==> offset == Consumed(content) && output == Mirrored(content)
        decreases more, |content| - offset
      {
        more, done := TakeLine(content, done);
      }
      seen := content;
    }

    /** One `read_line` and, if it is a whole line, its place in the mirror. */
    method TakeLine(content: seq<Byte>, ghost done: seq<seq<Byte>>) returns (more: bool, ghost next: seq<seq<Byte>>)
      requires UpTo(content, offset, output, done)
      modifies this`offset, this`output
      ensures more ==> UpTo(content, offset, output, next) && old(offset) < offset
      ensures !more ==> offset == Consumed(content) && output == Mirrored(content)
    {
      var line := Next(content, offset);
      more, next := line.Some?, done;
      if more {
        NextLine(content, offset, output, done);
        next := done + [line.value];
        offset := offset + |line.value|;
        output := Events.PushCapped(output, Clean(line.value), OUTPUT_MAX);
      } else {
        NothingMore(content, offset, output, done);
      }
    }
  }
}
