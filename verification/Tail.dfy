/** Line-wise reading of append-only files: what one read from an offset delivers, and why
    reading in pieces delivers the same lines. */
module Tail {
  import opened Wrappers
  import opened Utf8

  const NEWLINE: Byte := 10

  /** Index just past the first newline, or None when no complete line is there. */
  function LineEnd(s: seq<Byte>): (r: Option<nat>)
    ensures r.Some? ==> 0 < r.value <= |s|
  {
    if s == [] then None
    else if s[0] == NEWLINE then Some(1)
    else match LineEnd(s[1..])
      case None => None
      case Some(n) => Some(n + 1)
  }

  lemma {:induction false} LineEndIsFirstNewline(s: seq<Byte>)
    ensures LineEnd(s).None? <==> NEWLINE !in s
    ensures LineEnd(s).Some? ==> s[LineEnd(s).value - 1] == NEWLINE && NEWLINE !in s[..LineEnd(s).value - 1]
    decreases |s|
  {
    if s != [] && s[0] != NEWLINE {
      LineEndIsFirstNewline(s[1..]);
      assert s == [s[0]] + s[1..];
    }
  }

  /** The complete lines of a file, newline included. */
  function CompleteLines(s: seq<Byte>): seq<seq<Byte>> {
    match LineEnd(s)
    case None => []
    case Some(n) => [s[..n]] + CompleteLines(s[n..])
  }

  /** What reading line by line delivers: complete lines until the first that is not UTF-8,
      which the reader reports as an error and stops at. */
  function Readable(s: seq<Byte>): seq<seq<Byte>> {
    match LineEnd(s)
    case None => []
    case Some(n) => if Valid(s[..n]) then [s[..n]] + Readable(s[n..]) else []
  }

  /** How far such a read advances. */
  function Consumed(s: seq<Byte>): (r: nat)
    ensures r <= |s|
  {
    match LineEnd(s)
    case None => 0
    case Some(n) => if Valid(s[..n]) then n + Consumed(s[n..]) else 0
  }

  lemma {:induction false} LineEndOfLonger(s: seq<Byte>, e: seq<Byte>)
    requires LineEnd(s).Some?
    ensures LineEnd(s + e) == LineEnd(s)
    decreases |s|
  {
    if s[0] != NEWLINE {
      assert (s + e)[1..] == s[1..] + e;
      LineEndOfLonger(s[1..], e);
    }
  }

  lemma DropTwice(s: seq<Byte>, n: nat, m: nat)
    requires n + m <= |s|
    ensures s[n..][m..] == s[n + m..]
    ensures s[..n] + s[n..][..m] == s[..n + m]
  {
  }

  lemma CutsOfLonger(s: seq<Byte>, e: seq<Byte>, n: nat)
    requires n <= |s|
    ensures (s + e)[..n] == s[..n] && (s + e)[n..] == s[n..] + e
  {
  }

  lemma OneLineOn(s: seq<Byte>, n: nat)
    requires LineEnd(s) == Some(n) && Valid(s[..n])
    ensures Readable(s) == [s[..n]] + Readable(s[n..]) && Consumed(s) == n + Consumed(s[n..])
  {
  }

  /** `from` is where a second read of `whole` starts, `part` the file the first read saw. */
  predicate Resumes(part: seq<Byte>, whole: seq<Byte>, rest: seq<Byte>) {
    && Readable(whole) == Readable(part) + Readable(rest)
    && Consumed(whole) == Consumed(part) + Consumed(rest)
  }

  lemma ConsAppend(l: seq<Byte>, a: seq<seq<Byte>>, b: seq<seq<Byte>>)
    ensures [l] + (a + b) == ([l] + a) + b
  {
  }

  /** One line more in front of both reads. */
  lemma ResumesBehindLine(part: seq<Byte>, whole: seq<Byte>, rest: seq<Byte>, line: seq<Byte>, p: seq<Byte>,
                          w: seq<Byte>)
    requires Resumes(part, whole, rest)
    requires Readable(p) == [line] + Readable(part) && Consumed(p) == |line| + Consumed(part)
    requires Readable(w) == [line] + Readable(whole) && Consumed(w) == |line| + Consumed(whole)
    ensures Resumes(p, w, rest)
  {
    ConsAppend(line, Readable(part), Readable(rest));
  }

  lemma StopsAtOnce(s: seq<Byte>)
    requires LineEnd(s).None? || !Valid(s[..LineEnd(s).value])
    ensures Readable(s) == [] && Consumed(s) == 0
  {
  }

  /** Reading a grown file from where the earlier read stopped delivers exactly the lines a
      read of the whole file delivers after those already read. */
  lemma {:induction false} ResumedReadContinues(s: seq<Byte>, e: seq<Byte>)
    ensures Resumes(s, s + e, (s + e)[Consumed(s)..])
    decreases |s|
  {
    var r := LineEnd(s);
    if r.None? || !Valid(s[..r.value]) {
      StopsAtOnce(s);
      assert (s + e)[0..] == s + e;
    } else {
      var n := r.value;
      ResumedReadContinues(s[n..], e);
      FirstLineOfBoth(s, e, n);
      var rest := (s[n..] + e)[Consumed(s[n..])..];
      ResumesBehindLine(s[n..], s[n..] + e, rest, s[..n], s, s + e);
    }
  }

  lemma FirstLineOfBoth(s: seq<Byte>, e: seq<Byte>, n: nat)
    requires LineEnd(s) == Some(n) && Valid(s[..n])
    ensures Readable(s) == [s[..n]] + Readable(s[n..]) && Consumed(s) == n + Consumed(s[n..])
    ensures Readable(s + e) == [s[..n]] + Readable(s[n..] + e) && Consumed(s + e) == n + Consumed(s[n..] + e)
    ensures (s[n..] + e)[Consumed(s[n..])..] == (s + e)[Consumed(s)..]
  {
    LineEndOfLonger(s, e);
    CutsOfLonger(s, e, n);
    OneLineOn(s, n);
    OneLineOn(s + e, n);
    DropTwice(s + e, n, Consumed(s[n..]));
  }

  /** A read stops at a line boundary and has delivered exactly the bytes before it. */
  lemma {:induction false} ConsumedIsAtBoundary(s: seq<Byte>)
    ensures Joined(Readable(s)) == s[..Consumed(s)]
    ensures Consumed(s) > 0 ==> s[Consumed(s) - 1] == NEWLINE
    decreases |s|
  {
    var r := LineEnd(s);
    LineEndIsFirstNewline(s);
    if r.Some? && Valid(s[..r.value]) {
      var n := r.value;
      ConsumedIsAtBoundary(s[n..]);
      DropTwice(s, n, Consumed(s[n..]));
    }
  }

  function Joined(lines: seq<seq<Byte>>): seq<Byte> {
    if lines == [] then [] else lines[0] + Joined(lines[1..])
  }

  lemma CutAroundNewline(s: seq<Byte>, n: nat)
    requires 0 < n <= |s| && s[n - 1] == NEWLINE
    ensures s == s[..n - 1] + ([NEWLINE] + s[n..]) && s[..n] == s[..n - 1] + [NEWLINE]
  {
  }

  lemma ValidLineAndRest(s: seq<Byte>, n: nat)
    requires Valid(s) && 0 < n <= |s| && s[n - 1] == NEWLINE
    ensures Valid(s[..n]) && Valid(s[n..])
  {
    CutAroundNewline(s, n);
    ValidSplitsAtAscii(s[..n - 1], [NEWLINE] + s[n..]);
    ValidSkipsAscii(NEWLINE, s[n..]);
    ValidSplitsAtAscii(s[..n - 1], [NEWLINE]);
  }

  /** A well-formed file has only well-formed complete lines, so nothing stops the reader. */
  lemma {:induction false} WellFormedFilesReadToTheEnd(s: seq<Byte>)
    requires Valid(s)
    ensures Readable(s) == CompleteLines(s)
    ensures NEWLINE !in s[Consumed(s)..]
    decreases |s|
  {
    var r := LineEnd(s);
    LineEndIsFirstNewline(s);
    if r.Some? {
      var n := r.value;
      ValidLineAndRest(s, n);
      WellFormedFilesReadToTheEnd(s[n..]);
      DropTwice(s, n, Consumed(s[n..]));
    }
  }
}
