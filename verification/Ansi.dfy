/** The log-pane filter (crates/mandala-tui/src/ansi.rs): one fused scan that must equal dropping
    every control sequence but colour and then deleting control bytes. */
module Ansi {
  import opened Utf8

  const ESC: Byte := 0x1B
  const BRACKET: Byte := 0x5B
  const SGR: Byte := 0x6D

  predicate Param(b: Byte) { 0x30 <= b <= 0x39 || b == 0x3B || b == 0x3F }

  predicate Intermediate(b: Byte) { 0x20 <= b <= 0x2F }

  predicate Final(b: Byte) { 0x40 <= b <= 0x7E }

  /** The C0 bytes and DEL that go, all but tab, newline and escape. */
  predicate Control(b: Byte) { b <= 0x08 || 0x0B <= b <= 0x1A || 0x1C <= b <= 0x1F || b == 0x7F }

  // ---- the two passes ----

  /** `s` starts with a control sequence of `p` parameter and `q` intermediate bytes (section 5.4
      of ECMA-48, with the parameter bytes the program accepts). */
  predicate CsiAt(s: seq<Byte>, p: nat, q: nat) {
    && |s| >= 3 + p + q && s[0] == ESC && s[1] == BRACKET
    && (forall k :: 2 <= k < 2 + p ==> Param(s[k]))
    && (forall k :: 2 + p <= k < 2 + p + q ==> Intermediate(s[k]))
    && Final(s[2 + p + q])
  }

  ghost predicate StartsCsi(s: seq<Byte>) {
    exists p: nat, q: nat :: CsiAt(s, p, q)
  }

  /** Each run of bytes in a control sequence ends where it must. */
  lemma RunsAreMaximal(s: seq<Byte>, p: nat, q: nat)
    requires CsiAt(s, p, q)
    ensures !Param(s[2 + p]) && !Intermediate(s[2 + p + q])
  {
  }

  /** A text starts with at most one control sequence. */
  lemma CsiIsUnique(s: seq<Byte>, p: nat, q: nat, p': nat, q': nat)
    requires CsiAt(s, p, q) && CsiAt(s, p', q')
    ensures p == p' && q == q'
  {
    RunsAreMaximal(s, p, q);
    RunsAreMaximal(s, p', q');
  }

  ghost function CsiLength(s: seq<Byte>): (n: nat)
    requires StartsCsi(s)
    ensures 3 <= n <= |s|
    ensures forall p: nat, q: nat :: CsiAt(s, p, q) ==> n == 3 + p + q
  {
    var p: nat, q: nat :| CsiAt(s, p, q);
    forall p': nat, q': nat | CsiAt(s, p', q') ensures 3 + p + q == 3 + p' + q' {
      CsiIsUnique(s, p, q, p', q');
    }
    3 + p + q
  }

  /** What the first pass leaves of the sequence at the start. */
  ghost function Kept(s: seq<Byte>): seq<Byte>
    requires StartsCsi(s)
  {
    if s[CsiLength(s) - 1] == SGR then s[..CsiLength(s)] else []
  }

  /** First pass: leftmost control sequences go unless they end in `m`. */
  ghost function DropCsi(s: seq<Byte>): seq<Byte>
    decreases |s|
  {
    if s == [] then []
    else if StartsCsi(s) then Kept(s) + DropCsi(s[CsiLength(s)..])
    else [s[0]] + DropCsi(s[1..])
  }

  /** Second pass: the control bytes go. */
  function Strip(s: seq<Byte>): seq<Byte> {
    if s == [] then [] else (if Control(s[0]) then [] else [s[0]]) + Strip(s[1..])
  }

  /** The two passes together. */
  ghost function Filtered(s: seq<Byte>): seq<Byte> {
    Strip(DropCsi(s))
  }

  lemma DropOfCsi(s: seq<Byte>)
    requires StartsCsi(s)
    ensures DropCsi(s) == Kept(s) + DropCsi(s[CsiLength(s)..])
  {
  }

  lemma DropOfByte(s: seq<Byte>)
    requires s != [] && !StartsCsi(s)
    ensures DropCsi(s) == [s[0]] + DropCsi(s[1..])
  {
  }

  // ---- the fused scan ----

  lemma {:induction false} StripDistributes(a: seq<Byte>, b: seq<Byte>)
    ensures Strip(a + b) == Strip(a) + Strip(b)
    decreases |a|
  {
    if a == [] {
      assert a + b == b;
    } else {
      assert (a + b)[1..] == a[1..] + b;
      StripDistributes(a[1..], b);
    }
  }

  lemma {:induction false} StripKeeps(s: seq<Byte>)
    requires forall k :: 0 <= k < |s| ==> !Control(s[k])
    ensures Strip(s) == s
    decreases |s|
  {
    if s != [] {
      StripKeeps(s[1..]);
      assert s == [s[0]] + s[1..];
    }
  }

  lemma CsiIsKeptWhole(s: seq<Byte>, p: nat, q: nat)
    requires CsiAt(s, p, q)
    ensures Strip(s[..3 + p + q]) == s[..3 + p + q]
    ensures forall k :: 0 <= k < 3 + p + q ==> IsAscii(s[k])
  {
    var m := s[..3 + p + q];
    forall k | 0 <= k < |m| ensures !Control(m[k]) && IsAscii(s[k]) {
      assert m[k] == s[k];
      if 2 <= k < 2 + p {
        assert Param(s[k]);
      } else if 2 + p <= k < 2 + p + q {
        assert Intermediate(s[k]);
      }
    }
    StripKeeps(m);
  }

  /** Taking as many parameter bytes as there are, then as many intermediate bytes, finds the
      control sequence if there is one. */
  lemma GreedyScanDecides(s: seq<Byte>, p: nat, q: nat)
    requires 2 + p + q <= |s| && s[0] == ESC && s[1] == BRACKET
    requires forall k :: 2 <= k < 2 + p ==> Param(s[k])
    requires forall k :: 2 + p <= k < 2 + p + q ==> Intermediate(s[k])
    requires 2 + p < |s| ==> !Param(s[2 + p])
    requires 2 + p + q < |s| ==> !Intermediate(s[2 + p + q])
    ensures StartsCsi(s) <==> CsiAt(s, p, q)
  {
    if StartsCsi(s) {
      var p': nat, q': nat :| CsiAt(s, p', q');
      RunsAreMaximal(s, p', q');
    }
  }

  /** The inner loops: where the control sequence at `i` ends, if one starts there. */
  method FindCsi(s: seq<Byte>, i: nat) returns (found: bool, j: nat)
    requires i < |s|
    ensures found <==> StartsCsi(s[i..])
    ensures found ==> j == i + CsiLength(s[i..])
  {
    ghost var rest := s[i..];
    if s[i] != ESC || i + 1 >= |s| || s[i + 1] != BRACKET {
      return false, i;
    }
    j := i + 2;
    while j < |s| && Param(s[j])
      invariant i + 2 <= j <= |s|
      invariant forall k :: 2 <= k < j - i ==> Param(rest[k])
    {
      j := j + 1;
    }
    ghost var p := j - i - 2;
    while j < |s| && Intermediate(s[j])
      invariant i + 2 + p <= j <= |s|
      invariant forall k :: 2 + p <= k < j - i ==> Intermediate(rest[k])
      invariant 2 + p < |rest| ==> !Param(rest[2 + p])
    {
      j := j + 1;
    }
    GreedyScanDecides(rest, p, j - i - 2 - p);
    found := j < |s| && Final(s[j]);
    j := j + 1;
  }

  lemma FilteredCsi(s: seq<Byte>)
    requires StartsCsi(s)
    ensures Filtered(s) == Kept(s) + Filtered(s[CsiLength(s)..])
  {
    var p: nat, q: nat :| CsiAt(s, p, q);
    CsiIsKeptWhole(s, p, q);
    DropOfCsi(s);
    StripDistributes(Kept(s), DropCsi(s[CsiLength(s)..]));
  }

  lemma FilteredByte(s: seq<Byte>)
    requires s != [] && !StartsCsi(s)
    ensures Filtered(s) == (if Control(s[0]) then [] else [s[0]]) + Filtered(s[1..])
  {
    DropOfByte(s);
    StripDistributes([s[0]], DropCsi(s[1..]));
    assert [s[0]][1..] == [];
  }

  /** A colour sequence stays, any other sequence goes. */
  lemma FilterAtASequence(s: seq<Byte>, p: nat, q: nat)
    requires CsiAt(s, p, q)
    ensures s[2 + p + q] == 0x6D ==> Filtered(s) == s[..3 + p + q] + Filtered(s[3 + p + q..])
    ensures s[2 + p + q] != 0x6D ==> Filtered(s) == Filtered(s[3 + p + q..])
  {
    FilteredCsi(s);
    assert CsiLength(s) == 3 + p + q;
    assert [] + Filtered(s[3 + p + q..]) == Filtered(s[3 + p + q..]);
  }

  /** Outside sequences only the control bytes go, which tab, newline and escape are not. */
  lemma FilterAtAByte(s: seq<Byte>)
    requires s != [] && !StartsCsi(s)
    ensures (s[0] < 0x20 || s[0] == 0x7F) && s[0] !in {0x09, 0x0A, 0x1B} ==> Filtered(s) == Filtered(s[1..])
    ensures (s[0] >= 0x20 && s[0] != 0x7F) || s[0] in {0x09, 0x0A, 0x1B} ==>
              Filtered(s) == [s[0]] + Filtered(s[1..])
  {
    FilteredByte(s);
    assert [] + Filtered(s[1..]) == Filtered(s[1..]);
  }

  lemma StepOverCsi(s: seq<Byte>, i: nat)
    requires i < |s| && StartsCsi(s[i..])
    ensures var j := i + CsiLength(s[i..]);
            i + 3 <= j <= |s| && Filtered(s[i..]) == (if s[j - 1] == SGR then s[i..j] else []) + Filtered(s[j..])
  {
    var rest, n := s[i..], CsiLength(s[i..]);
    FilteredCsi(rest);
    assert rest[n..] == s[i + n..] && rest[..n] == s[i..i + n] && rest[n - 1] == s[i + n - 1];
  }

  lemma StepOverByte(s: seq<Byte>, i: nat)
    requires i < |s| && !StartsCsi(s[i..])
    ensures Filtered(s[i..]) == (if Control(s[i]) then [] else [s[i]]) + Filtered(s[i + 1..])
  {
    FilteredByte(s[i..]);
    assert s[i..][1..] == s[i + 1..];
  }

  lemma Regroup(a: seq<Byte>, b: seq<Byte>, c: seq<Byte>)
    ensures (a + b) + c == a + (b + c)
  {
  }

  /** One turn of the outer loop: what it keeps, and where it goes on. */
  method ScanOne(input: seq<Byte>, i: nat) returns (kept: seq<Byte>, next: nat)
    requires i < |input|
    ensures i < next <= |input| && Filtered(input[i..]) == kept + Filtered(input[next..])
  {
    var found, j := FindCsi(input, i);
    if found {
      StepOverCsi(input, i);
      return if input[j - 1] == SGR then input[i..j] else [], j;
    }
    StepOverByte(input, i);
    return if Control(input[i]) then [] else [input[i]], i + 1;
  }

  /** `filter_ansi`. */
  method FilterAnsi(input: seq<Byte>) returns (out: seq<Byte>)
    ensures out == Filtered(input)
  {
    out := [];
    var i := 0;
    while i < |input|
      invariant 0 <= i <= |input|
      invariant out + Filtered(input[i..]) == Filtered(input)
    {
      var kept, next := ScanOne(input, i);
      Regroup(out, kept, Filtered(input[next..]));
      i, out := next, out + kept;
    }
    assert out + [] == out;
  }

  // ---- whole characters survive ----

  lemma CharIsValid(s: seq<Byte>)
    requires s != [] && CharLen(s) > 0
    ensures Valid(s[..CharLen(s)])
    ensures !IsAscii(s[0]) ==> forall k :: 0 <= k < CharLen(s) ==> s[k] >= 0x80
  {
    var c := s[..CharLen(s)];
    assert CharLen(c) == CharLen(s) && c[CharLen(c)..] == [];
  }

  lemma {:induction false} StripSkipsChar(s: seq<Byte>, n: nat)
    requires n <= |s| && forall k :: 0 <= k < n ==> !Control(s[k])
    ensures Strip(s) == s[..n] + Strip(s[n..])
    decreases n
  {
    if n > 0 {
      StripSkipsChar(s[1..], n - 1);
      assert s[1..][n - 1..] == s[n..] && [s[0]] + s[1..][..n - 1] == s[..n];
    } else {
      assert s[..0] + Strip(s[0..]) == Strip(s);
    }
  }

  lemma StripKeepsUtf8AtChar(s: seq<Byte>)
    requires s != [] && CharLen(s) > 0 && Valid(Strip(s[CharLen(s)..]))
    ensures Valid(Strip(s))
  {
    var n := CharLen(s);
    if IsAscii(s[0]) {
      ValidSkipsAscii(s[0], Strip(s[1..]));
      assert [] + Strip(s[1..]) == Strip(s[1..]);
    } else {
      CharIsValid(s);
      StripSkipsChar(s, n);
      ValidJoins(s[..n], Strip(s[n..]));
    }
  }

  lemma {:induction false} StripKeepsUtf8(s: seq<Byte>)
    requires Valid(s)
    ensures Valid(Strip(s))
    decreases |s|
  {
    if s != [] {
      StripKeepsUtf8(s[CharLen(s)..]);
      StripKeepsUtf8AtChar(s);
    }
  }

  lemma {:induction false} DropPassesOver(a: seq<Byte>, b: seq<Byte>)
    requires forall k :: 0 <= k < |a| ==> a[k] != ESC
    ensures DropCsi(a + b) == a + DropCsi(b)
    decreases |a|
  {
    if a == [] {
      assert a + b == b;
    } else {
      assert (a + b)[0] == a[0] && (a + b)[1..] == a[1..] + b;
      DropPassesOver(a[1..], b);
      assert !StartsCsi(a + b);
    }
  }

  lemma CsiIsAscii(s: seq<Byte>)
    requires StartsCsi(s)
    ensures forall k :: 0 <= k < CsiLength(s) ==> IsAscii(s[k])
  {
    var p: nat, q: nat :| CsiAt(s, p, q);
    CsiIsKeptWhole(s, p, q);
  }

  lemma ValidPastAscii(s: seq<Byte>, n: nat)
    requires n <= |s| && forall k :: 0 <= k < n ==> IsAscii(s[k])
    ensures Valid(s) <==> Valid(s[n..])
  {
    assert s == s[..n] + s[n..];
    AsciiPrefixIsValid(s[..n], s[n..]);
  }

  lemma DropKeepsUtf8AtCsi(s: seq<Byte>)
    requires StartsCsi(s) && Valid(DropCsi(s[CsiLength(s)..]))
    ensures Valid(DropCsi(s))
  {
    CsiIsAscii(s);
    DropOfCsi(s);
    AsciiPrefixIsValid(Kept(s), DropCsi(s[CsiLength(s)..]));
  }

  lemma DropSkipsChar(s: seq<Byte>, n: nat)
    requires n <= |s| && forall k :: 0 <= k < n ==> s[k] != ESC
    ensures DropCsi(s) == s[..n] + DropCsi(s[n..])
  {
    assert s == s[..n] + s[n..];
    DropPassesOver(s[..n], s[n..]);
  }

  lemma DropKeepsUtf8AtChar(s: seq<Byte>)
    requires s != [] && !StartsCsi(s) && CharLen(s) > 0 && Valid(DropCsi(s[CharLen(s)..]))
    ensures Valid(DropCsi(s))
  {
    var n := CharLen(s);
    if IsAscii(s[0]) {
      ValidSkipsAscii(s[0], DropCsi(s[1..]));
    } else {
      CharIsValid(s);
      DropSkipsChar(s, n);
      ValidJoins(s[..n], DropCsi(s[n..]));
    }
  }

  lemma {:induction false} DropKeepsUtf8(s: seq<Byte>)
    requires Valid(s)
    ensures Valid(DropCsi(s))
    decreases |s|
  {
    if s != [] {
      if StartsCsi(s) {
        CsiIsAscii(s);
        ValidPastAscii(s, CsiLength(s));
        DropKeepsUtf8(s[CsiLength(s)..]);
        DropKeepsUtf8AtCsi(s);
      } else {
        DropKeepsUtf8(s[CharLen(s)..]);
        DropKeepsUtf8AtChar(s);
      }
    }
  }

  /** The filter keeps well-formed UTF-8 well formed, so its lossy fallback is never reached. */
  lemma FilteredTextIsUtf8(s: seq<Byte>)
    requires Valid(s)
    ensures Valid(Filtered(s))
  {
    DropKeepsUtf8(s);
    StripKeepsUtf8(DropCsi(s));
  }

  // ---- a second run ----

  /** No suffix starts a sequence a run would drop. */
  ghost predicate Clean(s: seq<Byte>) {
    forall i :: 0 <= i < |s| ==> !Droppable(s[i..])
  }

  ghost predicate Droppable(s: seq<Byte>) {
    StartsCsi(s) && s[CsiLength(s) - 1] != SGR
  }

  lemma CleanHeadAndTail(s: seq<Byte>)
    requires s != []
    ensures Clean(s) <==> !Droppable(s) && Clean(s[1..])
  {
    assert s[0..] == s;
    assert forall i :: 0 <= i < |s[1..]| ==> s[1..][i..] == s[i + 1..];
    if !Droppable(s) && Clean(s[1..]) {
      forall i | 0 <= i < |s| ensures !Droppable(s[i..]) {
        if i > 0 {
          assert s[1..][i - 1..] == s[i..];
        }
      }
    }
  }

  /** Bytes that are no escape start nothing. */
  lemma {:induction false} CleanPastPlain(s: seq<Byte>, n: nat)
    requires n <= |s| && forall k :: 0 <= k < n ==> s[k] != ESC
    ensures Clean(s) <==> Clean(s[n..])
    decreases n
  {
    if n == 0 {
      assert s[0..] == s;
    } else {
      CleanHeadAndTail(s);
      CleanPastPlain(s[1..], n - 1);
      assert s[1..][n - 1..] == s[n..];
    }
  }

  /** Behind its escape a control sequence holds no other. */
  lemma CsiHasOneEscape(s: seq<Byte>)
    requires StartsCsi(s)
    ensures forall k :: 1 <= k < CsiLength(s) ==> s[k] != ESC
  {
    var p: nat, q: nat :| CsiAt(s, p, q);
    forall k | 1 <= k < CsiLength(s) ensures s[k] != ESC {
      if 2 <= k < 2 + p {
        assert Param(s[k]);
      } else if 2 + p <= k < 2 + p + q {
        assert Intermediate(s[k]);
      }
    }
  }

  lemma CleanPastCsi(s: seq<Byte>)
    requires StartsCsi(s)
    ensures Clean(s) <==> s[CsiLength(s) - 1] == SGR && Clean(s[CsiLength(s)..])
  {
    var n := CsiLength(s);
    CsiHasOneEscape(s);
    CleanHeadAndTail(s);
    CleanPastPlain(s[1..], n - 1);
    assert s[1..][n - 1..] == s[n..];
  }

  lemma {:induction false} DropShortens(s: seq<Byte>)
    ensures |DropCsi(s)| <= |s|
    decreases |s|
  {
    if s != [] {
      if StartsCsi(s) {
        DropShortens(s[CsiLength(s)..]);
      } else {
        DropShortens(s[1..]);
      }
    }
  }

  lemma DropKeepsCleanAtCsi(s: seq<Byte>)
    requires StartsCsi(s) && (DropCsi(s[CsiLength(s)..]) == s[CsiLength(s)..] <==> Clean(s[CsiLength(s)..]))
    ensures DropCsi(s) == s <==> Clean(s)
  {
    var n := CsiLength(s);
    var rest := s[n..];
    CleanPastCsi(s);
    DropOfCsi(s);
    DropShortens(rest);
    assert s == s[..n] + rest;
    SamePrefix(s[..n], DropCsi(rest), rest);
  }

  lemma DropKeepsCleanAtByte(s: seq<Byte>)
    requires s != [] && !StartsCsi(s) && (DropCsi(s[1..]) == s[1..] <==> Clean(s[1..]))
    ensures DropCsi(s) == s <==> Clean(s)
  {
    CleanHeadAndTail(s);
    DropOfByte(s);
    assert s == [s[0]] + s[1..];
    SamePrefix([s[0]], DropCsi(s[1..]), s[1..]);
  }

  /** The first pass leaves a text alone exactly when it is clean. */
  lemma {:induction false} DropKeepsClean(s: seq<Byte>)
    ensures DropCsi(s) == s <==> Clean(s)
    decreases |s|
  {
    if s != [] {
      if StartsCsi(s) {
        DropKeepsClean(s[CsiLength(s)..]);
        DropKeepsCleanAtCsi(s);
      } else {
        DropKeepsClean(s[1..]);
        DropKeepsCleanAtByte(s);
      }
    }
  }

  lemma SamePrefix(a: seq<Byte>, b: seq<Byte>, c: seq<Byte>)
    ensures a + b == a + c <==> b == c
  {
    assert (a + b)[|a|..] == b && (a + c)[|a|..] == c;
  }

  predicate NoControl(s: seq<Byte>) {
    forall k :: 0 <= k < |s| ==> !Control(s[k])
  }

  lemma {:induction false} StripLeavesNoControl(s: seq<Byte>)
    ensures NoControl(Strip(s))
    decreases |s|
  {
    if s != [] {
      StripLeavesNoControl(s[1..]);
    }
  }

  lemma {:induction false} DropAddsNoControl(s: seq<Byte>)
    requires NoControl(s)
    ensures NoControl(DropCsi(s))
    decreases |s|
  {
    if s != [] {
      if StartsCsi(s) {
        DropAddsNoControl(s[CsiLength(s)..]);
      } else {
        DropAddsNoControl(s[1..]);
      }
    }
  }

  /** A second run of the filter changes nothing exactly when the first left a clean text. */
  lemma SecondRunKeepsClean(s: seq<Byte>)
    ensures Filtered(Filtered(s)) == Filtered(s) <==> Clean(Filtered(s))
  {
    var o := Filtered(s);
    StripLeavesNoControl(DropCsi(s));
    DropAddsNoControl(o);
    StripKeeps(DropCsi(o));
    DropKeepsClean(o);
  }

  // ---- what the input looks like when it does ----

  /** What an escape's sequence still lacks: all of its body, or parameters, or no more of them. */
  datatype Stage = AtBracket | InParams | InIntermediates

  /** Going over whatever a run deletes, listed control bytes and whole dropped sequences, the text
      reads on as the body of a sequence not ending in `m`. */
  ghost predicate ReadsOn(s: seq<Byte>, stage: Stage)
    decreases |s|
  {
    && s != []
    && if StartsCsi(s) then s[CsiLength(s) - 1] != SGR && ReadsOn(s[CsiLength(s)..], stage)
       else if Control(s[0]) then ReadsOn(s[1..], stage)
       else match stage
         case AtBracket => s[0] == BRACKET && ReadsOn(s[1..], InParams)
         case InParams =>
           if Param(s[0]) then ReadsOn(s[1..], InParams)
           else if Intermediate(s[0]) then ReadsOn(s[1..], InIntermediates)
           else Final(s[0]) && s[0] != SGR
         case InIntermediates =>
           if Intermediate(s[0]) then ReadsOn(s[1..], InIntermediates) else Final(s[0]) && s[0] != SGR
  }

  /** The same without going over anything. */
  predicate Body(t: seq<Byte>, stage: Stage) {
    && t != []
    && match stage
       case AtBracket => t[0] == BRACKET && Body(t[1..], InParams)
       case InParams =>
         if Param(t[0]) then Body(t[1..], InParams)
         else if Intermediate(t[0]) then Body(t[1..], InIntermediates)
         else Final(t[0]) && t[0] != SGR
       case InIntermediates =>
         if Intermediate(t[0]) then Body(t[1..], InIntermediates) else Final(t[0]) && t[0] != SGR
  }

  lemma ReadsOnAtCsi(s: seq<Byte>, stage: Stage)
    requires StartsCsi(s)
    requires ReadsOn(s[CsiLength(s)..], stage) <==> Body(Filtered(s[CsiLength(s)..]), stage)
    ensures ReadsOn(s, stage) <==> Body(Filtered(s), stage)
  {
    var rest := Filtered(s[CsiLength(s)..]);
    FilteredCsi(s);
    if s[CsiLength(s) - 1] == SGR {
      assert Filtered(s)[0] == ESC;
    } else {
      assert [] + rest == rest;
    }
  }

  lemma ReadsOnAtByte(s: seq<Byte>, stage: Stage)
    requires s != [] && !StartsCsi(s)
    requires forall later :: ReadsOn(s[1..], later) <==> Body(Filtered(s[1..]), later)
    ensures ReadsOn(s, stage) <==> Body(Filtered(s), stage)
  {
    var rest := Filtered(s[1..]);
    FilteredByte(s);
    if Control(s[0]) {
      assert [] + rest == rest;
    } else {
      assert ([s[0]] + rest)[1..] == rest;
    }
  }

  /** The text reads on exactly when what is left of it is such a body. */
  lemma {:induction false} ReadsOnIff(s: seq<Byte>, stage: Stage)
    ensures ReadsOn(s, stage) <==> Body(Filtered(s), stage)
    decreases |s|
  {
    if s != [] {
      if StartsCsi(s) {
        ReadsOnIff(s[CsiLength(s)..], stage);
        ReadsOnAtCsi(s, stage);
      } else {
        forall later ensures ReadsOn(s[1..], later) <==> Body(Filtered(s[1..]), later) {
          ReadsOnIff(s[1..], later);
        }
        ReadsOnAtByte(s, stage);
      }
    }
  }

  /** `p` parameter and `q` intermediate bytes and a final byte other than `m`. */
  predicate BodyAt(t: seq<Byte>, p: nat, q: nat) {
    && p + q < |t|
    && (forall k :: 0 <= k < p ==> Param(t[k]))
    && (forall k :: p <= k < p + q ==> Intermediate(t[k]))
    && Final(t[p + q]) && t[p + q] != SGR
  }

  lemma {:induction false} IntermediatesIff(t: seq<Byte>)
    ensures Body(t, InIntermediates) <==> exists q: nat :: BodyAt(t, 0, q)
    decreases |t|
  {
    if t != [] && Intermediate(t[0]) {
      IntermediatesIff(t[1..]);
      if Body(t[1..], InIntermediates) {
        var q: nat :| BodyAt(t[1..], 0, q);
        assert BodyAt(t, 0, q + 1);
      }
      if q: nat :| BodyAt(t, 0, q) {
        assert BodyAt(t[1..], 0, q - 1);
      }
    } else if Body(t, InIntermediates) {
      assert BodyAt(t, 0, 0);
    }
  }

  lemma {:induction false} ParamsIff(t: seq<Byte>)
    ensures Body(t, InParams) <==> exists p: nat, q: nat :: BodyAt(t, p, q)
    decreases |t|
  {
    if t != [] && Param(t[0]) {
      ParamsIff(t[1..]);
      if Body(t[1..], InParams) {
        var p: nat, q: nat :| BodyAt(t[1..], p, q);
        assert BodyAt(t, p + 1, q);
      }
      if p: nat, q: nat :| BodyAt(t, p, q) {
        assert BodyAt(t[1..], p - 1, q);
      }
    } else {
      IntermediatesIff(t);
      assert forall p: nat, q: nat :: BodyAt(t, p, q) ==> p == 0;
    }
  }

  lemma CsiIffBody(t: seq<Byte>, p: nat, q: nat)
    requires t != []
    ensures CsiAt([ESC] + t, p, q) && ([ESC] + t)[2 + p + q] != SGR <==> t[0] == BRACKET && BodyAt(t[1..], p, q)
  {
    var s, body := [ESC] + t, t[1..];
    assert |s| == |body| + 2 && s[1] == t[0];
    assert forall k :: 2 <= k < |s| ==> s[k] == body[k - 2];
    if CsiAt(s, p, q) {
      forall k | 0 <= k < p ensures Param(body[k]) {
        assert Param(s[k + 2]);
      }
      forall k | p <= k < p + q ensures Intermediate(body[k]) {
        assert Intermediate(s[k + 2]);
      }
    }
  }

  lemma DroppableIffBody(t: seq<Byte>)
    ensures Droppable([ESC] + t) <==> Body(t, AtBracket)
  {
    if t != [] {
      ParamsIff(t[1..]);
      forall p: nat, q: nat {
        CsiIffBody(t, p, q);
      }
      if Droppable([ESC] + t) {
        var p: nat, q: nat :| CsiAt([ESC] + t, p, q);
        assert BodyAt(t[1..], p, q);
      }
      if t[0] == BRACKET && Body(t[1..], InParams) {
        var p: nat, q: nat :| BodyAt(t[1..], p, q);
        assert CsiAt([ESC] + t, p, q);
      }
    }
  }

  /** What a run leaves behind an escape reads on as a sequence it would drop exactly if the input
      does, over what the run deletes. */
  lemma UncoversIff(rest: seq<Byte>)
    ensures Droppable([ESC] + Filtered(rest)) <==> ReadsOn(rest, AtBracket)
  {
    ReadsOnIff(rest, AtBracket);
    DroppableIffBody(Filtered(rest));
  }

  /** The escape at `i` starts no sequence of the input, but reads on as one that would be dropped,
      over what the run deletes. */
  ghost predicate Exposed(s: seq<Byte>, i: nat)
    requires i < |s|
  {
    s[i] == ESC && !StartsCsi(s[i..]) && ReadsOn(s[i + 1..], AtBracket)
  }

  ghost predicate NoneExposed(s: seq<Byte>) {
    forall i :: 0 <= i < |s| ==> !Exposed(s, i)
  }

  lemma ExposedLater(s: seq<Byte>, i: nat)
    requires 0 < i < |s|
    ensures Exposed(s, i) <==> Exposed(s[1..], i - 1)
  {
    assert s[1..][i - 1..] == s[i..] && s[1..][i..] == s[i + 1..];
  }

  lemma NoneExposedHeadAndTail(s: seq<Byte>)
    requires s != []
    ensures NoneExposed(s) <==> !Exposed(s, 0) && NoneExposed(s[1..])
  {
    forall i | 0 < i < |s| ensures Exposed(s, i) <==> Exposed(s[1..], i - 1) {
      ExposedLater(s, i);
    }
    if !Exposed(s, 0) && NoneExposed(s[1..]) {
      forall i | 0 <= i < |s| ensures !Exposed(s, i) {
        assert i > 0 ==> !Exposed(s[1..], i - 1);
      }
    }
    if NoneExposed(s) {
      forall i | 0 <= i < |s[1..]| ensures !Exposed(s[1..], i) {
        assert !Exposed(s, i + 1);
      }
    }
  }

  lemma {:induction false} NoneExposedPastPlain(s: seq<Byte>, n: nat)
    requires n <= |s| && forall k :: 0 <= k < n ==> s[k] != ESC
    ensures NoneExposed(s) <==> NoneExposed(s[n..])
    decreases n
  {
    if n == 0 {
      assert s[0..] == s;
    } else {
      NoneExposedHeadAndTail(s);
      NoneExposedPastPlain(s[1..], n - 1);
      assert s[1..][n - 1..] == s[n..];
    }
  }

  lemma NoneExposedPastCsi(s: seq<Byte>)
    requires StartsCsi(s)
    ensures NoneExposed(s) <==> NoneExposed(s[CsiLength(s)..])
  {
    var n := CsiLength(s);
    CsiHasOneEscape(s);
    assert s[0..] == s;
    NoneExposedHeadAndTail(s);
    NoneExposedPastPlain(s[1..], n - 1);
    assert s[1..][n - 1..] == s[n..];
  }

  /** A sequence is one whatever follows it. */
  lemma CsiStays(s: seq<Byte>, rest: seq<Byte>)
    requires StartsCsi(s)
    ensures StartsCsi(s[..CsiLength(s)] + rest) && CsiLength(s[..CsiLength(s)] + rest) == CsiLength(s)
  {
    var p: nat, q: nat :| CsiAt(s, p, q);
    var t := s[..CsiLength(s)] + rest;
    assert forall k :: 0 <= k < CsiLength(s) ==> t[k] == s[k];
    assert CsiAt(t, p, q);
  }

  lemma CleanBehindColour(s: seq<Byte>, rest: seq<Byte>)
    requires StartsCsi(s) && s[CsiLength(s) - 1] == SGR
    ensures Clean(s[..CsiLength(s)] + rest) <==> Clean(rest)
  {
    var n := CsiLength(s);
    CsiStays(s, rest);
    CleanPastCsi(s[..n] + rest);
    assert (s[..n] + rest)[n..] == rest;
  }

  lemma CleanBehindCsi(s: seq<Byte>)
    requires StartsCsi(s)
    ensures Clean(Filtered(s)) <==> Clean(Filtered(s[CsiLength(s)..]))
  {
    var rest := Filtered(s[CsiLength(s)..]);
    FilteredCsi(s);
    if s[CsiLength(s) - 1] == SGR {
      CleanBehindColour(s, rest);
    } else {
      assert Kept(s) + rest == rest;
    }
  }

  lemma CleanBehindByte(s: seq<Byte>)
    requires s != [] && !StartsCsi(s)
    ensures Clean(Filtered(s)) <==> !Exposed(s, 0) && Clean(Filtered(s[1..]))
  {
    var rest := Filtered(s[1..]);
    FilteredByte(s);
    UncoversIff(s[1..]);
    assert s[0..] == s;
    if Control(s[0]) {
      assert [] + rest == rest;
    } else {
      CleanHeadAndTail([s[0]] + rest);
      assert ([s[0]] + rest)[1..] == rest;
    }
  }

  lemma {:induction false} CleanIffNoneExposed(s: seq<Byte>)
    ensures Clean(Filtered(s)) <==> NoneExposed(s)
    decreases |s|
  {
    if s != [] {
      if StartsCsi(s) {
        CleanBehindCsi(s);
        NoneExposedPastCsi(s);
        CleanIffNoneExposed(s[CsiLength(s)..]);
      } else {
        CleanBehindByte(s);
        NoneExposedHeadAndTail(s);
        CleanIffNoneExposed(s[1..]);
      }
    }
  }

  /** A second run changes nothing if and only if no escape that starts no sequence in the input
      comes to stand, in the output, before the body of one that does not end in `m`. */
  lemma FilteringTwiceChangesNothingIff(s: seq<Byte>)
    ensures Filtered(Filtered(s)) == Filtered(s) <==> NoneExposed(s)
  {
    SecondRunKeepsClean(s);
    CleanIffNoneExposed(s);
  }

  /** In particular a text in which every escape starts a sequence is settled by one run. */
  lemma WellFormedEscapesAreSettledAtOnce(s: seq<Byte>)
    requires forall i :: 0 <= i < |s| && s[i] == ESC ==> StartsCsi(s[i..])
    ensures Filtered(Filtered(s)) == Filtered(s)
  {
    assert forall i :: 0 <= i < |s| ==> !Exposed(s, i);
    FilteringTwiceChangesNothingIff(s);
  }

  /** Plain text without controls passes unchanged. */
  lemma PlainTextPasses(body: seq<Byte>)
    requires NoControl(body) && forall k :: 0 <= k < |body| ==> body[k] != ESC
    ensures Filtered(body) == body
  {
    DropPassesOver(body, []);
    assert body + [] == body;
    StripKeeps(body);
  }

  lemma Exposes(t: seq<Byte>, body: seq<Byte>)
    requires t != [] && t[0] != BRACKET && Filtered(t + body) == body && Droppable([ESC] + body)
    ensures Exposed([ESC] + t + body, 0)
  {
    var s := [ESC] + t + body;
    assert s[0..] == s && s[1..] == t + body && s[1] == t[0];
    UncoversIff(t + body);
  }

  lemma ControlIsSkipped(b: Byte, rest: seq<Byte>)
    requires Control(b)
    ensures Filtered([b] + rest) == Filtered(rest)
  {
    FilteredByte([b] + rest);
    assert ([b] + rest)[1..] == rest && [] + Filtered(rest) == Filtered(rest);
  }

  lemma DroppedIsSkipped(t: seq<Byte>, rest: seq<Byte>)
    requires Droppable(t) && CsiLength(t) == |t|
    ensures Filtered(t + rest) == Filtered(rest)
  {
    assert t[..|t|] == t;
    CsiStays(t, rest);
    FilteredCsi(t + rest);
    assert (t + rest)[|t|..] == rest && [] + Filtered(rest) == Filtered(rest);
  }

  /** Deleting a control byte between an escape and what looks like a body exposes it. */
  lemma DeletingAControlByteExposes(b: Byte, body: seq<Byte>)
    requires Control(b) && NoControl(body) && (forall k :: 0 <= k < |body| ==> body[k] != ESC)
    requires Droppable([ESC] + body)
    ensures Exposed([ESC] + [b] + body, 0)
  {
    PlainTextPasses(body);
    ControlIsSkipped(b, body);
    Exposes([b], body);
  }

  /** So does dropping a whole sequence there, with no control byte in the text. */
  lemma DroppingASequenceExposes(t: seq<Byte>, body: seq<Byte>)
    requires Droppable(t) && CsiLength(t) == |t|
    requires NoControl(body) && (forall k :: 0 <= k < |body| ==> body[k] != ESC) && Droppable([ESC] + body)
    ensures Exposed([ESC] + t + body, 0)
  {
    PlainTextPasses(body);
    DroppedIsSkipped(t, body);
    Exposes(t, body);
  }

  /** Both happen: the body of an erase-line sequence behind a NUL, and behind another sequence. */
  lemma OneRunIsNotAlwaysEnough()
    ensures Exposed([ESC] + [0x00] + [BRACKET, 0x32, 0x4B], 0)
    ensures Exposed([ESC] + [ESC, BRACKET, 0x32, 0x4B] + [BRACKET, 0x32, 0x4B], 0)
  {
    var body, erase := [BRACKET, 0x32, 0x4B], [ESC, BRACKET, 0x32, 0x4B];
    EraseIsDroppable(erase);
    assert [ESC] + body == erase;
    DeletingAControlByteExposes(0x00, body);
    DroppingASequenceExposes(erase, body);
  }

  lemma EraseIsDroppable(s: seq<Byte>)
    requires s == [ESC, BRACKET, 0x32, 0x4B]
    ensures Droppable(s) && CsiLength(s) == 4
  {
    assert CsiAt(s, 1, 0);
  }
}
