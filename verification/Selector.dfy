/** The text of a selector: its separated, trimmed parts and the canonical comma-joined form
    (crates/mandala-core/src/inventory.rs, `resolve` and `to_limit`). */
module Selector {
  import opened Order

  predicate Separator(c: char) {
    c == ',' || c == ':'
  }

  /** Unicode White_Space, what `str::trim` removes. */
  predicate Blank(c: char) {
    || '\U{9}' <= c <= '\U{D}' || c == ' ' || c == '\U{85}' || c == '\U{A0}' || c == '\U{1680}'
    || '\U{2000}' <= c <= '\U{200A}' || c == '\U{2028}' || c == '\U{2029}' || c == '\U{202F}'
    || c == '\U{205F}' || c == '\U{3000}'
  }

  /** The pieces between separators, empty ones included. */
  function Pieces(s: string): (r: seq<string>)
    ensures |r| > 0
  {
    if s == [] then [[]]
    else if Separator(s[0]) then [[]] + Pieces(s[1..])
    else var rest := Pieces(s[1..]); [[s[0]] + rest[0]] + rest[1..]
  }

  function Trim(s: string): (r: string)
    ensures |r| <= |s|
  {
    if s == [] then s
    else if Blank(s[0]) then Trim(s[1..])
    else if Blank(s[|s| - 1]) then Trim(s[..|s| - 1])
    else s
  }

  /** Exactly the blanks at both ends go. */
  lemma {:induction false} TrimTakesTheEnds(s: string) returns (i: nat, j: nat)
    ensures i <= j <= |s| && Trim(s) == s[i..j]
    ensures forall k :: 0 <= k < |s| && (k < i || j <= k) ==> Blank(s[k])
    ensures i < j ==> !Blank(s[i]) && !Blank(s[j - 1])
    decreases |s|
  {
    if s != [] && Blank(s[0]) {
      i, j := TrimTakesTheEnds(s[1..]);
      assert s[1..][i..j] == s[i + 1..j + 1];
      i, j := i + 1, j + 1;
    } else if s != [] && Blank(s[|s| - 1]) {
      i, j := TrimTakesTheEnds(s[..|s| - 1]);
      assert s[..|s| - 1][i..j] == s[i..j];
    } else {
      i, j := 0, |s|;
    }
  }

  /** The parts that count, in order. */
  function Parts(pieces: seq<string>): seq<string> {
    if pieces == [] then []
    else (if Trim(pieces[0]) == [] then [] else [Trim(pieces[0])]) + Parts(pieces[1..])
  }

  function Join(names: seq<string>): string {
    if names == [] then [] else if |names| == 1 then names[0] else names[0] + [','] + Join(names[1..])
  }

  predicate Plain(s: string) {
    forall c :: c in s ==> !Separator(c)
  }

  // ---- reading back what was joined ----

  lemma {:induction false} PlainPrefixStaysWhole(s: string, rest: string)
    requires Plain(s)
    ensures Pieces(s + rest) == [s + Pieces(rest)[0]] + Pieces(rest)[1..]
    decreases |s|
  {
    if s == [] {
      assert s + rest == rest && s + Pieces(rest)[0] == Pieces(rest)[0];
    } else {
      assert (s + rest)[1..] == s[1..] + rest && !Separator(s[0]);
      PlainPrefixStaysWhole(s[1..], rest);
      assert [s[0]] + (s[1..] + Pieces(rest)[0]) == s + Pieces(rest)[0];
    }
  }

  /** Splitting undoes joining. */
  lemma {:induction false} SplittingUndoesJoining(names: seq<string>)
    requires names != [] && forall n :: n in names ==> Plain(n)
    ensures Pieces(Join(names)) == names
    decreases |names|
  {
    if |names| == 1 {
      PlainPrefixStaysWhole(names[0], []);
      assert names[0] + [] == names[0] && names == [names[0]];
    } else {
      var rest := Join(names[1..]);
      SplittingUndoesJoining(names[1..]);
      PlainPrefixStaysWhole(names[0], [','] + rest);
      assert ([','] + rest)[1..] == rest;
      assert Join(names) == names[0] + ([','] + rest);
      assert names[0] + [] == names[0] && names == [names[0]] + names[1..];
    }
  }

  /** A comma or a colon between two selectors splits them apart. */
  lemma {:induction false} PiecesAppend(s: string, c: char, t: string)
    requires c == ',' || c == ':'
    ensures Pieces(s + [c] + t) == Pieces(s) + Pieces(t)
    decreases |s|
  {
    if s == [] {
      assert ([] + [c] + t)[1..] == t && [] + [c] + t == [c] + t;
    } else {
      PiecesAppend(s[1..], c, t);
      assert s == [s[0]] + s[1..];
      BehindTheFirst(s[0], s[1..], c, t);
      PiecesOf(s[0], s[1..] + [c] + t);
      PiecesOf(s[0], s[1..]);
      FirstPieceGrows(s[0], Pieces(s[1..]), Pieces(t));
    }
  }

  lemma BehindTheFirst(c: char, rest: string, d: char, t: string)
    ensures ([c] + rest) + [d] + t == [c] + (rest + [d] + t)
  {
  }

  /** The pieces with one more character in front. */
  function Prepended(c: char, pieces: seq<string>): seq<string>
    requires pieces != []
  {
    if Separator(c) then [[]] + pieces else [[c] + pieces[0]] + pieces[1..]
  }

  lemma PiecesOf(c: char, rest: string)
    ensures Pieces([c] + rest) == Prepended(c, Pieces(rest))
  {
    assert ([c] + rest)[1..] == rest;
  }

  lemma FirstPieceGrows(c: char, a: seq<string>, b: seq<string>)
    requires a != []
    ensures Prepended(c, a + b) == Prepended(c, a) + b
  {
  }

  /** The two separators are interchangeable, one occurrence at a time. */
  lemma {:induction false} SeparatorsAreInterchangeable(s: string, t: string)
    requires |s| == |t|
    requires forall i :: 0 <= i < |s| ==> s[i] == t[i] || (Separator(s[i]) && Separator(t[i]))
    ensures Pieces(s) == Pieces(t)
    decreases |s|
  {
    if s != [] {
      assert forall i :: 0 <= i < |s| - 1 ==> s[1..][i] == s[i + 1] && t[1..][i] == t[i + 1];
      SeparatorsAreInterchangeable(s[1..], t[1..]);
    }
  }

  // ---- the parts as a set ----

  function PartSet(selector: string): set<string> {
    Elements(Parts(Pieces(selector)))
  }

  lemma {:induction false} PartsAreTrimmedPieces(pieces: seq<string>, p: string)
    ensures p in Parts(pieces) <==> p != [] && exists q :: q in pieces && p == Trim(q)
    decreases |pieces|
  {
    if pieces != [] {
      PartsAreTrimmedPieces(pieces[1..], p);
      assert pieces == [pieces[0]] + pieces[1..];
      var head := if Trim(pieces[0]) == [] then [] else [Trim(pieces[0])];
      assert p in head <==> p != [] && p == Trim(pieces[0]);
      if exists q :: q in pieces && p == Trim(q) {
        var q :| q in pieces && p == Trim(q);
        assert q == pieces[0] || q in pieces[1..];
      }
    }
  }

  /** Which pieces there are decides the parts; their order and repetition do not. */
  lemma PartsIgnoreOrder(ps: seq<string>, qs: seq<string>)
    requires Elements(ps) == Elements(qs)
    ensures Elements(Parts(ps)) == Elements(Parts(qs))
  {
    assert forall p :: p in ps <==> p in Elements(ps);
    assert forall p :: p in qs <==> p in Elements(qs);
    forall p ensures p in Elements(Parts(ps)) <==> p in Elements(Parts(qs)) {
      PartsAreTrimmedPieces(ps, p);
      PartsAreTrimmedPieces(qs, p);
    }
  }

  predicate Tidy(name: string) {
    name != [] && Plain(name) && !Blank(name[0]) && !Blank(name[|name| - 1])
  }

  lemma {:induction false} TidyPiecesAreParts(names: seq<string>)
    requires forall n :: n in names ==> Tidy(n)
    ensures Parts(names) == names
    decreases |names|
  {
    if names != [] {
      assert Tidy(names[0]) && Trim(names[0]) == names[0];
      TidyPiecesAreParts(names[1..]);
      assert names == [names[0]] + names[1..];
    }
  }
}
