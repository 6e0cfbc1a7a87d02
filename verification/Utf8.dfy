/** Bytes and well-formed UTF-8 (table 3-7 of the Unicode Standard). */
module Utf8 {
  type Byte = b: int | 0 <= b < 256

  predicate IsAscii(b: Byte) {
    b < 0x80
  }

  predicate IsTail(s: seq<Byte>, i: nat) {
    i < |s| && 0x80 <= s[i] <= 0xBF
  }

  predicate TailIn(s: seq<Byte>, lo: Byte, hi: Byte) {
    1 < |s| && lo <= s[1] <= hi
  }

  /** Length of the well-formed character `s` starts with, zero if there is none. */
  function CharLen(s: seq<Byte>): (n: nat)
    requires s != []
    ensures n <= |s| && n <= 4
  {
    var b := s[0];
    if b < 0x80 then 1
    else if 0xC2 <= b <= 0xDF && IsTail(s, 1) then 2
    else if b == 0xE0 && TailIn(s, 0xA0, 0xBF) && IsTail(s, 2) then 3
    else if (0xE1 <= b <= 0xEC || 0xEE <= b <= 0xEF) && IsTail(s, 1) && IsTail(s, 2) then 3
    else if b == 0xED && TailIn(s, 0x80, 0x9F) && IsTail(s, 2) then 3
    else if b == 0xF0 && TailIn(s, 0x90, 0xBF) && IsTail(s, 2) && IsTail(s, 3) then 4
    else if 0xF1 <= b <= 0xF3 && IsTail(s, 1) && IsTail(s, 2) && IsTail(s, 3) then 4
    else if b == 0xF4 && TailIn(s, 0x80, 0x8F) && IsTail(s, 2) && IsTail(s, 3) then 4
    else 0
  }

  predicate Valid(s: seq<Byte>) {
    s == [] || (CharLen(s) > 0 && Valid(s[CharLen(s)..]))
  }

  // ---- characters and code points ----

  /** A code point that is no surrogate. */
  predicate Scalar(cp: nat) {
    cp < 0xD800 || 0xE000 <= cp < 0x11_0000
  }

  function Encode(cp: nat): seq<Byte>
    requires Scalar(cp)
  {
    if cp < 0x80 then [cp]
    else if cp < 0x800 then [0xC0 + cp / 64, 0x80 + cp % 64]
    else if cp < 0x1_0000 then [0xE0 + cp / 4096, 0x80 + cp / 64 % 64, 0x80 + cp % 64]
    else [0xF0 + cp / 262144, 0x80 + cp / 4096 % 64, 0x80 + cp / 64 % 64, 0x80 + cp % 64]
  }

  /** Every code point's encoding is taken for one character, whatever follows. */
  lemma EncodingIsOneCharacter(cp: nat, rest: seq<Byte>)
    requires Scalar(cp)
    ensures CharLen(Encode(cp) + rest) == |Encode(cp)|
  {
    if 0x800 <= cp < 0x1_0000 {
      ThreeByteEncoding(cp, rest);
    } else if 0x1_0000 <= cp {
      FourByteEncoding(cp, rest);
    } else {
      var s := Encode(cp) + rest;
      assert s[0] == Encode(cp)[0] && (cp >= 0x80 ==> s[1] == Encode(cp)[1]);
    }
  }

  lemma ThreeByteEncoding(cp: nat, rest: seq<Byte>)
    requires Scalar(cp) && 0x800 <= cp < 0x1_0000
    ensures CharLen(Encode(cp) + rest) == 3 == |Encode(cp)|
  {
    var s := Encode(cp) + rest;
    assert s[0] == Encode(cp)[0] && s[1] == Encode(cp)[1] && s[2] == Encode(cp)[2];
  }

  lemma FourByteEncoding(cp: nat, rest: seq<Byte>)
    requires Scalar(cp) && 0x1_0000 <= cp
    ensures CharLen(Encode(cp) + rest) == 4 == |Encode(cp)|
  {
    var s := Encode(cp) + rest;
    assert s[0] == Encode(cp)[0] && s[1] == Encode(cp)[1] && s[2] == Encode(cp)[2] && s[3] == Encode(cp)[3];
  }

  /** And every character is the encoding of a code point. */
  lemma CharacterIsAnEncoding(s: seq<Byte>) returns (cp: nat)
    requires s != [] && CharLen(s) > 0
    ensures Scalar(cp) && s[..CharLen(s)] == Encode(cp)
  {
    match CharLen(s) {
      case 1 => cp := s[0];
      case 2 => cp := TwoBytes(s[0], s[1]);
      case 3 => cp := ThreeBytes(s[0], s[1], s[2]);
      case _ => cp := FourBytes(s[0], s[1], s[2], s[3]);
    }
  }

  lemma TwoBytes(a: Byte, b: Byte) returns (cp: nat)
    requires 0xC2 <= a <= 0xDF && 0x80 <= b <= 0xBF
    ensures Scalar(cp) && Encode(cp) == [a, b]
  {
    cp := (a - 0xC0) * 64 + (b - 0x80);
  }

  lemma ThreeBytes(a: Byte, b: Byte, c: Byte) returns (cp: nat)
    requires 0xE0 <= a <= 0xEF && 0x80 <= b <= 0xBF && 0x80 <= c <= 0xBF
    requires (a == 0xE0 ==> b >= 0xA0) && (a == 0xED ==> b <= 0x9F)
    ensures Scalar(cp) && Encode(cp) == [a, b, c]
  {
    cp := (a - 0xE0) * 4096 + (b - 0x80) * 64 + (c - 0x80);
    assert cp / 64 == (a - 0xE0) * 64 + (b - 0x80);
  }

  lemma FourBytes(a: Byte, b: Byte, c: Byte, d: Byte) returns (cp: nat)
    requires 0xF0 <= a <= 0xF4 && 0x80 <= b <= 0xBF && 0x80 <= c <= 0xBF && 0x80 <= d <= 0xBF
    requires (a == 0xF0 ==> b >= 0x90) && (a == 0xF4 ==> b <= 0x8F)
    ensures Scalar(cp) && Encode(cp) == [a, b, c, d]
  {
    cp := (a - 0xF0) * 262144 + (b - 0x80) * 4096 + (c - 0x80) * 64 + (d - 0x80);
    SixBits((a - 0xF0) * 4096 + (b - 0x80) * 64 + (c - 0x80), d - 0x80);
    SixBits((a - 0xF0) * 64 + (b - 0x80), c - 0x80);
    SixBits(a - 0xF0, b - 0x80);
    assert cp / 4096 == (a - 0xF0) * 64 + (b - 0x80);
    assert cp / 262144 == a - 0xF0;
  }

  lemma SixBits(high: nat, low: nat)
    requires low < 64
    ensures (high * 64 + low) / 64 == high && (high * 64 + low) % 64 == low
  {
  }

  /** A character never reaches across a byte that is no tail. */
  lemma CharLenBeforeAscii(a: seq<Byte>, b: seq<Byte>)
    requires a != [] && (b == [] || IsAscii(b[0]))
    ensures CharLen(a + b) == CharLen(a)
  {
    assert forall i :: 0 <= i < |a| ==> (a + b)[i] == a[i];
    assert forall i :: |a| <= i < |a + b| ==> (a + b)[i] == b[i - |a|];
  }

  /** Well-formed text may be cut, and joined, in front of any ASCII byte. */
  lemma {:induction false} ValidSplitsAtAscii(a: seq<Byte>, b: seq<Byte>)
    requires b == [] || IsAscii(b[0])
    ensures Valid(a + b) <==> Valid(a) && Valid(b)
    decreases |a|
  {
    if a == [] {
      assert a + b == b;
    } else {
      CharLenBeforeAscii(a, b);
      var n := CharLen(a);
      if n > 0 {
        assert (a + b)[n..] == a[n..] + b;
        ValidSplitsAtAscii(a[n..], b);
      }
    }
  }

  lemma ValidSkipsAscii(b: Byte, s: seq<Byte>)
    requires IsAscii(b)
    ensures Valid([b] + s) <==> Valid(s)
  {
    assert ([b] + s)[1..] == s;
  }

  lemma CharLenOfLonger(a: seq<Byte>, b: seq<Byte>)
    requires a != [] && CharLen(a) > 0
    ensures CharLen(a + b) == CharLen(a)
  {
    assert forall i :: 0 <= i < |a| ==> (a + b)[i] == a[i];
  }

  lemma {:induction false} ValidJoins(a: seq<Byte>, b: seq<Byte>)
    requires Valid(a) && Valid(b)
    ensures Valid(a + b)
    decreases |a|
  {
    if a == [] {
      assert a + b == b;
    } else {
      CharLenOfLonger(a, b);
      ValidJoins(a[CharLen(a)..], b);
      assert (a + b)[CharLen(a)..] == a[CharLen(a)..] + b;
    }
  }

  lemma {:induction false} AsciiPrefixIsValid(s: seq<Byte>, rest: seq<Byte>)
    requires forall k :: 0 <= k < |s| ==> IsAscii(s[k])
    ensures Valid(s + rest) <==> Valid(rest)
    decreases |s|
  {
    if s == [] {
      assert s + rest == rest;
    } else {
      assert s + rest == [s[0]] + (s[1..] + rest);
      ValidSkipsAscii(s[0], s[1..] + rest);
      AsciiPrefixIsValid(s[1..], rest);
    }
  }
}
