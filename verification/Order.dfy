/** Lexicographic order on strings, and the one ascending listing of a finite set of them. */
module Order {
  predicate Less(a: string, b: string) {
    b != [] && (a == [] || a[0] < b[0] || (a[0] == b[0] && Less(a[1..], b[1..])))
  }

  lemma {:induction false} Irreflexive(a: string)
    ensures !Less(a, a)
    decreases |a|
  {
    if a != [] {
      Irreflexive(a[1..]);
    }
  }

  lemma {:induction false} Transitive(a: string, b: string, c: string)
    requires Less(a, b) && Less(b, c)
    ensures Less(a, c)
    decreases |a|
  {
    if a != [] && a[0] == b[0] && b[0] == c[0] {
      Transitive(a[1..], b[1..], c[1..]);
    }
  }

  lemma {:induction false} Connected(a: string, b: string)
    ensures a == b || Less(a, b) || Less(b, a)
    decreases |a|
  {
    if a != [] && b != [] && a[0] == b[0] {
      Connected(a[1..], b[1..]);
      if a[1..] == b[1..] {
        assert a == [a[0]] + a[1..] && b == [b[0]] + b[1..];
      }
    }
  }

  lemma Asymmetric(a: string, b: string)
    requires Less(a, b)
    ensures !Less(b, a) && a != b
  {
    Irreflexive(a);
    if Less(b, a) {
      Transitive(a, b, a);
    }
  }

  predicate Ascending(s: seq<string>) {
    forall i, j :: 0 <= i < j < |s| ==> Less(s[i], s[j])
  }

  function Elements(s: seq<string>): set<string> {
    set x | x in s
  }

  ghost predicate IsLeast(m: string, s: set<string>) {
    m in s && forall x :: x in s && x != m ==> Less(m, x)
  }

  lemma {:induction false} LeastExists(s: set<string>)
    requires s != {}
    ensures exists m :: IsLeast(m, s)
    decreases |s|
  {
    var x :| x in s;
    if s == {x} {
      assert IsLeast(x, s);
    } else {
      LeastExists(s - {x});
      var m :| IsLeast(m, s - {x});
      Connected(x, m);
      if Less(m, x) {
        assert IsLeast(m, s);
      } else {
        forall y | y in s && y != x ensures Less(x, y) {
          if y != m {
            Transitive(x, m, y);
          }
        }
        assert IsLeast(x, s);
      }
    }
  }

  lemma PrependLeast(m: string, rest: seq<string>)
    requires Ascending(rest) && forall x :: x in Elements(rest) ==> Less(m, x)
    ensures Ascending([m] + rest) && Elements([m] + rest) == {m} + Elements(rest)
  {
    forall k | 0 <= k < |rest| ensures Less(m, rest[k]) {
      assert rest[k] in Elements(rest);
    }
  }

  /** The elements of `s` in ascending order. */
  ghost function Listing(s: set<string>): (r: seq<string>)
    ensures Ascending(r) && Elements(r) == s && |r| == |s|
  {
    if s == {} then []
    else
      LeastExists(s);
      var m :| IsLeast(m, s);
      var rest := Listing(s - {m});
      PrependLeast(m, rest);
      [m] + rest
  }

  lemma HeadIsLeast(r: seq<string>)
    requires Ascending(r) && r != []
    ensures forall x :: x in r && x != r[0] ==> Less(r[0], x)
    ensures forall x :: x in r[1..] <==> x in r && x != r[0]
  {
    forall x | x in r && x != r[0] ensures Less(r[0], x) {
      var i :| 0 <= i < |r| && r[i] == x;
    }
    Irreflexive(r[0]);
    assert r == [r[0]] + r[1..];
  }

  /** Two ascending sequences with the same elements are the same sequence. */
  lemma {:induction false} AscendingIsUnique(a: seq<string>, b: seq<string>)
    requires Ascending(a) && Ascending(b) && (forall x :: x in a <==> x in b)
    ensures a == b
    decreases |a|
  {
    assert b != [] ==> b[0] in b;
    if a != [] {
      assert a[0] in a && a[0] in b;
      assert b[0] in b;
      HeadIsLeast(a);
      HeadIsLeast(b);
      if a[0] != b[0] {
        Asymmetric(a[0], b[0]);
      }
      AscendingIsUnique(a[1..], b[1..]);
      assert a == [a[0]] + a[1..] && b == [b[0]] + b[1..];
    }
  }

  lemma ListingIs(s: set<string>, r: seq<string>)
    requires Ascending(r) && Elements(r) == s
    ensures r == Listing(s)
  {
    forall x ensures x in r <==> x in Listing(s) {
      assert x in r <==> x in Elements(r);
      assert x in Listing(s) <==> x in Elements(Listing(s));
    }
    AscendingIsUnique(r, Listing(s));
  }

  /** Puts `x` where it belongs; the program's ordered sets and in-place sorts come down to this. */
  method Insert(r: seq<string>, x: string) returns (q: seq<string>)
    requires Ascending(r) && x !in r
    ensures Ascending(q) && Elements(q) == Elements(r) + {x}
  {
    var i := 0;
    while i < |r| && Less(r[i], x)
      invariant 0 <= i <= |r|
      invariant forall k :: 0 <= k < i ==> Less(r[k], x)
    {
      i := i + 1;
    }
    q := r[..i] + [x] + r[i..];
    if i < |r| {
      Connected(r[i], x);
    }
    forall k | i <= k < |r| ensures Less(x, r[k]) {
      if k > i {
        Transitive(x, r[i], r[k]);
      }
    }
    forall y ensures y in q <==> y in r || y == x {
      assert r == r[..i] + r[i..];
    }
  }

  method Sort(s: set<string>) returns (r: seq<string>)
    ensures r == Listing(s)
  {
    r := [];
    var rest := s;
    while rest != {}
      invariant rest <= s && Ascending(r) && Elements(r) == s - rest
      decreases rest
    {
      var x :| x in rest;
      assert x !in Elements(r);
      r := Insert(r, x);
      rest := rest - {x};
    }
    ListingIs(s, r);
  }
}
