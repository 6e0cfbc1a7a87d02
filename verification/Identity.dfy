/** The port sequence of a context identity (crates/mandala-context/src/identity.rs).
    Every operand is a `u16`, so each addition is taken modulo 2^16. */
module Identity {
  const U16: nat := 0x1_0000
  const U64: nat := 0x1_0000_0000_0000_0000
  const PORT_BASE: nat := 27155
  const PORT_RANGE: nat := 256

  datatype ContextIdentity = ContextIdentity(flake: string, hash: nat, base: nat, range: nat)

  /** What the constructor guarantees: machine-width fields and a non-empty range. */
  predicate WellFormed(id: ContextIdentity) {
    id.hash < U64 && id.base < U16 && 0 < id.range < U16
  }

  function PortOffset(hash: nat, range: nat): (offset: nat)
    requires range > 0
    ensures offset < range
  {
    hash % range
  }

  function DerivedPort(id: ContextIdentity): nat
    requires WellFormed(id)
  {
    (id.base + PortOffset(id.hash, id.range)) % U16
  }

  function PortAt(id: ContextIdentity, i: nat): nat
    requires WellFormed(id)
  {
    (id.base + ((PortOffset(id.hash, id.range) + i) % U16) % id.range) % U16
  }

  function Ports(id: ContextIdentity): seq<nat>
    requires WellFormed(id)
  {
    seq(id.range, i requires 0 <= i => PortAt(id, i))
  }

  /** `ps` visits each port of `base .. base + range` exactly once and nothing else. */
  ghost predicate CoversOnce(ps: seq<nat>, base: nat, range: nat) {
    && |ps| == range
    && (forall i, j :: 0 <= i < j < |ps| ==> ps[i] != ps[j])
    && (forall p: nat :: p in ps <==> base <= p < base + range)
  }

  /** Neither addition of the walk leaves the sixteen bits. */
  predicate NoOverflow(id: ContextIdentity)
    requires WellFormed(id)
  {
    id.base + id.range <= U16 && PortOffset(id.hash, id.range) + id.range <= U16
  }

  /** The offset is the hash's remainder: hashes a range apart start at the same port, and every port
      of the range is where some hash starts. */
  lemma OffsetIsTheRemainder(times: nat, rest: nat, range: nat)
    requires rest < range
    ensures PortOffset(times * range + rest, range) == rest
  {
    var n := times * range + rest;
    QuotientIsUnique(times, rest, n / range, n % range, range);
  }

  lemma QuotientIsUnique(p: nat, r: nat, q: nat, s: nat, n: nat)
    requires p * n + r == q * n + s && r < n && s < n
    ensures r == s
  {
    if p < q {
      OneMoreTimes(p, q, n);
    } else if q < p {
      OneMoreTimes(q, p, n);
    }
  }

  lemma {:induction false} OneMoreTimes(p: nat, q: nat, n: nat)
    requires p < q
    ensures p * n + n <= q * n
    decreases q - p
  {
    if p + 1 < q {
      OneMoreTimes(p + 1, q, n);
    }
    assert (p + 1) * n == p * n + n;
  }

  /** Both additions of this step of the walk stay in sixteen bits; where overflow is trapped, a step
      that does not is where the walk ends. */
  predicate Adds(id: ContextIdentity, i: nat)
    requires WellFormed(id)
  {
    var sum := PortOffset(id.hash, id.range) + i;
    sum < U16 && id.base + sum % id.range < U16
  }

  lemma NoOverflowIffAllAdd(id: ContextIdentity)
    requires WellFormed(id)
    ensures NoOverflow(id) <==> forall i :: 0 <= i < id.range ==> Adds(id, i)
  {
    var last := id.range - 1;
    SmallRemainder(last, id.range);
    if forall i :: 0 <= i < id.range ==> Adds(id, i) {
      assert Adds(id, last);
      assert Adds(id, last - PortOffset(id.hash, id.range));
    }
  }

  lemma SmallRemainder(x: nat, n: nat)
    requires x < n
    ensures x % n == x
  {
  }

  lemma WrapOnce(x: nat, n: nat)
    requires n > 0 && x < 2 * n
    ensures x % n == if x < n then x else x - n
  {
  }

  lemma PortWithoutOverflow(id: ContextIdentity, i: nat)
    requires WellFormed(id) && NoOverflow(id) && i < id.range
    ensures var x := PortOffset(id.hash, id.range) + i;
            PortAt(id, i) == id.base + (if x < id.range then x else x - id.range)
  {
    var x := PortOffset(id.hash, id.range) + i;
    WrapOnce(x, U16);
    WrapOnce(x, id.range);
    WrapOnce(id.base + x % id.range, U16);
  }

  /** The walk goes up one port at a time and from the last of the range to the first. */
  lemma WalkGoesUp(id: ContextIdentity, i: nat)
    requires WellFormed(id) && NoOverflow(id) && i + 1 < id.range
    ensures Ports(id)[i + 1] == if Ports(id)[i] == id.base + id.range - 1 then id.base else Ports(id)[i] + 1
  {
    PortWithoutOverflow(id, i);
    PortWithoutOverflow(id, i + 1);
  }

  lemma CoveredWithoutOverflow(id: ContextIdentity)
    requires WellFormed(id) && NoOverflow(id)
    ensures CoversOnce(Ports(id), id.base, id.range)
  {
    var ps, offset := Ports(id), PortOffset(id.hash, id.range);
    forall i, j | 0 <= i < j < |ps| ensures ps[i] != ps[j] {
      PortWithoutOverflow(id, i);
      PortWithoutOverflow(id, j);
    }
    forall p: nat ensures p in ps <==> id.base <= p < id.base + id.range {
      if id.base <= p < id.base + id.range {
        var k := p - id.base;
        var i := if offset <= k then k - offset else k + id.range - offset;
        PortWithoutOverflow(id, i);
        assert ps[i] == p;
      }
      if p in ps {
        var i :| 0 <= i < |ps| && ps[i] == p;
        PortWithoutOverflow(id, i);
      }
    }
  }

  /** Past the sixteen bits the walk restarts at the range's first port and visits it twice. */
  lemma OverflowRepeatsAPort(id: ContextIdentity)
    requires WellFormed(id) && PortOffset(id.hash, id.range) + id.range > U16
    ensures exists i, j :: 0 <= i < j < id.range && Ports(id)[i] == Ports(id)[j]
  {
    var offset := PortOffset(id.hash, id.range);
    var i, j := id.range - offset, U16 - offset;
    PortAtRangeStart(id, i, id.range);
    PortAtRangeStart(id, j, U16);
    assert Ports(id)[i] == Ports(id)[j];
  }

  lemma RemainderOfSelf(n: nat)
    requires n > 0
    ensures n % n == 0 && 0 % n == 0
  {
  }

  lemma PortAtRangeStart(id: ContextIdentity, i: nat, sum: nat)
    requires WellFormed(id) && PortOffset(id.hash, id.range) + i == sum
    requires sum == id.range || sum == U16
    ensures PortAt(id, i) == id.base
  {
    RemainderOfSelf(id.range);
    assert sum % U16 == if sum == id.range then id.range else 0;
  }

  lemma HighBaseLeavesTheRange(id: ContextIdentity)
    requires WellFormed(id) && id.base + id.range > U16
    ensures U16 !in Ports(id)
  {
    assert forall i: nat :: i < id.range ==> PortAt(id, i) < U16;
  }

  lemma FirstPortIsDerived(id: ContextIdentity)
    requires WellFormed(id)
    ensures PortAt(id, 0) == DerivedPort(id)
  {
    WrapOnce(PortOffset(id.hash, id.range), U16);
    WrapOnce(PortOffset(id.hash, id.range), id.range);
  }

  /** The walk visits every port of the range exactly once, derived port first, exactly when
      no addition overflows. */
  lemma PortsCoverRangeIffNoOverflow(id: ContextIdentity)
    requires WellFormed(id)
    ensures Ports(id)[0] == DerivedPort(id)
    ensures CoversOnce(Ports(id), id.base, id.range) <==> NoOverflow(id)
  {
    FirstPortIsDerived(id);
    if NoOverflow(id) {
      CoveredWithoutOverflow(id);
    } else if id.base + id.range > U16 {
      HighBaseLeavesTheRange(id);
    } else {
      OverflowRepeatsAPort(id);
    }
  }

  /** The bound on the range alone is enough, whatever the hash; the production constants meet it. */
  lemma SmallRangesNeverOverflow(id: ContextIdentity)
    requires WellFormed(id)
    ensures id.range <= 32768 && id.base + id.range <= U16 ==> CoversOnce(Ports(id), id.base, id.range)
    ensures id.base == PORT_BASE && id.range == PORT_RANGE ==> CoversOnce(Ports(id), id.base, id.range)
  {
    if id.range <= 32768 && id.base + id.range <= U16 {
      CoveredWithoutOverflow(id);
    }
  }
}
