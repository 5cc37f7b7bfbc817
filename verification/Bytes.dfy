/** Byte strings: fixed-width little-endian integers and the lexicographic order that
    the stable ordered map keeps its keys in. */
module Bytes {

  type Byte = b: int | 0 <= b < 0x100
  type U32 = n: int | 0 <= n < 0x1_0000_0000
  type U64 = n: int | 0 <= n < 0x1_0000_0000_0000_0000
  type Bytes = seq<Byte>

  const U64_MAX: U64 := 0xFFFF_FFFF_FFFF_FFFF

  // ---------- little-endian integers ----------

  /** The low `width` bytes of `n`, least significant first. */
  function Le(n: nat, width: nat): (bs: Bytes)
    ensures |bs| == width
    decreases width, n  // with `n` in the measure a constant width is not unrolled everywhere
  {
    if width == 0 then [] else [n % 0x100] + Le(n / 0x100, width - 1)
  }

  function FromLe(bs: Bytes): nat
  {
    if bs == [] then 0 else bs[0] + 0x100 * FromLe(bs[1..])
  }

  /** The number of values that fit in `width` bytes. */
  function Capacity(width: nat): (n: nat)
    ensures n > 0
  {
    if width == 0 then 1 else 0x100 * Capacity(width - 1)
  }

  lemma Capacities()
    ensures Capacity(2) == 0x1_0000
    ensures Capacity(4) == 0x1_0000_0000
    ensures Capacity(8) == 0x1_0000_0000_0000_0000
  {
    assert Capacity(2) == 0x1_0000;
    assert Capacity(4) == 0x1_0000 * 0x1_0000;
    assert Capacity(6) == 0x1_0000_0000 * 0x1_0000;
  }

  lemma {:induction false} LeBelow(bs: Bytes)
    ensures FromLe(bs) < Capacity(|bs|)
  {
    if bs != [] {
      LeBelow(bs[1..]);
    }
  }

  /** In-range values survive the round trip. */
  lemma {:induction false} LeRoundTrip(n: nat, width: nat)
    requires n < Capacity(width)
    ensures FromLe(Le(n, width)) == n
    decreases width
  {
    if width > 0 {
      LeRoundTrip(n / 0x100, width - 1);
      assert Le(n, width)[1..] == Le(n / 0x100, width - 1);
    }
  }

  lemma Split16(n: nat)
    ensures n % 0x1_0000 == n % 0x100 + 0x100 * ((n / 0x100) % 0x100)
  {}

  /** A length cast to 16 bits reads back as its residue, so a round trip needs a short value. */
  lemma Le16Residue(n: nat)
    ensures FromLe(Le(n, 2)) == n % 0x1_0000
  {
    var q := n / 0x100;
    assert Le(n, 2)[1..] == Le(q, 1);
    assert Le(q, 1)[1..] == [];
    assert FromLe(Le(q, 1)) == q % 0x100;
    Split16(n);
  }

  /** The three parts of a concatenation, cut back out. */
  lemma CutThree(a: Bytes, b: Bytes, c: Bytes)
    ensures var k := a + b + c;
            k[..|a|] == a && k[|a|..|a| + |b|] == b && k[|a| + |b|..] == c
  {}

  lemma Le16(n: nat)
    requires n < 0x1_0000
    ensures FromLe(Le(n, 2)) == n
  {
    Capacities();
    LeRoundTrip(n, 2);
  }

  lemma AssociateFive(v: Bytes, a: Bytes, b: Bytes, c: Bytes, d: Bytes)
    ensures v + a + b + c + d == v + (a + b + c + d)
  {}

  lemma Associate(a: Bytes, b: Bytes, c: Bytes)
    ensures a + b + c == a + (b + c)
  {}

  // ---------- lexicographic order ----------

  predicate LexLe(a: Bytes, b: Bytes)
  {
    a == [] || (b != [] && (a[0] < b[0] || (a[0] == b[0] && LexLe(a[1..], b[1..]))))
  }

  predicate LexLt(a: Bytes, b: Bytes)
  {
    LexLe(a, b) && a != b
  }

  lemma LexReflexive(a: Bytes)
    ensures LexLe(a, a)
  {}

  lemma {:induction false} LexTotal(a: Bytes, b: Bytes)
    ensures LexLe(a, b) || LexLe(b, a)
  {
    if a != [] && b != [] && a[0] == b[0] {
      LexTotal(a[1..], b[1..]);
    }
  }

  lemma {:induction false} LexAntisymmetric(a: Bytes, b: Bytes)
    requires LexLe(a, b) && LexLe(b, a)
    ensures a == b
  {
    if a != [] {
      LexAntisymmetric(a[1..], b[1..]);
      assert a == [a[0]] + a[1..] && b == [b[0]] + b[1..];
    }
  }

  lemma {:induction false} LexTransitive(a: Bytes, b: Bytes, c: Bytes)
    requires LexLe(a, b) && LexLe(b, c)
    ensures LexLe(a, c)
  {
    if a != [] && a[0] == b[0] == c[0] {
      LexTransitive(a[1..], b[1..], c[1..]);
    }
  }

  /** Byte strings that share a prefix form an interval of the order. */
  lemma {:induction false} PrefixIsInterval(prefix: Bytes, low: Bytes, mid: Bytes, high: Bytes)
    requires prefix <= low && prefix <= high
    requires LexLe(low, mid) && LexLe(mid, high)
    ensures prefix <= mid
  {
    if prefix != [] {
      PrefixIsInterval(prefix[1..], low[1..], mid[1..], high[1..]);
      assert mid == [mid[0]] + mid[1..];
    }
  }
}
