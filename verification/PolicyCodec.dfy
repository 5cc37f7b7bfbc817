/** The predicate codec as the program runs it: an encoder that appends to a buffer and a decoder
    that walks a cursor `at` over the bytes, each proved equal to its specification in `Policies`. */
module PolicyCodec {
  import opened Bytes
  import opened Outcomes
  import opened Policies

  function Prepend<T>(done: seq<T>, taken: Option<(seq<T>, Bytes)>): Option<(seq<T>, Bytes)>
  {
    match taken
    case None => None
    case Some((more, rest)) => Some((done + more, rest))
  }

  lemma PrependLaws<T>(done: seq<T>, taken: Option<(seq<T>, Bytes)>, rest: Bytes)
    ensures Prepend([], taken) == taken
    ensures Prepend(done, Some(([], rest))) == Some((done, rest))
  {
    assert done + [] == done;
    if taken.Some? {
      assert [] + taken.value.0 == taken.value.0;
    }
  }

  method DecodeConjunct(bytes: Bytes, at: nat) returns (r: Option<(Comparison, nat)>)
    requires at <= |bytes|
    ensures r.None? <==> TakeComparison(bytes[at..]).None?
    ensures r.Some? ==>
              && at <= r.value.1 <= |bytes|
              && TakeComparison(bytes[at..]) == Some((r.value.0, bytes[r.value.1..]))
  {
    var width := if |bytes| <= at + 5 then None
                 else if bytes[at + 5] == 0 then Some(6)
                 else if bytes[at + 5] == 1 then Some(23)
                 else None;
    assert width == HeadWidth(bytes[at..]);
    if width.None? || |bytes| < at + width.value {
      return None;
    }
    var w := width.value;
    assert bytes[at..at + w] == bytes[at..][..w] && bytes[at + w..] == bytes[at..][w..];
    var c := DecodeComparison(bytes[at..at + w]);
    if c.None? {
      return None;
    }
    return Some((c.value, at + w));
  }

  lemma ConjunctStep(done: seq<Comparison>, bs: Bytes, count: nat)
    requires count > 0 && TakeComparison(bs).Some?
    ensures var (c, rest) := TakeComparison(bs).value;
            Prepend(done, TakeComparisons(bs, count)) == Prepend(done + [c], TakeComparisons(rest, count - 1))
  {
    var (c, rest) := TakeComparison(bs).value;
    var more := TakeComparisons(rest, count - 1);
    if more.Some? {
      assert done + ([c] + more.value.0) == done + [c] + more.value.0;
    }
  }

  method DecodeConjuncts(bytes: Bytes, start: nat, count: nat) returns (r: Option<(seq<Comparison>, nat)>)
    requires start <= |bytes|
    ensures r.None? <==> TakeComparisons(bytes[start..], count).None?
    ensures r.Some? ==>
              && start <= r.value.1 <= |bytes|
              && TakeComparisons(bytes[start..], count) == Some((r.value.0, bytes[r.value.1..]))
  {
    var at, conjuncts := start, [];
    PrependLaws<Comparison>([], TakeComparisons(bytes[start..], count), []);
    for i := 0 to count
      invariant start <= at <= |bytes|
      invariant TakeComparisons(bytes[start..], count)
             == Prepend(conjuncts, TakeComparisons(bytes[at..], count - i))
    {
      var c := DecodeConjunct(bytes, at);
      if c.None? {
        return None;
      }
      ConjunctStep(conjuncts, bytes[at..], count - i);
      conjuncts, at := conjuncts + [c.value.0], c.value.1;
    }
    PrependLaws(conjuncts, None, bytes[at..]);
    return Some((conjuncts, at));
  }

  method DecodeHops(bytes: Bytes, start: nat, count: nat) returns (r: Option<(seq<Hop>, nat)>)
    requires start <= |bytes|
    ensures r.None? <==> TakeHops(bytes[start..], count).None?
    ensures r.Some? ==>
              && start <= r.value.1 <= |bytes|
              && TakeHops(bytes[start..], count) == Some((r.value.0, bytes[r.value.1..]))
  {
    var at, hops := start, [];
    PrependLaws<Hop>([], TakeHops(bytes[start..], count), []);
    for i := 0 to count
      invariant start <= at <= |bytes|
      invariant TakeHops(bytes[start..], count) == Prepend(hops, TakeHops(bytes[at..], count - i))
    {
      var head := bytes[at..];
      if |bytes| < at + 9 {
        return None;
      }
      var d := DirectionFromByte(bytes[at + 4]);
      if d.None? {
        return None;
      }
      var hop := Hop(U32Of(bytes[at..at + 4]), d.value, U32Of(bytes[at + 5..at + 9]));
      assert bytes[at..at + 4] == head[..4] && bytes[at + 5..at + 9] == head[5..9];
      assert TakeHop(head) == Some((hop, bytes[at + 9..]));
      hops, at := hops + [hop], at + 9;
      assert forall more: seq<Hop> :: hops[..|hops| - 1] + ([hop] + more) == hops + more;
    }
    PrependLaws(hops, None, bytes[at..]);
    return Some((hops, at));
  }

  method DecodeChainAt(bytes: Bytes, start: nat) returns (r: Option<(Chain, nat)>)
    requires start <= |bytes|
    ensures r.None? <==> TakeChain(bytes[start..]).None?
    ensures r.Some? ==>
              && start <= r.value.1 <= |bytes|
              && TakeChain(bytes[start..]) == Some((r.value.0, bytes[r.value.1..]))
  {
    if |bytes| <= start || !(1 <= bytes[start] <= MAX_CHAIN_HOPS) {
      return None;
    }
    assert bytes[start..][1..] == bytes[start + 1..];
    var hops := DecodeHops(bytes, start + 1, bytes[start]);
    if hops.None? {
      return None;
    }
    var at := hops.value.1;
    if |bytes| <= at || !(1 <= bytes[at] <= MAX_PREDICATE_CONJUNCTS) {
      return None;
    }
    assert bytes[at..][1..] == bytes[at + 1..];
    var terminal := DecodeConjuncts(bytes, at + 1, bytes[at]);
    if terminal.None? {
      return None;
    }
    return Some((Chain(hops.value.0, terminal.value.0), terminal.value.1));
  }

  method DecodePredicateBytes(bytes: Bytes) returns (r: Option<Predicate>)
    ensures r == DecodePredicate(bytes)
  {
    if |bytes| < 6 || bytes[0] != ENCODING_VERSION || bytes[5] > MAX_PREDICATE_CONJUNCTS {
      return None;
    }
    var selector := U32Of(bytes[1..5]);
    var conjuncts := DecodeConjuncts(bytes, 6, bytes[5]);
    if conjuncts.None? {
      return None;
    }
    var cs, at := conjuncts.value.0, conjuncts.value.1;
    if |bytes| <= at || bytes[at] > 1 {
      return None;
    }
    assert bytes[at..][1..] == bytes[at + 1..];
    var chain := None;
    if bytes[at] == 0 {
      at := at + 1;
      if cs == [] {
        return None;
      }
    } else {
      var c := DecodeChainAt(bytes, at + 1);
      if c.None? {
        return None;
      }
      chain, at := Some(c.value.0), c.value.1;
    }
    if at != |bytes| {
      return None;
    }
    return Some(Predicate(selector, cs, chain));
  }

  method AppendComparisons(v0: Bytes, cs: seq<Comparison>) returns (v: Bytes)
    ensures v == v0 + EncodeComparisons(cs)
  {
    v := v0;
    for i := 0 to |cs|
      invariant v + EncodeComparisons(cs[i..]) == v0 + EncodeComparisons(cs)
    {
      assert cs[i..][0] == cs[i] && cs[i..][1..] == cs[i + 1..];
      Associate(v, EncodeComparison(cs[i]), EncodeComparisons(cs[i + 1..]));
      v := v + EncodeComparison(cs[i]);
    }
  }

  method AppendHops(v0: Bytes, hs: seq<Hop>) returns (v: Bytes)
    ensures v == v0 + EncodeHops(hs)
  {
    v := v0;
    for i := 0 to |hs|
      invariant v + EncodeHops(hs[i..]) == v0 + EncodeHops(hs)
    {
      assert hs[i..][0] == hs[i] && hs[i..][1..] == hs[i + 1..];
      Associate(v, EncodeHop(hs[i]), EncodeHops(hs[i + 1..]));
      v := v + EncodeHop(hs[i]);
    }
  }

  method AppendChain(v0: Bytes, c: Chain) returns (v: Bytes)
    requires ChainInBounds(c)
    ensures v == v0 + EncodeChain(c)
  {
    v := AppendHops(v0 + [|c.hops|], c.hops);
    v := AppendComparisons(v + [|c.terminal|], c.terminal);
    AssociateFive(v0, [|c.hops|], EncodeHops(c.hops), [|c.terminal|], EncodeComparisons(c.terminal));
  }

  method EncodePredicateBytes(p: Predicate) returns (v: Bytes)
    requires InBounds(p)
    ensures v == EncodePredicate(p)
  {
    v := AppendComparisons([ENCODING_VERSION] + Le(p.selector, 4) + [|p.conjuncts|], p.conjuncts);
    if p.chain.None? {
      v := v + [0];
    } else {
      Associate(v, [1], EncodeChain(p.chain.value));
      v := AppendChain(v + [1], p.chain.value);
    }
  }
}
