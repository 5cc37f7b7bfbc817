/** Compiled conditional-policy predicates and their self-delimiting byte encoding. A comparison
    takes 6 bytes (`MSG_CALLER()`) or 23 bytes (a literal), told apart by its sixth byte. */
module Policies {
  import opened Bytes
  import opened Outcomes

  type I64 = n: int | -0x8000_0000_0000_0000 <= n < 0x8000_0000_0000_0000
  type ShortText = s: Bytes | |s| <= 15

  datatype Op = Eq | Ne | Lt | Le_ | Gt | Ge

  /** Floats are kept as their bit pattern, which is what the stable encoding compares. */
  datatype Literal = Bool(b: bool) | Int(i: I64) | Float(bits: U64) | Text(text: ShortText)

  datatype Value = Constant(literal: Literal) | MsgCaller

  datatype Comparison = Comparison(property: U32, op: Op, value: Value)

  datatype HopDirection = Outgoing | Incoming | Both

  datatype Hop = Hop(edge: U32, direction: HopDirection, dest: U32)

  datatype Chain = Chain(hops: seq<Hop>, terminal: seq<Comparison>)

  datatype Predicate = Predicate(selector: U32, conjuncts: seq<Comparison>, chain: Option<Chain>)

  const MAX_PREDICATE_CONJUNCTS: nat := 8
  const MAX_CHAIN_HOPS: nat := 2
  const ENCODING_VERSION: Byte := 2

  // ---------- encoding ----------

  function Zeros(n: nat): (bs: Bytes)
    ensures |bs| == n
  {
    if n == 0 then [] else [0] + Zeros(n - 1)
  }

  function OpByte(op: Op): Byte
  {
    match op
    case Eq => 0 case Ne => 1 case Lt => 2 case Le_ => 3 case Gt => 4 case Ge => 5
  }

  function LiteralTag(l: Literal): Byte
  {
    match l
    case Bool(_) => 0 case Int(_) => 1 case Float(_) => 2 case Text(_) => 3
  }

  function TwosComplement(i: I64): U64
  {
    if i < 0 then i + 0x1_0000_0000_0000_0000 else i
  }

  function FromTwosComplement(u: U64): I64
  {
    if u >= 0x8000_0000_0000_0000 then u - 0x1_0000_0000_0000_0000 else u
  }

  function LiteralPayload(l: Literal): (bs: Bytes)
    ensures |bs| == 16
  {
    match l
    case Bool(b) => [if b then 1 else 0] + Zeros(15)
    case Int(i) => Le(TwosComplement(i), 8) + Zeros(8)
    case Float(bits) => Le(bits, 8) + Zeros(8)
    case Text(text) => [|text|] + text + Zeros(15 - |text|)
  }

  function ValueBytes(v: Value): Bytes
  {
    match v
    case MsgCaller => [0]
    case Constant(l) => [1, LiteralTag(l)] + LiteralPayload(l)
  }

  function EncodeComparison(c: Comparison): Bytes
  {
    Le(c.property, 4) + [OpByte(c.op)] + ValueBytes(c.value)
  }

  function EncodeComparisons(cs: seq<Comparison>): Bytes
  {
    if cs == [] then [] else EncodeComparison(cs[0]) + EncodeComparisons(cs[1..])
  }

  function DirectionByte(d: HopDirection): Byte
  {
    match d
    case Outgoing => 0 case Incoming => 1 case Both => 2
  }

  function EncodeHop(h: Hop): (bs: Bytes)
    ensures |bs| == 9
  {
    Le(h.edge, 4) + [DirectionByte(h.direction)] + Le(h.dest, 4)
  }

  function EncodeHops(hs: seq<Hop>): Bytes
  {
    if hs == [] then [] else EncodeHop(hs[0]) + EncodeHops(hs[1..])
  }

  /** The bounds the encoder asserts. */
  predicate ChainInBounds(c: Chain)
  {
    && 1 <= |c.hops| <= MAX_CHAIN_HOPS
    && 1 <= |c.terminal| <= MAX_PREDICATE_CONJUNCTS
  }

  predicate InBounds(p: Predicate)
  {
    && |p.conjuncts| <= MAX_PREDICATE_CONJUNCTS
    && (p.chain.Some? || p.conjuncts != [])
    && (p.chain.Some? ==> ChainInBounds(p.chain.value))
  }

  function EncodeChain(c: Chain): Bytes
    requires ChainInBounds(c)
  {
    [|c.hops|] + EncodeHops(c.hops) + [|c.terminal|] + EncodeComparisons(c.terminal)
  }

  function EncodeChainBlock(c: Option<Chain>): Bytes
    requires c.Some? ==> ChainInBounds(c.value)
  {
    if c.Some? then [1] + EncodeChain(c.value) else [0]
  }

  function EncodePredicate(p: Predicate): Bytes
    requires InBounds(p)
  {
    [ENCODING_VERSION] + Le(p.selector, 4) + [|p.conjuncts|]
    + EncodeComparisons(p.conjuncts) + EncodeChainBlock(p.chain)
  }

  // ---------- decoding ----------

  function OpFromByte(b: Byte): Option<Op>
  {
    match b
    case 0 => Some(Eq) case 1 => Some(Ne) case 2 => Some(Lt)
    case 3 => Some(Le_) case 4 => Some(Gt) case 5 => Some(Ge)
    case _ => None
  }

  function DirectionFromByte(b: Byte): Option<HopDirection>
  {
    match b
    case 0 => Some(Outgoing) case 1 => Some(Incoming) case 2 => Some(Both)
    case _ => None
  }

  function DecodeLiteral(tag: Byte, payload: Bytes): Option<Literal>
    requires |payload| == 16
  {
    match tag
    case 0 => Some(Bool(payload[0] == 1))
    case 1 => Some(Int(FromTwosComplement(U64Of(payload[..8]))))
    case 2 => Some(Float(U64Of(payload[..8])))
    case 3 => if payload[0] > 15 then None else Some(Text(payload[1..1 + payload[0]]))
    case _ => None
  }

  function DecodeValue(bs: Bytes): Option<Value>
  {
    if bs == [] then None
    else if bs[0] == 0 then Some(MsgCaller)
    else if bs[0] == 1 && |bs| >= 18 then
      (match DecodeLiteral(bs[1], bs[2..18])
       case None => None
       case Some(l) => Some(Constant(l)))
    else None
  }

  function DecodeComparison(bs: Bytes): Option<Comparison>
  {
    if |bs| < 6 then None
    else
      match (OpFromByte(bs[4]), DecodeValue(bs[5..]))
      case (Some(op), Some(v)) => Some(Comparison(U32Of(bs[..4]), op, v))
      case _ => None
  }

  /** The width of the comparison at the head of `bs`, read off its value-kind byte. */
  function HeadWidth(bs: Bytes): Option<nat>
  {
    if |bs| <= 5 then None
    else if bs[5] == 0 then Some(6)
    else if bs[5] == 1 then Some(23)
    else None
  }

  /** One comparison taken off the front, with what is left. */
  function TakeComparison(bs: Bytes): Option<(Comparison, Bytes)>
  {
    match HeadWidth(bs)
    case None => None
    case Some(w) =>
      if |bs| < w then None
      else
        match DecodeComparison(bs[..w])
        case None => None
        case Some(c) => Some((c, bs[w..]))
  }

  function TakeComparisons(bs: Bytes, count: nat): Option<(seq<Comparison>, Bytes)>
  {
    if count == 0 then Some(([], bs))
    else
      match TakeComparison(bs)
      case None => None
      case Some((c, rest)) =>
        match TakeComparisons(rest, count - 1)
        case None => None
        case Some((cs, rest')) => Some(([c] + cs, rest'))
  }

  function TakeHop(bs: Bytes): Option<(Hop, Bytes)>
  {
    if |bs| < 9 then None
    else
      match DirectionFromByte(bs[4])
      case None => None
      case Some(d) => Some((Hop(U32Of(bs[..4]), d, U32Of(bs[5..9])), bs[9..]))
  }

  function TakeHops(bs: Bytes, count: nat): Option<(seq<Hop>, Bytes)>
  {
    if count == 0 then Some(([], bs))
    else
      match TakeHop(bs)
      case None => None
      case Some((h, rest)) =>
        match TakeHops(rest, count - 1)
        case None => None
        case Some((hs, rest')) => Some(([h] + hs, rest'))
  }

  function TakeChain(bs: Bytes): Option<(Chain, Bytes)>
  {
    if bs == [] || !(1 <= bs[0] <= MAX_CHAIN_HOPS) then None
    else
      match TakeHops(bs[1..], bs[0])
      case None => None
      case Some((hops, rest)) =>
        if rest == [] || !(1 <= rest[0] <= MAX_PREDICATE_CONJUNCTS) then None
        else
          match TakeComparisons(rest[1..], rest[0])
          case None => None
          case Some((cs, rest')) => Some((Chain(hops, cs), rest'))
  }

  function TakeChainBlock(bs: Bytes): Option<(Option<Chain>, Bytes)>
  {
    if bs == [] then None
    else if bs[0] == 0 then Some((None, bs[1..]))
    else if bs[0] == 1 then
      (match TakeChain(bs[1..])
       case None => None
       case Some((c, rest)) => Some((Some(c), rest)))
    else None
  }

  function DecodePredicate(bs: Bytes): Option<Predicate>
  {
    if |bs| < 6 || bs[0] != ENCODING_VERSION || bs[5] > MAX_PREDICATE_CONJUNCTS then None
    else
      match TakeComparisons(bs[6..], bs[5])
      case None => None
      case Some((cs, rest)) =>
        match TakeChainBlock(rest)
        case None => None
        case Some((chain, rest')) =>
          if rest' != [] || (chain.None? && cs == []) then None
          else Some(Predicate(U32Of(bs[1..5]), cs, chain))
  }

  function U32Of(bs: Bytes): U32
    requires |bs| == 4
  {
    LeBelow(bs);
    Capacities();
    FromLe(bs)
  }

  function U64Of(bs: Bytes): U64
    requires |bs| == 8
  {
    LeBelow(bs);
    Capacities();
    FromLe(bs)
  }

  // ---------- round trips ----------

  lemma U32Back(n: U32)
    ensures U32Of(Le(n, 4)) == n
  {
    Capacities();
    LeRoundTrip(n, 4);
  }

  lemma U64Back(n: U64)
    ensures U64Of(Le(n, 8)) == n
  {
    Capacities();
    LeRoundTrip(n, 8);
  }

  lemma LiteralRoundTrip(l: Literal)
    ensures DecodeLiteral(LiteralTag(l), LiteralPayload(l)) == Some(l)
  {
    match l
    case Bool(_) =>
    case Int(i) =>
      U64Back(TwosComplement(i));
      assert LiteralPayload(l)[..8] == Le(TwosComplement(i), 8);
    case Float(bits) =>
      U64Back(bits);
      assert LiteralPayload(l)[..8] == Le(bits, 8);
    case Text(text) =>
      CutThree([|text|], text, Zeros(15 - |text|));
  }

  lemma ConstantRoundTrip(l: Literal, tag: Byte, payload: Bytes)
    requires |payload| == 16 && DecodeLiteral(tag, payload) == Some(l)
    ensures DecodeValue([1, tag] + payload) == Some(Constant(l))
  {
    assert ([1, tag] + payload)[2..18] == payload;
  }

  lemma ValueRoundTrip(v: Value)
    ensures DecodeValue(ValueBytes(v)) == Some(v)
    ensures ValueBytes(v)[0] == (if v.MsgCaller? then 0 else 1)
    ensures |ValueBytes(v)| == if v.MsgCaller? then 1 else 18
  {
    if v.Constant? {
      LiteralRoundTrip(v.literal);
      ConstantRoundTrip(v.literal, LiteralTag(v.literal), LiteralPayload(v.literal));
    }
  }

  lemma OpRoundTrip(op: Op)
    ensures OpFromByte(OpByte(op)) == Some(op)
  {}

  lemma SplitComparison(p: Bytes, o: Byte, v: Bytes)
    requires |p| == 4
    ensures var bs := p + [o] + v; bs[..4] == p && bs[4] == o && bs[5..] == v
  {}

  lemma ComparisonRoundTrip(c: Comparison)
    ensures var bs := EncodeComparison(c);
            && DecodeComparison(bs) == Some(c)
            && HeadWidth(bs) == Some(|bs|)
  {
    ValueRoundTrip(c.value);
    OpRoundTrip(c.op);
    U32Back(c.property);
    SplitComparison(Le(c.property, 4), OpByte(c.op), ValueBytes(c.value));
  }

  lemma TakeEncoded(bs: Bytes, c: Comparison, rest: Bytes)
    requires DecodeComparison(bs) == Some(c) && HeadWidth(bs) == Some(|bs|)
    ensures TakeComparison(bs + rest) == Some((c, rest))
  {
    assert (bs + rest)[..|bs|] == bs && (bs + rest)[|bs|..] == rest;
  }

  lemma ConsComparison(bs: Bytes, c: Comparison, tail: Bytes, cs: seq<Comparison>, rest: Bytes)
    requires TakeComparison(bs) == Some((c, tail)) && TakeComparisons(tail, |cs|) == Some((cs, rest))
    ensures TakeComparisons(bs, |cs| + 1) == Some(([c] + cs, rest))
  {}

  /** Comparisons of either width come back one by one, leaving exactly what followed them. */
  lemma {:induction false} ComparisonsRoundTrip(cs: seq<Comparison>, rest: Bytes)
    ensures TakeComparisons(EncodeComparisons(cs) + rest, |cs|) == Some((cs, rest))
  {
    if cs == [] {
      assert EncodeComparisons(cs) + rest == rest;
    } else {
      var first, tail := EncodeComparison(cs[0]), EncodeComparisons(cs[1..]) + rest;
      ComparisonRoundTrip(cs[0]);
      TakeEncoded(first, cs[0], tail);
      ComparisonsRoundTrip(cs[1..], rest);
      ConsComparison(first + tail, cs[0], tail, cs[1..], rest);
      Associate(first, EncodeComparisons(cs[1..]), rest);
      assert cs == [cs[0]] + cs[1..];
    }
  }

  lemma HopRoundTrip(e: Bytes, b: Byte, d: Bytes, rest: Bytes)
    requires |e| == |d| == 4
    ensures var bs := e + [b] + d + rest;
            bs[..4] == e && bs[4] == b && bs[5..9] == d && bs[9..] == rest
  {}

  lemma TakeEncodedHop(h: Hop, rest: Bytes)
    ensures TakeHop(EncodeHop(h) + rest) == Some((h, rest))
  {
    U32Back(h.edge);
    U32Back(h.dest);
    HopRoundTrip(Le(h.edge, 4), DirectionByte(h.direction), Le(h.dest, 4), rest);
  }

  lemma ConsHop(bs: Bytes, h: Hop, tail: Bytes, hs: seq<Hop>, rest: Bytes)
    requires TakeHop(bs) == Some((h, tail)) && TakeHops(tail, |hs|) == Some((hs, rest))
    ensures TakeHops(bs, |hs| + 1) == Some(([h] + hs, rest))
  {}

  lemma {:induction false} HopsRoundTrip(hs: seq<Hop>, rest: Bytes)
    ensures TakeHops(EncodeHops(hs) + rest, |hs|) == Some((hs, rest))
  {
    if hs == [] {
      assert EncodeHops(hs) + rest == rest;
    } else {
      var first, tail := EncodeHop(hs[0]), EncodeHops(hs[1..]) + rest;
      TakeEncodedHop(hs[0], tail);
      HopsRoundTrip(hs[1..], rest);
      ConsHop(first + tail, hs[0], tail, hs[1..], rest);
      Associate(first, EncodeHops(hs[1..]), rest);
      assert hs == [hs[0]] + hs[1..];
    }
  }

  lemma ChainRoundTrip(c: Chain, rest: Bytes)
    requires ChainInBounds(c)
    ensures TakeChain(EncodeChain(c) + rest) == Some((c, rest))
  {
    var terminal := [|c.terminal|] + (EncodeComparisons(c.terminal) + rest);
    var bs := EncodeChain(c) + rest;
    assert bs == [|c.hops|] + (EncodeHops(c.hops) + terminal);
    assert bs[1..] == EncodeHops(c.hops) + terminal;
    HopsRoundTrip(c.hops, terminal);
    assert terminal[1..] == EncodeComparisons(c.terminal) + rest;
    ComparisonsRoundTrip(c.terminal, rest);
  }

  lemma ChainBlockRoundTrip(c: Option<Chain>)
    requires c.Some? ==> ChainInBounds(c.value)
    ensures TakeChainBlock(EncodeChainBlock(c)) == Some((c, []))
  {
    if c.Some? {
      ChainRoundTrip(c.value, []);
      assert EncodeChainBlock(c)[1..] == EncodeChain(c.value) + [];
    } else {
      assert EncodeChainBlock(c)[1..] == [];
    }
  }

  lemma SplitHeader(v: Byte, l: Bytes, n: Byte, body: Bytes)
    requires |l| == 4
    ensures var bs := [v] + l + [n] + body;
            bs[0] == v && bs[1..5] == l && bs[5] == n && bs[6..] == body
  {}

  /** Every in-bounds predicate decodes back to itself, with every byte consumed. */
  lemma PredicateRoundTrip(p: Predicate)
    requires InBounds(p)
    ensures DecodePredicate(EncodePredicate(p)) == Some(p)
  {
    var body := EncodeComparisons(p.conjuncts) + EncodeChainBlock(p.chain);
    U32Back(p.selector);
    SplitHeader(ENCODING_VERSION, Le(p.selector, 4), |p.conjuncts|, body);
    assert EncodePredicate(p) == [ENCODING_VERSION] + Le(p.selector, 4) + [|p.conjuncts|] + body;
    ComparisonsRoundTrip(p.conjuncts, EncodeChainBlock(p.chain));
    ChainBlockRoundTrip(p.chain);
  }

  lemma {:induction false} TakenCount(bs: Bytes, count: nat)
    ensures TakeComparisons(bs, count).Some? ==> |TakeComparisons(bs, count).value.0| == count
    decreases count
  {
    if count > 0 && TakeComparison(bs).Some? {
      TakenCount(TakeComparison(bs).value.1, count - 1);
    }
  }

  lemma {:induction false} TakenHopCount(bs: Bytes, count: nat)
    ensures TakeHops(bs, count).Some? ==> |TakeHops(bs, count).value.0| == count
    decreases count
  {
    if count > 0 && TakeHop(bs).Some? {
      TakenHopCount(TakeHop(bs).value.1, count - 1);
    }
  }

  /** The decoder yields only predicates the encoder would accept. */
  lemma DecodedIsInBounds(bs: Bytes)
    ensures DecodePredicate(bs).Some? ==> InBounds(DecodePredicate(bs).value)
  {
    if DecodePredicate(bs).Some? {
      TakenCount(bs[6..], bs[5]);
      var rest := TakeComparisons(bs[6..], bs[5]).value.1;
      if rest[0] == 1 {
        var c := rest[1..];
        TakenHopCount(c[1..], c[0]);
        var rest' := TakeHops(c[1..], c[0]).value.1;
        TakenCount(rest'[1..], rest'[0]);
      }
    }
  }
}
