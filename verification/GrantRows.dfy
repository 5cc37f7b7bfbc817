/** Grant rows and elevation evidence, with their tagged byte encoding: tag 2 is a plain row,
    tag 3 a conditional-policy row, tag 4 an elevation row with evidence. */
module GrantRows {
  import opened Bytes
  import opened Outcomes
  import opened Privileges
  import opened Policies

  datatype Evidence = Evidence(approver: Principal, justification: Bytes, emergency: bool)

  datatype Row = Row(expires: Option<U64>, policy: Option<Predicate>, evidence: Option<Evidence>)

  const MAX_JUSTIFICATION: nat := 512

  /** What the encoder asserts of a row. */
  predicate Encodable(r: Row)
  {
    && !(r.evidence.Some? && r.policy.Some?)
    && (r.policy.Some? ==> InBounds(r.policy.value))
    && (r.evidence.Some? ==> |r.evidence.value.justification| <= MAX_JUSTIFICATION)
  }

  // ---------- encoding ----------

  function EncodeEvidence(e: Evidence): Bytes
    requires |e.justification| <= MAX_JUSTIFICATION
  {
    [if e.emergency then 1 else 0] + Le(|e.justification|, 2) + e.justification
    + Le(|e.approver|, 2) + e.approver
  }

  function EncodeExpiry(expires: Option<U64>): Bytes
  {
    if expires.None? then [0] else [1] + Le(expires.value, 8)
  }

  function EncodeRow(r: Row): Bytes
    requires Encodable(r)
  {
    if r.evidence.Some? then [4] + EncodeExpiry(r.expires) + EncodeEvidence(r.evidence.value)
    else if r.policy.Some? then [3] + EncodeExpiry(r.expires) + EncodePredicate(r.policy.value)
    else if r.expires.None? then [2]
    else [2] + EncodeExpiry(r.expires)
  }

  // ---------- decoding ----------

  function DecodeEvidence(b: Bytes): Option<Evidence>
  {
    if |b| < 5 || b[0] > 1 then None
    else
      var approverAt := 3 + FromLe(b[1..3]);
      if |b| < approverAt + 2 then None
      else
        var approver := b[approverAt + 2..];
        if |approver| != FromLe(b[approverAt..approverAt + 2]) || |approver| > 29 then None
        else Some(Evidence(approver, b[3..approverAt], b[0] == 1))
  }

  /** The expiry at the head of `b`, and how many bytes it takes. An empty input counts as absent. */
  function DecodeExpiry(b: Bytes): Option<(Option<U64>, nat)>
  {
    if b == [] || b[0] == 0 then Some((None, 1))
    else if b[0] == 1 && |b| >= 9 then Some((Some(U64Of(b[1..9])), 9))
    else None
  }

  function DecodeRow(b: Bytes): Option<Row>
  {
    if b == [] then None
    else if b[0] == 2 then
      if |b| == 1 then Some(Row(None, None, None))
      else
        (match DecodeExpiry(b[1..])
         case None => None
         case Some((expires, _)) => Some(Row(expires, None, None)))
    else if b[0] == 3 || b[0] == 4 then
      (match DecodeExpiry(b[1..])
       case None => None
       case Some((expires, n)) =>
         if |b| < 1 + n then None
         else if b[0] == 3 then
           (match DecodePredicate(b[1 + n..])
            case None => None
            case Some(p) => Some(Row(expires, Some(p), None)))
         else
           (match DecodeEvidence(b[1 + n..])
            case None => None
            case Some(e) => Some(Row(expires, None, Some(e)))))
    else None
  }

  // ---------- round trips ----------

  /** `b` consists of these parts, with two-byte headers `h` and `t`. */
  predicate EvidenceFrame(b: Bytes, flag: Byte, h: Bytes, j: Bytes, t: Bytes, a: Bytes)
  {
    && |b| == 5 + |j| + |a|
    && b[0] == flag && b[1..3] == h && b[3..3 + |j|] == j
    && b[3 + |j|..5 + |j|] == t && b[5 + |j|..] == a
  }

  lemma EvidenceLayout(flag: Byte, h: Bytes, j: Bytes, t: Bytes, a: Bytes)
    requires |h| == |t| == 2
    ensures EvidenceFrame([flag] + h + j + t + a, flag, h, j, t, a)
  {
    var b := [flag] + h + j + t + a;
    CutThree([flag] + h + j, t, a);
    CutThree([flag] + h, j, t + a);
    assert b == [flag] + h + j + (t + a);
  }

  lemma DecodeEvidenceFrame(b: Bytes, h: Bytes, t: Bytes, e: Evidence)
    requires EvidenceFrame(b, if e.emergency then 1 else 0, h, e.justification, t, e.approver)
    requires FromLe(h) == |e.justification| && FromLe(t) == |e.approver|
    ensures DecodeEvidence(b) == Some(e)
  {}

  lemma EvidenceRoundTrip(e: Evidence)
    requires |e.justification| <= MAX_JUSTIFICATION
    ensures DecodeEvidence(EncodeEvidence(e)) == Some(e)
  {
    var h, t := Le(|e.justification|, 2), Le(|e.approver|, 2);
    EvidenceLayout(if e.emergency then 1 else 0, h, e.justification, t, e.approver);
    Le16(|e.justification|);
    Le16(|e.approver|);
    DecodeEvidenceFrame(EncodeEvidence(e), h, t, e);
  }

  lemma ExpiryRoundTrip(expires: Option<U64>, rest: Bytes)
    ensures DecodeExpiry(EncodeExpiry(expires) + rest) == Some((expires, |EncodeExpiry(expires)|))
  {
    if expires.Some? {
      U64Back(expires.value);
      assert (EncodeExpiry(expires) + rest)[1..9] == Le(expires.value, 8);
    }
  }

  lemma DecodeTagged(tag: Byte, expires: Option<U64>, x: Bytes, body: Bytes)
    requires tag == 3 || tag == 4
    requires DecodeExpiry(x + body) == Some((expires, |x|))
    ensures tag == 3 && DecodePredicate(body).Some?
            ==> DecodeRow([tag] + x + body) == Some(Row(expires, Some(DecodePredicate(body).value), None))
    ensures tag == 4 && DecodeEvidence(body).Some?
            ==> DecodeRow([tag] + x + body) == Some(Row(expires, None, Some(DecodeEvidence(body).value)))
  {
    var b := [tag] + x + body;
    assert b[1..] == x + body;
    assert b[1 + |x|..] == body;
  }

  /** Every legal row decodes back to itself: with or without expiry, predicate or evidence. */
  lemma RowRoundTrip(r: Row)
    requires Encodable(r)
    ensures DecodeRow(EncodeRow(r)) == Some(r)
  {
    if r.evidence.Some? {
      var body := EncodeEvidence(r.evidence.value);
      ExpiryRoundTrip(r.expires, body);
      EvidenceRoundTrip(r.evidence.value);
      DecodeTagged(4, r.expires, EncodeExpiry(r.expires), body);
    } else if r.policy.Some? {
      var body := EncodePredicate(r.policy.value);
      ExpiryRoundTrip(r.expires, body);
      PredicateRoundTrip(r.policy.value);
      DecodeTagged(3, r.expires, EncodeExpiry(r.expires), body);
    } else if r.expires.Some? {
      ExpiryRoundTrip(r.expires, []);
      assert EncodeRow(r)[1..] == EncodeExpiry(r.expires) + [];
    }
  }

  /** The row encoding is injective, although its parts vary in width. */
  lemma RowEncodingInjective(r: Row, r': Row)
    requires Encodable(r) && Encodable(r')
    requires EncodeRow(r) == EncodeRow(r')
    ensures r == r'
  {
    RowRoundTrip(r);
    RowRoundTrip(r');
  }
}
