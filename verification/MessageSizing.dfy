/** Choosing how many entries of a batch to send: a sampled estimate, then proportional shrinking
    until a real measurement fits. `measure(n)` is the encoded size of the first `n` entries. */
module MessageSizing {
  import opened Outcomes

  datatype Policy = Policy(hard: nat, target: nat, sample: nat)

  datatype Fitted = Fitted(count: nat, bytes: nat)

  datatype FitError = NoEntryFits(bytes: nat, hard: nat)

  type Measure = nat -> nat

  const HARD_LIMIT: nat := 2097152
  const TARGET: nat := 1585152
  const SAMPLE: nat := 96

  /** Counts are 64-bit words; a wider estimate is cut to one. */
  const WORD: nat := 0x1_0000_0000_0000_0000

  /** The policy every caller here uses. */
  const INTER_CANISTER: Policy := Policy(HARD_LIMIT, TARGET, SAMPLE)

  function Max(a: nat, b: nat): nat { if a < b then b else a }

  function Min(a: nat, b: nat): nat { if a < b then a else b }

  function Clamp(n: nat, low: nat, high: nat): nat
  {
    if n < low then low else if n > high then high else n
  }

  function Normalized(p: Policy): (n: Policy)
    ensures n.hard >= 1 && 1 <= n.target <= n.hard && n.sample >= 1
  {
    var hard := Max(p.hard, 1);
    Policy(hard, Min(Max(p.target, 1), hard), Max(p.sample, 1))
  }

  /** The count a sample of the first entries extrapolates to, before it is cut to the window. */
  function Extrapolate(p: Policy, base: nat, sample: nat, bytes: nat): nat
  {
    if bytes <= base then sample
    else ((if p.target < base then 0 else p.target - base) * sample / (bytes - base)) % WORD
  }

  function Estimate(length: nat, p: Policy, measure: Measure): (n: nat)
    requires length > 0
    ensures 1 <= n <= length
  {
    var sample := Max(Min(p.sample, length), 1);
    Clamp(Extrapolate(p, measure(0), sample, measure(sample)), 1, length)
  }

  function Proportional(count: nat, target: nat, measured: nat): nat
  {
    if measured == 0 then Max(2 * count, count + 1) else count * target / measured
  }

  function NextCandidate(candidate: nat, p: Policy, measured: nat): (n: nat)
    requires candidate > 1
    ensures 1 <= n < candidate
  {
    Max(Min(Proportional(candidate, p.target, measured), candidate - 1), 1)
  }

  /** Shrink until a measurement fits. */
  function Shrink(candidate: nat, p: Policy, measure: Measure): (r: Result<Fitted, FitError>)
    requires candidate >= 1
    ensures r.Ok? ==> 1 <= r.value.count <= candidate && r.value.bytes == measure(r.value.count) <= p.hard
    ensures r.Err? ==> measure(1) > p.hard
    ensures measure(candidate) <= p.hard ==> r == Ok(Fitted(candidate, measure(candidate)))
  {
    var measured := measure(candidate);
    if measured <= p.hard then Ok(Fitted(candidate, measured))
    else if candidate == 1 then Err(NoEntryFits(measured, p.hard))
    else Shrink(NextCandidate(candidate, p, measured), p, measure)
  }

  /** The whole rule for a non-empty window. */
  function Fit(length: nat, hint: Option<nat>, policy: Policy, measure: Measure): (r: Result<Fitted, FitError>)
    requires length > 0
    ensures r.Ok? ==> 1 <= r.value.count <= length && r.value.bytes == measure(r.value.count) <= Normalized(policy).hard
  {
    var p := Normalized(policy);
    if hint.Some? && measure(Clamp(hint.value, 1, length)) <= p.hard then
      Shrink(Clamp(hint.value, 1, length), p, measure)
    else if measure(0) > p.hard then Err(NoEntryFits(measure(0), p.hard))
    else Shrink(Estimate(length, p, measure), p, measure)
  }

  method AdaptiveFittingPrefix(length: nat, hint: Option<nat>, policy: Policy, measure: Measure)
    returns (r: Result<Option<Fitted>, FitError>)
    ensures length == 0 ==> r == Ok(None)
    ensures length > 0 && Fit(length, hint, policy, measure).Err? ==> r == Err(Fit(length, hint, policy, measure).error)
    ensures length > 0 && Fit(length, hint, policy, measure).Ok? ==>
              r == Ok(Some(Fit(length, hint, policy, measure).value))
  {
    if length == 0 {
      return Ok(None);
    }
    var p := Normalized(policy);
    var candidate;
    if hint.Some? {
      candidate := Clamp(hint.value, 1, length);
    } else {
      if measure(0) > p.hard {
        return Err(NoEntryFits(measure(0), p.hard));
      }
      candidate := Estimate(length, p, measure);
    }
    var measured := measure(candidate);
    if hint.Some? && measured > p.hard {
      if measure(0) > p.hard {
        return Err(NoEntryFits(measure(0), p.hard));
      }
      candidate := Estimate(length, p, measure);
      measured := measure(candidate);
    }
    while measured > p.hard
      invariant candidate >= 1 && measured == measure(candidate)
      invariant Shrink(candidate, p, measure) == Fit(length, hint, policy, measure)
      decreases candidate
    {
      if candidate == 1 {
        return Err(NoEntryFits(measured, p.hard));
      }
      candidate := NextCandidate(candidate, p, measured);
      measured := measure(candidate);
    }
    return Ok(Some(Fitted(candidate, measured)));
  }

  ghost predicate Monotone(measure: Measure)
  {
    forall a, b :: a <= b ==> measure(a) <= measure(b)
  }

  /** For payloads that grow with their entries, a batch is found exactly when one entry fits, with or
      without a hint. */
  lemma FitSucceedsIff(length: nat, hint: Option<nat>, policy: Policy, measure: Measure)
    requires length > 0 && Monotone(measure)
    ensures Fit(length, hint, policy, measure).Ok? <==> measure(1) <= Normalized(policy).hard
  {
    hide Estimate, Normalized;
    var fit := Fit(length, hint, policy, measure);
    if fit.Ok? {
      assert measure(1) <= measure(fit.value.count);
    } else {
      assert measure(0) <= measure(1);
    }
  }

  lemma {:induction false} ShrinkAgrees(candidate: nat, p: Policy, m: Measure, n: Measure)
    requires candidate >= 1 && forall k: nat :: k <= candidate ==> m(k) == n(k)
    ensures Shrink(candidate, p, m) == Shrink(candidate, p, n)
    decreases candidate
  {
    if m(candidate) > p.hard && candidate > 1 {
      ShrinkAgrees(NextCandidate(candidate, p, m(candidate)), p, m, n);
    }
  }

  /** Only measurements inside the window count. */
  lemma FitAgrees(length: nat, hint: Option<nat>, policy: Policy, m: Measure, n: Measure)
    requires length > 0 && forall k: nat :: k <= length ==> m(k) == n(k)
    ensures Fit(length, hint, policy, m) == Fit(length, hint, policy, n)
  {
    hide Shrink, Extrapolate;
    var p := Normalized(policy);
    if hint.Some? {
      ShrinkAgrees(Clamp(hint.value, 1, length), p, m, n);
    }
    ShrinkAgrees(Estimate(length, p, m), p, m, n);
  }

  // ---------- fits that can be told beforehand ----------

  /** If one entry fits and no longer prefix does, one entry is sent. */
  lemma {:induction false} ShrinksToOne(candidate: nat, p: Policy, measure: Measure)
    requires candidate >= 1 && measure(1) <= p.hard && forall k :: 2 <= k <= candidate ==> measure(k) > p.hard
    ensures Shrink(candidate, p, measure) == Ok(Fitted(1, measure(1)))
    decreases candidate
  {
    if candidate > 1 {
      ShrinksToOne(NextCandidate(candidate, p, measure(candidate)), p, measure);
    }
  }

  lemma FitIsOne(length: nat, measure: Measure)
    requires length > 0 && measure(0) <= HARD_LIMIT && measure(1) <= HARD_LIMIT
    requires forall k :: 2 <= k <= length ==> measure(k) > HARD_LIMIT
    ensures Fit(length, None, INTER_CANISTER, measure) == Ok(Fitted(1, measure(1)))
  {
    hide Shrink, Estimate;
    ShrinksToOne(Estimate(length, INTER_CANISTER, measure), INTER_CANISTER, measure);
  }

  lemma {:induction false} QuotientAtLeast(a: nat, n: nat, d: nat)
    requires 0 < d <= a
    ensures a * n / d >= n
  {
    assert a * n >= d * n;
    DivideBack(a * n, n, d);
  }

  lemma DivideBack(x: nat, n: nat, d: nat)
    requires d > 0 && x >= d * n
    ensures x / d >= n
  {
    var q := x / d;
    assert x == d * q + x % d;
    assert q + 1 <= n ==> d * (q + 1) <= d * n;
  }

  /** A sampled window whose whole measurement is within the target is sent whole. */
  lemma FitIsAll(length: nat, measure: Measure)
    requires 0 < length <= SAMPLE && measure(0) <= measure(length) <= TARGET
    ensures Fit(length, None, INTER_CANISTER, measure) == Ok(Fitted(length, measure(length)))
  {
    hide Shrink;
    var a, d := TARGET - measure(0), measure(length) - measure(0);
    if d > 0 {
      QuotientAtLeast(a, length, d);
      assert a * length / d <= a * length <= TARGET * SAMPLE by {
        QuotientAtMost(a * length, d);
        ProductAtMost(a, length);
      }
    }
    assert Estimate(length, INTER_CANISTER, measure) == length;
  }

  lemma QuotientAtMost(x: nat, d: nat)
    requires d > 0
    ensures x / d <= x
  {
    Multiple(x / d, d);
  }

  lemma {:induction false} Multiple(q: nat, d: nat)
    requires d > 0
    ensures q <= d * q
  {
    if d > 1 {
      Multiple(q, d - 1);
      assert d * q == (d - 1) * q + q;
    }
  }

  lemma ProductAtMost(a: nat, n: nat)
    requires a <= TARGET && n <= SAMPLE
    ensures a * n <= TARGET * SAMPLE
  {
    assert a * n <= TARGET * n <= TARGET * SAMPLE;
  }

  /** A hint that fits is followed. */
  lemma FitFollowsHint(length: nat, hint: nat, measure: Measure)
    requires 1 <= hint <= length && measure(hint) <= HARD_LIMIT
    ensures Fit(length, Some(hint), INTER_CANISTER, measure) == Ok(Fitted(hint, measure(hint)))
  {}

  // ---------- windows of different length over the same entries ----------

  /** With a full sample in both windows, the fits agree if the estimate falls inside the shorter. */
  lemma EstimateInside(short: nat, long: nat, policy: Policy, measure: Measure)
    requires 0 < short <= long && Normalized(policy).sample <= short
    requires var p := Normalized(policy); Extrapolate(p, measure(0), p.sample, measure(p.sample)) <= short
    ensures Fit(short, None, policy, measure) == Fit(long, None, policy, measure)
  {
    hide Extrapolate, Shrink;
  }

  /** And they differ if it falls beyond the shorter and what it then proposes fits. */
  lemma EstimateBeyond(short: nat, long: nat, policy: Policy, measure: Measure)
    requires 0 < short < long && Normalized(policy).sample <= short
    requires measure(0) <= Normalized(policy).hard
    requires var p := Normalized(policy);
             var estimate := Extrapolate(p, measure(0), p.sample, measure(p.sample));
             estimate > short && measure(Min(estimate, long)) <= p.hard
    ensures Fit(short, None, policy, measure).Ok? ==>
              Fit(short, None, policy, measure).value.count < Fit(long, None, policy, measure).value.count
    ensures Fit(long, None, policy, measure).Ok? &&
            Fit(short, None, policy, measure) != Fit(long, None, policy, measure)
  {
    hide Extrapolate;
  }

  /** Two windows whose estimates fit at once agree exactly when the estimates are equal. */
  lemma SameProposalIff(short: nat, long: nat, measure: Measure)
    requires 0 < short && 0 < long && measure(0) <= HARD_LIMIT
    requires measure(Estimate(short, INTER_CANISTER, measure)) <= HARD_LIMIT
    requires measure(Estimate(long, INTER_CANISTER, measure)) <= HARD_LIMIT
    ensures Fit(short, None, INTER_CANISTER, measure) == Fit(long, None, INTER_CANISTER, measure) <==>
              Estimate(short, INTER_CANISTER, measure) == Estimate(long, INTER_CANISTER, measure)
  {
    hide Estimate;
  }

  // ---------- encoders that add up ----------

  /** Encoders that add a fixed envelope and a width for every row. */
  function Encoded<T>(base: nat, width: T -> nat, rows: seq<T>): nat
  {
    if rows == [] then base else Encoded(base, width, rows[..|rows| - 1]) + width(rows[|rows| - 1])
  }

  lemma {:induction false} EncodedGrows<T>(base: nat, width: T -> nat, rows: seq<T>, k: nat)
    requires k <= |rows|
    ensures base <= Encoded(base, width, rows[..k]) <= Encoded(base, width, rows)
    decreases |rows|
  {
    if k < |rows| {
      EncodedGrows(base, width, rows[..|rows| - 1], k);
      assert rows[..|rows| - 1][..k] == rows[..k];
    } else if rows != [] {
      assert rows[..k] == rows;
      EncodedGrows(base, width, rows[..|rows| - 1], |rows| - 1);
    }
  }

  lemma {:induction false} EncodedAppended<T>(base: nat, width: T -> nat, rows: seq<T>, last: T)
    ensures Encoded(base, width, rows + [last]) == Encoded(base, width, rows) + width(last)
  {
    assert (rows + [last])[..|rows + [last]| - 1] == rows;
  }

  lemma EncodedNothing<T>(base: nat, width: T -> nat)
    ensures Encoded(base, width, []) == base
  {}
}
