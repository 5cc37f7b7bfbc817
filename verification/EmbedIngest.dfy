/** Embeddings for loaded vertices: rebuild the vertex ids from a completed load's receipts, cut the rows
    into batches that fit a message, and send them. */
module EmbedIngest {
  import opened Outcomes
  import opened Bytes
  import opened MessageSizing
  import opened InsertRouter
  import opened InsertArtifact

  datatype EmbeddingRow = EmbeddingRow(sourceId: Bytes, values: seq<real>)

  datatype Resolved = Resolved(sourceId: Bytes, id: Bytes, values: seq<real>)

  datatype ChunkReceipt = ChunkReceipt(index: nat, receipt: Receipt)

  datatype EmbedError = BadRow | OutOfOrder | WrongTotal | NoVertex | TooLarge | Remote | ShortAnswer

  // ---------- the embedding file ----------

  predicate Uniform(rows: seq<EmbeddingRow>)
  {
    forall i, j :: 0 <= i < |rows| && 0 <= j < |rows| ==> |rows[i].values| == |rows[j].values|
  }

  /** What no longer rounds to a finite 32-bit float: half a step beyond the largest one. */
  const FLOAT_LIMIT: real := 340282356779733661637539395458142568448.0

  predicate Finite(value: real)
  {
    -FLOAT_LIMIT < value < FLOAT_LIMIT
  }

  predicate AllFinite(values: seq<real>)
  {
    forall i :: 0 <= i < |values| ==> Finite(values[i])
  }

  /** There are rows, ids are named once, and all values are finite and of one dimension. */
  predicate Scannable(rows: seq<EmbeddingRow>)
  {
    rows != [] && ScannableSoFar(rows)
  }

  predicate ScannableSoFar(rows: seq<EmbeddingRow>)
  {
    && (forall i :: 0 <= i < |rows| ==> AllFinite(rows[i].values))
    && (forall i :: 0 <= i < |rows| ==> rows[i].sourceId != [] && rows[i].values != [])
    && (forall i, j :: 0 <= i < j < |rows| ==> rows[i].sourceId != rows[j].sourceId)
    && Uniform(rows)
  }

  method CheckFinite(values: seq<real>) returns (ok: bool)
    ensures ok <==> AllFinite(values)
  {
    for i := 0 to |values|
      invariant AllFinite(values[..i])
    {
      if !Finite(values[i]) {
        return false;
      }
    }
    assert values[..|values|] == values;
    return true;
  }

  /** One pass: the first row fixes the dimension of all, which is the answer. */
  method ScanEmbeddings(rows: seq<EmbeddingRow>) returns (r: Result<nat, EmbedError>)
    ensures r.Ok? <==> Scannable(rows)
    ensures r.Ok? ==> forall i :: 0 <= i < |rows| ==> |rows[i].values| == r.value
  {
    hide AllFinite;
    var seen: set<Bytes> := {};
    var dimension: Option<nat> := None;
    for k := 0 to |rows|
      invariant ScannableSoFar(rows[..k])
      invariant forall id :: id in seen <==> exists i :: 0 <= i < k && rows[i].sourceId == id
      invariant dimension.Some? <==> k > 0
      invariant forall i :: 0 <= i < k ==> |rows[i].values| == dimension.value
    {
      var row := rows[k];
      if row.sourceId == [] || row.sourceId in seen || row.values == [] {
        return Err(BadRow);
      }
      seen := seen + {row.sourceId};
      assert row.sourceId in seen;
      if dimension.Some? {
        if |row.values| != dimension.value {
          assert |rows[0].values| != |rows[k].values|;
          return Err(BadRow);
        }
      } else {
        dimension := Some(|row.values|);
      }
      var finite := CheckFinite(row.values);
      if !finite {
        return Err(BadRow);
      }
    }
    assert rows[..|rows|] == rows;
    return if dimension.Some? then Ok(dimension.value) else Err(BadRow);
  }

  // ---------- ids from receipts ----------

  /** The ids of all receipts, end to end. */
  function Concat(receipts: seq<ChunkReceipt>): seq<Bytes>
  {
    if receipts == [] then [] else Concat(receipts[..|receipts| - 1]) + receipts[|receipts| - 1].receipt.ids
  }

  /** Row by row, the id at the same place. */
  function Zip(sources: seq<Bytes>, ids: seq<Bytes>, n: nat): IdMap
    requires n <= |sources| && n <= |ids|
  {
    if n == 0 then map[] else Zip(sources, ids, n - 1)[sources[n - 1] := ids[n - 1]]
  }

  predicate Ascending(receipts: seq<ChunkReceipt>)
  {
    forall i :: 0 < i < |receipts| ==> receipts[i - 1].index < receipts[i].index
  }

  lemma {:induction false} ConcatPrefix(receipts: seq<ChunkReceipt>, n: nat)
    requires n <= |receipts|
    ensures Concat(receipts[..n]) <= Concat(receipts)
    decreases |receipts| - n
  {
    if n < |receipts| {
      ConcatPrefix(receipts, n + 1);
      assert receipts[..n + 1][..n] == receipts[..n];
    } else {
      assert receipts[..n] == receipts;
    }
  }

  /** Walk the receipts with a cursor into the rows; only the ids put end to end matter. */
  method WalkReceipts(sources: seq<Bytes>, receipts: seq<ChunkReceipt>) returns (ids: IdMap)
    requires |Concat(receipts)| == |sources|
    ensures ids == Zip(sources, Concat(receipts), |sources|)
  {
    ids := map[];
    var cursor := 0;
    ghost var all := Concat(receipts);
    for k := 0 to |receipts|
      invariant cursor == |Concat(receipts[..k])| && Concat(receipts[..k]) <= all
      invariant cursor <= |all| && ids == Zip(sources, all, cursor)
    {
      var here := receipts[k].receipt.ids;
      assert receipts[..k + 1][..k] == receipts[..k];
      ConcatPrefix(receipts, k + 1);
      ghost var start := cursor;
      for j := 0 to |here|
        invariant cursor == start + j && ids == Zip(sources, all, cursor)
      {
        assert Concat(receipts[..k + 1])[start + j] == here[j];
        ids := ids[sources[cursor] := here[j]];
        cursor := cursor + 1;
      }
    }
    assert receipts[..|receipts|] == receipts;
  }

  function Total(receipts: seq<ChunkReceipt>): (n: nat)
    ensures n == |Concat(receipts)|
  {
    if receipts == [] then 0 else Total(receipts[..|receipts| - 1]) + |receipts[|receipts| - 1].receipt.ids|
  }

  method ResolveEmbeddings(sources: seq<Bytes>, receipts: seq<ChunkReceipt>, embeddings: seq<EmbeddingRow>)
    returns (r: Result<seq<Resolved>, EmbedError>)
    ensures r.Ok? <==>
              && Ascending(receipts) && |Concat(receipts)| == |sources|
              && forall i :: 0 <= i < |embeddings| ==>
                   embeddings[i].sourceId in Zip(sources, Concat(receipts), |sources|)
    ensures r.Ok? ==>
              && |r.value| == |embeddings|
              && forall i :: 0 <= i < |embeddings| ==>
                   var ids := Zip(sources, Concat(receipts), |sources|);
                   r.value[i] == Resolved(embeddings[i].sourceId, ids[embeddings[i].sourceId], embeddings[i].values)
  {
    if exists i :: 0 < i < |receipts| && receipts[i - 1].index >= receipts[i].index {
      return Err(OutOfOrder);
    }
    if Total(receipts) != |sources| {
      return Err(WrongTotal);
    }
    var ids := WalkReceipts(sources, receipts);
    var resolved: seq<Resolved> := [];
    for k := 0 to |embeddings|
      invariant |resolved| == k && forall i :: 0 <= i < k ==> embeddings[i].sourceId in ids
      invariant forall i :: 0 <= i < k ==>
                  resolved[i] == Resolved(embeddings[i].sourceId, ids[embeddings[i].sourceId], embeddings[i].values)
    {
      if embeddings[k].sourceId !in ids {
        return Err(NoVertex);
      }
      resolved := resolved + [Resolved(embeddings[k].sourceId, ids[embeddings[k].sourceId], embeddings[k].values)];
    }
    return Ok(resolved);
  }

  // ---------- both reconstructions agree ----------

  function SourceIds(vs: seq<VertexRow>): (sources: seq<Bytes>)
    ensures |sources| == |vs| && forall i :: 0 <= i < |vs| ==> sources[i] == vs[i].sourceId
  {
    seq(|vs|, i requires 0 <= i < |vs| => vs[i].sourceId)
  }

  /** The receipts a completed job shows, under their chunk indices. */
  function Receipts(children: seq<Child>): (receipts: seq<ChunkReceipt>)
    ensures |receipts| == |children| && forall i :: 0 <= i < |children| ==>
              receipts[i] == ChunkReceipt(i, children[i].receipt)
  {
    seq(|children|, i requires 0 <= i < |children| => ChunkReceipt(i, children[i].receipt))
  }

  lemma {:induction false} ConcatIsIds(children: seq<Child>)
    ensures Concat(Receipts(children)) == IdsOf(children)
  {
    if children != [] {
      ConcatIsIds(children[..|children| - 1]);
      assert Receipts(children)[..|children| - 1] == Receipts(children[..|children| - 1]);
    }
  }

  lemma {:induction false} ZipIsBound(vs: seq<VertexRow>, allocate: Allocate, n: nat)
    requires n <= |vs|
    ensures Zip(SourceIds(vs), Ids(allocate, 0, |vs|), n) == Bound(vs, allocate, n)
  {
    if n > 0 {
      ZipIsBound(vs, allocate, n - 1);
    }
  }

  /** However the Router cut the rows into chunks, and whatever edge chunks lie between them, the walk over a
      completed job's receipts gives the very map the loader used to resolve its edges. */
  lemma MapsAgree(allocate: Allocate, plan: Plan, job: Job, vs: seq<VertexRow>)
    requires Faithfully(allocate, plan, job) && job.phase.Completed? && |plan.vertices| == |vs|
    ensures var receipts := Receipts(job.completed);
            && Ascending(receipts) && |Concat(receipts)| == |vs|
            && Zip(SourceIds(vs), Concat(receipts), |vs|) == Bound(vs, allocate, |vs|)
  {
    hide Inserted, PendingFits, IdsOf, EdgesOf, Zip, Bound;
    ConcatIsIds(job.completed);
    ZipIsBound(vs, allocate, |vs|);
  }

  // ---------- batches ----------

  function Sum(sizes: seq<nat>): nat
  {
    if sizes == [] then 0 else Sum(sizes[..|sizes| - 1]) + sizes[|sizes| - 1]
  }

  /** The planned sizes, each fitted to the first rows of the file with the last size as hint. */
  function BatchSizes(total: nat, hint: Option<nat>, measure: Measure): Option<seq<nat>>
  {
    if total == 0 then Some([])
    else
      var fit := Fit(total, hint, INTER_CANISTER, measure);
      if fit.Err? then None
      else
        var rest := BatchSizes(total - fit.value.count, Some(fit.value.count), measure);
        if rest.None? then None else Some([fit.value.count] + rest.value)
  }

  function Joined(sizes: seq<nat>, rest: Option<seq<nat>>): Option<seq<nat>>
  {
    if rest.None? then None else Some(sizes + rest.value)
  }

  lemma JoinedStep(sizes: seq<nat>, remaining: nat, hint: Option<nat>, measure: Measure)
    requires remaining > 0 && Fit(remaining, hint, INTER_CANISTER, measure).Ok?
    ensures var count := Fit(remaining, hint, INTER_CANISTER, measure).value.count;
            Joined(sizes + [count], BatchSizes(remaining - count, Some(count), measure)) ==
              Joined(sizes, BatchSizes(remaining, hint, measure))
  {
    hide Fit;
    var count := Fit(remaining, hint, INTER_CANISTER, measure).value.count;
    var rest := BatchSizes(remaining - count, Some(count), measure);
    if rest.Some? {
      assert sizes + [count] + rest.value == sizes + ([count] + rest.value);
    }
  }

  /** Sizes for all rows, each measured on the first rows of the file. */
  method FittedBatchSizes(total: nat, measure: Measure) returns (r: Result<seq<nat>, EmbedError>)
    ensures r == if BatchSizes(total, None, measure).Some? then Ok(BatchSizes(total, None, measure).value)
            else Err(TooLarge)
    ensures r.Ok? ==> Sum(r.value) == total && forall i :: 0 <= i < |r.value| ==>
              0 < r.value[i] <= total && measure(r.value[i]) <= HARD_LIMIT
    ensures total == 0 || (Monotone(measure) && measure(1) <= HARD_LIMIT) ==> r.Ok?
    ensures total > 0 && Monotone(measure) && r.Ok? ==> measure(1) <= HARD_LIMIT
  {
    hide Fit, Monotone, Sum, BatchSizes;
    var sizes: seq<nat> := [];
    SumAppended([], 0);
    ghost var plan := BatchSizes(total, None, measure);
    assert Joined(sizes, plan) == plan by {
      if plan.Some? { assert [] + plan.value == plan.value; }
    }
    var remaining := total;
    var hint: Option<nat> := None;
    while remaining > 0
      invariant 0 <= remaining <= total && Sum(sizes) + remaining == total
      invariant forall i :: 0 <= i < |sizes| ==> 0 < sizes[i] <= total && measure(sizes[i]) <= HARD_LIMIT
      invariant remaining < total && Monotone(measure) ==> measure(1) <= HARD_LIMIT
      invariant Joined(sizes, BatchSizes(remaining, hint, measure)) == plan
    {
      assert Fit(remaining, hint, INTER_CANISTER, measure).Err? ==> plan.None? by {
        NoFitNoPlan(remaining, hint, measure);
      }
      if Monotone(measure) {
        OneFits(remaining, hint, measure);
      }
      var fit := AdaptiveFittingPrefix(remaining, hint, INTER_CANISTER, measure);
      if fit.Err? || fit.value.None? {
        return Err(TooLarge);
      }
      var count := fit.value.value.count;
      JoinedStep(sizes, remaining, hint, measure);
      SumAppended(sizes, count);
      sizes := sizes + [count];
      hint := Some(count);
      remaining := remaining - count;
    }
    assert BatchSizes(0, hint, measure) == Some([]) && sizes + [] == sizes by { NoFitNoPlan(0, hint, measure); }
    return Ok(sizes);
  }

  lemma NoFitNoPlan(total: nat, hint: Option<nat>, measure: Measure)
    ensures total == 0 ==> BatchSizes(total, hint, measure) == Some([])
    ensures total > 0 && Fit(total, hint, INTER_CANISTER, measure).Err? ==> BatchSizes(total, hint, measure).None?
  {}

  lemma SumAppended(sizes: seq<nat>, n: nat)
    ensures Sum(sizes + [n]) == Sum(sizes) + n && Sum([]) == 0
  {
    assert (sizes + [n])[..|sizes + [n]| - 1] == sizes;
  }

  lemma OneFits(length: nat, hint: Option<nat>, measure: Measure)
    requires length > 0 && Monotone(measure)
    ensures Fit(length, hint, INTER_CANISTER, measure).Ok? <==> measure(1) <= HARD_LIMIT
  {
    FitSucceedsIff(length, hint, INTER_CANISTER, measure);
  }

  type Size = seq<Resolved> -> nat

  /** One dimension and one id width. */
  predicate Level(rows: seq<Resolved>)
  {
    && (forall i :: 0 <= i < |rows| ==> |rows[i].values| == |rows[0].values|)
    && (forall i :: 0 <= i < |rows| ==> |rows[i].id| == |rows[0].id|)
  }

  /** Encoded size depends on the lengths alone. */
  ghost predicate ByLength(size: Size)
  {
    forall a, b :: SameLengths(a, b) ==> size(a) == size(b)
  }

  predicate SameLengths(a: seq<Resolved>, b: seq<Resolved>)
  {
    |a| == |b| && forall i :: 0 <= i < |a| ==> |a[i].values| == |b[i].values| && |a[i].id| == |b[i].id|
  }

  function PrefixMeasure(size: Size, rows: seq<Resolved>): Measure
  {
    (n: nat) => size(if n <= |rows| then rows[..n] else rows)
  }

  /** In a level file every window measures like the prefix of its length. */
  lemma WindowLikePrefix(size: Size, rows: seq<Resolved>, at: nat, n: nat)
    requires Level(rows) && ByLength(size) && at + n <= |rows|
    ensures size(rows[at..at + n]) == PrefixMeasure(size, rows)(n)
  {
    assert SameLengths(rows[at..at + n], rows[..n]);
  }

  /** Rows of a scanned file, resolved to ids of one width, are level. */
  lemma ScannedIsLevel(embeddings: seq<EmbeddingRow>, rows: seq<Resolved>, width: nat)
    requires Scannable(embeddings) && |rows| == |embeddings|
    requires forall i :: 0 <= i < |rows| ==> rows[i].values == embeddings[i].values && |rows[i].id| == width
    ensures Level(rows)
  {
    assert forall i :: 0 <= i < |rows| ==> |embeddings[i].values| == |embeddings[0].values|;
  }

  // ---------- sending ----------

  datatype Verdict = Applied | Pending | Failed(reason: nat)

  datatype Summary = Summary(attempted: nat, applied: nat, pending: nat, failures: seq<Bytes>)

  /** Tally one batch's verdicts. */
  method TallyBatch(s0: Summary, batch: seq<Resolved>, verdicts: seq<Verdict>) returns (s: Summary)
    requires |verdicts| == |batch|
    requires s0.attempted == s0.applied + s0.pending + |s0.failures|
    ensures s.attempted == s0.attempted + |batch| == s.applied + s.pending + |s.failures|
    ensures s0.failures <= s.failures
    ensures forall i :: 0 <= i < |batch| && verdicts[i].Failed? ==> batch[i].sourceId in s.failures[|s0.failures|..]
  {
    s := s0;
    for i := 0 to |batch|
      invariant s.attempted == s0.attempted + i == s.applied + s.pending + |s.failures|
      invariant s0.failures <= s.failures
      invariant forall k :: 0 <= k < i && verdicts[k].Failed? ==> batch[k].sourceId in s.failures[|s0.failures|..]
    {
      s := s.(attempted := s.attempted + 1);
      match verdicts[i]
      case Applied => s := s.(applied := s.applied + 1);
      case Pending => s := s.(pending := s.pending + 1);
      case Failed(_) =>
        ghost var before := s.failures;
        s := s.(failures := s.failures + [batch[i].sourceId]);
        assert s.failures[|s0.failures|..] == before[|s0.failures|..] + [batch[i].sourceId];
    }
  }

  /** The batches put end to end. */
  function Flatten(batches: seq<seq<Resolved>>): seq<Resolved>
  {
    if batches == [] then [] else Flatten(batches[..|batches| - 1]) + batches[|batches| - 1]
  }

  /** The call failed, or did not answer for every row. */
  predicate Refused(answer: Result<seq<Verdict>, EmbedError>, batch: seq<Resolved>)
  {
    answer.Err? || |answer.value| != |batch|
  }

  /** Send everything in planned batches until one is refused. Every batch sent fits, and together they are
      the rows from the start, each once; success means all of them, every one accounted for. */
  method IngestResolved(rows: seq<Resolved>, size: Size, answers: nat -> Result<seq<Verdict>, EmbedError>)
    returns (r: Result<Summary, EmbedError>, ghost sent: seq<seq<Resolved>>)
    requires Level(rows) && ByLength(size)
    ensures forall i :: 0 <= i < |sent| ==> sent[i] != [] && size(sent[i]) <= HARD_LIMIT
    ensures Flatten(sent) <= rows
    ensures r.Ok? ==> Flatten(sent) == rows
    ensures r.Ok? ==> r.value.attempted == |rows| == r.value.applied + r.value.pending + |r.value.failures|
    ensures r.Err? ==> r.error == TooLarge || (sent != [] && Refused(answers(|sent| - 1), sent[|sent| - 1]))
    ensures r == Err(TooLarge) ==> sent == [] && rows != []
    ensures r == Err(TooLarge) && Monotone(PrefixMeasure(size, rows)) ==> size(rows[..1]) > HARD_LIMIT
  {
    hide ByLength, Level, Flatten, Sum, PrefixMeasure, BatchSizes, Monotone, Fit;
    NothingSent(rows, []);
    sent := [];
    var plan := FittedBatchSizes(|rows|, PrefixMeasure(size, rows));
    if plan.Err? {
      FirstRow(size, rows);
      return Err(TooLarge), sent;
    }
    var sizes := plan.value;
    var summary := Summary(0, 0, 0, []);
    var offset := 0;
    NothingSent(rows, sizes);
    for k := 0 to |sizes|
      invariant offset == Sum(sizes[..k]) <= |rows| && Flatten(sent) == rows[..offset] && |sent| == k
      invariant forall i :: 0 <= i < |sent| ==> sent[i] != [] && size(sent[i]) <= HARD_LIMIT
      invariant summary.attempted == offset == summary.applied + summary.pending + |summary.failures|
    {
      SumStep(sizes, k);
      var batch := rows[offset..offset + sizes[k]];
      WindowLikePrefix(size, rows, offset, sizes[k]);
      BatchJoins(rows, sent, offset, sizes[k]);
      sent := sent + [batch];
      var answer := answers(k);
      if answer.Err? {
        return Err(EmbedError.Remote), sent;
      }
      if |answer.value| != |batch| {
        return Err(ShortAnswer), sent;
      }
      summary := TallyBatch(summary, batch, answer.value);
      offset := offset + sizes[k];
    }
    assert sizes[..|sizes|] == sizes;
    return Ok(summary), sent;
  }

  lemma FirstRow(size: Size, rows: seq<Resolved>)
    requires rows != []
    ensures PrefixMeasure(size, rows)(1) == size(rows[..1])
  {}

  lemma NothingSent(rows: seq<Resolved>, sizes: seq<nat>)
    ensures Flatten([]) == [] == rows[..0] && Sum(sizes[..0]) == 0
  {}

  lemma BatchJoins(rows: seq<Resolved>, sent: seq<seq<Resolved>>, offset: nat, n: nat)
    requires offset + n <= |rows| && Flatten(sent) == rows[..offset]
    ensures Flatten(sent + [rows[offset..offset + n]]) == rows[..offset + n]
  {
    var batch := rows[offset..offset + n];
    assert (sent + [batch])[..|sent + [batch]| - 1] == sent;
    assert rows[..offset + n] == rows[..offset] + batch;
  }

  lemma SumStep(sizes: seq<nat>, k: nat)
    requires k < |sizes|
    ensures Sum(sizes[..k + 1]) == Sum(sizes[..k]) + sizes[k] <= Sum(sizes)
  {
    SumPrefix(sizes, k + 1);
    assert sizes[..k + 1][..k] == sizes[..k];
  }

  lemma {:induction false} SumPrefix(sizes: seq<nat>, n: nat)
    requires n <= |sizes|
    ensures Sum(sizes[..n]) <= Sum(sizes)
    decreases |sizes| - n
  {
    if n < |sizes| {
      SumPrefix(sizes, n + 1);
      assert sizes[..n + 1][..n] == sizes[..n];
    } else {
      assert sizes[..n] == sizes;
    }
  }

  /** The whole command: scan the file, resolve its rows, and send them in batches. A file that scans is level, so
      every batch fits, provided all vertex ids have one width. */
  method EmbedFile(sources: seq<Bytes>, receipts: seq<ChunkReceipt>, embeddings: seq<EmbeddingRow>, size: Size,
                   answers: nat -> Result<seq<Verdict>, EmbedError>, ghost width: nat)
    returns (r: Result<Summary, EmbedError>, ghost sent: seq<seq<Resolved>>)
    requires ByLength(size) && forall i :: 0 <= i < |Concat(receipts)| ==> |Concat(receipts)[i]| == width
    ensures forall i :: 0 <= i < |sent| ==> sent[i] != [] && size(sent[i]) <= HARD_LIMIT
    ensures sent != [] ==> Scannable(embeddings) && Ascending(receipts) && |Concat(receipts)| == |sources|
    ensures r.Ok? ==>
              && Scannable(embeddings) && |Concat(receipts)| == |sources| && |Flatten(sent)| == |embeddings|
              && (forall i :: 0 <= i < |embeddings| ==> Carries(Flatten(sent)[i], embeddings[i], sources, receipts))
              && r.value.attempted == |embeddings| == r.value.applied + r.value.pending + |r.value.failures|
  {
    hide Scannable, ByLength, Level, Zip, Concat, Flatten, Sum;
    sent := [];
    var scanned := ScanEmbeddings(embeddings);
    if scanned.Err? {
      return Err(scanned.error), sent;
    }
    var resolved := ResolveEmbeddings(sources, receipts, embeddings);
    if resolved.Err? {
      return Err(resolved.error), sent;
    }
    var rows := resolved.value;
    forall i | 0 <= i < |rows| ensures |rows[i].id| == width {
      ZipValue(sources, Concat(receipts), |sources|, embeddings[i].sourceId);
    }
    ScannedIsLevel(embeddings, rows, width);
    r, sent := IngestResolved(rows, size, answers);
  }

  /** The row sent for an embedding: its values, under the id its vertex was given. */
  ghost predicate Carries(row: Resolved, embedding: EmbeddingRow, sources: seq<Bytes>, receipts: seq<ChunkReceipt>)
    requires |Concat(receipts)| == |sources|
  {
    && row.sourceId == embedding.sourceId && row.values == embedding.values
    && embedding.sourceId in Zip(sources, Concat(receipts), |sources|)
    && row.id == Zip(sources, Concat(receipts), |sources|)[embedding.sourceId]
  }

  lemma {:induction false} ZipValue(sources: seq<Bytes>, ids: seq<Bytes>, n: nat, source: Bytes)
    requires n <= |sources| && n <= |ids| && source in Zip(sources, ids, n)
    ensures exists i :: 0 <= i < n && Zip(sources, ids, n)[source] == ids[i]
  {
    if sources[n - 1] == source {
      assert Zip(sources, ids, n)[source] == ids[n - 1];
    } else {
      ZipValue(sources, ids, n - 1, source);
    }
  }

  /** Without one dimension that fails, for every encoder that adds up: if the first of two rows fits and the second
      does not, both are planned as batches of one, and the second does not fit. */
  lemma MixedDimensionsOverflow(base: nat, width: Resolved -> nat, rows: seq<Resolved>, size: Size)
    requires |rows| == 2 && forall batch :: size(batch) == Encoded(base, width, batch)
    requires base + width(rows[0]) <= HARD_LIMIT < base + width(rows[1])
    ensures BatchSizes(2, None, PrefixMeasure(size, rows)) == Some([1, 1])
    ensures size(rows[1..2]) > HARD_LIMIT
  {
    hide Fit, Encoded;
    var measure := PrefixMeasure(size, rows);
    assert rows[..0] == [] && rows[..1] == [] + [rows[0]] && rows[..2] == [] + [rows[0]] + [rows[1]] &&
           rows[1..2] == [] + [rows[1]];
    EncodedNothing(base, width);
    EncodedAppended(base, width, [], rows[0]);
    EncodedAppended(base, width, [] + [rows[0]], rows[1]);
    EncodedAppended(base, width, [], rows[1]);
    FitIsOne(2, measure);
    FitFollowsHint(1, 1, measure);
    assert BatchSizes(0, Some(1), measure) == Some([]);
    assert BatchSizes(1, Some(1), measure) == Some([1] + []);
    assert [1] + ([1] + []) == [1, 1];
  }

  /** Four bytes a value, and a file of that kind: one value, then six hundred thousand. */
  lemma MixedFile()
    ensures var width := (row: Resolved) => 4 * |row.values| + |row.id| + 32;
            exists rows: seq<Resolved> ::
              |rows| == 2 && 100 + width(rows[0]) <= HARD_LIMIT < 100 + width(rows[1])
  {
    var rows := [Resolved([1], [1], [0.0]), Resolved([2], [2], seq(600000, _ => 0.0))];
    assert |rows[1].values| == 600000;
  }
}
