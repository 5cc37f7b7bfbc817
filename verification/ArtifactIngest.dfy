/** Planning an artifact upload, and the driver that resumes it after being stopped anywhere. The
    server is the Provision catalogue's view of one artifact; SHA-256 is a parameter. */
module ArtifactIngest {
  import opened Outcomes
  import opened Bytes

  const MAX_CHUNK_BYTES: nat := 1048576
  const MAX_VERSION_LENGTH: nat := 128
  const MAX_ARTIFACT_BYTES: nat := 536870912
  const MAX_ARTIFACT_CHUNKS: nat := 4096
  const U32_MAX: nat := 0xFFFF_FFFF

  type Digest = seq<int>
  type Sha = seq<Byte> -> Digest

  datatype Kind = RouterKind | GraphKind | PropertyIndex | VectorCanister | TextCanister

  datatype ArtifactId = ArtifactId(kind: Kind, version: seq<Byte>, sha256: Digest)

  datatype PublishArgs = PublishArgs(id: ArtifactId, hashes: seq<Digest>, length: nat)

  datatype Plan = Plan(id: ArtifactId, args: PublishArgs, chunks: seq<seq<Byte>>)

  datatype ArtifactError =
    | VersionTooLong
    | TooLarge(length: nat)
    | TooManyChunks(declared: nat)
    | ConflictingMetadata(existing: ArtifactId, requested: ArtifactId)
    | UnknownArtifact
    | ChunkOutOfRange(index: nat)
    | ChunkHashMismatch(index: nat)
    | FullHashMismatch

  // ---------- planning ----------

  function Chunks(bytes: seq<Byte>): seq<seq<Byte>>
    decreases |bytes|
  {
    if bytes == [] then []
    else if |bytes| <= MAX_CHUNK_BYTES then [bytes]
    else [bytes[..MAX_CHUNK_BYTES]] + Chunks(bytes[MAX_CHUNK_BYTES..])
  }

  function Join(chunks: seq<seq<Byte>>): seq<Byte>
  {
    if chunks == [] then [] else chunks[0] + Join(chunks[1..])
  }

  function ChunkCount(length: nat): nat
  {
    var n := (length + MAX_CHUNK_BYTES - 1) / MAX_CHUNK_BYTES;
    if n > U32_MAX then U32_MAX else n
  }

  /** The bounds, checked in the order both sides use. */
  function CheckBounds(length: nat, version: nat, count: nat): Result<(), ArtifactError>
  {
    if version > MAX_VERSION_LENGTH then Err(VersionTooLong)
    else if length > MAX_ARTIFACT_BYTES then Err(TooLarge(length))
    else if count == 0 then Err(TooManyChunks(0))
    else if count > MAX_ARTIFACT_CHUNKS then Err(TooManyChunks(count))
    else Ok(())
  }

  function Hashes(sha: Sha, chunks: seq<seq<Byte>>): (hashes: seq<Digest>)
    ensures |hashes| == |chunks|
    ensures forall i :: 0 <= i < |chunks| ==> hashes[i] == sha(chunks[i])
  {
    if chunks == [] then [] else [sha(chunks[0])] + Hashes(sha, chunks[1..])
  }

  function PlanArtifact(sha: Sha, bytes: seq<Byte>, kind: Kind, version: seq<Byte>): Result<Plan, ArtifactError>
  {
    var bounds := CheckBounds(|bytes|, |version|, ChunkCount(|bytes|));
    if bounds.Err? then Err(bounds.error)
    else
      var chunks := Chunks(bytes);
      var id := ArtifactId(kind, version, sha(bytes));
      Ok(Plan(id, PublishArgs(id, Hashes(sha, chunks), |bytes|), chunks))
  }

  /** Chunking loses nothing and fills every chunk but the last. */
  lemma {:induction false} ChunksPartition(bytes: seq<Byte>)
    ensures Join(Chunks(bytes)) == bytes
    ensures |Chunks(bytes)| == (|bytes| + MAX_CHUNK_BYTES - 1) / MAX_CHUNK_BYTES
    ensures forall i :: 0 <= i < |Chunks(bytes)| ==> 0 < |Chunks(bytes)[i]| <= MAX_CHUNK_BYTES
    ensures forall i :: 0 <= i < |Chunks(bytes)| - 1 ==> |Chunks(bytes)[i]| == MAX_CHUNK_BYTES
    decreases |bytes|
  {
    var chunks := Chunks(bytes);
    if |bytes| > MAX_CHUNK_BYTES {
      var rest := bytes[MAX_CHUNK_BYTES..];
      ChunksPartition(rest);
      assert chunks[1..] == Chunks(rest);
      assert forall i :: 0 < i < |chunks| ==> chunks[i] == Chunks(rest)[i - 1];
      assert bytes == bytes[..MAX_CHUNK_BYTES] + rest;
    } else if bytes != [] {
      assert chunks[1..] == [];
    }
  }

  /** Planning accepts exactly the non-empty artifacts within the two bounds, and never complains of
      too many chunks: the byte bound already rules that out. */
  lemma PlanAccepts(sha: Sha, bytes: seq<Byte>, kind: Kind, version: seq<Byte>)
    ensures PlanArtifact(sha, bytes, kind, version).Ok? <==>
              0 < |bytes| <= MAX_ARTIFACT_BYTES && |version| <= MAX_VERSION_LENGTH
    ensures forall n :: PlanArtifact(sha, bytes, kind, version) == Err(TooManyChunks(n)) ==> n == 0 && bytes == []
  {
    hide Chunks, Hashes;
    CountInBounds(|bytes|);
  }

  lemma CountInBounds(length: nat)
    ensures ChunkCount(length) == 0 <==> length == 0
    ensures length <= MAX_ARTIFACT_BYTES ==> ChunkCount(length) <= 512
  {}

  // ---------- the server's view of one artifact ----------

  datatype UploadState = Receiving | Verifying | Verified(at: nat) | Failed

  datatype Upload = Upload(received: set<nat>, state: UploadState)

  datatype Metadata = Metadata(id: ArtifactId, hashes: seq<Digest>, verified: bool)

  datatype Row = Row(meta: Option<Metadata>, upload: Option<Upload>, chunks: map<nat, seq<Byte>>)

  function Publish(row: Row, args: PublishArgs): (Row, Result<(), ArtifactError>)
  {
    var bounds := CheckBounds(args.length, |args.id.version|, |args.hashes|);
    if bounds.Err? then (row, Err(bounds.error))
    else if row.meta.Some? then (row, Err(ConflictingMetadata(row.meta.value.id, args.id)))
    else (row.(meta := Some(Metadata(args.id, args.hashes, false))), Ok(()))
  }

  /** The stored chunks `0..n` streamed in order, if none is missing. */
  function Assemble(chunks: map<nat, seq<Byte>>, n: nat): Option<seq<Byte>>
  {
    if n == 0 then Some([])
    else
      var before := Assemble(chunks, n - 1);
      if before.None? || n - 1 !in chunks then None else Some(before.value + chunks[n - 1])
  }

  function Receive(sha: Sha, row: Row, index: nat, bytes: seq<Byte>, now: nat): (Row, Result<Upload, ArtifactError>)
  {
    if row.meta.None? then (row, Err(UnknownArtifact))
    else
      var meta := row.meta.value;
      if index >= |meta.hashes| then (row, Err(ChunkOutOfRange(index)))
      else if sha(bytes) != meta.hashes[index] then (row, Err(ChunkHashMismatch(index)))
      else if row.upload.Some? && row.upload.value.state.Failed? then (row, Err(ChunkHashMismatch(index)))
      else if meta.verified then (row, Err(ConflictingMetadata(meta.id, meta.id)))
      else Stage(sha, row, index, bytes, now)
  }

  /** Store the chunk; with the last one in place, check the whole and close the upload. */
  function Stage(sha: Sha, row: Row, index: nat, bytes: seq<Byte>, now: nat): (Row, Result<Upload, ArtifactError>)
    requires row.meta.Some?
  {
    var meta := row.meta.value;
    var chunks := row.chunks[index := bytes];
    var received := (if row.upload.Some? then row.upload.value.received else {}) + {index};
    if |received| < |meta.hashes| then
      var upload := Upload(received, Receiving);
      (Row(row.meta, Some(upload), chunks), Ok(upload))
    else
      var whole := Assemble(chunks, |meta.hashes|);
      if whole.None? || sha(whole.value) != meta.id.sha256 then
        (Row(row.meta, Some(Upload(received, Failed)), map[]), Err(FullHashMismatch))
      else
        (Row(Some(meta.(verified := true)), None, chunks), Ok(Upload(received, Verified(now))))
  }

  // ---------- what holds between the runs of one plan ----------

  function Range(n: nat): (s: set<nat>)
    ensures |s| == n
    ensures forall i: nat :: i in s <==> i < n
  {
    if n == 0 then {} else Range(n - 1) + {n - 1}
  }

  lemma FullRange(s: set<nat>, n: nat)
    requires s <= Range(n)
    ensures |s| <= n
    ensures |s| == n <==> s == Range(n)
  {
    SubsetSize(s, Range(n));
  }

  lemma {:induction false} SubsetSize(a: set<nat>, b: set<nat>)
    requires a <= b
    ensures |a| <= |b|
    ensures |a| == |b| ==> a == b
    decreases a
  {
    if a != {} {
      var x :| x in a;
      SubsetSize(a - {x}, b - {x});
    }
  }

  /** A plan as the planner makes them. */
  ghost predicate Planned(sha: Sha, plan: Plan, bytes: seq<Byte>)
  {
    exists kind, version :: PlanArtifact(sha, bytes, kind, version) == Ok(plan)
  }

  /** Only this plan has written here, and the last chunk closed the upload. */
  ghost predicate Consistent(plan: Plan, row: Row)
  {
    var n := |plan.chunks|;
    && (row.meta.Some? ==> row.meta.value.id == plan.id && row.meta.value.hashes == plan.args.hashes)
    && Excerpt(plan, row.chunks)
    && (Verdict(row) ==> row.upload.None? && row.chunks.Keys == Range(n))
    && (!Verdict(row) ==> row.chunks.Keys != Range(n))
    && (!Verdict(row) && row.chunks.Keys == {} ==> row.upload.None?)
    && (!Verdict(row) && row.chunks.Keys != {} ==>
          row.meta.Some? && row.upload == Some(Upload(row.chunks.Keys, Receiving)))
  }

  /** Some of the plan's chunks, each under its own index. */
  ghost predicate Excerpt(plan: Plan, chunks: map<nat, seq<Byte>>)
  {
    && chunks.Keys <= Range(|plan.chunks|)
    && (forall i :: i in chunks ==> chunks[i] == plan.chunks[i])
  }

  lemma ExcerptGrows(plan: Plan, chunks: map<nat, seq<Byte>>, index: nat)
    requires Excerpt(plan, chunks) && index < |plan.chunks|
    ensures Excerpt(plan, chunks[index := plan.chunks[index]])
    ensures chunks[index := plan.chunks[index]].Keys == chunks.Keys + {index} <= Range(|plan.chunks|)
  {}

  predicate Verdict(row: Row)
  {
    row.meta.Some? && row.meta.value.verified
  }

  lemma {:induction false} AssembleAll(plan: Plan, chunks: map<nat, seq<Byte>>, n: nat)
    requires n <= |plan.chunks| && Range(n) <= chunks.Keys && Excerpt(plan, chunks)
    ensures Assemble(chunks, n) == Some(Join(plan.chunks[..n]))
  {
    hide Range;
    if n == 0 {
      assert plan.chunks[..0] == [];
    } else {
      assert n - 1 in Range(n);
      assert Range(n - 1) <= chunks.Keys;
      AssembleAll(plan, chunks, n - 1);
      assert plan.chunks[..n] == plan.chunks[..n - 1] + [plan.chunks[n - 1]];
      JoinAppend(plan.chunks[..n - 1], plan.chunks[n - 1]);
    }
  }

  lemma {:induction false} JoinAppend(chunks: seq<seq<Byte>>, last: seq<Byte>)
    ensures Join(chunks + [last]) == Join(chunks) + last
    decreases |chunks|
  {
    if chunks == [] {
      assert (chunks + [last])[1..] == [];
    } else {
      assert (chunks + [last])[1..] == chunks[1..] + [last];
      JoinAppend(chunks[1..], last);
    }
  }

  /** What the planner's output guarantees. */
  ghost predicate Sealed(sha: Sha, plan: Plan, bytes: seq<Byte>)
  {
    && |plan.chunks| > 0
    && Join(plan.chunks) == bytes
    && plan.args.hashes == Hashes(sha, plan.chunks)
    && plan.args.id == plan.id
    && plan.id.sha256 == sha(bytes)
    && CheckBounds(plan.args.length, |plan.id.version|, |plan.args.hashes|).Ok?
  }

  lemma PlannedIsSealed(sha: Sha, plan: Plan, bytes: seq<Byte>)
    requires Planned(sha, plan, bytes)
    ensures Sealed(sha, plan, bytes) && forall i :: 0 <= i < |plan.chunks| ==> plan.chunks[i] != []
  {
    hide Hashes, Join, Chunks;
    var kind, version :| PlanArtifact(sha, bytes, kind, version) == Ok(plan);
    ChunksPartition(bytes);
    CountInBounds(|bytes|);
  }

  /** Publishing the plan leaves a consistent row in which its metadata is present. */
  lemma PublishKeeps(sha: Sha, plan: Plan, bytes: seq<Byte>, row: Row)
    requires Sealed(sha, plan, bytes) && Consistent(plan, row)
    ensures var (after, r) := Publish(row, plan.args);
            && Consistent(plan, after) && after.meta.Some? && after.chunks == row.chunks &&
               Verdict(after) == Verdict(row)
            && (r.Ok? <==> row.meta.None?)
            && (r.Err? ==> r.error == ConflictingMetadata(plan.id, plan.id))
  {
    hide Hashes, Join, Excerpt, Range;
  }

  lemma StageMiddle(sha: Sha, plan: Plan, row: Row, index: nat, now: nat)
    requires Consistent(plan, row) && row.meta.Some? && !Verdict(row) && index < |plan.chunks| == |plan.args.hashes|
    requires row.chunks.Keys + {index} != Range(|plan.chunks|)
    ensures var (after, r) := Stage(sha, row, index, plan.chunks[index], now);
            && Consistent(plan, after) && after.meta.Some? && !Verdict(after)
            && after.chunks.Keys == row.chunks.Keys + {index} && r.Ok? && r.value.state == Receiving
  {
    hide Assemble, Range, Excerpt;
    var chunks := row.chunks[index := plan.chunks[index]];
    ExcerptGrows(plan, row.chunks, index);
    assert (if row.upload.Some? then row.upload.value.received else {}) == row.chunks.Keys;
    FullRange(chunks.Keys, |plan.chunks|);
  }

  lemma StageLast(sha: Sha, plan: Plan, bytes: seq<Byte>, row: Row, index: nat, now: nat)
    requires Sealed(sha, plan, bytes) && Consistent(plan, row) && row.meta.Some? && !Verdict(row)
    requires index < |plan.chunks| && row.chunks.Keys + {index} == Range(|plan.chunks|)
    ensures var (after, r) := Stage(sha, row, index, plan.chunks[index], now);
            && Consistent(plan, after) && after.meta.Some? && Verdict(after)
            && after.chunks.Keys == row.chunks.Keys + {index} && r.Ok? && r.value.state == Verified(now)
  {
    hide Assemble, Range, Join, Hashes, CheckBounds, Excerpt;
    var n := |plan.chunks|;
    var chunks := row.chunks[index := plan.chunks[index]];
    ExcerptGrows(plan, row.chunks, index);
    assert (if row.upload.Some? then row.upload.value.received else {}) == row.chunks.Keys;
    FullRange(chunks.Keys, n);
    AssembleAll(plan, chunks, n);
    assert plan.chunks[..n] == plan.chunks;
  }

  /** Sending one of the plan's own chunks: a verified artifact says so, otherwise the chunk is stored
      and the last missing one verifies the artifact. The upload never fails. */
  lemma ReceiveKeeps(sha: Sha, plan: Plan, bytes: seq<Byte>, row: Row, index: nat, now: nat)
    requires Sealed(sha, plan, bytes) && Consistent(plan, row) && row.meta.Some? && index < |plan.chunks|
    ensures var (after, r) := Receive(sha, row, index, plan.chunks[index], now);
            && Consistent(plan, after) && after.meta.Some?
            && (Verdict(row) ==> after == row && r == Err(ConflictingMetadata(plan.id, plan.id)))
            && (!Verdict(row) ==> r.Ok? && after.chunks.Keys == row.chunks.Keys + {index})
            && (!Verdict(row) && row.chunks.Keys + {index} == Range(|plan.chunks|) ==>
                 Verdict(after) && r.value.state == Verified(now))
            && (!Verdict(row) && row.chunks.Keys + {index} != Range(|plan.chunks|) ==>
                 !Verdict(after) && r.value.state == Receiving)
  {
    hide Stage, Range, Join, CheckBounds, Excerpt;
    if !Verdict(row) {
      if row.chunks.Keys + {index} == Range(|plan.chunks|) {
        StageLast(sha, plan, bytes, row, index, now);
      } else {
        StageMiddle(sha, plan, row, index, now);
      }
    }
  }

  /** A verified artifact holds the original bytes. */
  lemma StoredBytes(sha: Sha, plan: Plan, bytes: seq<Byte>, row: Row)
    requires Sealed(sha, plan, bytes) && Consistent(plan, row) && Verdict(row)
    ensures Assemble(row.chunks, |plan.chunks|) == Some(bytes)
  {
    hide Hashes, Join, Assemble, Range, Excerpt;
    AssembleAll(plan, row.chunks, |plan.chunks|);
    assert plan.chunks[..|plan.chunks|] == plan.chunks;
  }

  // ---------- which chunks to send ----------

  /** The declared indices the server has not accepted, ascending. */
  function Missing(n: nat, received: set<nat>): (indices: seq<nat>)
    ensures |indices| <= n
    ensures forall j :: 0 <= j < |indices| ==> indices[j] < n && indices[j] !in received
    ensures forall i, j :: 0 <= i < j < |indices| ==> indices[i] < indices[j]
    ensures forall i: nat :: i < n && i !in received ==> i in indices
  {
    if n == 0 then []
    else Missing(n - 1, received) + if n - 1 in received then [] else [n - 1]
  }

  function Sending(indices: seq<nat>, j: nat): (s: set<nat>)
    requires j <= |indices|
    ensures forall i :: i in s <==> exists k :: 0 <= k < j && indices[k] == i
  {
    if j == 0 then {} else Sending(indices, j - 1) + {indices[j - 1]}
  }

  /** Sending the missing chunks one by one completes the set with the last of them, not before. */
  lemma MissingCompletes(n: nat, received: set<nat>, j: nat)
    requires received <= Range(n) && j <= |Missing(n, received)|
    ensures received + Sending(Missing(n, received), j) <= Range(n)
    ensures received + Sending(Missing(n, received), j) == Range(n) <==> j == |Missing(n, received)|
  {
    hide Missing, Sending, Range;
    var indices := Missing(n, received);
    var covered := received + Sending(indices, j);
    if j < |indices| {
      assert indices[j] in Range(n) && indices[j] !in received;
      assert indices[j] !in Sending(indices, j);
    } else {
      forall i | i in Range(n) ensures i in covered {
        assert i < n && i !in received ==> i in indices;
      }
      assert covered == Range(n);
    }
  }

  // ---------- the server as the driver meets it ----------

  datatype Call = Asked | Declared | Sent(index: nat, published: bool)

  class Provision {
    const sha: Sha
    var row: Row
    var now: nat
    ghost var calls: seq<Call>

    constructor (sha: Sha)
      ensures this.sha == sha && row == Row(None, None, map[]) && calls == []
    {
      this.sha := sha;
      row, now, calls := Row(None, None, map[]), 0, [];
    }

    method GetStatus() returns (upload: Option<Upload>)
      modifies this
      ensures row == old(row) && upload == row.upload && now == old(now)
      ensures calls == old(calls) + [Asked]
    {
      calls := calls + [Asked];
      upload := row.upload;
    }

    method PublishMetadata(args: PublishArgs) returns (r: Result<(), ArtifactError>)
      modifies this
      ensures (row, r) == Publish(old(row), args) && now == old(now)
      ensures calls == old(calls) + [Declared]
    {
      calls := calls + [Declared];
      var (after, answer) := Publish(row, args);
      row, r := after, answer;
    }

    method UploadChunk(index: nat, bytes: seq<Byte>) returns (r: Result<Upload, ArtifactError>)
      modifies this
      ensures (row, r) == Receive(sha, old(row), index, bytes, old(now)) && now == old(now) + 1
      ensures calls == old(calls) + [Sent(index, old(row).meta.Some?)]
    {
      calls := calls + [Sent(index, row.meta.Some?)];
      var (after, answer) := Receive(sha, row, index, bytes, now);
      row, r, now := after, answer, now + 1;
    }
  }

  // ---------- the driver ----------

  datatype IngestOutcome = IsVerified(at: Option<nat>) | AwaitingVerification
  datatype IngestError = Rejected(error: ArtifactError) | UploadFailed
  datatype Run = Stopped | Finished(result: Result<IngestOutcome, IngestError>)

  ghost predicate FailedRow(row: Row)
  {
    row.upload.Some? && row.upload.value.state.Failed?
  }

  /** A run's calls: metadata precedes chunks, indices ascend, and with an upload row only missing
      chunks are sent. */
  ghost predicate Orderly(plan: Plan, row: Row, run: seq<Call>)
  {
    && (forall i :: 0 <= i < |run| && run[i].Sent? ==> run[i].published && run[i].index < |plan.chunks|)
    && (forall i, j :: 0 <= i < j < |run| && run[i].Sent? && run[j].Sent? ==> run[i].index < run[j].index)
    && (row.upload.Some? ==>
          forall i :: 0 <= i < |run| ==>
              !run[i].Declared? && (run[i].Sent? ==> run[i].index !in row.upload.value.received))
  }

  function Sends(indices: seq<nat>): seq<Call>
  {
    if indices == [] then [] else Sends(indices[..|indices| - 1]) + [Sent(indices[|indices| - 1], true)]
  }

  lemma {:induction false} SendsAt(indices: seq<nat>)
    ensures |Sends(indices)| == |indices|
    ensures forall i :: 0 <= i < |indices| ==> Sends(indices)[i] == Sent(indices[i], true)
  {
    if indices != [] {
      SendsAt(indices[..|indices| - 1]);
    }
  }

  lemma SendsOrderly(plan: Plan, row: Row, prologue: seq<Call>, indices: seq<nat>, j: nat)
    requires j <= |indices|
    requires indices == Missing(|plan.chunks|, if row.upload.Some? then row.upload.value.received else {})
    requires prologue == if row.upload.Some? then [Asked] else [Asked, Declared]
    ensures Orderly(plan, row, prologue + Sends(indices[..j]))
  {
    hide Missing, Sends;
    SendsAt(indices[..j]);
  }

  /** After the first `j` pending chunks, with at least one more to go. */
  ghost predicate Midway(plan: Plan, row0: Row, row: Row, pending: seq<nat>, j: nat)
  {
    && Consistent(plan, row) && row.meta.Some?
    && j < |pending|
    && (if Verdict(row0) then j == 0 && row == row0
        else !Verdict(row) && row.chunks.Keys == row0.chunks.Keys + Sending(pending, j))
  }

  lemma MidwayStart(sha: Sha, plan: Plan, bytes: seq<Byte>, row: Row, pending: seq<nat>)
    requires Sealed(sha, plan, bytes) && Consistent(plan, row) && row.meta.Some?
    requires Owed(plan, row, pending)
    ensures Midway(plan, row, row, pending, 0)
  {
    hide Sealed, Consistent, Missing, Range;
    ConsistentBasics(plan, row);
    SealedBasics(sha, plan, bytes);
    PendingNonEmpty(plan, row, pending);
    SendingStep(pending, 0);
  }

  /** The chunks the driver owes for this row. */
  ghost predicate Owed(plan: Plan, row: Row, pending: seq<nat>)
  {
    pending == Missing(|plan.chunks|, if Verdict(row) then {} else row.chunks.Keys)
  }

  lemma MissingStep(n: nat, received: set<nat>, keys: set<nat>, j: nat)
    requires received <= Range(n) && j < |Missing(n, received)|
    ensures keys == received + Sending(Missing(n, received), j) ==>
              && keys + {Missing(n, received)[j]} == received + Sending(Missing(n, received), j + 1)
              && (keys + {Missing(n, received)[j]} == Range(n) <==> j + 1 == |Missing(n, received)|)
  {
    hide Missing, Range, Sending;
    MissingCompletes(n, received, j + 1);
    SendingStep(Missing(n, received), j);
    assert received + Sending(Missing(n, received), j) + {Missing(n, received)[j]} ==
           received + Sending(Missing(n, received), j + 1);
  }

  lemma OwedStep(plan: Plan, row0: Row, keys: set<nat>, pending: seq<nat>, j: nat)
    requires Consistent(plan, row0) && Owed(plan, row0, pending) && j < |pending|
    ensures pending[j] < |plan.chunks|
    ensures !Verdict(row0) && keys == row0.chunks.Keys + Sending(pending, j) ==>
              && keys + {pending[j]} == row0.chunks.Keys + Sending(pending, j + 1)
              && (keys + {pending[j]} == Range(|plan.chunks|) <==> j + 1 == |pending|)
  {
    hide Consistent, Missing, Range, Sending;
    if !Verdict(row0) {
      ConsistentBasics(plan, row0);
      MissingStep(|plan.chunks|, row0.chunks.Keys, keys, j);
    }
  }

  lemma MidwayStep(sha: Sha, plan: Plan, bytes: seq<Byte>, row0: Row, row: Row, pending: seq<nat>, j: nat, now: nat)
    requires Sealed(sha, plan, bytes) && Consistent(plan, row0) && Midway(plan, row0, row, pending, j)
    requires Owed(plan, row0, pending)
    ensures pending[j] < |plan.chunks|
    ensures var (after, r) := Receive(sha, row, pending[j], plan.chunks[pending[j]], now);
            && Consistent(plan, after) && after.meta.Some?
            && (Verdict(row0) ==> after == row && r == Err(ConflictingMetadata(plan.id, plan.id)))
            && (!Verdict(row0) ==> r.Ok?)
            && (!Verdict(row0) && j + 1 < |pending| ==>
                 Midway(plan, row0, after, pending, j + 1) && r.value.state == Receiving)
            && (!Verdict(row0) && j + 1 == |pending| ==> Verdict(after) && r.value.state == Verified(now))
  {
    hide Sealed, Consistent, Owed, Range, Sending, Receive;
    OwedStep(plan, row0, row.chunks.Keys, pending, j);
    ReceiveKeeps(sha, plan, bytes, row, pending[j], now);
  }

  /** What the driver makes of the answer to a chunk: done, give up, or go on. */
  function Settles(plan: Plan, answer: Result<Upload, ArtifactError>): Option<Result<IngestOutcome, IngestError>>
  {
    match answer
    case Ok(upload) => if upload.state.Verified? then Some(Ok(IsVerified(Some(upload.state.at)))) else None
    case Err(error) =>
      if error == ConflictingMetadata(plan.id, plan.id) then Some(Ok(IsVerified(None))) else Some(Err(Rejected(error)))
  }

  /** Step 3 as a function of the server's row: at most `budget` of the pending chunks, until one settles it. */
  function SendUpTo(sha: Sha, plan: Plan, row: Row, pending: seq<nat>, budget: nat, now: nat): (Row, Run)
    requires forall j :: 0 <= j < |pending| ==> pending[j] < |plan.chunks|
    decreases |pending|
  {
    if pending == [] then (row, Finished(Ok(AwaitingVerification)))
    else if budget == 0 then (row, Stopped)
    else
      var (after, answer) := Receive(sha, row, pending[0], plan.chunks[pending[0]], now);
      var settled := Settles(plan, answer);
      if settled.Some? then (after, Finished(settled.value))
      else SendUpTo(sha, plan, after, pending[1..], budget - 1, now + 1)
  }

  /** The plan's own upload, with these chunks to go. */
  ghost predicate Ours(sha: Sha, plan: Plan, bytes: seq<Byte>, row: Row, pending: seq<nat>)
  {
    Sealed(sha, plan, bytes) && Consistent(plan, row) && row.meta.Some? && Owed(plan, row, pending)
  }

  /** Step 3: the pending chunks in order, until one reports the artifact verified. */
  method SendPending(plan: Plan, server: Provision, pending: seq<nat>, budget: nat, ghost bytes: seq<Byte>)
    returns (r: Run, ghost sent: nat)
    requires forall j :: 0 <= j < |pending| ==> pending[j] < |plan.chunks|
    modifies server
    ensures (server.row, r) == SendUpTo(server.sha, plan, old(server.row), pending, budget, old(server.now))
    ensures budget >= |pending| ==> r.Finished?
    ensures sent <= |pending| && old(server.calls) <= server.calls
    ensures Ours(server.sha, plan, bytes, old(server.row), pending) ==>
              && Consistent(plan, server.row) && server.row.meta.Some?
              && server.calls == old(server.calls) + Sends(pending[..sent])
              && (r.Finished? ==> r.result.Ok? && r.result.value.IsVerified? && Verdict(server.row))
              && (r.Finished? ==> (r.result.value.at.None? <==> old(Verdict(server.row))))
              && (r.Finished? ==> sent == if old(Verdict(server.row)) then 1 else |pending|)
              && (r.Stopped? ==> sent == budget && Verdict(server.row) == old(Verdict(server.row)))
  {
    hide Sealed, Consistent, Receive, Owed, Range, Sends, Sending;
    ghost var row0, calls0 := server.row, server.calls;
    ghost var ours := Ours(server.sha, plan, bytes, row0, pending);
    if ours {
      MidwayStart(server.sha, plan, bytes, row0, pending);
    }
    SendsAt(pending[..0]);
    sent := 0;
    var j := 0;
    assert pending[0..] == pending;
    while j < |pending|
      invariant 0 <= j <= |pending| && sent == j <= budget && calls0 <= server.calls
      invariant SendUpTo(server.sha, plan, server.row, pending[j..], budget - j, server.now) ==
                  SendUpTo(server.sha, plan, row0, pending, budget, old(server.now))
      invariant ours ==> Midway(plan, row0, server.row, pending, j) && server.calls == calls0 + Sends(pending[..j])
    {
      if j == budget {
        return Stopped, sent;
      }
      if ours {
        MidwayStep(server.sha, plan, bytes, row0, server.row, pending, j, server.now);
      }
      assert pending[j..][1..] == pending[j + 1..];
      var answer := server.UploadChunk(pending[j], plan.chunks[pending[j]]);
      SendsStep(pending, j);
      sent := sent + 1;
      var settled := Settles(plan, answer);
      if settled.Some? {
        return Finished(settled.value), sent;
      }
      j := j + 1;
    }
    return Finished(Ok(AwaitingVerification)), sent;
  }

  lemma ConsistentBasics(plan: Plan, row: Row)
    requires Consistent(plan, row)
    ensures row.chunks.Keys <= Range(|plan.chunks|) && (!Verdict(row) ==> row.chunks.Keys != Range(|plan.chunks|))
  {}

  lemma SealedBasics(sha: Sha, plan: Plan, bytes: seq<Byte>)
    requires Sealed(sha, plan, bytes)
    ensures |plan.chunks| > 0
  {}

  lemma PendingNonEmpty(plan: Plan, row: Row, pending: seq<nat>)
    requires |plan.chunks| > 0 && row.chunks.Keys <= Range(|plan.chunks|) &&
             (!Verdict(row) ==> row.chunks.Keys != Range(|plan.chunks|))
    requires pending == Missing(|plan.chunks|, if Verdict(row) then {} else row.chunks.Keys)
    ensures pending != []
  {
    hide Missing, Range;
    if Verdict(row) {
      assert 0 in pending;
    } else {
      MissingCompletes(|plan.chunks|, row.chunks.Keys, 0);
      assert Sending(pending, 0) == {};
    }
  }

  lemma SendingStep(indices: seq<nat>, j: nat)
    requires j < |indices|
    ensures Sending(indices, j + 1) == Sending(indices, j) + {indices[j]}
    ensures Sending(indices, 0) == {}
  {}

  lemma SendsStep(indices: seq<nat>, j: nat)
    requires j < |indices|
    ensures Sends(indices[..j + 1]) == Sends(indices[..j]) + [Sent(indices[j], true)]
  {
    assert indices[..j + 1][..j] == indices[..j];
  }

  /** What a status alone decides. */
  function Known(status: Option<Upload>): Option<Result<IngestOutcome, IngestError>>
  {
    if status.None? then None
    else
      match status.value.state
      case Failed => Some(Err(UploadFailed))
      case Verified(at) => Some(Ok(IsVerified(Some(at))))
      case Receiving => None
      case Verifying => None
  }

  /** Metadata is there after this answer: newly, or under the very same identity. */
  predicate Confirms(plan: Plan, answer: Result<(), ArtifactError>)
  {
    answer.Ok? || answer.error == ConflictingMetadata(plan.id, plan.id)
  }

  lemma OwedAfterPublish(sha: Sha, plan: Plan, bytes: seq<Byte>, row: Row)
    requires Sealed(sha, plan, bytes) && Consistent(plan, row) && row.upload.None?
    ensures Owed(plan, Publish(row, plan.args).0, Missing(|plan.chunks|, {}))
  {
    hide Missing, Range, Excerpt, Sealed;
    PublishKeeps(sha, plan, bytes, row);
  }

  lemma OwedToUpload(plan: Plan, row: Row)
    requires Consistent(plan, row) && row.upload.Some?
    ensures row.meta.Some? && !Verdict(row) && Known(row.upload).None?
    ensures Owed(plan, row, Missing(|plan.chunks|, row.upload.value.received))
  {
    hide Missing, Range, Excerpt;
  }

  /** A run as a function of the server's row, stopped before call number `stop`. */
  function IngestUpTo(sha: Sha, plan: Plan, row: Row, stop: nat, now: nat): (Row, Run)
  {
    if stop == 0 then (row, Stopped)
    else if Known(row.upload).Some? then (row, Finished(Known(row.upload).value))
    else if row.upload.Some? then
      SendUpTo(sha, plan, row, Missing(|plan.chunks|, row.upload.value.received), stop - 1, now)
    else if stop == 1 then (row, Stopped)
    else
      var (after, answer) := Publish(row, plan.args);
      if !Confirms(plan, answer) then (after, Finished(Err(Rejected(answer.error))))
      else SendUpTo(sha, plan, after, Missing(|plan.chunks|, {}), stop - 2, now)
  }

  /** One run that may be stopped before any call, from any row. From every state its own plan can have left, it
      keeps the state consistent, makes its calls in order, and if not stopped ends verified. */
  method Ingest(plan: Plan, server: Provision, stop: nat, ghost bytes: seq<Byte>) returns (r: Run)
    requires Planned(server.sha, plan, bytes)
    modifies server
    ensures (server.row, r) == IngestUpTo(server.sha, plan, old(server.row), stop, old(server.now))
    ensures old(server.calls) <= server.calls
    ensures old(FailedRow(server.row)) ==>
              server.row == old(server.row) && (stop > 0 ==> r == Finished(Err(UploadFailed)))
    ensures old(FailedRow(server.row) || Consistent(plan, server.row)) ==>
              Orderly(plan, old(server.row), server.calls[|old(server.calls)|..])
    ensures old(Consistent(plan, server.row)) ==> Consistent(plan, server.row)
    ensures stop >= |plan.chunks| + 2 ==> r.Finished?
    ensures old(Consistent(plan, server.row)) && r.Finished? ==>
              && r.result.Ok? && r.result.value.IsVerified?
              && (r.result.value.at.None? <==> old(Verdict(server.row)))
              && Verdict(server.row) && Assemble(server.row.chunks, |plan.chunks|) == Some(bytes)
    ensures old(Consistent(plan, server.row)) && !old(Verdict(server.row)) && r.Finished? ==>
              server.calls[|old(server.calls)|..] ==
              (if old(server.row).upload.Some? then [Asked] else [Asked, Declared])
              + Sends(Missing(|plan.chunks|, old(server.row).chunks.Keys))
  {
    hide Sealed, Consistent, Publish, Missing, Range, Sends, Owed, Orderly, Assemble, Planned, SendUpTo, Ours;
    PlannedIsSealed(server.sha, plan, bytes);
    ghost var row0, calls0 := server.row, server.calls;
    ghost var ours := Consistent(plan, row0);
    if ours {
      NeverFailed(plan, row0);
    }
    if stop == 0 {
      assert Orderly(plan, row0, []) by { OrderlyNothing(plan, row0); }
      assert server.calls[|calls0|..] == [];
      return Stopped;
    }
    var status := server.GetStatus();
    assert Orderly(plan, row0, [Asked]) by { OrderlyNothing(plan, row0); }
    assert server.calls[|calls0|..] == [Asked];
    var known := Known(status);
    if ours && row0.upload.Some? {
      OwedToUpload(plan, row0);
    }
    if known.Some? {
      return Finished(known.value);
    }
    var pending;
    ghost var prologue;
    if status.Some? {
      pending := Missing(|plan.chunks|, status.value.received);
      prologue := [Asked];
    } else {
      if stop == 1 {
        return Stopped;
      }
      if ours {
        PublishKeeps(server.sha, plan, bytes, row0);
        OwedAfterPublish(server.sha, plan, bytes, row0);
      }
      var answer := server.PublishMetadata(plan.args);
      pending := Missing(|plan.chunks|, {});
      prologue := [Asked, Declared];
      if !Confirms(plan, answer) {
        return Finished(Err(Rejected(answer.error)));
      }
    }
    if ours {
      IsOurs(server.sha, plan, bytes, server.row, pending);
    }
    assert server.calls == calls0 + prologue;
    ghost var sent;
    r, sent := SendPending(plan, server, pending, if status.Some? then stop - 1 else stop - 2, bytes);
    if ours {
      assert server.calls[|calls0|..] == prologue + Sends(pending[..sent]);
      SendsOrderly(plan, row0, prologue, pending, sent);
      if r.Finished? {
        StoredBytes(server.sha, plan, bytes, server.row);
        if !Verdict(row0) {
          assert pending[..sent] == pending;
          PendingIsMissing(plan, row0);
        }
      }
    }
  }

  lemma IsOurs(sha: Sha, plan: Plan, bytes: seq<Byte>, row: Row, pending: seq<nat>)
    requires Sealed(sha, plan, bytes) && Consistent(plan, row) && row.meta.Some? && Owed(plan, row, pending)
    ensures Ours(sha, plan, bytes, row, pending)
  {}

  lemma OrderlyNothing(plan: Plan, row: Row)
    ensures Orderly(plan, row, []) && Orderly(plan, row, [Asked])
  {}

  lemma PendingIsMissing(plan: Plan, row: Row)
    requires Consistent(plan, row) && !Verdict(row)
    ensures row.chunks.Keys == if row.upload.Some? then row.upload.value.received else {}
  {}

  /** Any number of runs, each stopped anywhere, followed by one that is not. */
  method IngestAll(plan: Plan, server: Provision, stops: seq<nat>, ghost bytes: seq<Byte>) returns (r: Run)
    requires Planned(server.sha, plan, bytes) && Consistent(plan, server.row)
    modifies server
    ensures Consistent(plan, server.row) && !FailedRow(server.row)
    ensures r.Finished? && r.result.Ok? && r.result.value.IsVerified?
    ensures Verdict(server.row) && Assemble(server.row.chunks, |plan.chunks|) == Some(bytes)
  {
    hide Consistent, Planned, Assemble, Orderly, Sends, Missing;
    for i := 0 to |stops|
      invariant Consistent(plan, server.row)
    {
      var _ := Ingest(plan, server, stops[i], bytes);
    }
    r := Ingest(plan, server, |plan.chunks| + 2, bytes);
    NeverFailed(plan, server.row);
  }

  lemma NeverFailed(plan: Plan, row: Row)
    requires Consistent(plan, row)
    ensures !FailedRow(row)
  {}

  // ---------- an identity declared with other chunk hashes ----------

  ghost predicate Injective(sha: Sha)
  {
    forall a, b :: sha(a) == sha(b) ==> a == b
  }

  function Received(row: Row): set<nat>
  {
    if row.upload.Some? then row.upload.value.received else {}
  }

  /** What every row looks like, whoever declared the identity and sent its chunks. */
  ghost predicate Legit(sha: Sha, row: Row)
  {
    && (row.meta.None? ==> row.upload.None? && row.chunks == map[])
    && (row.meta.Some? ==>
          var hashes := row.meta.value.hashes;
          && hashes != []
          && (Verdict(row) ==> row.upload.None?)
          && (!Verdict(row) && !FailedRow(row) ==>
                && (row.upload.Some? ==> row.upload.value.state.Receiving?)
                && row.chunks.Keys == Received(row) && |Received(row)| < |hashes|
                && Matching(sha, hashes, row.chunks)))
  }

  /** Each stored chunk is the one declared for its place. */
  ghost predicate Matching(sha: Sha, hashes: seq<Digest>, chunks: map<nat, seq<Byte>>)
  {
    chunks.Keys <= Range(|hashes|) && forall i :: i in chunks ==> sha(chunks[i]) == hashes[i]
  }

  lemma MatchingGrows(sha: Sha, hashes: seq<Digest>, chunks: map<nat, seq<Byte>>, index: nat, bytes: seq<Byte>)
    requires Matching(sha, hashes, chunks) && index < |hashes| && sha(bytes) == hashes[index]
    ensures Matching(sha, hashes, chunks[index := bytes])
    ensures chunks[index := bytes].Keys == chunks.Keys + {index} <= Range(|hashes|)
  {}

  /** Declaring keeps that, with any hashes, and so does receiving any bytes under any index. */
  lemma LegitKept(sha: Sha, row: Row, args: PublishArgs, index: nat, bytes: seq<Byte>, now: nat)
    requires Legit(sha, row)
    ensures Legit(sha, Publish(row, args).0)
    ensures Legit(sha, Receive(sha, row, index, bytes, now).0)
    ensures Legit(sha, Row(None, None, map[]))
  {
    assert Legit(sha, Row(None, None, map[]));
    hide Stage, Legit;
    LegitDeclared(sha, row, args);
    if row.meta.Some? && index < |row.meta.value.hashes| && sha(bytes) == row.meta.value.hashes[index] {
      if !Verdict(row) && !FailedRow(row) {
        LegitStaged(sha, row, index, bytes, now);
      }
    }
  }

  lemma LegitStaged(sha: Sha, row: Row, index: nat, bytes: seq<Byte>, now: nat)
    requires Legit(sha, row) && row.meta.Some? && !Verdict(row) && !FailedRow(row)
    requires index < |row.meta.value.hashes| && sha(bytes) == row.meta.value.hashes[index]
    ensures Legit(sha, Stage(sha, row, index, bytes, now).0)
  {
    hide Assemble, Range, Matching;
    MatchingGrows(sha, row.meta.value.hashes, row.chunks, index, bytes);
  }

  lemma LegitDeclared(sha: Sha, row: Row, args: PublishArgs)
    requires Legit(sha, row)
    ensures Legit(sha, Publish(row, args).0)
  {
    hide Range;
  }

  /** The declared chunks that are still to come. */
  function Open(row: Row): set<nat>
    requires row.meta.Some?
  {
    Range(|row.meta.value.hashes|) - Received(row)
  }

  /** The stored chunks with the plan's own in the open places. */
  function Filled(plan: Plan, row: Row): map<nat, seq<Byte>>
    requires row.meta.Some?
  {
    map i | i in row.chunks.Keys + (Open(row) * Range(|plan.chunks|)) ::
      if i in row.chunks then row.chunks[i] else plan.chunks[i]
  }

  /** The plan can complete the upload: it has a chunk for every open place, each is the declared one there, and
      with them the whole has the declared digest. */
  ghost predicate Completes(sha: Sha, plan: Plan, row: Row)
    requires row.meta.Some?
  {
    var hashes := row.meta.value.hashes;
    && Open(row) <= Range(|plan.chunks|)
    && (forall i :: i in Open(row) && i < |plan.chunks| && i < |hashes| ==> sha(plan.chunks[i]) == hashes[i])
    && var whole := Assemble(Filled(plan, row), |hashes|); whole.Some? && sha(whole.value) == row.meta.value.id.sha256
  }

  /** An upload of the plan's identity that is neither verified nor failed. */
  ghost predicate Unfinished(sha: Sha, plan: Plan, row: Row)
  {
    && Legit(sha, row) && row.meta.Some? && row.meta.value.id == plan.id
    && !Verdict(row) && !FailedRow(row)
  }

  /** The driver's list: ascending, in the plan, and everything not received. */
  ghost predicate Covers(plan: Plan, row: Row, pending: seq<nat>)
  {
    && (forall j :: 0 <= j < |pending| ==> pending[j] < |plan.chunks| && pending[j] !in Received(row))
    && (forall i, j :: 0 <= i < j < |pending| ==> pending[i] < pending[j])
    && (forall i: nat :: i < |plan.chunks| && i !in Received(row) ==> i in pending)
  }

  predicate EndsVerified(run: Run)
  {
    run.Finished? && run.result.Ok? && run.result.value.IsVerified?
  }

  lemma OpenIsNonEmpty(sha: Sha, plan: Plan, row: Row)
    requires Unfinished(sha, plan, row)
    ensures Open(row) != {}
  {
    hide Range;
    FullRange(Received(row), |row.meta.value.hashes|);
    var x :| x in Range(|row.meta.value.hashes|) && x !in Received(row);
    assert x in Open(row);
  }

  /** No open place is within the plan before the first pending one. */
  lemma FirstPending(sha: Sha, plan: Plan, row: Row, pending: seq<nat>)
    requires Unfinished(sha, plan, row) && Covers(plan, row, pending)
    ensures pending == [] || pending[0] >= |row.meta.value.hashes| ==> !Completes(sha, plan, row)
  {
    hide Range, Filled, Assemble;
    OpenIsNonEmpty(sha, plan, row);
    var x :| x in Open(row);
    assert x < |row.meta.value.hashes| && x !in Received(row);
    assert x < |plan.chunks| ==> x in pending;
    assert x < |plan.chunks| <==> x in Range(|plan.chunks|);
  }

  /** Storing one of the open chunks that is not the last leaves the question as it was. */
  lemma StoredOne(sha: Sha, plan: Plan, row: Row, pending: seq<nat>, now: nat)
    requires Unfinished(sha, plan, row) && Covers(plan, row, pending) && pending != []
    requires var m := |row.meta.value.hashes|;
             pending[0] < m && sha(plan.chunks[pending[0]]) == row.meta.value.hashes[pending[0]]
             && |Received(row) + {pending[0]}| < m
    ensures var (after, answer) := Receive(sha, row, pending[0], plan.chunks[pending[0]], now);
            && answer.Ok? && answer.value.state.Receiving? && Unfinished(sha, plan, after)
            && Covers(plan, after, pending[1..]) && (Completes(sha, plan, after) <==> Completes(sha, plan, row))
  {
    hide Range, Assemble, Completes, Filled;
    var i := pending[0];
    var (after, answer) := Receive(sha, row, i, plan.chunks[i], now);
    LegitKept(sha, row, plan.args, i, plan.chunks[i], now);
    assert Received(after) == Received(row) + {i};
    CoversRest(plan, row, after, pending);
    SameQuestion(sha, plan, row, after, i);
  }

  lemma CoversRest(plan: Plan, row: Row, after: Row, pending: seq<nat>)
    requires pending != [] && Covers(plan, row, pending) && Received(after) == Received(row) + {pending[0]}
    ensures Covers(plan, after, pending[1..])
  {
    forall i: nat | i < |plan.chunks| && i !in Received(after) ensures i in pending[1..] {
      assert i in pending;
    }
  }

  lemma SameQuestion(sha: Sha, plan: Plan, row: Row, after: Row, i: nat)
    requires row.meta.Some? && after.meta == row.meta && i in Open(row) && i < |plan.chunks|
    requires Received(after) == Received(row) + {i} && after.chunks == row.chunks[i := plan.chunks[i]]
    requires row.chunks.Keys == Received(row) && sha(plan.chunks[i]) == row.meta.value.hashes[i]
    ensures Completes(sha, plan, after) <==> Completes(sha, plan, row)
  {
    hide Range, Assemble;
    assert Open(row) == Open(after) + {i};
    assert Filled(plan, after) == Filled(plan, row);
  }

  lemma OneOpen(received: set<nat>, m: nat, i: nat)
    requires received <= Range(m) && i < m && i !in received && |received + {i}| >= m
    ensures Range(m) - received == {i}
  {
    hide Range;
    FullRange(received + {i}, m);
  }

  lemma UnfinishedBasics(sha: Sha, plan: Plan, row: Row)
    requires Unfinished(sha, plan, row)
    ensures row.meta.Some? && row.chunks.Keys == Received(row) <= Range(|row.meta.value.hashes|)
  {}

  lemma LastFilled(sha: Sha, plan: Plan, row: Row, i: nat)
    requires Unfinished(sha, plan, row) && i < |plan.chunks| && i in Open(row)
    requires sha(plan.chunks[i]) == row.meta.value.hashes[i] && |Received(row) + {i}| >= |row.meta.value.hashes|
    ensures var whole := Assemble(row.chunks[i := plan.chunks[i]], |row.meta.value.hashes|);
            Completes(sha, plan, row) <==> whole.Some? && sha(whole.value) == row.meta.value.id.sha256
  {
    hide Range, Assemble, Unfinished, Filled, Received;
    UnfinishedBasics(sha, plan, row);
    OneOpen(Received(row), |row.meta.value.hashes|, i);
    FilledOne(plan, row, i);
    assert i in Range(|plan.chunks|);
  }

  lemma FilledOne(plan: Plan, row: Row, i: nat)
    requires row.meta.Some? && Open(row) == {i} && i < |plan.chunks| && i !in row.chunks
    ensures Filled(plan, row) == row.chunks[i := plan.chunks[i]]
  {
    hide Range, Open;
    assert i in Range(|plan.chunks|);
    assert Open(row) * Range(|plan.chunks|) == {i};
  }

  /** With the last open chunk the digest decides. */
  lemma StoredLast(sha: Sha, plan: Plan, row: Row, i: nat, now: nat)
    requires Unfinished(sha, plan, row) && i < |plan.chunks| && i in Open(row)
    requires sha(plan.chunks[i]) == row.meta.value.hashes[i] && |Received(row) + {i}| >= |row.meta.value.hashes|
    ensures var answer := Receive(sha, row, i, plan.chunks[i], now).1;
            if Completes(sha, plan, row) then answer.Ok? && answer.value.state == Verified(now)
            else answer == Err(FullHashMismatch)
  {
    hide Range, Assemble, Completes, Filled, Matching;
    LastFilled(sha, plan, row, i);
  }

  /** Sending everything pending ends verified exactly when the plan completes the upload. */
  lemma {:induction false} SendingDecides(sha: Sha, plan: Plan, row: Row, pending: seq<nat>, budget: nat, now: nat)
    requires Unfinished(sha, plan, row) && Covers(plan, row, pending) && budget >= |pending|
    ensures EndsVerified(SendUpTo(sha, plan, row, pending, budget, now).1) <==> Completes(sha, plan, row)
    decreases |pending|
  {
    hide Receive, Completes, Open, Unfinished, Legit, Range;
    FirstPending(sha, plan, row, pending);
    if pending != [] {
      var i := pending[0];
      UnfinishedAnswers(sha, plan, row, i, now);
      if i < |row.meta.value.hashes| && sha(plan.chunks[i]) == row.meta.value.hashes[i] {
        if |Received(row) + {i}| < |row.meta.value.hashes| {
          StoredOne(sha, plan, row, pending, now);
          SendingDecides(sha, plan, Receive(sha, row, i, plan.chunks[i], now).0, pending[1..], budget - 1, now + 1);
        } else {
          StoredLast(sha, plan, row, i, now);
        }
      }
    }
  }

  /** A chunk outside the declaration, or another than the declared one, is turned down. */
  lemma UnfinishedAnswers(sha: Sha, plan: Plan, row: Row, i: nat, now: nat)
    requires Unfinished(sha, plan, row) && i < |plan.chunks|
    ensures row.meta.Some?
    ensures var hashes, (after, answer) := row.meta.value.hashes, Receive(sha, row, i, plan.chunks[i], now);
            && (i >= |hashes| ==> after == row && answer == Err(ChunkOutOfRange(i)))
            && (i < |hashes| && sha(plan.chunks[i]) != hashes[i] ==>
                  after == row && answer == Err(ChunkHashMismatch(i)) &&
                    (i in Open(row) ==> !Completes(sha, plan, row)))
            && (i < |hashes| && i !in Received(row) ==> i in Open(row))
  {
    hide Stage, Range, Filled, Assemble;
  }

  lemma MissingCovers(plan: Plan, row: Row)
    ensures Covers(plan, row, Missing(|plan.chunks|, Received(row)))
  {
    hide Missing;
  }

  /** Whatever has been declared and sent under the plan's identity, by whomever, an unstopped run ends verified
      exactly when: nothing was declared yet; or the artifact is verified and its first chunk has the declared
      hash; or the upload is open and the plan completes it. After a failed upload it never does. */
  lemma DeclarationDecides(sha: Sha, plan: Plan, bytes: seq<Byte>, row: Row, stop: nat, now: nat)
    requires Sealed(sha, plan, bytes) && Legit(sha, row) && (row.meta.Some? ==> row.meta.value.id == plan.id)
    requires stop >= |plan.chunks| + 2
    ensures EndsVerified(IngestUpTo(sha, plan, row, stop, now).1) <==>
              !FailedRow(row) &&
              (row.meta.Some? ==>
                 if Verdict(row) then row.meta.value.hashes[0] == plan.args.hashes[0] else Completes(sha, plan, row))
  {
    hide Missing, SendUpTo, Completes, Range, Join, Hashes, Sealed, Legit;
    SealedBasics(sha, plan, bytes);
    var declared := Publish(row, plan.args).0;
    MissingCovers(plan, row);
    MissingCovers(plan, declared);
    PublishIs(sha, plan, bytes, row);
    LegitDeclared(sha, row, plan.args);
    if FailedRow(row) {
    } else if row.meta.Some? && Verdict(row) {
      VerifiedAnswers(sha, plan, bytes, row, stop - 2, now);
    } else {
      LegitUpload(sha, row);
      if row.upload.Some? {
        SendingDecides(sha, plan, row, Missing(|plan.chunks|, Received(row)), stop - 1, now);
      } else {
        SendingDecides(sha, plan, declared, Missing(|plan.chunks|, {}), stop - 2, now);
        if row.meta.None? {
          OwnDeclarationCompletes(sha, plan, bytes, declared);
        }
      }
    }
  }

  lemma LegitUpload(sha: Sha, row: Row)
    requires Legit(sha, row) && !FailedRow(row)
    ensures row.meta.None? ==> row.upload.None? && row.chunks == map[]
    ensures row.meta.Some? && !Verdict(row) && row.upload.Some? ==> row.upload.value.state.Receiving?
  {}

  lemma PublishIs(sha: Sha, plan: Plan, bytes: seq<Byte>, row: Row)
    requires Sealed(sha, plan, bytes) && (row.meta.Some? ==> row.meta.value.id == plan.id)
    ensures var (after, answer) := Publish(row, plan.args);
            && Confirms(plan, answer) && after.meta.Some? && after.meta.value.id == plan.id
            && after == row.(meta := after.meta)
            && (if row.meta.Some? then after == row else after.meta == Some(Metadata(plan.id, plan.args.hashes, false)))
  {
    hide Join, Hashes;
  }

  lemma VerifiedAnswers(sha: Sha, plan: Plan, bytes: seq<Byte>, row: Row, budget: nat, now: nat)
    requires Sealed(sha, plan, bytes) && Legit(sha, row) && row.meta.Some? && row.meta.value.id == plan.id
    requires Verdict(row) && budget >= |plan.chunks|
    ensures row.upload.None?
    ensures EndsVerified(SendUpTo(sha, plan, row, Missing(|plan.chunks|, {}), budget, now).1) <==>
              row.meta.value.hashes[0] == plan.args.hashes[0]
  {
    hide Missing, Stage, Join, CheckBounds, Range;
    var pending := Missing(|plan.chunks|, {});
    assert 0 in pending;
    assert pending[0] == 0;
  }

  /** A declaration with the plan's own hashes, and nothing sent, is completed by the plan. */
  lemma OwnDeclarationCompletes(sha: Sha, plan: Plan, bytes: seq<Byte>, row: Row)
    requires Sealed(sha, plan, bytes) && row == Row(Some(Metadata(plan.id, plan.args.hashes, false)), None, map[])
    ensures Completes(sha, plan, row)
  {
    hide Join, CheckBounds, Range, Assemble;
    var n := |plan.chunks|;
    assert Open(row) == Range(n);
    assert Excerpt(plan, Filled(plan, row));
    AssembleAll(plan, Filled(plan, row), n);
    assert plan.chunks[..n] == plan.chunks;
  }

  lemma UntouchedIsPrefix(sha: Sha, plan: Plan, hashes: seq<Digest>, row: Row)
    requires row == Row(Some(Metadata(plan.id, hashes, false)), None, map[]) && Completes(sha, plan, row)
    ensures |hashes| <= |plan.chunks| && forall i :: 0 <= i < |hashes| ==> hashes[i] == sha(plan.chunks[i])
    ensures sha(Join(plan.chunks[..|hashes|])) == plan.id.sha256
  {
    hide Join, Range, Assemble;
    var m, n := |hashes|, |plan.chunks|;
    assert Open(row) == Range(m);
    SubsetSize(Range(m), Range(n));
    assert Excerpt(plan, Filled(plan, row));
    AssembleAll(plan, Filled(plan, row), m);
    assert forall i: nat :: i < m ==> i in Open(row);
  }

  /** While no chunk has arrived, a declaration can be completed exactly when it carries the plan's own chunk
      hashes: the identity alone does not fix them. */
  lemma DeclaredHashesDecide(sha: Sha, plan: Plan, bytes: seq<Byte>, hashes: seq<Digest>)
    requires Injective(sha) && Planned(sha, plan, bytes)
    ensures Completes(sha, plan, Row(Some(Metadata(plan.id, hashes, false)), None, map[])) <==>
              hashes == plan.args.hashes
  {
    hide Join, CheckBounds, Completes, Planned;
    PlannedIsSealed(sha, plan, bytes);
    var row := Row(Some(Metadata(plan.id, hashes, false)), None, map[]);
    if hashes == plan.args.hashes {
      OwnDeclarationCompletes(sha, plan, bytes, row);
    }
    if Completes(sha, plan, row) {
      UntouchedIsPrefix(sha, plan, hashes, row);
      JoinShorter(plan.chunks, |hashes|);
    }
  }

  lemma {:induction false} AssembleAgrees(a: map<nat, seq<Byte>>, b: map<nat, seq<Byte>>, n: nat)
    requires forall i: nat :: i < n ==> i in a && i in b && a[i] == b[i]
    ensures Assemble(a, n) == Assemble(b, n)
  {
    if n > 0 {
      AssembleAgrees(a, b, n - 1);
    }
  }

  /** The plan's identity, declared with an empty last chunk added, which has already arrived. */
  function TailRow(sha: Sha, plan: Plan): Row
  {
    Row(Some(Metadata(plan.id, plan.args.hashes + [sha([])], false)), Some(Upload({|plan.chunks|}, Receiving)),
        map[|plan.chunks| := []])
  }

  lemma TailOpen(sha: Sha, plan: Plan, bytes: seq<Byte>)
    requires Sealed(sha, plan, bytes)
    ensures Open(TailRow(sha, plan)) == Range(|plan.chunks|) && Legit(sha, TailRow(sha, plan))
  {
    hide Join, CheckBounds;
    RangeStep(|plan.chunks|);
  }

  lemma RangeStep(n: nat)
    ensures Range(n + 1) == Range(n) + {n} && n !in Range(n)
  {}

  lemma TailWhole(sha: Sha, plan: Plan)
    requires Open(TailRow(sha, plan)) == Range(|plan.chunks|)
    ensures Assemble(Filled(plan, TailRow(sha, plan)), |plan.chunks| + 1) == Some(Join(plan.chunks))
  {
    hide Range, Join, Open;
    var n, filled := |plan.chunks|, Filled(plan, TailRow(sha, plan));
    var own := map i: nat | i in Range(n) :: plan.chunks[i];
    AssembleAll(plan, own, n);
    AssembleAgrees(filled, own, n);
    assert plan.chunks[..n] == plan.chunks;
    assert filled[n] == [];
    assert Join(plan.chunks) + [] == Join(plan.chunks);
  }

  /** Once other chunks are in, other hashes can do: that upload is completed by the plan. */
  lemma EmptyTailCompletes(sha: Sha, plan: Plan, bytes: seq<Byte>)
    requires Sealed(sha, plan, bytes)
    ensures var row := TailRow(sha, plan);
            Legit(sha, row) && row.meta.value.hashes != plan.args.hashes && Completes(sha, plan, row)
  {
    hide Range, Join, CheckBounds, Open, Filled, Assemble, Legit;
    TailOpen(sha, plan, bytes);
    TailWhole(sha, plan);
    assert |TailRow(sha, plan).meta.value.hashes| == |plan.chunks| + 1;
  }

  /** Anyone may declare the plan's identity with another hash for the first chunk; from then on every run of the
      plan is turned down and leaves the row as it is. */
  lemma OtherHashesBlock(sha: Sha, plan: Plan, bytes: seq<Byte>, hashes: seq<Digest>, stop: nat, now: nat)
    requires Sealed(sha, plan, bytes) && 0 < |hashes| <= MAX_ARTIFACT_CHUNKS && hashes[0] != plan.args.hashes[0] &&
             stop >= 3
    ensures var (row, answer) := Publish(Row(None, None, map[]), PublishArgs(plan.id, hashes, plan.args.length));
            && answer.Ok?
            && IngestUpTo(sha, plan, row, stop, now) == (row, Finished(Err(Rejected(ChunkHashMismatch(0)))))
  {
    hide Missing, Stage, Join, Range;
    assert 0 in Missing(|plan.chunks|, {});
    assert Missing(|plan.chunks|, {})[0] == 0;
  }

  lemma {:induction false} JoinShorter(chunks: seq<seq<Byte>>, n: nat)
    requires n <= |chunks| && (forall i :: 0 <= i < |chunks| ==> chunks[i] != [])
    ensures Join(chunks[..n]) == Join(chunks) ==> n == |chunks|
  {
    JoinLength(chunks, n);
  }

  lemma {:induction false} JoinLength(chunks: seq<seq<Byte>>, n: nat)
    requires n <= |chunks| && (forall i :: 0 <= i < |chunks| ==> chunks[i] != [])
    ensures |Join(chunks[..n])| + (|chunks| - n) <= |Join(chunks)|
    decreases |chunks| - n
  {
    if n < |chunks| {
      JoinLength(chunks, n + 1);
      assert chunks[..n + 1] == chunks[..n] + [chunks[n]];
      JoinAppend(chunks[..n], chunks[n]);
    } else {
      assert chunks[..n] == chunks;
    }
  }
}
