/** The Router's side of an insert load. A chunk is admitted under its index and fingerprint; the graph
    commits a prefix of it once and for all; the Router records the receipt, which makes it public, and
    only later completes the chunk and moves to the next index. A call may die between any two steps. */
module InsertRouter {
  import opened Outcomes
  import opened Bytes
  import opened BulkWire

  datatype Receipt = Receipt(vertices: nat, edges: nat, ids: seq<Bytes>)

  datatype Child = Child(chunk: Chunk, receipt: Receipt)

  /** An admitted chunk; the receipt is there once the graph has committed its prefix. */
  datatype Pending = Pending(chunk: Chunk, receipt: Option<Receipt>, published: bool)

  datatype Stored = Stored(vertex: Vertex, id: Bytes)

  datatype Phase = Open | FinalizePending | Completed | Failed

  datatype Job = Job(phase: Phase, completed: seq<Child>, pending: Option<Pending>,
                     vertices: seq<Stored>, edges: seq<Edge>)

  datatype RouterError = Conflict | Busy | Invalid | Unreachable

  /** How far one call carries its chunk. */
  datatype Reach = Admitted | InGraph | Recorded | Through

  datatype Work = TurnDown | Go(prefix: nat, reach: Reach)

  /** The id of the graph's `k`-th vertex of this job. */
  type Allocate = nat -> Bytes

  function Ids(allocate: Allocate, from: nat, n: nat): (ids: seq<Bytes>)
    ensures |ids| == n
    ensures forall i :: 0 <= i < n ==> ids[i] == allocate(from + i)
  {
    seq(n, i requires 0 <= i < n => allocate(from + i))
  }

  function Store(vertices: seq<Vertex>, ids: seq<Bytes>): (stored: seq<Stored>)
    requires |vertices| == |ids|
    ensures |stored| == |ids|
    ensures forall i :: 0 <= i < |ids| ==> stored[i] == Stored(vertices[i], ids[i])
  {
    seq(|ids|, i requires 0 <= i < |ids| => Stored(vertices[i], ids[i]))
  }

  /** The graph commits the first `n` items. */
  function CommitPrefix(allocate: Allocate, job: Job, chunk: Chunk, n: nat): (Job, Receipt)
    requires n <= Count(chunk) && !chunk.Updates?
  {
    if chunk.Vertices? then
      var ids := Ids(allocate, |job.vertices|, n);
      (job.(vertices := job.vertices + Store(chunk.vertices[..n], ids)), Receipt(n, 0, ids))
    else
      (job.(edges := job.edges + chunk.edges[..n]), Receipt(0, n, []))
  }

  function Drive(allocate: Allocate, job: Job, p: Pending, work: Work): (Job, Result<Receipt, RouterError>)
    requires !p.chunk.Updates?
  {
    if work.TurnDown? || work.reach.Admitted? then (job.(pending := Some(p)), Err(Busy))
    else
      var n := if work.prefix < Count(p.chunk) then work.prefix else Count(p.chunk);
      var (after, receipt) :=
        if p.receipt.Some? then (job, p.receipt.value) else CommitPrefix(allocate, job, p.chunk, n);
      match work.reach
      case Through => (after.(pending := None, completed := job.completed + [Child(p.chunk, receipt)]), Ok(receipt))
      case Recorded => (after.(pending := Some(Pending(p.chunk, Some(receipt), true))), Err(Busy))
      case _ => (after.(pending := Some(Pending(p.chunk, Some(receipt), p.published))), Err(Busy))
  }

  /** An index may be used again only for a chunk with the same fingerprint, that is, the same up to order. */
  function Append(allocate: Allocate, job: Job, index: nat, chunk: Chunk, work: Work)
    : (Job, Result<Receipt, RouterError>)
    requires job.pending.Some? ==> !job.pending.value.chunk.Updates?
  {
    if Count(chunk) == 0 || chunk.Updates? then (job, Err(Invalid))
    else if index < |job.completed| then
      if SameUpToOrder(job.completed[index].chunk, chunk) then (job, Ok(job.completed[index].receipt))
      else (job, Err(Conflict))
    else if job.phase != Open || index > |job.completed| then (job, Err(Conflict))
    else if job.pending.Some? then
      if SameUpToOrder(job.pending.value.chunk, chunk) then Drive(allocate, job, job.pending.value, work)
      else (job, Err(Conflict))
    else if work.TurnDown? then (job, Err(Invalid))
    else Drive(allocate, job, Pending(chunk, None, false), work)
  }

  function Finalize(job: Job): (Job, Result<(), RouterError>)
  {
    if job.phase.Failed? then (job, Err(Conflict))
    else if job.pending.Some? then (job, Err(Busy))
    else if job.phase.Open? then (job.(phase := FinalizePending), Ok(()))
    else (job, Ok(()))
  }

  // ---------- what is public ----------

  function IdsOf(children: seq<Child>): seq<Bytes>
  {
    if children == [] then [] else IdsOf(children[..|children| - 1]) + children[|children| - 1].receipt.ids
  }

  function EdgesOf(children: seq<Child>): nat
  {
    if children == [] then 0 else EdgesOf(children[..|children| - 1]) + children[|children| - 1].receipt.edges
  }

  lemma ChildAppended(children: seq<Child>, last: Child)
    ensures IdsOf(children + [last]) == IdsOf(children) + last.receipt.ids
    ensures EdgesOf(children + [last]) == EdgesOf(children) + last.receipt.edges
  {
    assert (children + [last])[..|children + [last]| - 1] == children;
  }

  function DoneV(job: Job): nat
  {
    |IdsOf(job.completed)|
  }

  function DoneE(job: Job): nat
  {
    EdgesOf(job.completed)
  }

  function HeldBack(job: Job): Receipt
  {
    if job.pending.Some? && job.pending.value.receipt.Some? then job.pending.value.receipt.value else Receipt(0, 0, [])
  }

  /** Rows of a chunk that is not finished yet are already public. */
  predicate Exposed(job: Job)
  {
    && job.pending.Some? && job.pending.value.receipt.Some? && job.pending.value.published
    && (HeldBack(job).ids != [] || HeldBack(job).edges > 0)
  }

  /** The vertices and edges the status reports as committed. */
  function PublicV(job: Job): nat
  {
    DoneV(job) + if Exposed(job) then |HeldBack(job).ids| else 0
  }

  function PublicE(job: Job): nat
  {
    DoneE(job) + if Exposed(job) then HeldBack(job).edges else 0
  }

  // ---------- what every reachable job looks like ----------

  /** The artifact as items: vertices, and edges with their endpoints resolved. */
  datatype Plan = Plan(vertices: seq<Vertex>, edges: seq<Edge>)

  predicate Inserted(allocate: Allocate, plan: Plan, job: Job)
  {
    && |job.vertices| <= |plan.vertices|
    && job.vertices == Store(plan.vertices[..|job.vertices|], Ids(allocate, 0, |job.vertices|))
    && job.edges <= plan.edges
    && (job.edges != [] ==> |job.vertices| == |plan.vertices|)
  }

  /** The slice of the plan a pending chunk stands for. */
  predicate IsSlice(plan: Plan, chunk: Chunk, v: nat, e: nat)
  {
    match chunk
    case Vertices(items) =>
      items != [] && v + |items| <= |plan.vertices| && items == plan.vertices[v..v + |items|] && e == 0
    case Edges(items) =>
      items != [] && v == |plan.vertices| && e + |items| <= |plan.edges| && items == plan.edges[e..e + |items|]
    case Updates(_) => false
  }

  predicate ReceiptFits(allocate: Allocate, chunk: Chunk, receipt: Receipt, v: nat)
  {
    && receipt.vertices == |receipt.ids|
    && receipt.ids == Ids(allocate, v, |receipt.ids|)
    && (if chunk.Vertices? then receipt.edges == 0 && receipt.vertices <= Count(chunk)
        else receipt.vertices == 0 && receipt.edges <= Count(chunk))
  }

  predicate PendingFits(allocate: Allocate, plan: Plan, job: Job)
  {
    job.pending.Some? ==>
      && job.phase.Open?
      && IsSlice(plan, job.pending.value.chunk, DoneV(job), DoneE(job))
      && (job.pending.value.published ==> job.pending.value.receipt.Some?)
      && (job.pending.value.receipt.Some? ==>
           ReceiptFits(allocate, job.pending.value.chunk, job.pending.value.receipt.value, DoneV(job)))
  }

  /** Every completed receipt counts its own ids. */
  predicate Counted(children: seq<Child>)
  {
    forall i :: 0 <= i < |children| ==> children[i].receipt.vertices == |children[i].receipt.ids|
  }

  predicate Faithfully(allocate: Allocate, plan: Plan, job: Job)
  {
    && Inserted(allocate, plan, job)
    && Counted(job.completed)
    && IdsOf(job.completed) == Ids(allocate, 0, DoneV(job))
    && |job.vertices| == DoneV(job) + |HeldBack(job).ids|
    && |job.edges| == DoneE(job) + HeldBack(job).edges
    && PendingFits(allocate, plan, job)
    && (job.phase.FinalizePending? || job.phase.Completed? ==>
         DoneV(job) == |plan.vertices| && DoneE(job) == |plan.edges|)
  }

  lemma CommitKeeps(allocate: Allocate, plan: Plan, job: Job, chunk: Chunk, n: nat)
    requires Inserted(allocate, plan, job) && n <= Count(chunk) && IsSlice(plan, chunk, |job.vertices|, |job.edges|)
    ensures var (after, receipt) := CommitPrefix(allocate, job, chunk, n);
            && Inserted(allocate, plan, after) && ReceiptFits(allocate, chunk, receipt, |job.vertices|)
            && |after.vertices| == |job.vertices| + |receipt.ids| && |after.edges| == |job.edges| + receipt.edges
            && job.vertices <= after.vertices && job.edges <= after.edges
            && receipt.vertices + receipt.edges == n
            && after == job.(vertices := after.vertices, edges := after.edges)
  {
    var (after, receipt) := CommitPrefix(allocate, job, chunk, n);
    var k := |job.vertices|;
    if chunk.Vertices? {
      var whole := Store(plan.vertices[..k + n], Ids(allocate, 0, k + n));
      forall i | 0 <= i < k + n ensures after.vertices[i] == whole[i] {}
      assert after.vertices == whole;
    } else {
      assert plan.edges[..|after.edges|] == after.edges;
    }
  }

  lemma CompletedGrows(allocate: Allocate, job: Job, child: Child)
    requires IdsOf(job.completed) == Ids(allocate, 0, DoneV(job))
    requires child.receipt.ids == Ids(allocate, DoneV(job), |child.receipt.ids|)
    ensures var after := job.(completed := job.completed + [child], pending := None);
            && IdsOf(after.completed) == Ids(allocate, 0, DoneV(after))
            && DoneV(after) == DoneV(job) + |child.receipt.ids| && DoneE(after) == DoneE(job) + child.receipt.edges
  {
    ChildAppended(job.completed, child);
  }

  /** What the graph holds after the pending chunk's prefix is committed, now or before. */
  lemma PrefixCommitted(allocate: Allocate, plan: Plan, job: Job, p: Pending, n: nat)
    requires Faithfully(allocate, plan, job.(pending := Some(p))) && n <= Count(p.chunk) && !p.chunk.Updates?
    ensures var (mid, receipt) :=
              if p.receipt.Some? then (job, p.receipt.value) else CommitPrefix(allocate, job, p.chunk, n);
            && Inserted(allocate, plan, mid) && job.vertices <= mid.vertices && job.edges <= mid.edges
            && mid == job.(vertices := mid.vertices, edges := mid.edges)
            && ReceiptFits(allocate, p.chunk, receipt, DoneV(job))
            && |mid.vertices| == DoneV(job) + |receipt.ids| && |mid.edges| == DoneE(job) + receipt.edges
  {
    hide Inserted, IsSlice, IdsOf, EdgesOf, ReceiptFits, CommitPrefix;
    InsertedIgnores(allocate, plan, job, Some(p));
    if p.receipt.None? {
      CommitKeeps(allocate, plan, job, p.chunk, n);
    }
  }

  lemma ThroughKeeps(allocate: Allocate, plan: Plan, job: Job, mid: Job, p: Pending, receipt: Receipt)
    requires Faithfully(allocate, plan, job.(pending := Some(p)))
    requires Inserted(allocate, plan, mid) && mid == job.(vertices := mid.vertices, edges := mid.edges)
    requires ReceiptFits(allocate, p.chunk, receipt, DoneV(job))
    requires |mid.vertices| == DoneV(job) + |receipt.ids| && |mid.edges| == DoneE(job) + receipt.edges
    ensures var after := mid.(pending := None, completed := job.completed + [Child(p.chunk, receipt)]);
            && Faithfully(allocate, plan, after)
            && DoneV(after) == DoneV(job) + |receipt.ids| && DoneE(after) == DoneE(job) + receipt.edges
  {
    hide Inserted, IsSlice, IdsOf, EdgesOf, ReceiptFits;
    var after := mid.(pending := None, completed := job.completed + [Child(p.chunk, receipt)]);
    InsertedSame(allocate, plan, mid, after);
    FitsIds(allocate, p.chunk, receipt, DoneV(job));
    CompletedGrows(allocate, job, Child(p.chunk, receipt));
  }

  lemma StopKeeps(allocate: Allocate, plan: Plan, job: Job, mid: Job, p: Pending, receipt: Receipt, published: bool)
    requires Faithfully(allocate, plan, job.(pending := Some(p)))
    requires Inserted(allocate, plan, mid) && mid == job.(vertices := mid.vertices, edges := mid.edges)
    requires ReceiptFits(allocate, p.chunk, receipt, DoneV(job))
    requires |mid.vertices| == DoneV(job) + |receipt.ids| && |mid.edges| == DoneE(job) + receipt.edges
    ensures Faithfully(allocate, plan, mid.(pending := Some(Pending(p.chunk, Some(receipt), published))))
  {
    hide Inserted, IsSlice, IdsOf, EdgesOf, ReceiptFits;
    InsertedIgnores(allocate, plan, mid, Some(Pending(p.chunk, Some(receipt), published)));
  }

  /** Carrying a faithful job's pending chunk any distance keeps it faithful, and the receipt it ends with
      is about that chunk. */
  lemma DriveKeeps(allocate: Allocate, plan: Plan, job: Job, p: Pending, work: Work)
    requires Faithfully(allocate, plan, job.(pending := Some(p)))
    ensures !p.chunk.Updates?
    ensures var (after, r) := Drive(allocate, job, p, work);
            && Faithfully(allocate, plan, after)
            && job.vertices <= after.vertices && job.edges <= after.edges && after.phase == job.phase
            && (r.Ok? ==>
                  && after.pending.None? && after.completed == job.completed + [Child(p.chunk, r.value)]
                  && ReceiptFits(allocate, p.chunk, r.value, DoneV(job))
                  && (p.receipt.Some? ==>
                       r.value == p.receipt.value && after.vertices == job.vertices && after.edges == job.edges)
                  && DoneV(after) == DoneV(job) + |r.value.ids| && DoneE(after) == DoneE(job) + r.value.edges)
            && (r.Err? ==>
                 after.completed == job.completed && after.pending.Some? && after.pending.value.chunk == p.chunk &&
                   r == Err(Busy))
  {
    hide Faithfully, DoneV, DoneE, ReceiptFits, CommitPrefix;
    PendingKind(allocate, plan, job.(pending := Some(p)));
    if work.Go? && !work.reach.Admitted? {
      var n := if work.prefix < Count(p.chunk) then work.prefix else Count(p.chunk);
      PrefixCommitted(allocate, plan, job, p, n);
      var (mid, receipt) := if p.receipt.Some? then (job, p.receipt.value) else CommitPrefix(allocate, job, p.chunk, n);
      if work.reach.Through? {
        ThroughKeeps(allocate, plan, job, mid, p, receipt);
      } else {
        StopKeeps(allocate, plan, job, mid, p, receipt, work.reach.Recorded? || p.published);
      }
    }
  }

  lemma PendingKind(allocate: Allocate, plan: Plan, job: Job)
    requires Faithfully(allocate, plan, job) && job.pending.Some?
    ensures !job.pending.value.chunk.Updates?
  {}

  lemma SliceKind(plan: Plan, chunk: Chunk, v: nat, e: nat)
    requires IsSlice(plan, chunk, v, e)
    ensures !chunk.Updates? && Count(chunk) > 0
  {}

  lemma FitsIds(allocate: Allocate, chunk: Chunk, receipt: Receipt, v: nat)
    requires ReceiptFits(allocate, chunk, receipt, v)
    ensures receipt.ids == Ids(allocate, v, |receipt.ids|) && receipt.vertices == |receipt.ids|
  {}

  lemma InsertedIgnores(allocate: Allocate, plan: Plan, job: Job, pending: Option<Pending>)
    ensures Inserted(allocate, plan, job.(pending := pending)) <==> Inserted(allocate, plan, job)
  {}

  lemma InsertedSame(allocate: Allocate, plan: Plan, a: Job, b: Job)
    requires a.vertices == b.vertices && a.edges == b.edges
    ensures Inserted(allocate, plan, a) <==> Inserted(allocate, plan, b)
  {}

  // ---------- sending the next slice ----------

  /** What a client sends: the rows right after the public ones. */
  predicate NextChunk(plan: Plan, job: Job, chunk: Chunk)
  {
    IsSlice(plan, chunk, PublicV(job), PublicE(job))
  }

  /** A public but unfinished chunk sits under the index, and the next rows look just like it. */
  predicate Aliased(job: Job, chunk: Chunk)
  {
    Exposed(job) && SameUpToOrder(job.pending.value.chunk, chunk)
  }

  lemma SlicesAgree(plan: Plan, a: Chunk, b: Chunk, v: nat, e: nat)
    requires IsSlice(plan, a, v, e) && IsSlice(plan, b, v, e) && SameUpToOrder(a, b)
    ensures a == b
  {}

  /** Unless it is aliased, sending the next slice keeps the job faithful whatever the Router does; an
      answer is a receipt for exactly those rows, with the ids they were given. */
  lemma AppendKeeps(allocate: Allocate, plan: Plan, job: Job, chunk: Chunk, work: Work)
    requires Faithfully(allocate, plan, job) && NextChunk(plan, job, chunk) && !Aliased(job, chunk)
    ensures job.pending.Some? ==> !job.pending.value.chunk.Updates?
    ensures var (after, r) := Append(allocate, job, |job.completed|, chunk, work);
            && Faithfully(allocate, plan, after)
            && job.vertices <= after.vertices && job.edges <= after.edges && after.phase == job.phase
            && (r.Ok? ==>
                  && ReceiptFits(allocate, chunk, r.value, PublicV(job)) && after.pending.None?
                  && after.completed == job.completed + [Child(chunk, r.value)]
                  && PublicV(after) == PublicV(job) + |r.value.ids| && PublicE(after) == PublicE(job) + r.value.edges)
            && (r == Err(Conflict) ==> after == job)
  {
    hide Inserted, IdsOf, EdgesOf, ReceiptFits, Drive, SameUpToOrder, IsSlice;
    SliceKind(plan, chunk, PublicV(job), PublicE(job));
    if job.pending.Some? {
      var p := job.pending.value;
      SliceKind(plan, p.chunk, DoneV(job), DoneE(job));
      if job.phase.Open? && SameUpToOrder(p.chunk, chunk) {
        SlicesAgree(plan, p.chunk, chunk, DoneV(job), DoneE(job));
        assert job.(pending := Some(p)) == job;
        DriveKeeps(allocate, plan, job, p, work);
      }
    } else if job.phase.Open? && work.Go? {
      AdmittedIsFaithful(allocate, plan, job, chunk);
      DriveKeeps(allocate, plan, job, Pending(chunk, None, false), work);
    }
  }

  lemma AdmittedIsFaithful(allocate: Allocate, plan: Plan, job: Job, chunk: Chunk)
    requires Faithfully(allocate, plan, job) && job.pending.None? && job.phase.Open? && NextChunk(plan, job, chunk)
    ensures Faithfully(allocate, plan, job.(pending := Some(Pending(chunk, None, false))))
  {
    hide Inserted, IdsOf, EdgesOf, IsSlice;
    InsertedIgnores(allocate, plan, job, Some(Pending(chunk, None, false)));
  }

  /** The rows a receipt claims are in the graph, under the ids it lists. */
  predicate Claims(job: Job, after: Job, receipt: Receipt)
  {
    && PublicV(job) + |receipt.ids| <= |after.vertices| && PublicE(job) + receipt.edges <= |after.edges|
    && forall i :: 0 <= i < |receipt.ids| ==> receipt.ids[i] == after.vertices[PublicV(job) + i].id
  }

  ghost predicate ClaimsHold(allocate: Allocate, job: Job, chunk: Chunk, work: Work)
    requires job.pending.Some? ==> !job.pending.value.chunk.Updates?
  {
    var (after, r) := Append(allocate, job, |job.completed|, chunk, work);
    r.Ok? ==> Claims(job, after, r.value)
  }

  lemma FaithfulIds(allocate: Allocate, plan: Plan, job: Job, from: nat, n: nat)
    requires Faithfully(allocate, plan, job) && from + n <= |job.vertices|
    ensures forall i :: 0 <= i < n ==> Ids(allocate, from, n)[i] == job.vertices[from + i].id
  {
    hide IdsOf, EdgesOf, PendingFits;
  }

  /** For a faithful job and the next slice, every possible answer tells the truth exactly when the slice
      is not aliased. */
  lemma AnswersAreTrueIff(allocate: Allocate, plan: Plan, job: Job, chunk: Chunk)
    requires Faithfully(allocate, plan, job) && NextChunk(plan, job, chunk) && job.phase.Open?
    ensures job.pending.Some? ==> !job.pending.value.chunk.Updates?
    ensures (forall work :: ClaimsHold(allocate, job, chunk, work)) <==> !Aliased(job, chunk)
  {
    hide Inserted, IdsOf, EdgesOf, ReceiptFits, SameUpToOrder, IsSlice, Append;
    if job.pending.Some? {
      SliceKind(plan, job.pending.value.chunk, DoneV(job), DoneE(job));
    }
    if !Aliased(job, chunk) {
      forall work ensures ClaimsHold(allocate, job, chunk, work) {
        AppendKeeps(allocate, plan, job, chunk, work);
        var (after, r) := Append(allocate, job, |job.completed|, chunk, work);
        if r.Ok? {
          FitsIds(allocate, chunk, r.value, PublicV(job));
          FaithfulIds(allocate, plan, after, PublicV(job), |r.value.ids|);
        }
      }
    } else {
      AliasReplays(allocate, plan, job, chunk);
      assert !ClaimsHold(allocate, job, chunk, Go(0, Through));
    }
  }

  /** An aliased send completes the earlier chunk and answers with its receipt; nothing is inserted. */
  lemma AliasReplays(allocate: Allocate, plan: Plan, job: Job, chunk: Chunk)
    requires Faithfully(allocate, plan, job) && NextChunk(plan, job, chunk) && job.phase.Open? && Aliased(job, chunk)
    ensures !job.pending.value.chunk.Updates?
    ensures forall work ::
              var (after, r) := Append(allocate, job, |job.completed|, chunk, work);
              && after.vertices == job.vertices && after.edges == job.edges
              && (r.Ok? ==> r.value == HeldBack(job))
    ensures var (after, r) := Append(allocate, job, |job.completed|, chunk, Go(0, Through));
            r == Ok(HeldBack(job)) && Resting(after)
    ensures |job.vertices| == PublicV(job) && |job.edges| == PublicE(job)
  {
    hide Inserted, IdsOf, EdgesOf, ReceiptFits, SameUpToOrder, IsSlice;
    SliceKind(plan, chunk, PublicV(job), PublicE(job));
    SliceKind(plan, job.pending.value.chunk, DoneV(job), DoneE(job));
  }

  lemma FinalizeKeeps(allocate: Allocate, plan: Plan, job: Job)
    requires Faithfully(allocate, plan, job) && PublicV(job) == |plan.vertices| && PublicE(job) == |plan.edges|
    ensures var (after, r) := Finalize(job);
            && Faithfully(allocate, plan, after) && after.vertices == job.vertices && after.edges == job.edges
            && after.completed == job.completed && after.pending == job.pending
            && (r.Ok? ==> after.phase.FinalizePending? || after.phase.Completed?)
  {
    hide Inserted, IdsOf, EdgesOf, IsSlice, ReceiptFits;
    var (after, r) := Finalize(job);
    InsertedSame(allocate, plan, job, after);
  }

  // ---------- artifacts that cannot be aliased ----------

  /** A block of `c` rows followed at once by a block that looks the same. */
  predicate VertexSquare(items: seq<Vertex>, at: nat, c: nat)
  {
    0 < c && at + 2 * c <= |items| && SameUpToOrder(Vertices(items[at..at + c]), Vertices(items[at + c..at + 2 * c]))
  }

  predicate EdgeSquare(items: seq<Edge>, at: nat, c: nat)
  {
    0 < c && at + 2 * c <= |items| && SameUpToOrder(Edges(items[at..at + c]), Edges(items[at + c..at + 2 * c]))
  }

  ghost predicate SquareFree(plan: Plan)
  {
    && (forall at, c :: !VertexSquare(plan.vertices, at, c))
    && (forall at, c :: !EdgeSquare(plan.edges, at, c))
  }

  /** Without an immediately repeated block of rows, no next slice is ever aliased with committed rows. */
  lemma AliasNeedsSquare(allocate: Allocate, plan: Plan, job: Job, chunk: Chunk)
    requires Faithfully(allocate, plan, job) && NextChunk(plan, job, chunk) && Aliased(job, chunk)
    ensures !SquareFree(plan)
  {
    hide Inserted, IdsOf, EdgesOf, SameUpToOrder, DoneV, DoneE;
    var p, receipt := job.pending.value.chunk, HeldBack(job);
    PrefixesSame(p, chunk, if p.Vertices? then |receipt.ids| else receipt.edges);
    if p.Vertices? {
      AdjacentVertices(plan, p, chunk, DoneV(job), |receipt.ids|);
    } else {
      AdjacentEdges(plan, p, chunk, DoneV(job), DoneE(job), receipt.edges);
    }
  }

  lemma AdjacentVertices(plan: Plan, p: Chunk, chunk: Chunk, v: nat, c: nat)
    requires p.Vertices? && chunk.Vertices? && 0 < c <= Count(p) && c <= Count(chunk)
    requires IsSlice(plan, p, v, 0) && IsSlice(plan, chunk, v + c, 0)
    requires SameUpToOrder(Vertices(p.vertices[..c]), Vertices(chunk.vertices[..c]))
    ensures VertexSquare(plan.vertices, v, c)
  {
    hide SameUpToOrder;
    assert p.vertices[..c] == plan.vertices[v..v + c] && chunk.vertices[..c] == plan.vertices[v + c..v + 2 * c];
  }

  lemma AdjacentEdges(plan: Plan, p: Chunk, chunk: Chunk, v: nat, e: nat, c: nat)
    requires p.Edges? && chunk.Edges? && 0 < c <= Count(p) && c <= Count(chunk)
    requires IsSlice(plan, p, v, e) && IsSlice(plan, chunk, v, e + c)
    requires SameUpToOrder(Edges(p.edges[..c]), Edges(chunk.edges[..c]))
    ensures EdgeSquare(plan.edges, e, c)
  {
    hide SameUpToOrder;
    assert p.edges[..c] == plan.edges[e..e + c] && chunk.edges[..c] == plan.edges[e + c..e + 2 * c];
  }

  lemma PrefixesSame(a: Chunk, b: Chunk, c: nat)
    requires SameUpToOrder(a, b) && c <= Count(a)
    ensures a.Vertices? ==>
              b.Vertices? && c <= Count(b) && SameUpToOrder(Vertices(a.vertices[..c]), Vertices(b.vertices[..c]))
    ensures a.Edges? ==> b.Edges? && c <= Count(b) && SameUpToOrder(Edges(a.edges[..c]), Edges(b.edges[..c]))
  {
    hide SameVertex, SameEdge, SameUpdate;
  }

  /** The whole chunk is carried this far; an empty one is not sent. */
  function Carried(allocate: Allocate, job: Job, chunk: Chunk, reach: Reach): Job
    requires job.pending.None? && !chunk.Updates?
  {
    if Count(chunk) == 0 then job else Append(allocate, job, |job.completed|, chunk, Go(Count(chunk), reach)).0
  }

  predicate Resting(job: Job)
  {
    job.phase.Open? && job.pending.None?
  }

  lemma CarriedThrough(allocate: Allocate, job: Job, chunk: Chunk)
    requires Resting(job) && !chunk.Updates?
    ensures var after := Carried(allocate, job, chunk, Through);
            && Resting(after)
            && |after.vertices| == |job.vertices| + (if chunk.Vertices? then Count(chunk) else 0)
            && |after.edges| == |job.edges| + (if chunk.Edges? then Count(chunk) else 0)
  {}

  /** Carrying the next slice through leaves a faithful job that much further on. */
  lemma CarriedOn(allocate: Allocate, plan: Plan, job: Job, chunk: Chunk)
    requires Faithfully(allocate, plan, job) && Resting(job) && !chunk.Updates?
    requires Count(chunk) > 0 ==> NextChunk(plan, job, chunk)
    ensures var after := Carried(allocate, job, chunk, Through);
            && Faithfully(allocate, plan, after) && Resting(after)
            && PublicV(after) == PublicV(job) + (if chunk.Vertices? then Count(chunk) else 0)
            && PublicE(after) == PublicE(job) + (if chunk.Edges? then Count(chunk) else 0)
  {
    hide Faithfully, PublicV, PublicE, NextChunk, Append;
    if Count(chunk) > 0 {
      AppendKeeps(allocate, plan, job, chunk, Go(Count(chunk), Through));
      FirstAppend(allocate, job, chunk, Go(Count(chunk), Through));
    }
  }

  /** Stopping right after recording leaves its rows public and the chunk pending. */
  lemma CarriedShort(allocate: Allocate, plan: Plan, job: Job, chunk: Chunk)
    requires Faithfully(allocate, plan, job) && Resting(job) && NextChunk(plan, job, chunk)
    ensures !chunk.Updates?
    ensures var after := Carried(allocate, job, chunk, Recorded);
            && Faithfully(allocate, plan, after) && after.phase.Open? && Exposed(after)
            && after.pending.value.chunk == chunk
            && PublicV(after) == PublicV(job) + |HeldBack(after).ids|
            && PublicE(after) == PublicE(job) + HeldBack(after).edges
            && |HeldBack(after).ids| == (if chunk.Vertices? then Count(chunk) else 0)
            && HeldBack(after).edges == (if chunk.Edges? then Count(chunk) else 0)
  {
    hide Faithfully, IdsOf, EdgesOf, IsSlice, Append;
    SliceKind(plan, chunk, PublicV(job), PublicE(job));
    AppendKeeps(allocate, plan, job, chunk, Go(Count(chunk), Recorded));
    FirstAppend(allocate, job, chunk, Go(Count(chunk), Recorded));
  }

  const EMPTY_JOB: Job := Job(Open, [], None, [], [])

  /** What a run looks like that stops right after the first block of a square of vertices became public. */
  function Halfway(allocate: Allocate, plan: Plan, at: nat, c: nat): Job
    requires at + c <= |plan.vertices|
  {
    var before := Carried(allocate, EMPTY_JOB, Vertices(plan.vertices[..at]), Through);
    if before.pending.Some? then before else Carried(allocate, before, Vertices(plan.vertices[at..at + c]), Recorded)
  }

  /** And of a square of edges, after all vertices. */
  function HalfwayEdges(allocate: Allocate, plan: Plan, at: nat, c: nat): Job
    requires at + c <= |plan.edges|
  {
    var vertices := Carried(allocate, EMPTY_JOB, Vertices(plan.vertices), Through);
    if vertices.pending.Some? then vertices
    else
      var before := Carried(allocate, vertices, Edges(plan.edges[..at]), Through);
      if before.pending.Some? then before else Carried(allocate, before, Edges(plan.edges[at..at + c]), Recorded)
  }

  lemma EmptyIsFaithful(allocate: Allocate, plan: Plan)
    ensures Faithfully(allocate, plan, EMPTY_JOB)
    ensures PublicV(EMPTY_JOB) == 0 && PublicE(EMPTY_JOB) == 0
  {
    assert Ids(allocate, 0, 0) == [];
    assert Store([], []) == [];
    assert plan.vertices[..0] == [];
  }

  lemma HalfwayIs(allocate: Allocate, plan: Plan, at: nat, c: nat)
    requires at + c <= |plan.vertices| && c > 0
    ensures var job := Halfway(allocate, plan, at, c);
            && Faithfully(allocate, plan, job) && job.phase.Open? && PublicE(job) == 0
            && PublicV(job) == at + c && Exposed(job) && |HeldBack(job).ids| == c
            && job.pending.value.chunk == Vertices(plan.vertices[at..at + c])
  {
    hide Faithfully, PublicV, PublicE, HeldBack, Carried, Exposed;
    EmptyIsFaithful(allocate, plan);
    CarriedOn(allocate, plan, EMPTY_JOB, Vertices(plan.vertices[..at]));
    var before := Carried(allocate, EMPTY_JOB, Vertices(plan.vertices[..at]), Through);
    CarriedShort(allocate, plan, before, Vertices(plan.vertices[at..at + c]));
  }

  lemma HalfwayEdgesIs(allocate: Allocate, plan: Plan, at: nat, c: nat)
    requires at + c <= |plan.edges| && c > 0
    ensures var job := HalfwayEdges(allocate, plan, at, c);
            && Faithfully(allocate, plan, job) && job.phase.Open? && PublicV(job) == |plan.vertices|
            && PublicE(job) == at + c && Exposed(job) && HeldBack(job).edges == c
            && job.pending.value.chunk == Edges(plan.edges[at..at + c])
  {
    hide Faithfully, PublicV, PublicE, HeldBack, Carried, Exposed;
    EmptyIsFaithful(allocate, plan);
    assert plan.vertices[0..0 + |plan.vertices|] == plan.vertices;
    CarriedOn(allocate, plan, EMPTY_JOB, Vertices(plan.vertices));
    var vertices := Carried(allocate, EMPTY_JOB, Vertices(plan.vertices), Through);
    CarriedOn(allocate, plan, vertices, Edges(plan.edges[..at]));
    var before := Carried(allocate, vertices, Edges(plan.edges[..at]), Through);
    CarriedShort(allocate, plan, before, Edges(plan.edges[at..at + c]));
  }

  /** With a square of vertices, a run can reach the point where the next rows are aliased: an answer then
      binds the first block's ids to the second block, which that call does not insert. */
  lemma SquareAllowsAlias(allocate: Allocate, plan: Plan, at: nat, c: nat)
    requires VertexSquare(plan.vertices, at, c)
    ensures var job, chunk := Halfway(allocate, plan, at, c), Vertices(plan.vertices[at + c..at + 2 * c]);
            && Faithfully(allocate, plan, job) && NextChunk(plan, job, chunk) && Aliased(job, chunk)
            && var (after, r) := Append(allocate, job, |job.completed|, chunk, Go(0, Through));
               && r == Ok(Receipt(c, 0, Ids(allocate, at, c)))
               && |after.vertices| == at + c && after.edges == job.edges == [] && Resting(after)
  {
    hide Faithfully, IdsOf, EdgesOf, Halfway, SameUpToOrder, Append;
    HalfwayIs(allocate, plan, at, c);
    var job, chunk := Halfway(allocate, plan, at, c), Vertices(plan.vertices[at + c..at + 2 * c]);
    assert NextChunk(plan, job, chunk);
    AliasReplays(allocate, plan, job, chunk);
    PendingReceipt(allocate, plan, job);
  }

  /** With a square of edges likewise: the answer counts the second block, which that call does not insert. */
  lemma EdgeSquareAllowsAlias(allocate: Allocate, plan: Plan, at: nat, c: nat)
    requires EdgeSquare(plan.edges, at, c)
    ensures var job, chunk := HalfwayEdges(allocate, plan, at, c), Edges(plan.edges[at + c..at + 2 * c]);
            && Faithfully(allocate, plan, job) && NextChunk(plan, job, chunk) && Aliased(job, chunk)
            && var (after, r) := Append(allocate, job, |job.completed|, chunk, Go(0, Through));
               && r == Ok(Receipt(0, c, []))
               && |after.vertices| == |plan.vertices| && |after.edges| == at + c && Resting(after)
  {
    hide Faithfully, IdsOf, EdgesOf, HalfwayEdges, SameUpToOrder, Append;
    HalfwayEdgesIs(allocate, plan, at, c);
    var job, chunk := HalfwayEdges(allocate, plan, at, c), Edges(plan.edges[at + c..at + 2 * c]);
    assert NextChunk(plan, job, chunk);
    AliasReplays(allocate, plan, job, chunk);
    PendingReceipt(allocate, plan, job);
  }

  /** So the artifacts whose rows can be aliased are exactly those with a square. */
  lemma AliasIffSquare(allocate: Allocate, plan: Plan)
    ensures (exists job, chunk :: CanAlias(allocate, plan, job, chunk)) <==> !SquareFree(plan)
  {
    hide Faithfully, NextChunk, Aliased, VertexSquare, EdgeSquare, Halfway, HalfwayEdges, Append;
    if exists job, chunk :: CanAlias(allocate, plan, job, chunk) {
      var job, chunk :| CanAlias(allocate, plan, job, chunk);
      AliasNeedsSquare(allocate, plan, job, chunk);
    }
    if at, c :| VertexSquare(plan.vertices, at, c) {
      SquareInside(plan, at, c);
      SquareAllowsAlias(allocate, plan, at, c);
      assert CanAlias(allocate, plan, Halfway(allocate, plan, at, c), Vertices(plan.vertices[at + c..at + 2 * c]));
    } else if at, c :| EdgeSquare(plan.edges, at, c) {
      SquareInside(plan, at, c);
      EdgeSquareAllowsAlias(allocate, plan, at, c);
      assert CanAlias(allocate, plan, HalfwayEdges(allocate, plan, at, c), Edges(plan.edges[at + c..at + 2 * c]));
    }
  }

  ghost predicate CanAlias(allocate: Allocate, plan: Plan, job: Job, chunk: Chunk)
  {
    Faithfully(allocate, plan, job) && NextChunk(plan, job, chunk) && Aliased(job, chunk)
  }

  lemma SquareInside(plan: Plan, at: nat, c: nat)
    ensures VertexSquare(plan.vertices, at, c) ==> at + 2 * c <= |plan.vertices|
    ensures EdgeSquare(plan.edges, at, c) ==> at + 2 * c <= |plan.edges|
  {}

  /** The client goes on behind the rows it believes committed, sends the rest and closes the job. */
  function Closed(allocate: Allocate, job: Job, vertices: seq<Vertex>, edges: seq<Edge>): (Job, Result<(), RouterError>)
    requires Resting(job)
  {
    var middle := Carried(allocate, job, Vertices(vertices), Through);
    if middle.pending.Some? then (middle, Err(Busy)) else Finalize(Carried(allocate, middle, Edges(edges), Through))
  }

  lemma ClosedIs(allocate: Allocate, job: Job, vertices: seq<Vertex>, edges: seq<Edge>)
    requires Resting(job)
    ensures var (after, r) := Closed(allocate, job, vertices, edges);
            && r.Ok? && after.phase.FinalizePending?
            && |after.vertices| == |job.vertices| + |vertices| && |after.edges| == |job.edges| + |edges|
  {
    hide Carried;
    CarriedThrough(allocate, job, Vertices(vertices));
    CarriedThrough(allocate, Carried(allocate, job, Vertices(vertices), Through), Edges(edges));
  }

  /** A run that was answered this way ends with the job closed, and the second block was never inserted. */
  lemma ClosedWithVerticesMissing(allocate: Allocate, plan: Plan, at: nat, c: nat, edges: seq<Edge>)
    requires VertexSquare(plan.vertices, at, c)
    ensures var job, chunk := Halfway(allocate, plan, at, c), Vertices(plan.vertices[at + c..at + 2 * c]);
            && job.pending.Some? && !job.pending.value.chunk.Updates?
            && var answered := Append(allocate, job, |job.completed|, chunk, Go(0, Through)).0;
               && Resting(answered)
               && var (after, r) := Closed(allocate, answered, plan.vertices[at + 2 * c..], edges);
                  r.Ok? && after.phase.FinalizePending? && |after.vertices| == |plan.vertices| - c
  {
    hide Faithfully, Append, Halfway, NextChunk, Closed, SameUpToOrder;
    SquareAllowsAlias(allocate, plan, at, c);
    var job, chunk := Halfway(allocate, plan, at, c), Vertices(plan.vertices[at + c..at + 2 * c]);
    PendingKind(allocate, plan, job);
    var answered := Append(allocate, job, |job.completed|, chunk, Go(0, Through)).0;
    ClosedIs(allocate, answered, plan.vertices[at + 2 * c..], edges);
  }

  lemma ClosedWithEdgesMissing(allocate: Allocate, plan: Plan, at: nat, c: nat)
    requires EdgeSquare(plan.edges, at, c)
    ensures var job, chunk := HalfwayEdges(allocate, plan, at, c), Edges(plan.edges[at + c..at + 2 * c]);
            && job.pending.Some? && !job.pending.value.chunk.Updates?
            && var answered := Append(allocate, job, |job.completed|, chunk, Go(0, Through)).0;
               && Resting(answered)
               && var (after, r) := Closed(allocate, answered, [], plan.edges[at + 2 * c..]);
                  r.Ok? && after.phase.FinalizePending? && |after.edges| == |plan.edges| - c
  {
    hide Faithfully, Append, HalfwayEdges, NextChunk, Closed, SameUpToOrder;
    EdgeSquareAllowsAlias(allocate, plan, at, c);
    var job, chunk := HalfwayEdges(allocate, plan, at, c), Edges(plan.edges[at + c..at + 2 * c]);
    PendingKind(allocate, plan, job);
    var answered := Append(allocate, job, |job.completed|, chunk, Go(0, Through)).0;
    ClosedIs(allocate, answered, [], plan.edges[at + 2 * c..]);
  }

  lemma PendingReceipt(allocate: Allocate, plan: Plan, job: Job)
    requires Faithfully(allocate, plan, job) && Exposed(job)
    ensures var c := |HeldBack(job).ids|;
            && HeldBack(job) == Receipt(c, HeldBack(job).edges, Ids(allocate, PublicV(job) - c, c))
            && (if job.pending.value.chunk.Vertices? then HeldBack(job).edges == 0 else c == 0)
  {
    hide IdsOf, EdgesOf, Inserted;
  }

  /** Once rows of an unfinished chunk are public, a client that goes by the public receipts is refused for
      good, unless its next rows are aliased: every send conflicts and finalizing is turned away. */
  lemma ExposedBlocks(allocate: Allocate, plan: Plan, job: Job, chunk: Chunk, work: Work)
    requires Faithfully(allocate, plan, job) && NextChunk(plan, job, chunk) && Exposed(job) && !Aliased(job, chunk)
    ensures !job.pending.value.chunk.Updates?
    ensures Append(allocate, job, |job.completed|, chunk, work) == (job, Err(Conflict))
    ensures Finalize(job).1.Err?
  {
    hide Inserted, IdsOf, EdgesOf, ReceiptFits, SameUpToOrder, IsSlice;
    SliceKind(plan, chunk, PublicV(job), PublicE(job));
    SliceKind(plan, job.pending.value.chunk, DoneV(job), DoneE(job));
  }

  predicate Published(job: Job)
  {
    job.pending.Some? && job.pending.value.published
  }

  /** Nothing becomes public early if the call does not stop between recording and completing. */
  lemma AppendKeepsPrivate(allocate: Allocate, job: Job, index: nat, chunk: Chunk, work: Work)
    requires job.pending.Some? ==> !job.pending.value.chunk.Updates?
    requires !Published(job) && (work.Go? ==> !work.reach.Recorded?)
    ensures !Published(Append(allocate, job, index, chunk, work).0)
  {
    hide SameUpToOrder, CommitPrefix;
    if !chunk.Updates? {
      CommitKeepsPending(allocate, job, chunk, work);
    }
    if job.pending.Some? {
      CommitKeepsPending(allocate, job, job.pending.value.chunk, work);
    }
  }

  lemma CommitKeepsPending(allocate: Allocate, job: Job, chunk: Chunk, work: Work)
    requires !chunk.Updates?
    ensures work.Go? ==>
              var n := if work.prefix < Count(chunk) then work.prefix else Count(chunk);
              CommitPrefix(allocate, job, chunk, n).0.pending == job.pending
  {}

  // ---------- a chunk left pending ----------

  /** The chunk behind the index is not the one about to be sent: its rows are public already, or it has
      another length. */
  predicate Blocked(job: Job, count: nat)
  {
    job.pending.Some? && (Exposed(job) || Count(job.pending.value.chunk) != count)
  }

  /** The pending chunk was decided without committing a row. */
  predicate Idle(job: Job)
  {
    && job.pending.Some? && job.pending.value.receipt.Some?
    && job.pending.value.receipt.value.vertices + job.pending.value.receipt.value.edges == 0
  }

  lemma SameLength(plan: Plan, a: Chunk, b: Chunk, v: nat, e: nat)
    requires IsSlice(plan, a, v, e) && IsSlice(plan, b, v, e)
    ensures SameUpToOrder(a, b) ==> Count(a) == Count(b)
    ensures Count(a) == Count(b) ==> a == b
  {
    hide SameVertex, SameEdge, SameUpdate;
  }

  /** The next slice gets past a pending chunk exactly when it is that chunk, which is when it has its
      length; every other one conflicts, whatever the Router would do. */
  lemma PendingDecides(allocate: Allocate, plan: Plan, job: Job, chunk: Chunk, work: Work)
    requires Faithfully(allocate, plan, job) && NextChunk(plan, job, chunk) && !Aliased(job, chunk) && job.pending.Some?
    ensures !job.pending.value.chunk.Updates?
    ensures Blocked(job, Count(chunk)) ==> Append(allocate, job, |job.completed|, chunk, work) == (job, Err(Conflict))
    ensures !Blocked(job, Count(chunk)) ==>
              && chunk == job.pending.value.chunk
              && Append(allocate, job, |job.completed|, chunk, work) == Drive(allocate, job, job.pending.value, work)
  {
    hide Inserted, IdsOf, EdgesOf, ReceiptFits, SameUpToOrder, IsSlice, Drive;
    SliceKind(plan, chunk, PublicV(job), PublicE(job));
    SliceKind(plan, job.pending.value.chunk, DoneV(job), DoneE(job));
    if !Exposed(job) {
      SameLength(plan, job.pending.value.chunk, chunk, DoneV(job), DoneE(job));
      SameAsItself(chunk);
    }
  }

  lemma SameAsItself(chunk: Chunk)
    ensures SameUpToOrder(chunk, chunk)
  {}

  /** Unless it is blocked, a call carried through with at least one item completes the chunk; it commits
      at least one row, except when the pending chunk was decided with none. */
  lemma AppendSucceeds(allocate: Allocate, plan: Plan, job: Job, chunk: Chunk, work: Work)
    requires Faithfully(allocate, plan, job) && NextChunk(plan, job, chunk) && job.phase.Open?
    requires !Blocked(job, Count(chunk))
    requires work.Go? && work.reach.Through? && work.prefix >= 1
    ensures job.pending.Some? ==> !job.pending.value.chunk.Updates?
    ensures var r := Append(allocate, job, |job.completed|, chunk, work).1;
            r.Ok? && (r.value.vertices + r.value.edges > 0 <==> !Idle(job))
  {
    hide Faithfully, SameUpToOrder, PublicV, PublicE, Append, IsSlice;
    SliceKind(plan, chunk, PublicV(job), PublicE(job));
    if job.pending.Some? {
      PendingDecides(allocate, plan, job, chunk, work);
    } else {
      FirstAppend(allocate, job, chunk, work);
    }
  }

  lemma FirstAppend(allocate: Allocate, job: Job, chunk: Chunk, work: Work)
    requires job.phase.Open? && job.pending.None? && work.Go? && Count(chunk) > 0 && !chunk.Updates?
    ensures Append(allocate, job, |job.completed|, chunk, work) ==
              Drive(allocate, job, Pending(chunk, None, false), work)
  {}

  /** Carried through or turned down, a call leaves nothing pending where nothing was. */
  lemma AppendLeavesNothing(allocate: Allocate, job: Job, index: nat, chunk: Chunk, work: Work)
    requires job.pending.None? && (work.Go? ==> work.reach.Through?)
    ensures Append(allocate, job, index, chunk, work).0.pending.None?
  {}
}
