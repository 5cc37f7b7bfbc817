/** The client side of an insert load: vertices first, remembering the id each row was given, then edges
    with their endpoints resolved; rerun after any failure from the public receipts alone. */
module InsertLoad {
  import opened Outcomes
  import opened Bytes
  import opened BulkWire
  import opened MessageSizing
  import opened LoadWindows
  import opened InsertRouter
  import opened InsertArtifact

  const STATUS_PAGE_SIZE: nat := 64
  const MAX_POLLS: nat := 120

  datatype StatusPage = StatusPage(phase: Phase, next: nat, receipts: seq<Receipt>, cursor: Option<nat>)

  datatype LoadOutcome = Loaded | Skipped

  datatype Turn = Wait | Complete | Fail

  datatype Fate = Lost | Ran(work: Work, turn: Turn, answered: bool)

  /** A call that arrives, is carried through with at least one item and answered, with the background
      work keeping up. */
  predicate Smooth(fate: Fate)
  {
    && fate.Ran? && fate.answered && fate.turn.Complete?
    && fate.work.Go? && fate.work.reach.Through? && fate.work.prefix >= 1
  }

  /** From call `from` on, every call is smooth. */
  ghost predicate Calm(script: nat -> Fate, from: nat)
  {
    forall n :: from <= n ==> Smooth(script(n))
  }

  lemma CalmLater(script: nat -> Fate, from: nat, later: nat)
    requires Calm(script, from) && from <= later
    ensures Calm(script, later)
  {}

  /** The background work never fails a job. */
  ghost predicate NeverFails(script: nat -> Fate)
  {
    forall n :: script(n).Ran? ==> !script(n).turn.Fail?
  }

  /** No call stops on its way: it is turned down at once or carried through. */
  ghost predicate AllOrNothing(script: nat -> Fate)
  {
    forall n :: script(n).Ran? && script(n).work.Go? ==> script(n).work.reach.Through?
  }

  predicate HasFailed(job: Option<Job>)
  {
    job.Some? && job.value.phase.Failed?
  }

  // ---------- the Router as the client meets it ----------

  function ReceiptsOf(children: seq<Child>): (receipts: seq<Receipt>)
    ensures |receipts| == |children|
    ensures forall i :: 0 <= i < |children| ==> receipts[i] == children[i].receipt
  {
    seq(|children|, i requires 0 <= i < |children| => children[i].receipt)
  }

  /** Completed chunks, and a recorded one that is not completed yet. */
  function PublicReceipts(job: Job): seq<Receipt>
  {
    ReceiptsOf(job.completed) +
    if job.pending.Some? && job.pending.value.receipt.Some? && job.pending.value.published
    then [job.pending.value.receipt.value] else []
  }

  function PageOf(job: Job, cursor: nat): StatusPage
  {
    var all := PublicReceipts(job);
    var from := Min(cursor, |all|);
    var to := Min(from + STATUS_PAGE_SIZE, |all|);
    StatusPage(job.phase, |job.completed|, all[from..to], if to < |all| then Some(to) else None)
  }

  function Settle(job: Job, turn: Turn): Job
  {
    if !job.phase.FinalizePending? then job
    else match turn
         case Wait => job
         case Complete => job.(phase := Completed)
         case Fail => job.(phase := Failed)
  }

  ghost predicate OnlyPhase(before: Option<Job>, after: Option<Job>)
  {
    && (before.Some? <==> after.Some?)
    && (before.Some? ==>
          && after.value.(phase := before.value.phase) == before.value
          && (|| before.value.phase == after.value.phase
              || (before.value.phase.FinalizePending? && (after.value.phase.Completed? || after.value.phase.Failed?))))
  }

  /** A finalizing job has completed, any other is as it was. */
  ghost predicate Caught(before: Option<Job>, after: Option<Job>)
  {
    if before.Some? && before.value.phase.FinalizePending?
    then after == Some(before.value.(phase := Completed))
    else after == before
  }

  /** Nothing is loaded but what the artifact says, in its order. */
  ghost predicate Sane(allocate: Allocate, plan: Plan, job: Option<Job>)
  {
    job.Some? ==> Faithfully(allocate, plan, job.value)
  }

  /** Later states hold at least the vertices and edges of earlier ones. */
  ghost predicate Grown(before: Option<Job>, after: Option<Job>)
  {
    before.Some? ==>
        after.Some? && before.value.vertices <= after.value.vertices && before.value.edges <= after.value.edges
  }

  lemma OnlyPhaseKeeps(allocate: Allocate, plan: Plan, before: Option<Job>, after: Option<Job>)
    requires Sane(allocate, plan, before) && OnlyPhase(before, after)
    ensures Sane(allocate, plan, after) && Grown(before, after)
  {
    if before.Some? {
      InsertedSame(allocate, plan, before.value, after.value);
    }
  }

  /** Either no two adjacent blocks of the artifact look the same, or no call ever stops between recording
      a receipt and completing its chunk. */
  ghost predicate Guarded(script: nat -> Fate, plan: Plan, job: Option<Job>)
  {
    || SquareFree(plan)
    || (NeverRecorded(script) && (job.Some? ==> !Published(job.value)))
  }

  ghost predicate NeverRecorded(script: nat -> Fate)
  {
    forall n :: script(n).Ran? && script(n).work.Go? ==> !script(n).work.reach.Recorded?
  }

  class Service {
    const allocate: Allocate
    const script: nat -> Fate
    var job: Option<Job>
    var clock: nat

    constructor (allocate: Allocate, script: nat -> Fate)
      ensures this.allocate == allocate && this.script == script && job == None
    {
      this.allocate, this.script := allocate, script;
      job, clock := None, 0;
    }

    method Status(cursor: nat) returns (r: Result<Option<StatusPage>, RouterError>)
      modifies this
      ensures OnlyPhase(old(job), job)
      ensures r.Ok? ==> r.value == if job.Some? then Some(PageOf(job.value, cursor)) else None
      ensures clock == old(clock) + 1
      ensures Calm(script, old(clock)) ==> r.Ok? && Caught(old(job), job)
      ensures NeverFails(script) && !HasFailed(old(job)) ==> !HasFailed(job)
    {
      var fate := script(clock);
      assert Calm(script, clock) ==> Smooth(fate);
      clock := clock + 1;
      if fate.Lost? {
        return Err(Unreachable);
      }
      if job.Some? {
        job := Some(Settle(job.value, fate.turn));
      }
      return if fate.answered then Ok(if job.Some? then Some(PageOf(job.value, cursor)) else None)
             else Err(Unreachable);
    }

    method Start() returns (r: Result<(), RouterError>)
      modifies this
      ensures old(job).Some? ==> job == old(job)
      ensures old(job).None? ==> job == None || job == Some(EMPTY_JOB)
      ensures r.Ok? ==> job.Some?
      ensures clock == old(clock) + 1
      ensures Calm(script, old(clock)) ==> r.Ok?
    {
      var fate := script(clock);
      assert Calm(script, clock) ==> Smooth(fate);
      clock := clock + 1;
      if fate.Lost? {
        return Err(Unreachable);
      }
      if job.None? {
        job := Some(EMPTY_JOB);
      }
      return if fate.answered then Ok(()) else Err(Unreachable);
    }

    method Deliver(index: nat, chunk: Chunk) returns (r: Result<Receipt, RouterError>)
      requires job.Some? && (job.value.pending.Some? ==> !job.value.pending.value.chunk.Updates?)
      modifies this
      ensures script(old(clock)).Lost? ==> job == old(job) && r.Err?
      ensures script(old(clock)).Ran? ==>
                var (after, answer) := Append(allocate, old(job).value, index, chunk, script(old(clock)).work);
                job == Some(after) && (r.Ok? ==> r == answer) && (Calm(script, old(clock)) ==> r == answer)
      ensures clock == old(clock) + 1
    {
      var fate := script(clock);
      assert Calm(script, clock) ==> Smooth(fate);
      clock := clock + 1;
      if fate.Lost? {
        return Err(Unreachable);
      }
      var (after, answer) := Append(allocate, job.value, index, chunk, fate.work);
      job := Some(after);
      return if fate.answered then answer else Err(Unreachable);
    }

    method Close() returns (r: Result<(), RouterError>)
      requires job.Some?
      modifies this
      ensures job.Some? && (job == old(job) || job == Some(Finalize(old(job).value).0))
      ensures r.Ok? ==> Finalize(old(job).value).1.Ok? && job == Some(Finalize(old(job).value).0)
      ensures clock == old(clock) + 1
      ensures Calm(script, old(clock)) ==> r == Finalize(old(job).value).1
    {
      var fate := script(clock);
      assert Calm(script, clock) ==> Smooth(fate);
      clock := clock + 1;
      if fate.Lost? {
        return Err(Unreachable);
      }
      var (after, answer) := Finalize(job.value);
      job := Some(after);
      return if fate.answered then answer else Err(Unreachable);
    }
  }

  // ---------- where to resume ----------

  lemma OnlyPhaseTrans(a: Option<Job>, b: Option<Job>, c: Option<Job>)
    requires OnlyPhase(a, b) && OnlyPhase(b, c)
    ensures OnlyPhase(a, c)
  {}

  /** A page joins what was read before it, and the last one completes the list. */
  lemma PageJoins(before: Job, job: Job, cursor: nat)
    requires OnlyPhase(Some(before), Some(job)) && cursor <= |PublicReceipts(before)|
    ensures PublicReceipts(job) == PublicReceipts(before)
    ensures var all, page := PublicReceipts(before), PageOf(job, cursor);
            if page.cursor.None? then all[..cursor] + page.receipts == all
            else cursor < page.cursor.value <= |all| && all[..cursor] + page.receipts == all[..page.cursor.value]
    ensures PageOf(job, cursor).phase == job.phase && PageOf(job, cursor).next == |job.completed|
  {
    hide ReceiptsOf;
  }

  method StatusPaged(service: Service) returns (r: Result<Option<(StatusPage, seq<Receipt>)>, LoadError>)
    modifies service
    ensures OnlyPhase(old(service.job), service.job)
    ensures r.Ok? ==> (r.value.Some? <==> service.job.Some?)
    ensures r.Ok? && r.value.Some? ==>
              && r.value.value.0.phase == service.job.value.phase
              && r.value.value.0.next == |service.job.value.completed|
              && r.value.value.1 == PublicReceipts(service.job.value)
    ensures service.clock > old(service.clock)
    ensures Calm(service.script, old(service.clock)) ==> r.Ok? && Caught(old(service.job), service.job)
    ensures NeverFails(service.script) && !HasFailed(old(service.job)) ==> !HasFailed(service.job)
  {
    hide Calm, NeverFails, PublicReceipts, PageOf;
    var receipts: seq<Receipt> := [];
    var cursor := 0;
    ghost var job0, start := service.job, service.clock;
    ghost var all := if job0.Some? then PublicReceipts(job0.value) else [];
    while true
      invariant OnlyPhase(job0, service.job)
      invariant cursor <= |all| && receipts == all[..cursor]
      invariant service.clock >= start && (cursor > 0 ==> service.clock > start)
      invariant Calm(service.script, start) ==> service.job == job0 || Caught(job0, service.job)
      invariant NeverFails(service.script) && !HasFailed(job0) ==> !HasFailed(service.job)
      decreases |all| - cursor
    {
      ghost var before := service.job;
      if Calm(service.script, start) {
        CalmLater(service.script, start, service.clock);
      }
      var answer := service.Status(cursor);
      OnlyPhaseTrans(job0, before, service.job);
      if answer.Err? {
        return Err(Remote);
      }
      if answer.value.None? {
        return Ok(None);
      }
      var page := answer.value.value;
      PageJoins(job0.value, service.job.value, cursor);
      receipts := receipts + page.receipts;
      if page.cursor.None? {
        return Ok(Some((page, receipts)));
      }
      cursor := page.cursor.value;
    }
  }

  datatype Resume = Resume(vertices: nat, edges: nat, ids: seq<Bytes>)

  function Tally(receipts: seq<Receipt>): Resume
  {
    if receipts == [] then Resume(0, 0, [])
    else
      var before, last := Tally(receipts[..|receipts| - 1]), receipts[|receipts| - 1];
      Resume(before.vertices + last.vertices, before.edges + last.edges,
             before.ids + if last.vertices > 0 then last.ids else [])
  }

  method ResumePoint(receipts: seq<Receipt>) returns (r: Resume)
    ensures r == Tally(receipts)
  {
    r := Resume(0, 0, []);
    for i := 0 to |receipts|
      invariant r == Tally(receipts[..i])
    {
      r := Resume(r.vertices + receipts[i].vertices, r.edges + receipts[i].edges,
                  if receipts[i].vertices > 0 then r.ids + receipts[i].ids else r.ids);
      assert receipts[..i + 1][..i] == receipts[..i];
    }
    assert receipts[..|receipts|] == receipts;
  }

  lemma {:induction false} TallyCompleted(children: seq<Child>)
    requires Counted(children)
    ensures Tally(ReceiptsOf(children)) == Resume(|IdsOf(children)|, EdgesOf(children), IdsOf(children))
  {
    if children != [] {
      TallyCompleted(children[..|children| - 1]);
      assert ReceiptsOf(children)[..|children| - 1] == ReceiptsOf(children[..|children| - 1]);
    }
  }

  lemma TallyAppended(receipts: seq<Receipt>, last: Receipt)
    requires last.vertices == |last.ids|
    ensures var before := Tally(receipts);
            Tally(receipts + [last]) ==
              Resume(before.vertices + |last.ids|, before.edges + last.edges, before.ids + last.ids)
  {
    assert (receipts + [last])[..|receipts + [last]| - 1] == receipts;
  }

  /** The resume point is the number of public rows, and the ids are those the rows were given. */
  lemma TallyPublic(allocate: Allocate, plan: Plan, job: Job)
    requires Faithfully(allocate, plan, job)
    ensures Tally(PublicReceipts(job)) == Resume(PublicV(job), PublicE(job), Ids(allocate, 0, PublicV(job)))
    ensures PublicV(job) <= |plan.vertices| && PublicE(job) <= |plan.edges|
  {
    hide IdsOf, EdgesOf, IsSlice, Tally, ReceiptsOf;
    TallyCompleted(job.completed);
    if job.pending.Some? && job.pending.value.receipt.Some? && job.pending.value.published {
      TallyAppended(ReceiptsOf(job.completed), job.pending.value.receipt.value);
    } else {
      assert PublicReceipts(job) == ReceiptsOf(job.completed);
    }
  }

  // ---------- sending ----------

  /** There is a faithful job, and nothing in the artifact can be mistaken for what is pending. */
  ghost predicate Underway(service: Service, plan: Plan)
    reads service
  {
    && service.job.Some? && Faithfully(service.allocate, plan, service.job.value)
    && Guarded(service.script, plan, service.job)
  }

  /** Nothing is lost and the phase is as it was. */
  ghost predicate Onward(before: Option<Job>, after: Option<Job>)
  {
    Grown(before, after) && (before.Some? ==> after.value.phase == before.value.phase)
  }

  lemma NotAliased(allocate: Allocate, plan: Plan, script: nat -> Fate, job: Job, chunk: Chunk)
    requires Faithfully(allocate, plan, job) && NextChunk(plan, job, chunk) && Guarded(script, plan, Some(job))
    ensures !Aliased(job, chunk)
  {
    hide Faithfully, NextChunk, SquareFree;
    if Aliased(job, chunk) && SquareFree(plan) {
      AliasNeedsSquare(allocate, plan, job, chunk);
    }
  }

  /** Send the next slice. Whatever becomes of it, the job stays faithful; an answer is about those rows;
      behind a pending chunk in its way it is refused, and nothing changes. */
  method Send(service: Service, index: nat, chunk: Chunk, ghost plan: Plan) returns (r: Result<Receipt, RouterError>)
    requires Underway(service, plan) && NextChunk(plan, service.job.value, chunk)
    requires index == |service.job.value.completed|
    modifies service
    ensures Underway(service, plan) && Onward(old(service.job), service.job) && service.clock > old(service.clock)
    ensures r.Ok? ==>
              && ReceiptFits(service.allocate, chunk, r.value, old(PublicV(service.job.value)))
              && |service.job.value.completed| == index + 1 && service.job.value.pending.None?
              && PublicV(service.job.value) == old(PublicV(service.job.value)) + |r.value.ids|
              && PublicE(service.job.value) == old(PublicE(service.job.value)) + r.value.edges
    ensures Blocked(old(service.job.value), Count(chunk)) ==> r.Err? && service.job == old(service.job)
    ensures Calm(service.script, old(service.clock)) && old(service.job.value.phase).Open? ==>
              !Blocked(old(service.job.value), Count(chunk)) ==>
                r.Ok? && (r.value.vertices + r.value.edges > 0 <==> !Idle(old(service.job.value)))
    ensures AllOrNothing(service.script) && old(service.job.value.pending).None? ==> service.job.value.pending.None?
  {
    hide Faithfully, NextChunk, ReceiptFits, Append, Aliased, PublicV, PublicE, Blocked, Idle;
    ghost var job := service.job.value;
    NotAliased(service.allocate, plan, service.script, job, chunk);
    AppendKeeps(service.allocate, plan, job, chunk, TurnDown);
    if service.script(service.clock).Ran? {
      SendOutcome(service.allocate, plan, service.script, job, chunk, service.clock);
    }
    r := service.Deliver(index, chunk);
  }

  lemma SendOutcome(allocate: Allocate, plan: Plan, script: nat -> Fate, job: Job, chunk: Chunk, clock: nat)
    requires Faithfully(allocate, plan, job) && NextChunk(plan, job, chunk) && !Aliased(job, chunk)
    requires Guarded(script, plan, Some(job)) && script(clock).Ran?
    ensures job.pending.Some? ==> !job.pending.value.chunk.Updates?
    ensures var (after, r) := Append(allocate, job, |job.completed|, chunk, script(clock).work);
            && Faithfully(allocate, plan, after) && Guarded(script, plan, Some(after)) && Onward(Some(job), Some(after))
            && (r.Ok? ==>
                  && ReceiptFits(allocate, chunk, r.value, PublicV(job)) && after.pending.None?
                  && |after.completed| == |job.completed| + 1
                  && PublicV(after) == PublicV(job) + |r.value.ids| && PublicE(after) == PublicE(job) + r.value.edges)
            && (Blocked(job, Count(chunk)) ==> after == job && r.Err?)
            && (Calm(script, clock) && job.phase.Open? && !Blocked(job, Count(chunk)) ==>
                  r.Ok? && (r.value.vertices + r.value.edges > 0 <==> !Idle(job)))
            && (AllOrNothing(script) && job.pending.None? ==> after.pending.None?)
  {
    hide Faithfully, NextChunk, ReceiptFits, Append, Aliased, PublicV, PublicE, Idle, SquareFree, Exposed;
    var work := script(clock).work;
    AppendKeeps(allocate, plan, job, chunk, work);
    if Blocked(job, Count(chunk)) {
      PendingDecides(allocate, plan, job, chunk, work);
    } else if Calm(script, clock) && job.phase.Open? {
      assert Smooth(script(clock));
      AppendSucceeds(allocate, plan, job, chunk, work);
    }
    if NeverRecorded(script) && !Published(job) {
      AppendKeepsPrivate(allocate, job, |job.completed|, chunk, work);
    }
    if AllOrNothing(script) && job.pending.None? {
      AppendLeavesNothing(allocate, job, |job.completed|, chunk, work);
    }
  }

  // ---------- vertices ----------

  /** Where the client stands in the vertex rows: the rows before `at` are bound to their ids. */
  ghost predicate Tracking(texts: seq<Line<VertexRow>>, vs: seq<VertexRow>, allocate: Allocate,
                           reader: RowReader<VertexRow>, held: seq<VertexRow>, ids: IdMap, at: nat)
    reads reader
  {
    Holding(texts, vs, reader, held, at) && ids == Bound(vs, allocate, at)
  }

  lemma RowFollows<T>(texts: seq<Line<T>>, all: seq<T>, pos: nat)
    requires ParsesTo(texts, all) && pos < |texts|
    ensures |texts| == |all| && texts[pos..][0] == texts[pos] && texts[pos].row == Some(all[pos])
    ensures texts[pos..][1..] == texts[pos + 1..]
  {}

  /** In an artifact that parses, reading yields the next row until there is none. */
  method ReadNext<T>(reader: RowReader<T>, ghost texts: seq<Line<T>>, ghost all: seq<T>, ghost pos: nat)
    returns (r: Result<Option<(T, nat)>, LoadError>)
    requires ParsesTo(texts, all) && pos <= |all| == |texts| && reader.Valid() && reader.Rest() == texts[pos..]
    requires forall i :: 0 <= i < |texts| ==> texts[i].Text?
    modifies reader
    ensures reader.Valid() && r.Ok?
    ensures pos == |all| ==> r.value.None? && reader.Rest() == texts[pos..]
    ensures pos < |all| ==>
              r.value.Some? && r.value.value == (all[pos], texts[pos].size) && reader.Rest() == texts[pos + 1..]
  {
    hide ParsesTo, Texts;
    if pos < |all| {
      RowFollows(texts, all, pos);
    }
    var next := reader.NextRow();
    return if next.Ok? then Ok(next.value) else Err(Artifact);
  }

  lemma HoldOne<T>(all: seq<T>, held: seq<T>, at: nat)
    requires at + |held| < |all| && held == all[at..at + |held|]
    ensures held + [all[at + |held|]] == all[at..at + |held| + 1]
  {}

  lemma TrackBasics(texts: seq<Line<VertexRow>>, vs: seq<VertexRow>, allocate: Allocate,
                    reader: RowReader<VertexRow>, held: seq<VertexRow>, ids: IdMap, at: nat)
    requires Tracking(texts, vs, allocate, reader, held, ids, at)
    ensures at + |held| <= |vs| == |texts| && held == vs[at..at + |held|] && ids == Bound(vs, allocate, at)
    ensures reader.Valid() && reader.Rest() == texts[at + |held|..] && ParsesTo(texts, vs)
  {}

  lemma TrackSame(texts: seq<Line<VertexRow>>, vs: seq<VertexRow>, allocate: Allocate,
                  reader: RowReader<VertexRow>, held: seq<VertexRow>, ids: IdMap, at: nat)
    requires ParsesTo(texts, vs) && at + |held| <= |vs| == |texts| && held == vs[at..at + |held|]
    requires reader.Valid() && reader.Rest() == texts[at + |held|..] && ids == Bound(vs, allocate, at)
    ensures Tracking(texts, vs, allocate, reader, held, ids, at)
  {}

  lemma TrackBind(texts: seq<Line<VertexRow>>, vs: seq<VertexRow>, allocate: Allocate, reader: RowReader<VertexRow>,
                  ids: IdMap, at: nat)
    requires ParsesTo(texts, vs) && at < |vs| == |texts| && reader.Valid() && reader.Rest() == texts[at + 1..]
    requires ids == Bound(vs, allocate, at)
    ensures Tracking(texts, vs, allocate, reader, [], ids[vs[at].sourceId := allocate(at)], at + 1)
  {
    hide ParsesTo, Texts;
    BoundStep(vs, allocate, at);
  }

  lemma TrackHold(texts: seq<Line<VertexRow>>, vs: seq<VertexRow>, allocate: Allocate,
                  reader: RowReader<VertexRow>, held: seq<VertexRow>, ids: IdMap, at: nat)
    requires ParsesTo(texts, vs) && at + |held| < |vs| == |texts| && held == vs[at..at + |held|]
    requires reader.Valid() && reader.Rest() == texts[at + |held| + 1..] && ids == Bound(vs, allocate, at)
    ensures Tracking(texts, vs, allocate, reader, held + [vs[at + |held|]], ids, at)
  {
    hide ParsesTo, Texts, Bound;
    HoldOne(vs, held, at);
  }

  lemma BoundStep(vs: seq<VertexRow>, allocate: Allocate, at: nat)
    requires at < |vs|
    ensures Bound(vs, allocate, at + 1) == Bound(vs, allocate, at)[vs[at].sourceId := allocate(at)]
  {}

  /** The coming rows' share of a window. */
  function Share<T>(texts: seq<Line<T>>, pos: nat, target: nat, held: nat, bytes: nat): nat
    requires (forall i :: 0 <= i < |texts| ==> texts[i].Text?) && pos <= |texts|
  {
    Taken(Sizes(texts[pos..]), target, held, bytes)
  }

  lemma ShareStep<T>(texts: seq<Line<T>>, pos: nat, target: nat, held: nat, bytes: nat)
    requires (forall i :: 0 <= i < |texts| ==> texts[i].Text?) && pos <= |texts|
    ensures Share(texts, pos, target, held, bytes) ==
              if held >= target || bytes >= MAX_ACCUMULATED_RAW_BYTES || pos == |texts| then 0
              else 1 + Share(texts, pos + 1, target, held + 1, bytes + texts[pos].size)
  {
    if pos < |texts| {
      assert Sizes(texts[pos..])[1..] == Sizes(texts[pos + 1..]);
    }
  }

  /** Read rows: those committed by an earlier run are bound to their recorded ids, the others are held. */
  method FillVertices(reader: RowReader<VertexRow>, held0: seq<VertexRow>, target: nat, committed: nat,
                      given: seq<Bytes>, ids0: IdMap, ghost texts: seq<Line<VertexRow>>,
                      ghost vs: seq<VertexRow>, ghost allocate: Allocate, ghost at0: nat)
    returns (r: Result<(seq<VertexRow>, IdMap), LoadError>)
    requires target > 0 && Tracking(texts, vs, allocate, reader, held0, ids0, at0)
    requires given == Ids(allocate, at0, committed) && at0 + committed <= |vs| && (committed > 0 ==> held0 == [])
    modifies reader
    ensures r.Ok? && |texts| == |vs| && (forall i :: 0 <= i < |texts| ==> texts[i].Text?)
    ensures var at := at0 + committed;
            && Tracking(texts, vs, allocate, reader, r.value.0, r.value.1, at)
            && (r.value.0 == [] <==> at == |vs|) && at + |held0| <= |vs|
            && |r.value.0| == |held0| + Share(texts, at + |held0|, target, |held0|, 0)
  {
    hide ParsesTo, Texts, Bound, Tracking, Share;
    TrackBasics(texts, vs, allocate, reader, held0, ids0, at0);
    TextsParse(texts, vs);
    var held, ids, remaining, bytes := held0, ids0, committed, 0;
    ghost var at: nat := at0;
    ghost var window := |held0| + Share(texts, at0 + committed + |held0|, target, |held0|, 0);
    while |held| < target && bytes < MAX_ACCUMULATED_RAW_BYTES
      invariant Tracking(texts, vs, allocate, reader, held, ids, at)
      invariant 0 <= remaining <= committed && at == at0 + committed - remaining && at + |held| <= |vs|
      invariant remaining > 0 || held == [] ==> held == [] && bytes == 0
      invariant remaining == 0 ==> |held| + Share(texts, at + |held|, target, |held|, bytes) == window
      decreases |vs| - at - |held|
    {
      TrackBasics(texts, vs, allocate, reader, held, ids, at);
      ShareStep(texts, at + |held|, target, |held|, bytes);
      var next := ReadNext(reader, texts, vs, at + |held|);
      if next.Err? {
        return Err(Artifact);
      }
      if next.value.None? {
        TrackSame(texts, vs, allocate, reader, held, ids, at);
        break;
      }
      var (row, size) := next.value.value;
      if remaining > 0 {
        var used := committed - remaining;
        if used >= |given| {
          return Err(Remote);
        }
        TrackBind(texts, vs, allocate, reader, ids, at);
        ids := ids[row.sourceId := given[used]];
        remaining := remaining - 1;
        at := at + 1;
      } else {
        TrackHold(texts, vs, allocate, reader, held, ids, at);
        bytes := bytes + size;
        held := held + [row];
      }
    }
    TrackBasics(texts, vs, allocate, reader, held, ids, at);
    ShareStep(texts, at + |held|, target, |held|, bytes);
    return Ok((held, ids));
  }

  type Size = Chunk -> nat

  function VertexMeasure(size: Size, items: seq<Vertex>): Measure
  {
    (n: nat) => size(Vertices(if n <= |items| then items[..n] else items))
  }

  function EdgeMeasure(size: Size, items: seq<Edge>): Measure
  {
    (n: nat) => size(Edges(if n <= |items| then items[..n] else items))
  }

  /** The rows to gather before fitting: the last chunk's length, or a generous first batch. */
  function Target(hint: Option<nat>): (n: nat)
    ensures hint != Some(0) ==> n > 0
  {
    if hint.Some? then hint.value else INITIAL_CHUNK_ROWS
  }

  /** From a window of `n` vertices at `at`, a chunk of `count` is cut. */
  ghost predicate VertexFits(size: Size, plan: Plan, hint: Option<nat>, at: nat, n: nat, count: nat)
  {
    && 0 < n && at + n <= |plan.vertices|
    && var fit := Fit(n, hint, INTER_CANISTER, VertexMeasure(size, plan.vertices[at..at + n]));
       fit.Ok? && fit.value.count == count
  }

  ghost predicate EdgeFits(size: Size, plan: Plan, hint: Option<nat>, at: nat, n: nat, count: nat)
  {
    && 0 < n && at + n <= |plan.edges|
    && var fit := Fit(n, hint, INTER_CANISTER, EdgeMeasure(size, plan.edges[at..at + n]));
       fit.Ok? && fit.value.count == count
  }

  /** Not even one of the rows from `at` on fits a message. */
  ghost predicate VertexTooBigAt(size: Size, plan: Plan, hint: Option<nat>, at: nat, n: nat)
  {
    0 < n && at + n <= |plan.vertices| &&
    Fit(n, hint, INTER_CANISTER, VertexMeasure(size, plan.vertices[at..at + n])).Err?
  }

  ghost predicate EdgeTooBigAt(size: Size, plan: Plan, hint: Option<nat>, at: nat, n: nat)
  {
    0 < n && at + n <= |plan.edges| &&
    Fit(n, hint, INTER_CANISTER, EdgeMeasure(size, plan.edges[at..at + n])).Err?
  }

  /** Somewhere in the artifact not even one row fits a message. */
  ghost predicate Oversized(size: Size, plan: Plan)
  {
    || (exists hint, at, n :: VertexTooBigAt(size, plan, hint, at, n))
    || (exists hint, at, n :: EdgeTooBigAt(size, plan, hint, at, n))
  }

  /** A pending chunk stands in the way of the chunk cut from a window of `n` vertices at `at`. */
  ghost predicate VertexStuck(size: Size, plan: Plan, hint: Option<nat>, at: nat, n: nat, job: Job)
  {
    && job.pending.Some?
    && (Exposed(job) || !VertexFits(size, plan, hint, at, n, Count(job.pending.value.chunk)))
  }

  ghost predicate EdgeStuck(size: Size, plan: Plan, hint: Option<nat>, at: nat, n: nat, job: Job)
  {
    && job.pending.Some?
    && (Exposed(job) || !EdgeFits(size, plan, hint, at, n, Count(job.pending.value.chunk)))
  }

  lemma VerticesFirst(allocate: Allocate, plan: Plan, job: Job)
    requires Faithfully(allocate, plan, job)
    ensures PublicV(job) <= |plan.vertices| && PublicE(job) <= |plan.edges|
    ensures PublicV(job) < |plan.vertices| ==> PublicE(job) == 0
  {
    hide IdsOf, EdgesOf;
  }

  lemma VertexSlice(vs: seq<VertexRow>, plan: Plan, held: seq<VertexRow>, at: nat, count: nat)
    requires plan.vertices == VertexItems(vs) && 0 < count <= |held|
    requires at + |held| <= |vs| && held == vs[at..at + |held|]
    ensures IsSlice(plan, Vertices(VertexItems(held)[..count]), at, 0)
    ensures VertexItems(held) == plan.vertices[at..at + |held|]
  {
    assert VertexItems(held)[..count] == plan.vertices[at..at + count];
  }

  lemma VertexCounts(items: seq<Vertex>, count: nat)
    requires count <= |items|
    ensures Count(Vertices(items[..count])) == count
  {}

  /** Fit and send one chunk of the vertices held; bind the committed ones to the ids they were given. */
  method SendVertices(service: Service, held: seq<VertexRow>, ids: IdMap, hint: Option<nat>, index: nat, size: Size,
                      ghost vs: seq<VertexRow>, ghost plan: Plan, ghost at: nat)
    returns (r: Result<(nat, nat, IdMap), LoadError>)
    requires held != [] && at + |held| <= |vs| && held == vs[at..at + |held|] && plan.vertices == VertexItems(vs)
    requires Underway(service, plan) && at == PublicV(service.job.value) && index == |service.job.value.completed|
    requires ids == Bound(vs, service.allocate, at)
    modifies service
    ensures Underway(service, plan) && Onward(old(service.job), service.job) && service.clock >= old(service.clock)
    ensures r.Ok? ==>
              var (sent, n, bound) := r.value;
              && 0 < sent && 0 < n <= |held| && |service.job.value.completed| == index + 1
              && PublicV(service.job.value) == at + n && PublicE(service.job.value) == old(PublicE(service.job.value))
              && bound == Bound(vs, service.allocate, at + n) && service.job.value.pending.None?
    ensures r == Err(Artifact) ==> VertexTooBigAt(size, plan, hint, at, |held|)
    ensures VertexStuck(size, plan, hint, at, |held|, old(service.job.value)) ==>
              r.Err? && service.job == old(service.job)
    ensures Calm(service.script, old(service.clock)) && old(service.job.value.phase).Open? ==>
              !VertexStuck(size, plan, hint, at, |held|, old(service.job.value)) ==>
                r == Err(Artifact) || (service.job.value.pending.None? && (r.Ok? <==> !Idle(old(service.job.value))))
    ensures AllOrNothing(service.script) && old(service.job.value.pending).None? ==> service.job.value.pending.None?
  {
    hide Faithfully, Guarded, PublicV, PublicE, Fit, Bound, ReceiptFits, IsSlice, Calm, Idle, Exposed, AllOrNothing,
         VertexMeasure;
    var items := VertexItems(held);
    VertexSlice(vs, plan, held, at, |held|);
    var fit := AdaptiveFittingPrefix(|held|, hint, INTER_CANISTER, VertexMeasure(size, items));
    if fit.Err? || fit.value.None? {
      return Err(Artifact);
    }
    var count := fit.value.value.count;
    var chunk := Vertices(items[..count]);
    VertexCounts(items, count);
    VertexSlice(vs, plan, held, at, count);
    VerticesFirst(service.allocate, plan, service.job.value);
    var answer := Send(service, index, chunk, plan);
    if answer.Err? {
      return Err(Remote);
    }
    var n := answer.value.vertices + answer.value.edges;
    if n == 0 {
      return Err(Remote);
    }
    VertexReceipt(service.allocate, chunk, answer.value, at);
    assert held[..n] == vs[at..at + n];
    var bound := BindIds(ids, held[..n], answer.value.ids, vs, service.allocate, at);
    return Ok((count, n, bound));
  }

  lemma VertexReceipt(allocate: Allocate, chunk: Chunk, receipt: Receipt, v: nat)
    requires ReceiptFits(allocate, chunk, receipt, v) && chunk.Vertices?
    ensures receipt.edges == 0 && receipt.vertices == |receipt.ids| <= Count(chunk)
    ensures receipt.ids == Ids(allocate, v, |receipt.ids|)
  {}

  /** The chunk a restarted run would begin with is not the one pending. */
  ghost predicate FirstVertexStuck(size: Size, plan: Plan, texts: seq<Line<VertexRow>>, job: Job)
    requires |texts| == |plan.vertices| && forall i :: 0 <= i < |texts| ==> texts[i].Text?
  {
    PublicV(job) < |plan.vertices| ==>
      VertexStuck(size, plan, None, PublicV(job), FreshWindow(Sizes(texts[PublicV(job)..])), job)
  }

  ghost predicate FirstEdgeStuck(size: Size, plan: Plan, texts: seq<Line<EdgeRow>>, job: Job)
    requires |texts| == |plan.edges| && forall i :: 0 <= i < |texts| ==> texts[i].Text?
  {
    PublicE(job) < |plan.edges| ==>
      EdgeStuck(size, plan, None, PublicE(job), FreshWindow(Sizes(texts[PublicE(job)..])), job)
  }

  lemma FirstWindow<T>(texts: seq<Line<T>>, at: nat)
    requires (forall i :: 0 <= i < |texts| ==> texts[i].Text?) && at <= |texts|
    ensures Share(texts, at, INITIAL_CHUNK_ROWS, 0, 0) == FreshWindow(Sizes(texts[at..]))
  {}

  /** All vertices: committed rows are matched to their recorded ids, the rest are sent chunk by chunk. */
  method VertexPhase(service: Service, reader: RowReader<VertexRow>, size: Size, next: nat, committed: nat,
                     given: seq<Bytes>, ghost texts: seq<Line<VertexRow>>, ghost vs: seq<VertexRow>, ghost plan: Plan)
    returns (r: Result<(IdMap, nat), LoadError>)
    requires Underway(service, plan) && plan.vertices == VertexItems(vs) && next == |service.job.value.completed|
    requires committed == PublicV(service.job.value) && given == Ids(service.allocate, 0, committed)
    requires Tracking(texts, vs, service.allocate, reader, [], map[], 0)
    requires |texts| == |vs| && forall i :: 0 <= i < |texts| ==> texts[i].Text?
    modifies service, reader
    ensures Underway(service, plan) && Onward(old(service.job), service.job) && service.clock >= old(service.clock)
    ensures r.Ok? ==>
              && PublicV(service.job.value) == |vs| && PublicE(service.job.value) == old(PublicE(service.job.value))
              && r.value.1 == |service.job.value.completed| && r.value.0 == Bound(vs, service.allocate, |vs|)
    ensures r == Err(Artifact) ==> Oversized(size, plan)
    ensures committed == |vs| ==> r.Ok? && service.job == old(service.job)
    ensures committed < |vs| && r.Ok? ==> service.job.value.pending.None?
    ensures committed < |vs| && FirstVertexStuck(size, plan, texts, old(service.job.value)) ==>
              r.Err? && service.job == old(service.job)
    ensures Calm(service.script, old(service.clock)) && old(service.job.value.phase).Open? && committed < |vs| ==>
              !FirstVertexStuck(size, plan, texts, old(service.job.value)) ==>
                r == Err(Artifact) || (service.job.value.pending.None? && (r.Ok? <==> !Idle(old(service.job.value))))
    ensures AllOrNothing(service.script) && old(service.job.value.pending).None? ==> service.job.value.pending.None?
  {
    hide Faithfully, Guarded, PublicV, PublicE, Bound, ParsesTo, Texts, Tracking, Holding, VertexTooBigAt, Calm;
    hide VertexFits, Share, Idle, Exposed, AllOrNothing, FreshWindow;
    var held: seq<VertexRow>, ids: IdMap := [], map[];
    var index, remaining, left := next, committed, given;
    var hint: Option<nat> := None;
    ghost var at: nat := 0;
    ghost var job0, start, first := service.job, service.clock, true;
    VerticesFirst(service.allocate, plan, service.job.value);
    while true
      invariant Underway(service, plan) && Onward(job0, service.job) && service.clock >= start
      invariant index == |service.job.value.completed| && PublicE(service.job.value) == PublicE(job0.value)
      invariant Tracking(texts, vs, service.allocate, reader, held, ids, at)
      invariant at + remaining == PublicV(service.job.value) <= |vs| && left == Ids(service.allocate, at, remaining)
      invariant remaining > 0 ==> held == [] && at == 0
      invariant hint != Some(0)
      invariant first ==> service.job == job0 && held == [] && hint == None && at + remaining == committed
      invariant !first ==> service.job.value.pending.None? && committed < |vs|
      invariant !first ==> !FirstVertexStuck(size, plan, texts, job0.value)
      invariant Calm(service.script, start) && job0.value.phase.Open? && !first ==> !Idle(job0.value)
      decreases remaining, |vs| - at
    {
      var filled := FillVertices(reader, held, Target(hint), remaining, left, ids, texts, vs, service.allocate, at);
      if filled.Err? {
        return Err(Remote);
      }
      held, ids := filled.value.0, filled.value.1;
      at := at + remaining;
      remaining, left := 0, [];
      if held == [] {
        break;
      }
      TrackBasics(texts, vs, service.allocate, reader, held, ids, at);
      if first {
        FirstWindow(texts, at);
      }
      if Calm(service.script, start) {
        CalmLater(service.script, start, service.clock);
      }
      ghost var before := service.job.value;
      var sent := SendVertices(service, held, ids, hint, index, size, vs, plan, at);
      NothingIsStuck(size, plan, hint, at, |held|, before);
      if sent.Err? {
        return Err(sent.error);
      }
      var (count, n, bound) := sent.value;
      TrackOn(texts, vs, service.allocate, reader, held, ids, at, n, bound);
      held, ids, index, hint := held[n..], bound, index + 1, Some(count);
      at, first := at + n, false;
    }
    TrackBasics(texts, vs, service.allocate, reader, held, ids, at);
    return Ok((ids, index));
  }

  lemma NothingIsStuck(size: Size, plan: Plan, hint: Option<nat>, at: nat, n: nat, job: Job)
    ensures job.pending.None? ==> !VertexStuck(size, plan, hint, at, n, job) && !EdgeStuck(size, plan, hint, at, n, job)
    ensures job.pending.None? ==> !Idle(job)
  {}

  lemma TrackOn(texts: seq<Line<VertexRow>>, vs: seq<VertexRow>, allocate: Allocate,
                reader: RowReader<VertexRow>, held: seq<VertexRow>, ids: IdMap, at: nat, n: nat, bound: IdMap)
    requires Tracking(texts, vs, allocate, reader, held, ids, at) && n <= |held| && bound == Bound(vs, allocate, at + n)
    ensures Tracking(texts, vs, allocate, reader, held[n..], bound, at + n)
  {
    HeldTail(vs, held, at, n);
  }

  lemma HeldTail<T>(all: seq<T>, held: seq<T>, at: nat, n: nat)
    requires at + |held| <= |all| && held == all[at..at + |held|] && n <= |held|
    ensures held[n..] == all[at + n..at + n + |held[n..]|]
  {}

  // ---------- edges ----------

  /** With these ids, the edge rows are these edges. */
  ghost predicate ResolveTo(es: seq<EdgeRow>, ids: IdMap, edges: seq<Edge>)
  {
    |edges| == |es| && forall i :: 0 <= i < |es| ==> EdgeItem(es[i], ids) == Ok(edges[i])
  }

  lemma EdgeSlice(es: seq<EdgeRow>, plan: Plan, ids: IdMap, held: seq<EdgeRow>, items: seq<Edge>, v: nat, at: nat,
                  count: nat)
    requires ResolveTo(es, ids, plan.edges)
    requires 0 < count <= |held| == |items| && at + |held| <= |es| && held == es[at..at + |held|]
    requires (forall i :: 0 <= i < |held| ==> Ok(items[i]) == EdgeItem(held[i], ids)) && v == |plan.vertices|
    ensures IsSlice(plan, Edges(items[..count]), v, at)
  {
    hide EdgeItem;
    forall i | 0 <= i < count ensures items[i] == plan.edges[at + i] {
      assert held[i] == es[at + i];
    }
    assert items[..count] == plan.edges[at..at + count];
  }

  lemma EdgeCounts(items: seq<Edge>, count: nat)
    requires count <= |items|
    ensures Count(Edges(items[..count])) == count
  {}

  /** Resolve, fit and send one chunk of the edges held. In a valid artifact no endpoint fails to resolve. */
  method SendEdges(service: Service, held: seq<EdgeRow>, ids: IdMap, hint: Option<nat>, index: nat, size: Size,
                   ghost es: seq<EdgeRow>, ghost plan: Plan, ghost at: nat)
    returns (r: Result<(nat, nat), LoadError>)
    requires held != [] && at + |held| <= |es| && held == es[at..at + |held|]
    requires ResolveTo(es, ids, plan.edges)
    requires Underway(service, plan) && PublicV(service.job.value) == |plan.vertices|
    requires at == PublicE(service.job.value) && index == |service.job.value.completed|
    modifies service
    ensures Underway(service, plan) && Onward(old(service.job), service.job) && service.clock >= old(service.clock)
    ensures r.Ok? ==>
              var (sent, n) := r.value;
              && 0 < sent && 0 < n <= |held| && |service.job.value.completed| == index + 1
              && PublicV(service.job.value) == |plan.vertices| && PublicE(service.job.value) == at + n
              && service.job.value.pending.None?
    ensures r == Err(Artifact) ==> EdgeTooBigAt(size, plan, hint, at, |held|)
    ensures EdgeStuck(size, plan, hint, at, |held|, old(service.job.value)) ==>
              r.Err? && service.job == old(service.job)
    ensures Calm(service.script, old(service.clock)) && old(service.job.value.phase).Open? ==>
              !EdgeStuck(size, plan, hint, at, |held|, old(service.job.value)) ==>
                r == Err(Artifact) || (service.job.value.pending.None? && (r.Ok? <==> !Idle(old(service.job.value))))
    ensures AllOrNothing(service.script) && old(service.job.value.pending).None? ==> service.job.value.pending.None?
  {
    hide Faithfully, Guarded, PublicV, PublicE, Fit, ReceiptFits, IsSlice, EdgeItem, Calm, Idle, Exposed, AllOrNothing,
         EdgeMeasure;
    assert forall i :: 0 <= i < |held| ==> held[i] == es[at + i];
    var built := EdgeItems(held, ids);
    assert built.Ok?;
    var items := built.value;
    assert items == plan.edges[at..at + |held|] by {
      EdgeSlice(es, plan, ids, held, items, |plan.vertices|, at, |held|);
      SliceItems(plan, items, |plan.vertices|, at);
    }
    var fit := AdaptiveFittingPrefix(|held|, hint, INTER_CANISTER, EdgeMeasure(size, items));
    if fit.Err? || fit.value.None? {
      return Err(Artifact);
    }
    var count := fit.value.value.count;
    var chunk := Edges(items[..count]);
    EdgeCounts(items, count);
    EdgeSlice(es, plan, ids, held, items, |plan.vertices|, at, count);
    var answer := Send(service, index, chunk, plan);
    if answer.Err? {
      return Err(Remote);
    }
    var n := answer.value.vertices + answer.value.edges;
    if n == 0 {
      return Err(Remote);
    }
    EdgeReceipt(service.allocate, chunk, answer.value, |plan.vertices|);
    return Ok((count, n));
  }

  lemma SliceItems(plan: Plan, items: seq<Edge>, v: nat, at: nat)
    requires IsSlice(plan, Edges(items[..|items|]), v, at)
    ensures at + |items| <= |plan.edges| && items == plan.edges[at..at + |items|]
  {
    assert items[..|items|] == items;
  }

  lemma EdgeReceipt(allocate: Allocate, chunk: Chunk, receipt: Receipt, v: nat)
    requires ReceiptFits(allocate, chunk, receipt, v) && chunk.Edges?
    ensures receipt.vertices == 0 && receipt.ids == [] && receipt.edges <= Count(chunk)
  {}

  lemma ShareNonEmpty<T>(texts: seq<Line<T>>, pos: nat, target: nat)
    requires (forall i :: 0 <= i < |texts| ==> texts[i].Text?) && pos <= |texts| && target > 0
    ensures Share(texts, pos, target, 0, 0) > 0 <==> pos < |texts|
  {}

  lemma HoldBasics<T>(texts: seq<Line<T>>, all: seq<T>, reader: RowReader<T>, held: seq<T>, at: nat)
    requires Holding(texts, all, reader, held, at)
    ensures at + |held| <= |all| && held == all[at..at + |held|]
  {}

  lemma HoldOn<T>(texts: seq<Line<T>>, all: seq<T>, reader: RowReader<T>, held: seq<T>, at: nat, n: nat)
    requires Holding(texts, all, reader, held, at) && n <= |held|
    ensures Holding(texts, all, reader, held[n..], at + n)
  {
    HeldTail(all, held, at, n);
  }

  /** All edges after the committed ones, chunk by chunk. */
  method EdgePhase(service: Service, reader: RowReader<EdgeRow>, size: Size, next: nat, ids: IdMap,
                   ghost texts: seq<Line<EdgeRow>>, ghost es: seq<EdgeRow>, ghost plan: Plan)
    returns (r: Result<(), LoadError>)
    requires Underway(service, plan)
    requires ResolveTo(es, ids, plan.edges)
    requires PublicV(service.job.value) == |plan.vertices| && next == |service.job.value.completed|
    requires Holding(texts, es, reader, [], PublicE(service.job.value))
    requires |texts| == |es| == |plan.edges| && forall i :: 0 <= i < |texts| ==> texts[i].Text?
    modifies service, reader
    ensures Underway(service, plan) && Onward(old(service.job), service.job) && service.clock >= old(service.clock)
    ensures r.Ok? ==> PublicV(service.job.value) == |plan.vertices| && PublicE(service.job.value) == |plan.edges|
    ensures r == Err(Artifact) ==> Oversized(size, plan)
    ensures old(PublicE(service.job.value)) == |es| ==> r.Ok? && service.job == old(service.job)
    ensures old(PublicE(service.job.value)) < |es| && r.Ok? ==> service.job.value.pending.None?
    ensures old(PublicE(service.job.value)) < |es| && FirstEdgeStuck(size, plan, texts, old(service.job.value)) ==>
              r.Err? && service.job == old(service.job)
    ensures Calm(service.script, old(service.clock)) && old(service.job.value.phase).Open? ==>
              old(PublicE(service.job.value)) < |es| && !FirstEdgeStuck(size, plan, texts, old(service.job.value)) ==>
                r == Err(Artifact) || (service.job.value.pending.None? && (r.Ok? <==> !Idle(old(service.job.value))))
    ensures AllOrNothing(service.script) && old(service.job.value.pending).None? ==> service.job.value.pending.None?
  {
    hide Faithfully, Guarded, PublicV, PublicE, ParsesTo, Texts, EdgeItem, Fit, EdgeTooBigAt, Calm;
    hide EdgeFits, Idle, Exposed, AllOrNothing, FreshWindow, Taken, Sizes, Holding, ResolveTo;
    var held: seq<EdgeRow> := [];
    var index := next;
    var hint: Option<nat> := None;
    ghost var at: nat := PublicE(service.job.value);
    ghost var job0, start, first := service.job, service.clock, true;
    while true
      invariant Underway(service, plan) && Onward(job0, service.job) && service.clock >= start
      invariant index == |service.job.value.completed|
      invariant Holding(texts, es, reader, held, at)
      invariant PublicV(service.job.value) == |plan.vertices| && at == PublicE(service.job.value)
      invariant hint != Some(0)
      invariant first ==> service.job == job0 && held == [] && hint == None
      invariant !first ==> service.job.value.pending.None? && PublicE(job0.value) < |es|
      invariant !first ==> !FirstEdgeStuck(size, plan, texts, job0.value)
      invariant Calm(service.script, start) && job0.value.phase.Open? && !first ==> !Idle(job0.value)
      decreases |es| - at
    {
      HoldBasics(texts, es, reader, held, at);
      if held == [] {
        ShareNonEmpty(texts, at, Target(hint));
        FirstWindow(texts, at);
      }
      held := TopUp(reader, held, Target(hint), texts, es, at);
      HoldBasics(texts, es, reader, held, at);
      if held == [] {
        break;
      }
      if Calm(service.script, start) {
        CalmLater(service.script, start, service.clock);
      }
      ghost var before := service.job.value;
      var sent := SendEdges(service, held, ids, hint, index, size, es, plan, at);
      NothingIsStuck(size, plan, hint, at, |held|, before);
      if sent.Err? {
        return Err(sent.error);
      }
      var (count, n) := sent.value;
      HoldOn(texts, es, reader, held, at, n);
      held, index, hint := held[n..], index + 1, Some(count);
      at, first := at + n, false;
    }
    return Ok(());
  }

  // ---------- when a pending chunk stops every run ----------

  /** No run gets past the pending chunk: its rows are public already, or the chunk a restarted run begins
      with has another length, or there is nothing left to send. */
  ghost predicate Wedged(size: Size, plan: Plan, vertexTexts: seq<Line<VertexRow>>, edgeTexts: seq<Line<EdgeRow>>,
                         job: Job)
    requires |vertexTexts| == |plan.vertices| && forall i :: 0 <= i < |vertexTexts| ==> vertexTexts[i].Text?
    requires |edgeTexts| == |plan.edges| && forall i :: 0 <= i < |edgeTexts| ==> edgeTexts[i].Text?
  {
    && job.pending.Some? && FirstVertexStuck(size, plan, vertexTexts, job)
    && (PublicV(job) == |plan.vertices| ==> FirstEdgeStuck(size, plan, edgeTexts, job))
  }

  // ---------- a whole run, and any number of them ----------

  method Observe(service: Service, ghost plan: Plan) returns (r: Result<Option<(StatusPage, seq<Receipt>)>, LoadError>)
    requires Sane(service.allocate, plan, service.job)
    modifies service
    ensures OnlyPhase(old(service.job), service.job) && Sane(service.allocate, plan, service.job)
    ensures Grown(old(service.job), service.job) && service.clock > old(service.clock)
    ensures Guarded(service.script, plan, old(service.job)) ==> Guarded(service.script, plan, service.job)
    ensures Calm(service.script, old(service.clock)) ==> r.Ok? && Caught(old(service.job), service.job)
    ensures NeverFails(service.script) && !HasFailed(old(service.job)) ==> !HasFailed(service.job)
    ensures r.Ok? ==> (r.value.Some? <==> service.job.Some?)
    ensures r.Ok? && r.value.Some? ==>
              && r.value.value.0.phase == service.job.value.phase
              && r.value.value.0.next == |service.job.value.completed|
              && r.value.value.1 == PublicReceipts(service.job.value)
  {
    hide Faithfully, PublicReceipts, Calm, NeverFails;
    ghost var before := service.job;
    r := StatusPaged(service);
    OnlyPhaseKeeps(service.allocate, plan, before, service.job);
  }

  /** Open or find the job and read where to resume. */
  method Prepare(service: Service, ghost plan: Plan) returns (r: Result<Option<(nat, Resume)>, LoadError>)
    requires Sane(service.allocate, plan, service.job) && Guarded(service.script, plan, service.job)
    modifies service
    ensures Sane(service.allocate, plan, service.job) && Guarded(service.script, plan, service.job)
    ensures Grown(old(service.job), service.job) && service.clock > old(service.clock)
    ensures r == Ok(None) ==> service.job.Some? && service.job.value.phase.Completed?
    ensures r.Ok? && r.value.Some? ==>
              && service.job.Some? && r.value.value.0 == |service.job.value.completed|
              && var job := service.job.value;
                 && r.value.value.1 == Resume(PublicV(job), PublicE(job), Ids(service.allocate, 0, PublicV(job)))
                 && PublicV(job) <= |plan.vertices| && PublicE(job) <= |plan.edges|
    ensures r != Err(Artifact)
    ensures old(service.job).Some? && old(service.job).value.phase.Open? ==> service.job == old(service.job)
    ensures PendingOf(service.job) == PendingOf(old(service.job))
    ensures Calm(service.script, old(service.clock)) && !HasFailed(old(service.job)) ==>
              r.Ok? && (r.value.Some? ==> service.job.value.phase.Open?)
    ensures NeverFails(service.script) && !HasFailed(old(service.job)) ==> !HasFailed(service.job)
  {
    hide Faithfully, Guarded, PublicV, PublicE, PublicReceipts, Tally, Calm, NeverFails;
    ghost var start := service.clock;
    EmptyIsFaithful(service.allocate, plan);
    var known := Observe(service, plan);
    if known.Err? {
      return Err(Remote);
    }
    if known.value.Some? && known.value.value.0.phase.Completed? {
      return Ok(None);
    }
    if known.value.Some? && known.value.value.0.phase.Failed? {
      return Err(Operator);
    }
    if service.job.None? {
      GuardedEmpty(service.script, plan);
    }
    if Calm(service.script, start) {
      CalmLater(service.script, start, service.clock);
    }
    var started := service.Start();
    if started.Err? {
      return Err(Remote);
    }
    if Calm(service.script, start) {
      CalmLater(service.script, start, service.clock);
    }
    var current := Observe(service, plan);
    if current.Err? || current.value.None? {
      return Err(Remote);
    }
    var resume := ResumePoint(current.value.value.1);
    TallyPublic(service.allocate, plan, service.job.value);
    return Ok(Some((current.value.value.0.next, resume)));
  }

  function PendingOf(job: Option<Job>): Option<Pending>
  {
    if job.Some? then job.value.pending else None
  }

  lemma GuardedSame(script: nat -> Fate, plan: Plan, a: Job, b: Job)
    requires a.pending == b.pending
    ensures Guarded(script, plan, Some(a)) <==> Guarded(script, plan, Some(b))
  {}

  lemma GuardedEmpty(script: nat -> Fate, plan: Plan)
    requires Guarded(script, plan, None)
    ensures Guarded(script, plan, Some(EMPTY_JOB))
  {}

  method Finish(service: Service, ghost plan: Plan) returns (r: Result<LoadOutcome, LoadError>)
    requires Underway(service, plan)
    requires PublicV(service.job.value) == |plan.vertices| && PublicE(service.job.value) == |plan.edges|
    modifies service
    ensures Underway(service, plan) && Grown(old(service.job), service.job) && service.clock > old(service.clock)
    ensures r.Ok? ==> service.job.value.phase.Completed?
    ensures r != Err(Artifact) && service.job.value.pending == old(service.job.value.pending)
    ensures old(service.job.value.pending).Some? ==> r.Err? && service.job == old(service.job)
    ensures Calm(service.script, old(service.clock)) && old(service.job.value.phase).Open? ==>
              old(service.job.value.pending).None? ==> r.Ok?
    ensures NeverFails(service.script) && !HasFailed(old(service.job)) ==> !HasFailed(service.job)
  {
    hide Faithfully, Guarded, PublicV, PublicE, Calm, NeverFails;
    ghost var start := service.clock;
    FinalizeKeeps(service.allocate, plan, service.job.value);
    GuardedSame(service.script, plan, service.job.value, Finalize(service.job.value).0);
    var closed := service.Close();
    if closed.Err? {
      return Err(Remote);
    }
    ghost var job0 := service.job;
    for i := 0 to MAX_POLLS
      invariant Underway(service, plan) && Grown(job0, service.job) && service.clock > start
      invariant service.job.value.pending == job0.value.pending
      invariant Calm(service.script, start) ==> i == 0 && service.job == job0
      invariant NeverFails(service.script) && !HasFailed(job0) ==> !HasFailed(service.job)
    {
      if Calm(service.script, start) {
        CalmLater(service.script, start, service.clock);
      }
      var current := Observe(service, plan);
      if current.Err? || current.value.None? {
        return Err(Remote);
      }
      if current.value.value.0.phase.Completed? {
        return Ok(Loaded);
      }
      if current.value.value.0.phase.Failed? {
        return Err(Operator);
      }
    }
    return Err(Operator);
  }

  /** Everything is in: each vertex under the id it was given, each edge, in the artifact's order. */
  ghost predicate AllIn(allocate: Allocate, plan: Plan, job: Option<Job>)
  {
    && job.Some?
    && job.value.vertices == Store(plan.vertices, Ids(allocate, 0, |plan.vertices|))
    && job.value.edges == plan.edges
  }

  lemma CompletedIsAllIn(allocate: Allocate, plan: Plan, job: Job)
    requires Faithfully(allocate, plan, job) && job.phase.Completed?
    ensures AllIn(allocate, plan, Some(job))
  {
    hide IdsOf, EdgesOf;
    assert plan.vertices[..|plan.vertices|] == plan.vertices;
  }

  /** The vertex phase, then the edge phase, from the resume point. */
  method Stream(service: Service, vertexLines: seq<Line<VertexRow>>, edgeLines: seq<Line<EdgeRow>>, size: Size,
                next: nat, resume: Resume, ghost vs: seq<VertexRow>, ghost es: seq<EdgeRow>, ghost plan: Plan)
    returns (r: Result<(), LoadError>)
    requires ParsesTo(Texts(vertexLines, 0), vs) && ParsesTo(Texts(edgeLines, 0), es)
    requires |Texts(vertexLines, 0)| == |plan.vertices| && |Texts(edgeLines, 0)| == |plan.edges|
    requires plan.vertices == VertexItems(vs) && ResolveTo(es, Bound(vs, service.allocate, |vs|), plan.edges)
    requires Underway(service, plan) && next == |service.job.value.completed|
    requires var job := service.job.value;
             resume == Resume(PublicV(job), PublicE(job), Ids(service.allocate, 0, PublicV(job)))
    modifies service
    ensures Underway(service, plan) && Onward(old(service.job), service.job) && service.clock >= old(service.clock)
    ensures r.Ok? ==> PublicV(service.job.value) == |plan.vertices| && PublicE(service.job.value) == |plan.edges|
    ensures r == Err(Artifact) ==> Oversized(size, plan)
    ensures Wedged(size, plan, Texts(vertexLines, 0), Texts(edgeLines, 0), old(service.job.value)) ==>
              service.job == old(service.job)
    ensures Calm(service.script, old(service.clock)) && old(service.job.value.phase).Open? ==>
              !Wedged(size, plan, Texts(vertexLines, 0), Texts(edgeLines, 0), old(service.job.value)) ==>
                r == Err(Artifact) || (service.job.value.pending.None? && (r.Ok? <==> !Idle(old(service.job.value))))
    ensures AllOrNothing(service.script) && old(service.job.value.pending).None? ==> service.job.value.pending.None?
  {
    hide Faithfully, Guarded, PublicV, PublicE, ParsesTo, Texts, Bound, Calm, Oversized, ResolveTo, VertexStuck,
         EdgeStuck;
    hide Idle, AllOrNothing, Grown, Tracking, Holding, FirstVertexStuck, FirstEdgeStuck;
    ghost var job0, start := service.job, service.clock;
    TextsParse(Texts(vertexLines, 0), vs);
    TextsParse(Texts(edgeLines, 0), es);
    VerticesFirst(service.allocate, plan, service.job.value);
    if job0.value.pending.None? {
      NothingHoldsUp(size, plan, Texts(vertexLines, 0), Texts(edgeLines, 0), job0.value);
    }
    FirstStuck(size, plan, Texts(vertexLines, 0), Texts(edgeLines, 0), job0.value);
    var vertexReader := new RowReader(vertexLines);
    TrackStart(Texts(vertexLines, 0), vs, service.allocate, vertexReader);
    var bound := VertexPhase(service, vertexReader, size, next, resume.vertices, resume.ids,
                             Texts(vertexLines, 0), vs, plan);
    if bound.Err? {
      return Err(bound.error);
    }
    if service.job.value.pending.None? {
      NothingHoldsUp(size, plan, Texts(vertexLines, 0), Texts(edgeLines, 0), service.job.value);
    }
    if Calm(service.script, start) {
      CalmLater(service.script, start, service.clock);
    }
    var edgeReader := new RowReader(edgeLines);
    edgeReader.SkipRows(resume.edges);
    HoldStart(Texts(edgeLines, 0), es, edgeReader, resume.edges);
    ghost var mid := service.job;
    r := EdgePhase(service, edgeReader, size, bound.value.1, bound.value.0, Texts(edgeLines, 0), es, plan);
    OnwardTrans(job0, mid, service.job);
  }

  lemma OnwardTrans(a: Option<Job>, b: Option<Job>, c: Option<Job>)
    requires Onward(a, b) && Onward(b, c)
    ensures Onward(a, c)
  {}

  lemma TrackStart(texts: seq<Line<VertexRow>>, vs: seq<VertexRow>, allocate: Allocate, reader: RowReader<VertexRow>)
    requires ParsesTo(texts, vs) && reader.Valid() && reader.Rest() == texts
    ensures Tracking(texts, vs, allocate, reader, [], map[], 0)
  {}

  lemma HoldStart<T>(texts: seq<Line<T>>, all: seq<T>, reader: RowReader<T>, at: nat)
    requires ParsesTo(texts, all) && reader.Valid() && at <= |all| == |texts| && reader.Rest() == texts[at..]
    ensures Holding(texts, all, reader, [], at)
  {}

  /** A job that is not wedged gets past its first chunk, in the phase it is in. */
  lemma FirstStuck(size: Size, plan: Plan, vertexTexts: seq<Line<VertexRow>>, edgeTexts: seq<Line<EdgeRow>>, job: Job)
    requires |vertexTexts| == |plan.vertices| && forall i :: 0 <= i < |vertexTexts| ==> vertexTexts[i].Text?
    requires |edgeTexts| == |plan.edges| && forall i :: 0 <= i < |edgeTexts| ==> edgeTexts[i].Text?
    ensures !FirstVertexStuck(size, plan, vertexTexts, job) ==> PublicV(job) < |plan.vertices|
    ensures !FirstEdgeStuck(size, plan, edgeTexts, job) ==> PublicE(job) < |plan.edges|
  {}

  lemma NothingHoldsUp(size: Size, plan: Plan, vertexTexts: seq<Line<VertexRow>>, edgeTexts: seq<Line<EdgeRow>>,
                       job: Job)
    requires |vertexTexts| == |plan.vertices| && forall i :: 0 <= i < |vertexTexts| ==> vertexTexts[i].Text?
    requires |edgeTexts| == |plan.edges| && forall i :: 0 <= i < |edgeTexts| ==> edgeTexts[i].Text?
    requires job.pending.None?
    ensures PublicV(job) < |plan.vertices| ==> !FirstVertexStuck(size, plan, vertexTexts, job)
    ensures PublicE(job) < |plan.edges| ==> !FirstEdgeStuck(size, plan, edgeTexts, job)
    ensures !Idle(job)
  {}

  ghost predicate HasWedged(size: Size, plan: Plan, vertexTexts: seq<Line<VertexRow>>,
                            edgeTexts: seq<Line<EdgeRow>>, job: Option<Job>)
    requires |vertexTexts| == |plan.vertices| && forall i :: 0 <= i < |vertexTexts| ==> vertexTexts[i].Text?
    requires |edgeTexts| == |plan.edges| && forall i :: 0 <= i < |edgeTexts| ==> edgeTexts[i].Text?
  {
    job.Some? && Wedged(size, plan, vertexTexts, edgeTexts, job.value)
  }

  predicate HasIdled(job: Option<Job>)
  {
    job.Some? && Idle(job.value)
  }

  lemma PendingIsOpen(allocate: Allocate, plan: Plan, job: Job)
    requires Faithfully(allocate, plan, job)
    ensures job.pending.Some? ==> job.phase.Open?
    ensures Idle(job) ==> job.pending.Some?
  {}

  /** The artifact, its rows and its plan belong together. */
  ghost predicate Describes(vertexLines: seq<Line<VertexRow>>, edgeLines: seq<Line<EdgeRow>>,
                            vs: seq<VertexRow>, es: seq<EdgeRow>, allocate: Allocate, plan: Plan)
  {
    && ParsesTo(Texts(vertexLines, 0), vs) && ParsesTo(Texts(edgeLines, 0), es)
    && |Texts(vertexLines, 0)| == |plan.vertices| && |Texts(edgeLines, 0)| == |plan.edges|
    && ValidArtifact(vs, es) && plan == PlanOf(vs, es, allocate)
  }

  lemma DescribesBasics(vertexLines: seq<Line<VertexRow>>, edgeLines: seq<Line<EdgeRow>>,
                        vs: seq<VertexRow>, es: seq<EdgeRow>, allocate: Allocate, plan: Plan)
    requires Describes(vertexLines, edgeLines, vs, es, allocate, plan)
    ensures ParsesTo(Texts(vertexLines, 0), vs) && ParsesTo(Texts(edgeLines, 0), es)
    ensures |Texts(vertexLines, 0)| == |plan.vertices| && |Texts(edgeLines, 0)| == |plan.edges|
    ensures plan.vertices == VertexItems(vs) && ResolveTo(es, Bound(vs, allocate, |vs|), plan.edges)
  {
    hide EdgeItem, ValidArtifact;
  }

  /** Every valid artifact is described by its plan. */
  lemma ArtifactDescribed(vertexLines: seq<Line<VertexRow>>, edgeLines: seq<Line<EdgeRow>>,
                          vs: seq<VertexRow>, es: seq<EdgeRow>, allocate: Allocate)
    requires ParsesTo(Texts(vertexLines, 0), vs) && ParsesTo(Texts(edgeLines, 0), es) && ValidArtifact(vs, es)
    ensures Describes(vertexLines, edgeLines, vs, es, allocate, PlanOf(vs, es, allocate))
  {
    hide EdgeItem, ValidArtifact, Texts;
    TextsParse(Texts(vertexLines, 0), vs);
    TextsParse(Texts(edgeLines, 0), es);
  }

  /** One run. However it ends, what is in the graph is the artifact's vertices in order, each once and
      under its own id, and edges only after all of them; success means everything is in. Behind a chunk that
      wedges it, it fails and changes nothing; otherwise a run without faults succeeds unless a row is too
      big, or the pending chunk had been decided without a row, which it clears away before it fails. */
  method RunLoad(service: Service, vertexLines: seq<Line<VertexRow>>, edgeLines: seq<Line<EdgeRow>>, size: Size,
                 ghost vs: seq<VertexRow>, ghost es: seq<EdgeRow>, ghost plan: Plan)
    returns (r: Result<LoadOutcome, LoadError>)
    requires Describes(vertexLines, edgeLines, vs, es, service.allocate, plan)
    requires Guarded(service.script, plan, service.job) && Sane(service.allocate, plan, service.job)
    modifies service
    ensures Sane(service.allocate, plan, service.job) && Guarded(service.script, plan, service.job)
    ensures Grown(old(service.job), service.job) && service.clock > old(service.clock)
    ensures r.Ok? ==> AllIn(service.allocate, plan, service.job) && service.job.value.phase.Completed?
    ensures r == Err(Artifact) ==> Oversized(size, plan)
    ensures HasWedged(size, plan, Texts(vertexLines, 0), Texts(edgeLines, 0), old(service.job)) ==>
              r.Err? && service.job == old(service.job)
    ensures Calm(service.script, old(service.clock)) && !HasFailed(old(service.job)) ==>
              !HasWedged(size, plan, Texts(vertexLines, 0), Texts(edgeLines, 0), old(service.job)) ==>
                r == Err(Artifact) ||
                (PendingOf(service.job).None? && !HasFailed(service.job) && (r.Ok? <==> !HasIdled(old(service.job))))
    ensures NeverFails(service.script) && !HasFailed(old(service.job)) ==> !HasFailed(service.job)
    ensures AllOrNothing(service.script) && PendingOf(old(service.job)).None? ==> PendingOf(service.job).None?
  {
    hide Faithfully, Guarded, PublicV, PublicE, ParsesTo, Texts, AllIn, Bound, Calm, Oversized, Describes;
    hide ResolveTo, NeverFails, AllOrNothing, Idle, FirstVertexStuck, FirstEdgeStuck;
    ghost var job0, start := service.job, service.clock;
    DescribesBasics(vertexLines, edgeLines, vs, es, service.allocate, plan);
    if job0.Some? {
      PendingIsOpen(service.allocate, plan, job0.value);
    }
    var ready := Prepare(service, plan);
    if ready.Err? {
      return Err(ready.error);
    }
    if ready.value.None? {
      CompletedIsAllIn(service.allocate, plan, service.job.value);
      return Ok(Skipped);
    }
    PendingIsOpen(service.allocate, plan, service.job.value);
    if Calm(service.script, start) {
      CalmLater(service.script, start, service.clock);
    }
    var (next, resume) := ready.value.value;
    var streamed := Stream(service, vertexLines, edgeLines, size, next, resume, vs, es, plan);
    if streamed.Err? {
      return Err(streamed.error);
    }
    if Calm(service.script, start) {
      CalmLater(service.script, start, service.clock);
    }
    r := Finish(service, plan);
    if r.Ok? {
      CompletedIsAllIn(service.allocate, plan, service.job.value);
    }
  }

  /** Rerun until it succeeds or the patience runs out. Behind a wedging chunk that never happens; once there
      are no more faults and the rows fit, two runs are enough exactly when no chunk wedges the load. */
  method RunUntilLoaded(service: Service, vertexLines: seq<Line<VertexRow>>, edgeLines: seq<Line<EdgeRow>>, size: Size,
                        patience: nat, ghost vs: seq<VertexRow>, ghost es: seq<EdgeRow>, ghost plan: Plan)
    returns (loaded: bool)
    requires Describes(vertexLines, edgeLines, vs, es, service.allocate, plan)
    requires Guarded(service.script, plan, service.job) && Sane(service.allocate, plan, service.job)
    modifies service
    ensures Sane(service.allocate, plan, service.job) && Guarded(service.script, plan, service.job)
    ensures Grown(old(service.job), service.job)
    ensures loaded ==> AllIn(service.allocate, plan, service.job)
    ensures HasWedged(size, plan, Texts(vertexLines, 0), Texts(edgeLines, 0), old(service.job)) ==>
              !loaded && service.job == old(service.job)
    ensures Calm(service.script, old(service.clock)) && !HasFailed(old(service.job)) && !Oversized(size, plan) ==>
              patience >= 2 ==>
                (loaded <==> !HasWedged(size, plan, Texts(vertexLines, 0), Texts(edgeLines, 0), old(service.job)))
  {
    hide Faithfully, Guarded, ParsesTo, Texts, ValidArtifact, AllIn, Describes, Wedged, Calm, Oversized, Idle;
    DescribesBasics(vertexLines, edgeLines, vs, es, service.allocate, plan);
    ghost var job0, start := service.job, service.clock;
    ghost var texts, lines := Texts(vertexLines, 0), Texts(edgeLines, 0);
    for i := 0 to patience
      invariant Sane(service.allocate, plan, service.job) && Guarded(service.script, plan, service.job)
      invariant Grown(job0, service.job) && service.clock >= start
      invariant i == 0 || HasWedged(size, plan, texts, lines, job0) ==> service.job == job0
      invariant Calm(service.script, start) && !HasFailed(job0) && !Oversized(size, plan) ==>
                  !HasWedged(size, plan, texts, lines, job0) ==>
                    !HasFailed(service.job) && i <= 1 && (i == 1 ==> PendingOf(service.job).None?)
    {
      if Calm(service.script, start) {
        CalmLater(service.script, start, service.clock);
      }
      if PendingOf(service.job).None? {
        NoneWedges(size, plan, texts, lines, service.job);
      }
      var r := RunLoad(service, vertexLines, edgeLines, size, vs, es, plan);
      if r.Ok? {
        return true;
      }
    }
    return false;
  }

  lemma NoneWedges(size: Size, plan: Plan, vertexTexts: seq<Line<VertexRow>>, edgeTexts: seq<Line<EdgeRow>>,
                   job: Option<Job>)
    requires |vertexTexts| == |plan.vertices| && forall i :: 0 <= i < |vertexTexts| ==> vertexTexts[i].Text?
    requires |edgeTexts| == |plan.edges| && forall i :: 0 <= i < |edgeTexts| ==> edgeTexts[i].Text?
    requires PendingOf(job).None?
    ensures !HasWedged(size, plan, vertexTexts, edgeTexts, job) && !HasIdled(job)
  {}

  /** If no call stops on its way and faults end some time, rerunning ends: however many calls were lost,
      turned down or left unanswered, some run loads everything. */
  method RunToTheEnd(service: Service, vertexLines: seq<Line<VertexRow>>, edgeLines: seq<Line<EdgeRow>>, size: Size,
                     ghost quiet: nat, ghost vs: seq<VertexRow>, ghost es: seq<EdgeRow>, ghost plan: Plan)
    requires Describes(vertexLines, edgeLines, vs, es, service.allocate, plan) && !Oversized(size, plan)
    requires Guarded(service.script, plan, service.job) && Sane(service.allocate, plan, service.job)
    requires AllOrNothing(service.script) && NeverFails(service.script) && Calm(service.script, quiet)
    requires !HasFailed(service.job) && PendingOf(service.job).None?
    modifies service
    ensures AllIn(service.allocate, plan, service.job) && service.job.value.phase.Completed?
  {
    hide Faithfully, Guarded, ParsesTo, Texts, ValidArtifact, Describes, HasWedged, Calm, Oversized, HasIdled;
    hide AllOrNothing, NeverFails, HasFailed;
    DescribesBasics(vertexLines, edgeLines, vs, es, service.allocate, plan);
    ghost var texts, lines := Texts(vertexLines, 0), Texts(edgeLines, 0);
    var loaded := false;
    while !loaded
      invariant Sane(service.allocate, plan, service.job) && Guarded(service.script, plan, service.job)
      invariant !HasFailed(service.job) && PendingOf(service.job).None?
      invariant loaded ==> AllIn(service.allocate, plan, service.job) && service.job.value.phase.Completed?
      decreases !loaded, if service.clock < quiet then quiet - service.clock else 0
    {
      if quiet <= service.clock {
        CalmLater(service.script, quiet, service.clock);
      }
      NoneWedges(size, plan, texts, lines, service.job);
      var r := RunLoad(service, vertexLines, edgeLines, size, vs, es, plan);
      loaded := r.Ok?;
    }
  }

  // ---------- a chunk the hint made ----------

  /** The first vertex fills a message, the second and the rest fit one together, and the file is short. */
  ghost predicate Lopsided(texts: seq<Line<VertexRow>>, items: seq<Vertex>, base: nat, width: Vertex -> nat)
  {
    && 3 <= |items| <= SAMPLE && |texts| == |items| && (forall i :: 0 <= i < |texts| ==> texts[i].Text?)
    && Sum(Sizes(texts)) < MAX_ACCUMULATED_RAW_BYTES
    && Encoded(base, width, items[..1]) <= HARD_LIMIT < Encoded(base, width, items[..2])
    && Encoded(base, width, items[1..]) <= TARGET
  }

  ghost predicate AddsUp(size: Size, base: nat, width: Vertex -> nat)
  {
    forall items :: size(Vertices(items)) == Encoded(base, width, items)
  }

  lemma LopsidedMeasures(texts: seq<Line<VertexRow>>, items: seq<Vertex>, base: nat, width: Vertex -> nat, size: Size)
    requires Lopsided(texts, items, base, width) && AddsUp(size, base, width)
    ensures var whole := VertexMeasure(size, items);
            && whole(0) <= HARD_LIMIT && whole(1) <= HARD_LIMIT
            && forall k :: 2 <= k <= |items| ==> whole(k) > HARD_LIMIT
    ensures var rest := VertexMeasure(size, items[1..]);
            rest(0) <= rest(1) <= HARD_LIMIT && rest(0) <= rest(|items| - 1) <= TARGET
  {
    hide Encoded, Sum;
    EncodedGrows(base, width, items[..1], 0);
    assert items[..1][..0] == items[..0];
    forall k | 2 <= k <= |items| ensures VertexMeasure(size, items)(k) > HARD_LIMIT {
      EncodedGrows(base, width, items[..k], 2);
      assert items[..k][..2] == items[..2];
    }
    var rest := items[1..];
    EncodedGrows(base, width, rest, 1);
    EncodedGrows(base, width, rest[..1], 0);
    assert rest[..1][..0] == rest[..0] && rest[..|rest|] == rest;
  }

  lemma LopsidedWindows(texts: seq<Line<VertexRow>>, items: seq<Vertex>, base: nat, width: Vertex -> nat)
    requires Lopsided(texts, items, base, width)
    ensures FreshWindow(Sizes(texts)) == |items| && FreshWindow(Sizes(texts[1..])) == |items| - 1
  {
    hide Taken, Encoded;
    ShortIsWhole(Sizes(texts), INITIAL_CHUNK_ROWS, 0, 0);
    assert Sizes(texts[1..]) == Sizes(texts)[1..];
    ShortIsWhole(Sizes(texts)[1..], INITIAL_CHUNK_ROWS, 0, 0);
  }

  /** Vertex 0 completed in a chunk of its own, vertex 1 admitted in a second one. */
  function CutJob(allocate: Allocate, items: seq<Vertex>): Job
    requires |items| >= 2
  {
    var first := Append(allocate, EMPTY_JOB, 0, Vertices(items[..1]), Go(1, Through)).0;
    if first.pending.Some? then first else Append(allocate, first, 1, Vertices(items[1..2]), Go(0, Admitted)).0
  }

  lemma CutJobIs(allocate: Allocate, plan: Plan)
    requires |plan.vertices| >= 2
    ensures var job := CutJob(allocate, plan.vertices);
            && Faithfully(allocate, plan, job) && PublicV(job) == 1 && !Exposed(job)
            && job.pending == Some(Pending(Vertices(plan.vertices[1..2]), None, false))
  {
    hide Faithfully, IdsOf, EdgesOf, SameUpToOrder, CommitPrefix;
    var empty, a, b := EMPTY_JOB, Vertices(plan.vertices[..1]), Vertices(plan.vertices[1..2]);
    EmptyIsFaithful(allocate, plan);
    AppendKeeps(allocate, plan, empty, a, Go(1, Through));
    AppendSucceeds(allocate, plan, empty, a, Go(1, Through));
    var (first, r) := Append(allocate, empty, 0, a, Go(1, Through));
    VertexReceipt(allocate, a, r.value, 0);
    assert PublicV(first) == 1 && PublicE(first) == 0;
    AppendKeeps(allocate, plan, first, b, Go(0, Admitted));
  }

  /** For every such artifact and encoder, whatever the edges: the first run sends vertex 0 alone, follows with
      vertex 1 alone because the length of the last chunk is its hint, and if that call stops after admitting
      the chunk, every restart forms one chunk of all the remaining vertices. */
  lemma HintWedgeIsReachable(allocate: Allocate, plan: Plan, texts: seq<Line<VertexRow>>, edgeTexts: seq<Line<EdgeRow>>,
                             base: nat, width: Vertex -> nat, size: Size)
    requires Lopsided(texts, plan.vertices, base, width) && AddsUp(size, base, width)
    requires |edgeTexts| == |plan.edges| && forall i :: 0 <= i < |edgeTexts| ==> edgeTexts[i].Text?
    ensures var n, job := |plan.vertices|, CutJob(allocate, plan.vertices);
            && VertexFits(size, plan, None, 0, FreshWindow(Sizes(texts)), 1)
            && VertexFits(size, plan, Some(1), 1, n - 1 + Share(texts, n, Target(Some(1)), n - 1, 0), 1)
            && VertexFits(size, plan, None, 1, FreshWindow(Sizes(texts[1..])), n - 1)
            && Faithfully(allocate, plan, job) && !Exposed(job) && Wedged(size, plan, texts, edgeTexts, job)
  {
    hide Fit, Taken, Faithfully, CutJob, Encoded, VertexMeasure, FreshWindow, PublicV, Exposed, Sizes;
    var items, n := plan.vertices, |plan.vertices|;
    LopsidedMeasures(texts, items, base, width, size);
    LopsidedWindows(texts, items, base, width);
    FitIsOne(n, VertexMeasure(size, items));
    FitFollowsHint(n - 1, 1, VertexMeasure(size, items[1..]));
    FitIsAll(n - 1, VertexMeasure(size, items[1..]));
    assert items[0..0 + n] == items && items[1..1 + (n - 1)] == items[1..];
    ShareStep(texts, n, 1, n - 1, 0);
    CutJobIs(allocate, plan);
    VertexCounts(items[1..], 1);
    assert items[1..][..1] == items[1..2];
  }

  /** A vertex row with one property of `n` bytes. */
  function WideRow(id: Byte, n: nat): VertexRow
  {
    VertexRow([id], [[1]], [Property([1], Filler(n))])
  }

  /** What a vertex carries, with 64 bytes for its framing. */
  function VertexWidth(v: Vertex): nat
  {
    64 + NameWidth(v.labels) + PropertyWidth(v.properties)
  }

  const WIDE_VERTICES: seq<VertexRow> := [WideRow(0, 2000000), WideRow(1, 100000), WideRow(2, 100000)]

  /** The rows as they are held in memory. */
  const WIDE_LINES: seq<Line<VertexRow>> :=
    [Text(Some(WideRow(0, 2000000)), 0), Text(Some(WideRow(1, 100000)), 0), Text(Some(WideRow(2, 100000)), 0)]

  lemma WideRowWidth(id: Byte, n: nat)
    ensures VertexWidth(Vertex(WideRow(id, n).labels, WideRow(id, n).properties)) == 66 + n
  {
    var labels, sets := WideRow(id, n).labels, WideRow(id, n).properties;
    assert labels[1..] == [] && sets[1..] == [];
    assert NameWidth(labels) == 1 + NameWidth(labels[1..]);
    assert PropertyWidth(sets) == 1 + n + PropertyWidth(sets[1..]);
  }

  lemma WideIsValid()
    ensures ValidArtifact(WIDE_VERTICES, []) && ParsesTo(WIDE_LINES, WIDE_VERTICES)
  {
    assert WIDE_VERTICES[0].sourceId == [0] && WIDE_VERTICES[1].sourceId == [1] && WIDE_VERTICES[2].sourceId == [2];
    assert Parsed(WIDE_LINES) == WIDE_VERTICES;
  }

  /** A valid artifact of three vertices that gets stuck this way. */
  lemma WideIsLopsided()
    ensures ValidArtifact(WIDE_VERTICES, []) && ParsesTo(WIDE_LINES, WIDE_VERTICES)
    ensures Lopsided(WIDE_LINES, VertexItems(WIDE_VERTICES), 100, VertexWidth)
  {
    hide VertexWidth, Encoded, ValidArtifact, ParsesTo, Sum;
    WideIsValid();
    var items := VertexItems(WIDE_VERTICES);
    WideRowWidth(0, 2000000);
    WideRowWidth(1, 100000);
    WideRowWidth(2, 100000);
    WideEncodings(items[0], items[1], items[2]);
    assert items[..1] == [items[0]] && items[..2] == [items[0], items[1]] && items[1..] == [items[1], items[2]];
    NoSizes(Sizes(WIDE_LINES));
  }

  lemma WideEncodings(a: Vertex, b: Vertex, c: Vertex)
    ensures Encoded(100, VertexWidth, [a]) == 100 + VertexWidth(a)
    ensures Encoded(100, VertexWidth, [a, b]) == 100 + VertexWidth(a) + VertexWidth(b)
    ensures Encoded(100, VertexWidth, [b, c]) == 100 + VertexWidth(b) + VertexWidth(c)
  {
    hide VertexWidth, Encoded;
    assert [] + [a] == [a] && [] + [b] == [b] && [a] + [b] == [a, b] && [b] + [c] == [b, c];
    EncodedNothing(100, VertexWidth);
    EncodedAppended(100, VertexWidth, [], a);
    EncodedAppended(100, VertexWidth, [a], b);
    EncodedAppended(100, VertexWidth, [], b);
    EncodedAppended(100, VertexWidth, [b], c);
  }

  lemma NoSizes(sizes: seq<nat>)
    requires forall i :: 0 <= i < |sizes| ==> sizes[i] == 0
    ensures Sum(sizes) == 0
  {}
}
