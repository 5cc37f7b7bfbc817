/** The client side of an update load: read the public receipts, skip the rows they cover, and stream
    the rest in fitted chunks; rerun after any failure. */
module UpdateLoad {
  import opened Outcomes
  import opened Bytes
  import opened BulkWire
  import opened MessageSizing
  import opened LoadWindows
  import opened UpdateRouter

  const STATUS_PAGE_SIZE: nat := 64
  const MAX_POLLS: nat := 120

  datatype StatusPage = StatusPage(phase: Phase, next: nat, counts: seq<nat>, cursor: Option<nat>)

  datatype LoadError = Remote | Operator | Artifact

  datatype LoadOutcome = Loaded | Skipped

  /** What the background work does while a call runs. */
  datatype Turn = Wait | Complete | Fail

  datatype Fate = Lost | Ran(work: Work, turn: Turn, answered: bool)

  /** A call that arrives, is carried out to the end, and is answered. */
  predicate Smooth(fate: Fate)
  {
    fate.Ran? && fate.work.Whole? && fate.answered
  }

  /** From call `from` on, every call arrives, is carried out and answered, and the background work keeps up. */
  ghost predicate Calm(script: nat -> Fate, from: nat)
  {
    forall n :: from <= n ==> Smooth(script(n)) && script(n).turn.Complete?
  }

  lemma CalmLater(script: nat -> Fate, from: nat, later: nat)
    requires Calm(script, from) && from <= later
    ensures Calm(script, later)
  {}

  /** The background work never fails a job. */
  ghost predicate NeverFails(script: nat -> Fate)
  {
    forall n :: script(n).Ran? ==> !script(n).turn.Fail?
  }

  predicate HasFailed(job: Option<Job>)
  {
    job.Some? && job.value.phase.Failed?
  }

  // ---------- the Router as the client meets it ----------

  function Counts(chunks: seq<Rows>): (counts: seq<nat>)
    ensures |counts| == |chunks|
    ensures forall i :: 0 <= i < |chunks| ==> counts[i] == |chunks[i]|
  {
    seq(|chunks|, i requires 0 <= i < |chunks| => |chunks[i]|)
  }

  function PageOf(job: Job, cursor: nat): StatusPage
  {
    var counts := Counts(job.completed);
    var from := Min(cursor, |counts|);
    var to := Min(from + STATUS_PAGE_SIZE, |counts|);
    StatusPage(job.phase, |counts|, counts[from..to], if to < |counts| then Some(to) else None)
  }

  function Settle(job: Job, turn: Turn): Job
  {
    if !job.phase.FinalizePending? then job
    else match turn
         case Wait => job
         case Complete => job.(phase := Completed)
         case Fail => job.(phase := Failed)
  }

  /** Nothing but the phase may have moved. */
  ghost predicate OnlyPhase(before: Option<Job>, after: Option<Job>)
  {
    && (before.Some? <==> after.Some?)
    && (before.Some? ==>
          && after.value.(phase := before.value.phase) == before.value
          && (|| before.value.phase == after.value.phase
              || (before.value.phase.FinalizePending? && (after.value.phase.Completed? || after.value.phase.Failed?))))
  }

  /** A finalizing job has completed, any other is as it was. */
  ghost predicate Caught(before: Option<Job>, after: Option<Job>)
  {
    if before.Some? && before.value.phase.FinalizePending?
    then after == Some(before.value.(phase := Completed))
    else after == before
  }

  ghost predicate Sane(all: Rows, job: Option<Job>)
  {
    job.Some? ==> Faithfully(all, job.value)
  }

  function Written(job: Option<Job>): Rows
  {
    if job.Some? then job.value.applied else []
  }

  lemma OnlyPhaseKeeps(all: Rows, before: Option<Job>, after: Option<Job>)
    requires Sane(all, before) && OnlyPhase(before, after)
    ensures Sane(all, after) && Written(after) == Written(before)
    ensures before.Some? ==> Public(after.value) == Public(before.value)
  {
    hide Flatten;
  }

  class Service {
    const script: nat -> Fate
    var job: Option<Job>
    var clock: nat
    ghost var sent: seq<Rows>

    constructor (script: nat -> Fate)
      ensures this.script == script && job == None && sent == []
    {
      this.script := script;
      job, clock, sent := None, 0, [];
    }

    method Status(cursor: nat) returns (r: Result<Option<StatusPage>, RouterError>)
      modifies this`job, this`clock
      ensures OnlyPhase(old(job), job) && clock == old(clock) + 1
      ensures NeverFails(script) && HasFailed(job) ==> HasFailed(old(job))
      ensures r.Ok? ==> r.value == if job.Some? then Some(PageOf(job.value, cursor)) else None
      ensures Calm(script, old(clock)) ==> r.Ok? && Caught(old(job), job)
    {
      var fate := script(clock);
      assert Calm(script, clock) ==> Smooth(fate) && fate.turn.Complete?;
      clock := clock + 1;
      if fate.Lost? {
        return Err(Unreachable);
      }
      if job.Some? {
        job := Some(Settle(job.value, fate.turn));
      }
      return if fate.answered then Ok(if job.Some? then Some(PageOf(job.value, cursor)) else None)
             else Err(Unreachable);
    }

    /** Open the job, or find it open. */
    method Start() returns (r: Result<(), RouterError>)
      modifies this`job, this`clock
      ensures clock == old(clock) + 1
      ensures old(job).Some? ==> job == old(job)
      ensures old(job).None? ==> job == None || job == Some(Job(Open, [], None, []))
      ensures r.Ok? ==> job.Some?
      ensures Calm(script, old(clock)) ==> r.Ok?
    {
      var fate := script(clock);
      assert Calm(script, clock) ==> Smooth(fate) && fate.turn.Complete?;
      clock := clock + 1;
      if fate.Lost? {
        return Err(Unreachable);
      }
      if job.None? {
        job := Some(Job(Open, [], None, []));
      }
      return if fate.answered then Ok(()) else Err(Unreachable);
    }

    /** Deliver a chunk; whether or not it arrives, it counts as sent. */
    method Deliver(index: nat, rows: Rows) returns (r: Result<nat, RouterError>)
      requires job.Some? && (job.value.pending.Some? ==> PendingOk(job.value.pending.value))
      modifies this
      ensures job.Some? && sent == old(sent) + [rows] && clock == old(clock) + 1
      ensures script(old(clock)).Lost? ==> job == old(job) && r == Err(Unreachable)
      ensures var fate := script(old(clock));
              fate.Ran? ==>
                var (after, answer) := Append(old(job).value, index, rows, fate.work);
                job == Some(after) && r == if fate.answered then answer else Err(Unreachable)
    {
      var fate := script(clock);
      assert Calm(script, clock) ==> Smooth(fate) && fate.turn.Complete?;
      clock := clock + 1;
      sent := sent + [rows];
      if fate.Lost? {
        return Err(Unreachable);
      }
      var (after, answer) := Append(job.value, index, rows, fate.work);
      job := Some(after);
      return if fate.answered then answer else Err(Unreachable);
    }

    method Close() returns (r: Result<(), RouterError>)
      requires job.Some?
      modifies this`job, this`clock
      ensures clock == old(clock) + 1
      ensures job.Some? && (job == old(job) || job == Some(Finalize(old(job).value).0))
      ensures r.Ok? ==> Finalize(old(job).value).1.Ok? && job == Some(Finalize(old(job).value).0)
      ensures Calm(script, old(clock)) ==> r == Finalize(old(job).value).1
    {
      var fate := script(clock);
      assert Calm(script, clock) ==> Smooth(fate) && fate.turn.Complete?;
      clock := clock + 1;
      if fate.Lost? {
        return Err(Unreachable);
      }
      var (after, answer) := Finalize(job.value);
      job := Some(after);
      return if fate.answered then answer else Err(Unreachable);
    }
  }

  // ---------- reading all receipts ----------

  lemma OnlyPhaseTrans(a: Option<Job>, b: Option<Job>, c: Option<Job>)
    requires OnlyPhase(a, b) && OnlyPhase(b, c)
    ensures OnlyPhase(a, c)
  {}

  /** Follow the cursor to the end: the pages put together are the receipts of every completed chunk. */
  /** A page joins what was read before it, and the last one completes the list. */
  lemma PageJoins(before: Job, job: Job, cursor: nat)
    requires OnlyPhase(Some(before), Some(job)) && cursor <= |before.completed|
    ensures var all, page := Counts(before.completed), PageOf(job, cursor);
            if page.cursor.None? then all[..cursor] + page.counts == all
            else cursor < page.cursor.value <= |all| && all[..cursor] + page.counts == all[..page.cursor.value]
    ensures PageOf(job, cursor).phase == job.phase && PageOf(job, cursor).next == |job.completed|
  {}

  method StatusPaged(service: Service) returns (r: Result<Option<(StatusPage, seq<nat>)>, LoadError>)
    modifies service`job, service`clock
    ensures OnlyPhase(old(service.job), service.job) && service.clock > old(service.clock)
    ensures NeverFails(service.script) && HasFailed(service.job) ==> HasFailed(old(service.job))
    ensures r.Ok? ==> (r.value.Some? <==> service.job.Some?)
    ensures r.Ok? && r.value.Some? ==>
              && r.value.value.0.phase == service.job.value.phase
              && r.value.value.0.next == |service.job.value.completed|
              && r.value.value.1 == Counts(service.job.value.completed)
    ensures Calm(service.script, old(service.clock)) ==> r.Ok? && Caught(old(service.job), service.job)
  {
    hide Calm, NeverFails, PageOf;
    var receipts: seq<nat> := [];
    var cursor := 0;
    ghost var start := service.clock;
    ghost var job0 := service.job;
    ghost var counts := if job0.Some? then Counts(job0.value.completed) else [];
    while true
      invariant OnlyPhase(job0, service.job) && service.clock >= start
      invariant NeverFails(service.script) && HasFailed(service.job) ==> HasFailed(job0)
      invariant cursor <= |counts| && receipts == counts[..cursor]
      invariant Calm(service.script, old(service.clock)) ==> service.job == job0 || Caught(job0, service.job)
      decreases |counts| - cursor
    {
      ghost var before := service.job;
      if Calm(service.script, start) {
        CalmLater(service.script, start, service.clock);
      }
      var answer := service.Status(cursor);
      OnlyPhaseTrans(job0, before, service.job);
      if answer.Err? {
        return Err(Remote);
      }
      if answer.value.None? {
        return Ok(None);
      }
      var page := answer.value.value;
      PageJoins(job0.value, service.job.value, cursor);
      receipts := receipts + page.counts;
      if page.cursor.None? {
        return Ok(Some((page, receipts)));
      }
      cursor := page.cursor.value;
    }
  }

  function Total(counts: seq<nat>): nat
  {
    if counts == [] then 0 else Total(counts[..|counts| - 1]) + counts[|counts| - 1]
  }

  /** The resume point counts the rows of the public receipts. */
  method ResumePoint(receipts: seq<nat>) returns (committed: nat)
    ensures committed == Total(receipts)
  {
    committed := 0;
    for i := 0 to |receipts|
      invariant committed == Total(receipts[..i])
    {
      committed := committed + receipts[i];
      assert receipts[..i + 1][..i] == receipts[..i];
    }
    assert receipts[..|receipts|] == receipts;
  }

  lemma {:induction false} TotalIsPublic(chunks: seq<Rows>)
    ensures Total(Counts(chunks)) == |Flatten(chunks)|
  {
    if chunks != [] {
      TotalIsPublic(chunks[..|chunks| - 1]);
      assert Counts(chunks)[..|chunks| - 1] == Counts(chunks[..|chunks| - 1]);
    }
  }

  // ---------- the update phase ----------

  type Size = Rows -> nat

  /** The measured size of the first `n` rows held. */
  function MeasureOf(size: Size, rows: Rows): Measure
  {
    (n: nat) => size(if n <= |rows| then rows[..n] else rows)
  }

  /** Top up the buffer and fit a chunk to it. How long the chunk is depends on the rows from `at` on and
      on how many of them were already held. */
  method Gather(reader: RowReader<Update>, held: Rows, size: Size, ghost texts: seq<Line<Update>>, ghost all: Rows,
                ghost at: nat)
    returns (buffer: Rows, fit: Result<Option<Fitted>, FitError>)
    requires Holding(texts, all, reader, held, at)
    modifies reader
    ensures Holding(texts, all, reader, buffer, at)
    ensures |texts| == |all| && (forall i :: 0 <= i < |texts| ==> texts[i].Text?)
    ensures buffer == [] <==> at == |all|
    ensures buffer == [] ==> fit == Ok(None)
    ensures |held| <= INITIAL_CHUNK_ROWS ==> |buffer| <= INITIAL_CHUNK_ROWS
    ensures at < |all| ==>
              var chunk := ContinuingChunk(Sizes(texts[at..]), |held|, MeasureOf(size, all[at..]));
              fit == if chunk.Ok? then Ok(Some(chunk.value)) else Err(chunk.error)
    ensures fit.Ok? && fit.value.Some? ==> 1 <= fit.value.value.count <= |buffer|
  {
    hide Taken, Fit, Texts, ParsesTo, MeasureOf, Sizes, FreshWindow;
    buffer := TopUp(reader, held, INITIAL_CHUNK_ROWS, texts, all, at);
    SizesSlice(texts, at, |held|);
    ghost var sizes := Sizes(texts[at..]);
    assert |buffer| == ContinuingWindow(sizes, |held|);
    if at < |all| {
      ContinuingIsNoShorter(sizes, |held|);
      FreshIsNonEmpty(sizes);
      MeasuresAgree(size, all, at, buffer);
      FitAgrees(|buffer|, None, INTER_CANISTER, MeasureOf(size, buffer), MeasureOf(size, all[at..]));
    }
    fit := AdaptiveFittingPrefix(|buffer|, None, INTER_CANISTER, MeasureOf(size, buffer));
  }

  lemma MeasuresAgree(size: Size, all: Rows, at: nat, buffer: Rows)
    requires at + |buffer| <= |all| && buffer == all[at..at + |buffer|]
    ensures forall k: nat :: k <= |buffer| ==> MeasureOf(size, buffer)(k) == MeasureOf(size, all[at..])(k)
  {
    forall k: nat | k <= |buffer| ensures MeasureOf(size, buffer)(k) == MeasureOf(size, all[at..])(k) {
      assert buffer[..k] == all[at..][..k];
    }
  }

  /** Send the next slice. Whatever becomes of it, the job stays faithful; behind a pending chunk of
      another length it is refused, and nothing changes. */
  method Send(service: Service, index: nat, chunk: Rows, ghost all: Rows) returns (r: Result<nat, RouterError>)
    requires service.job.Some? && Faithfully(all, service.job.value) && NextSlice(all, service.job.value, chunk)
    requires index == |service.job.value.completed|
    modifies service
    ensures service.job.Some? && Faithfully(all, service.job.value) &&
            service.job.value.phase == old(service.job.value.phase)
    ensures old(service.job.value.applied) <= service.job.value.applied
    ensures service.sent == old(service.sent) + [chunk] && service.clock > old(service.clock)
    ensures service.job.value.pending.Some? ==>
              && service.job.value.completed == old(service.job.value.completed)
              && service.job.value.pending.value.rows ==
                   if old(service.job.value.pending).Some? then old(service.job.value.pending).value.rows else chunk
    ensures r.Ok? ==> r.value == |chunk| && service.job.value.completed == old(service.job.value.completed) + [chunk]
    ensures r.Ok? ==> service.job.value.pending.None?
    ensures Blocked(old(service.job.value), |chunk|) ==> r.Err? && service.job == old(service.job)
    ensures Smooth(service.script(old(service.clock))) && old(service.job.value.phase).Open? ==>
              (r.Ok? <==> !Blocked(old(service.job.value), |chunk|))
  {
    hide Faithfully, Append, NextSlice, Public;
    PendingIsOk(all, service.job.value);
    if service.script(service.clock).Ran? {
      AppendKeeps(all, service.job.value, chunk, service.script(service.clock).work);
    }
    r := service.Deliver(index, chunk);
  }

  /** A pending chunk of another length is in the way. */
  predicate Blocked(job: Job, length: nat)
  {
    job.pending.Some? && |job.pending.value.rows| != length
  }

  lemma PendingIsOk(all: Rows, job: Job)
    requires Faithfully(all, job)
    ensures job.pending.Some? ==> PendingOk(job.pending.value)
  {}

  /** The first chunk of a run is the one a fresh window gives. */
  ghost predicate FirstSent(texts: seq<Line<Update>>, all: Rows, size: Size, at: nat, chunk: Rows)
  {
    && ParsesTo(texts, all)
    && at < |all|
    && var first := FreshChunk(Sizes(texts[at..]), MeasureOf(size, all[at..]));
       first.Ok? && at + first.value.count <= |all| && chunk == all[at..at + first.value.count]
  }

  /** At some point of the file not even one row fits a message. */
  ghost predicate Oversized(texts: seq<Line<Update>>, all: Rows, size: Size)
  {
    exists at, held :: TooBigAt(texts, all, size, at, held)
  }

  ghost predicate TooBigAt(texts: seq<Line<Update>>, all: Rows, size: Size, at: nat, held: nat)
  {
    && ParsesTo(texts, all) && at < |all| && held <= |all| - at
    && ContinuingChunk(Sizes(texts[at..]), held, MeasureOf(size, all[at..])).Err?
  }

  /** If sizes grow with the rows and every single row fits, that never happens. */
  lemma FittingRowsSuffice(texts: seq<Line<Update>>, all: Rows, size: Size)
    requires forall at :: 0 <= at < |all| ==>
               Monotone(MeasureOf(size, all[at..])) && size(all[at..at + 1]) <= HARD_LIMIT
    ensures !Oversized(texts, all, size)
  {
    hide Fit, Monotone, Sizes;
    forall at: nat, held: nat ensures !TooBigAt(texts, all, size, at, held) {
      if ParsesTo(texts, all) && at < |all| && held <= |all| - at {
        var measure := MeasureOf(size, all[at..]);
        assert all[at..][..1] == all[at..at + 1];
        MeasureAt(size, all[at..], 1);
        var sizes := Sizes(texts[at..]);
        FreshIsNonEmpty(sizes);
        ContinuingIsNoShorter(sizes, held);
        PolicyIsNormal();
        FitSucceedsIff(ContinuingWindow(sizes, held), None, INTER_CANISTER, measure);
      }
    }
  }

  /** A pending chunk that is not the one a restarted run forms again. */
  ghost predicate Wedged(texts: seq<Line<Update>>, all: Rows, size: Size, job: Job)
  {
    && ParsesTo(texts, all)
    && job.pending.Some? && |Public(job)| < |all|
    && var at := |Public(job)|;
       var first := FreshChunk(Sizes(texts[at..]), MeasureOf(size, all[at..]));
       first.Err? || first.value.count != |job.pending.value.rows|
  }

  /** The pending chunk is the one some run formed while holding some rows. */
  ghost predicate Formed(texts: seq<Line<Update>>, all: Rows, size: Size, job: Job)
  {
    job.pending.Some? ==> exists held :: FormedWith(texts, all, size, job, held)
  }

  ghost predicate FormedWith(texts: seq<Line<Update>>, all: Rows, size: Size, job: Job, held: nat)
    requires job.pending.Some?
  {
    var at := |Public(job)|;
    && ParsesTo(texts, all) && at < |all| && held <= |all| - at && held <= INITIAL_CHUNK_ROWS
    && var chunk := ContinuingChunk(Sizes(texts[at..]), held, MeasureOf(size, all[at..]));
       chunk.Ok? && chunk.value.count == |job.pending.value.rows|
  }

  lemma FormedKept(texts: seq<Line<Update>>, all: Rows, size: Size, before: Job, after: Job, chunk: Rows, held: nat)
    requires Formed(texts, all, size, before) && ParsesTo(texts, all)
    requires |Public(before)| < |all| && held <= |all| - |Public(before)| && held <= INITIAL_CHUNK_ROWS
    requires var at := |Public(before)|;
             var formed := ContinuingChunk(Sizes(texts[at..]), held, MeasureOf(size, all[at..]));
             formed.Ok? && formed.value.count == |chunk|
    requires after.pending.Some? ==>
               && after.completed == before.completed
               && after.pending.value.rows == if before.pending.Some? then before.pending.value.rows else chunk
    ensures Formed(texts, all, size, after)
  {
    hide ContinuingChunk, Sizes, MeasureOf, Flatten;
    if after.pending.Some? {
      if before.pending.Some? {
        var h :| FormedWith(texts, all, size, before, h);
        assert FormedWith(texts, all, size, after, h);
      } else {
        assert FormedWith(texts, all, size, after, held);
      }
    }
  }

  lemma WedgedIsBlocked(texts: seq<Line<Update>>, all: Rows, size: Size, job: Job, chunk: Rows)
    requires Faithfully(all, job) && FirstSent(texts, all, size, |Public(job)|, chunk)
    ensures Wedged(texts, all, size, job) <==> Blocked(job, |chunk|)
  {
    hide FreshChunk, Flatten, MeasureOf, Sizes;
  }

  /** Fit and send one chunk from the rows held; the rest of them stays held. */
  method SendNext(service: Service, reader: RowReader<Update>, held: Rows, index: nat, size: Size,
                  ghost texts: seq<Line<Update>>, ghost all: Rows)
    returns (r: Result<Option<Rows>, LoadError>)
    requires service.job.Some? && Faithfully(all, service.job.value)
    requires index == |service.job.value.completed|
    requires Holding(texts, all, reader, held, |Public(service.job.value)|) && |held| <= INITIAL_CHUNK_ROWS
    modifies service, reader
    ensures service.job.Some? && Faithfully(all, service.job.value) &&
            service.job.value.phase == old(service.job.value.phase)
    ensures old(service.job.value.applied) <= service.job.value.applied && service.clock >= old(service.clock)
    ensures Formed(texts, all, size, old(service.job.value)) ==> Formed(texts, all, size, service.job.value)
    ensures r == Ok(None) ==> Public(service.job.value) == all && service.sent == old(service.sent)
    ensures r.Ok? && r.value.Some? ==>
              && |service.job.value.completed| == index + 1
              && |old(Public(service.job.value))| < |Public(service.job.value)| <= |all|
              && Holding(texts, all, reader, r.value.value, |Public(service.job.value)|)
              && |r.value.value| <= INITIAL_CHUNK_ROWS
    ensures service.sent == old(service.sent)
         || exists chunk :: service.sent == old(service.sent) + [chunk]
                         && (held == [] ==> FirstSent(texts, all, size, |old(Public(service.job.value))|, chunk))
    ensures r.Ok? && r.value.Some? ==> service.sent != old(service.sent)
    ensures held == [] && Wedged(texts, all, size, old(service.job.value)) ==> r.Err? && service.job == old(service.job)
    ensures r.Ok? ==> service.job.value.pending.None?
    ensures Smooth(service.script(old(service.clock))) && old(service.job.value.phase).Open?
            && (old(service.job.value.pending).Some? ==>
                 held == [] && !Wedged(texts, all, size, old(service.job.value))) ==>
              r.Ok? || r == Err(Artifact)
    ensures r == Err(Artifact) ==> TooBigAt(texts, all, size, |old(Public(service.job.value))|, |held|)
  {
    hide Faithfully, Flatten, ContinuingChunk, FreshChunk, Append, ParsesTo, Sizes, MeasureOf, FirstSent, NextSlice,
         Blocked, Wedged, Smooth,
         Formed;
    ghost var job := service.job.value;
    ghost var at := |Public(job)|;
    var buffer, fit := Gather(reader, held, size, texts, all, at);
    if fit.Err? {
      return Err(Artifact);
    }
    if fit.value.None? {
      assert Public(job) == all && job.pending.None? && !Wedged(texts, all, size, job) by { PublicAll(all, job); }
      return Ok(None);
    }
    var count := fit.value.value.count;
    var chunk := buffer[..count];
    assert NextSlice(all, job, chunk) by { SliceIsNext(all, job, chunk, at, buffer); }
    var answer := Send(service, index, chunk, all);
    if Formed(texts, all, size, job) {
      FormedKept(texts, all, size, job, service.job.value, chunk, |held|);
    }
    if held == [] {
      FirstIsFresh(texts, all, size, at, buffer, count);
      WedgedIsBlocked(texts, all, size, job, chunk);
    }
    if job.pending.None? {
      NotBlocked(job, |chunk|);
    }
    if answer.Err? || answer.value == 0 {
      return Err(Remote);
    }
    PublicGrows(job, chunk);
    return Ok(Some(buffer[answer.value..]));
  }

  /** One chunk after another until the rows run out or the Router stops answering. */
  method UpdatePhase(service: Service, reader: RowReader<Update>, size: Size, next: nat,
                     ghost texts: seq<Line<Update>>, ghost all: Rows)
    returns (r: Result<(), LoadError>)
    requires service.job.Some? && Faithfully(all, service.job.value)
    requires next == |service.job.value.completed|
    requires Holding(texts, all, reader, [], |Public(service.job.value)|)
    modifies service, reader
    ensures service.job.Some? && Faithfully(all, service.job.value) &&
            service.job.value.phase == old(service.job.value.phase)
    ensures old(service.job.value.applied) <= service.job.value.applied && service.clock >= old(service.clock)
    ensures Formed(texts, all, size, old(service.job.value)) ==> Formed(texts, all, size, service.job.value)
    ensures r.Ok? ==> Public(service.job.value) == all
    ensures old(service.sent) <= service.sent
    ensures |service.sent| > |old(service.sent)| ==>
              FirstSent(texts, all, size, |old(Public(service.job.value))|, service.sent[|old(service.sent)|])
    ensures Wedged(texts, all, size, old(service.job.value)) ==> r.Err? && service.job == old(service.job)
    ensures Calm(service.script, old(service.clock)) && old(service.job.value.phase).Open?
            && !Wedged(texts, all, size, old(service.job.value)) ==>
              r.Ok? || r == Err(Artifact)
    ensures r == Err(Artifact) ==> Oversized(texts, all, size)
  {
    hide Faithfully, Public, Holding, FirstSent, Wedged, Smooth, TooBigAt, Formed;
    var held: Rows := [];
    var index := next;
    ghost var start := service.clock;
    ghost var sent0, job0 := service.sent, service.job.value;
    while true
      invariant service.job.Some? && Faithfully(all, service.job.value) && service.job.value.phase == job0.phase
      invariant job0.applied <= service.job.value.applied && service.clock >= start
      invariant Formed(texts, all, size, job0) ==> Formed(texts, all, size, service.job.value)
      invariant index == |service.job.value.completed|
      invariant Holding(texts, all, reader, held, |Public(service.job.value)|) && |held| <= INITIAL_CHUNK_ROWS
      invariant sent0 <= service.sent
      invariant service.sent == sent0 ==> held == [] && service.job.value == job0
      invariant service.sent != sent0 ==> service.job.value.pending.None? && !Wedged(texts, all, size, job0)
      invariant |service.sent| > |sent0| ==> FirstSent(texts, all, size, |Public(job0)|, service.sent[|sent0|])
      decreases |all| - |Public(service.job.value)|
    {
      var sending := SendNext(service, reader, held, index, size, texts, all);
      if sending.Err? {
        return Err(sending.error);
      }
      if sending.value.None? {
        break;
      }
      held, index := sending.value.value, index + 1;
    }
    return Ok(());
  }

  lemma FirstIsFresh(texts: seq<Line<Update>>, all: Rows, size: Size, at: nat, buffer: Rows, count: nat)
    requires ParsesTo(texts, all) && at < |all| == |texts| && at + |buffer| <= |all| && buffer == all[at..at + |buffer|]
    requires count <= |buffer|
    requires var chunk := ContinuingChunk(Sizes(texts[at..]), 0, MeasureOf(size, all[at..]));
             chunk.Ok? && chunk.value.count == count
    ensures FirstSent(texts, all, size, at, buffer[..count])
  {
    hide ContinuingChunk, FreshChunk, MeasureOf;
    SameWindowWhenEmpty(Sizes(texts[at..]), MeasureOf(size, all[at..]));
    assert buffer[..count] == all[at..at + count];
  }

  lemma PublicAll(all: Rows, job: Job)
    requires Faithfully(all, job) && |Public(job)| == |all|
    ensures Public(job) == all && job.pending.None?
    ensures forall texts, size :: !Wedged(texts, all, size, job)
  {}

  lemma NotBlocked(job: Job, length: nat)
    requires job.pending.None?
    ensures !Blocked(job, length)
  {}

  lemma SliceIsNext(all: Rows, job: Job, chunk: Rows, at: nat, buffer: Rows)
    requires Faithfully(all, job) && at == |Public(job)| && at + |buffer| <= |all| && buffer == all[at..at + |buffer|]
    requires chunk != [] && chunk <= buffer
    ensures NextSlice(all, job, chunk)
  {
    hide Flatten;
    assert all[..at] == Public(job);
    assert all[..at + |chunk|] == Public(job) + chunk;
  }

  lemma PublicGrows(job: Job, chunk: Rows)
    ensures Flatten(job.completed + [chunk]) == Flatten(job.completed) + chunk
  {
    FlattenAppend(job.completed, chunk);
  }

  lemma SameWindowWhenEmpty(sizes: seq<nat>, measure: Measure)
    requires sizes != []
    ensures ContinuingChunk(sizes, 0, measure) == FreshChunk(sizes, measure)
  {
    assert sizes[0..] == sizes;
  }

  // ---------- a whole run, and any number of them ----------

  /** Where a run stands once the job is open: the next chunk index and the rows to skip. */
  method Prepare(service: Service, ghost all: Rows) returns (r: Result<Option<(nat, nat)>, LoadError>)
    requires Sane(all, service.job)
    modifies service`job, service`clock
    ensures Sane(all, service.job) && Written(service.job) == old(Written(service.job)) &&
            service.clock > old(service.clock)
    ensures NeverFails(service.script) && HasFailed(service.job) ==> HasFailed(old(service.job))
    ensures old(service.job).Some? ==> service.job.Some? && service.job.value.pending == old(service.job).value.pending
    ensures old(service.job).Some? ==> Public(service.job.value) == Public(old(service.job).value)
    ensures r != Err(Artifact)
    ensures r == Ok(None) ==> service.job.Some? && service.job.value.phase.Completed?
    ensures r.Ok? && r.value.Some? ==>
              service.job.Some? && r.value.value == (|service.job.value.completed|, |Public(service.job.value)|)
    ensures old(service.job).Some? && old(service.job).value.phase.Open? ==>
              service.job == old(service.job) && r != Ok(None)
    ensures old(service.job).None? ==> service.job.None? || service.job == Some(Job(Open, [], None, []))
    ensures old(service.job).Some? && service.job.Some? && service.job.value.phase.Open? ==>
              service.job == old(service.job)
    ensures Calm(service.script, old(service.clock)) &&
            (old(service.job).Some? ==> !old(service.job).value.phase.Failed?) ==>
              r.Ok? && (r.value.Some? ==> service.job.value.phase.Open?)
  {
    hide Faithfully, Public, Calm, Smooth, NeverFails;
    ghost var start := service.clock;
    EmptyJobIsSane(all);
    var known := Observe(service, all);
    if known.Err? {
      return Err(Remote);
    }
    if known.value.Some? && known.value.value.0.phase.Completed? {
      return Ok(None);
    }
    if known.value.Some? && known.value.value.0.phase.Failed? {
      return Err(Operator);
    }
    if Calm(service.script, start) {
      CalmLater(service.script, start, service.clock);
    }
    var started := service.Start();
    if started.Err? {
      return Err(Remote);
    }
    if Calm(service.script, start) {
      CalmLater(service.script, start, service.clock);
    }
    var current := Observe(service, all);
    if current.Err? || current.value.None? {
      return Err(Remote);
    }
    var page, receipts := current.value.value.0, current.value.value.1;
    var committed := ResumePoint(receipts);
    ResumeIsPublic(service.job.value);
    return Ok(Some((page.next, committed)));
  }

  lemma ResumeIsPublic(job: Job)
    ensures Total(Counts(job.completed)) == |Public(job)|
  {
    TotalIsPublic(job.completed);
  }

  /** All rows from the resume point on. */
  method Stream(service: Service, lines: seq<Line<Update>>, size: Size, next: nat, committed: nat, ghost all: Rows)
    returns (r: Result<(), LoadError>)
    requires ParsesTo(Texts(lines, 0), all) && service.job.Some? && Faithfully(all, service.job.value)
    requires next == |service.job.value.completed| && committed == |Public(service.job.value)|
    modifies service
    ensures service.job.Some? && Faithfully(all, service.job.value)
    ensures service.job.value.phase == old(service.job.value.phase)
    ensures old(service.job.value.applied) <= service.job.value.applied && service.clock >= old(service.clock)
    ensures Formed(Texts(lines, 0), all, size, old(service.job.value)) ==>
              Formed(Texts(lines, 0), all, size, service.job.value)
    ensures r.Ok? ==> Public(service.job.value) == all
    ensures Wedged(Texts(lines, 0), all, size, old(service.job.value)) ==> r.Err? && service.job == old(service.job)
    ensures Calm(service.script, old(service.clock)) && old(service.job.value.phase).Open? ==>
              !Wedged(Texts(lines, 0), all, size, old(service.job.value)) ==> r.Ok? || r == Err(Artifact)
    ensures r == Err(Artifact) ==> Oversized(Texts(lines, 0), all, size)
  {
    hide Faithfully, Wedged, Public, ParsesTo, Texts, FirstSent, Oversized, Formed, Calm;
    PublicBounded(all, service.job.value);
    TextsParse(Texts(lines, 0), all);
    var reader := new RowReader(lines);
    reader.SkipRows(committed);
    r := UpdatePhase(service, reader, size, next, Texts(lines, 0), all);
  }

  /** One run of the loader. However it ends, the rows written are a longer or equal prefix of the
      artifact; success means all of them. Behind a chunk that a restart does not form again, every run
      fails and leaves the job as it was; otherwise a run without faults succeeds unless a row is too big. */
  method RunLoad(service: Service, lines: seq<Line<Update>>, size: Size, ghost all: Rows)
    returns (r: Result<LoadOutcome, LoadError>)
    requires ParsesTo(Texts(lines, 0), all) && Sane(all, service.job)
    modifies service
    ensures Sane(all, service.job) && Written(old(service.job)) <= Written(service.job) <= all
    ensures r.Ok? ==> service.job.Some? && service.job.value.phase.Completed? && Written(service.job) == all
    ensures old(service.job).Some? && Wedged(Texts(lines, 0), all, size, old(service.job).value) ==>
              r.Err? && service.job == old(service.job)
    ensures Calm(service.script, old(service.clock)) && Runnable(Texts(lines, 0), all, size, old(service.job)) ==>
              r.Ok? || r == Err(Artifact)
    ensures r == Err(Artifact) ==> Oversized(Texts(lines, 0), all, size)
    ensures service.clock > old(service.clock)
    ensures NeverFails(service.script) && HasFailed(service.job) ==> HasFailed(old(service.job))
    ensures Regular(Texts(lines, 0), all, size, old(service.job)) ==> Regular(Texts(lines, 0), all, size, service.job)
  {
    hide Faithfully, Wedged, Public, ParsesTo, Smooth, Texts, FirstSent, Oversized, Formed, NeverFails, Calm;
    ghost var texts := Texts(lines, 0);
    ghost var job0 := service.job;
    ghost var start := service.clock;
    FormedNothing(texts, all, size);
    EmptyJobIsSane(all);
    if job0.Some? && Wedged(texts, all, size, job0.value) {
      WedgedIsOpen(texts, all, size, job0.value);
    }
    var ready := Prepare(service, all);
    WrittenIsPrefix(all, service.job);
    if job0.Some? {
      FormedSame(texts, all, size, job0.value, service.job.value);
    }
    if Calm(service.script, start) {
      CalmLater(service.script, start, service.clock);
    }
    if ready.Err? {
      return Err(ready.error);
    }
    if ready.value.None? {
      return Ok(Skipped);
    }
    var (next, committed) := ready.value.value;
    var phase := Stream(service, lines, size, next, committed, all);
    WrittenIsPrefix(all, service.job);
    if phase.Err? {
      return Err(phase.error);
    }
    if Calm(service.script, start) {
      CalmLater(service.script, start, service.clock);
    }
    r := Finish(service, all);
  }

  /** Close the job and wait for it. */
  method Finish(service: Service, ghost all: Rows) returns (r: Result<LoadOutcome, LoadError>)
    requires service.job.Some? && Sane(all, service.job) && Public(service.job.value) == all
    modifies service`job, service`clock
    ensures Sane(all, service.job) && Written(service.job) == old(Written(service.job)) <= all
    ensures service.job.Some? && service.job.value.pending.None? && service.clock > old(service.clock)
    ensures NeverFails(service.script) && HasFailed(service.job) ==> HasFailed(old(service.job))
    ensures r.Ok? ==> service.job.Some? && service.job.value.phase.Completed? && Written(service.job) == all
    ensures Calm(service.script, old(service.clock)) && old(service.job.value.phase).Open? ==> r.Ok?
    ensures r != Err(Artifact)
  {
    hide Faithfully, Public, Calm, NeverFails;
    FinalizeKeeps(all, service.job.value);
    NothingPending(all, service.job.value);
    if Calm(service.script, service.clock) {
      CalmLater(service.script, service.clock, service.clock + 1);
    }
    var closed := service.Close();
    WrittenIsPrefix(all, service.job);
    if closed.Err? {
      return Err(Remote);
    }
    r := Poll(service, all);
  }

  ghost predicate Regular(texts: seq<Line<Update>>, all: Rows, size: Size, job: Option<Job>)
  {
    job.Some? ==> Formed(texts, all, size, job.value)
  }

  lemma FormedNothing(texts: seq<Line<Update>>, all: Rows, size: Size)
    ensures forall job: Job :: job.pending.None? ==> Formed(texts, all, size, job)
  {}

  lemma FormedSame(texts: seq<Line<Update>>, all: Rows, size: Size, before: Job, after: Job)
    requires after.pending == before.pending && Public(after) == Public(before)
    ensures Formed(texts, all, size, before) <==> Formed(texts, all, size, after)
  {
    hide ContinuingChunk, Sizes, MeasureOf, Flatten, ParsesTo;
    if before.pending.Some? {
      assert forall held :: FormedWith(texts, all, size, before, held) <==> FormedWith(texts, all, size, after, held);
    }
  }

  lemma NothingPending(all: Rows, job: Job)
    requires Faithfully(all, job) && Public(job) == all
    ensures job.pending.None?
  {}

  lemma WedgedIsOpen(texts: seq<Line<Update>>, all: Rows, size: Size, job: Job)
    requires Faithfully(all, job) && Wedged(texts, all, size, job)
    ensures job.phase.Open?
  {}

  /** Wait for the job to complete, a bounded number of times. */
  method Poll(service: Service, ghost all: Rows) returns (r: Result<LoadOutcome, LoadError>)
    requires service.job.Some? && Sane(all, service.job)
    requires service.job.value.phase.FinalizePending? || service.job.value.phase.Completed?
    modifies service`job, service`clock
    ensures Sane(all, service.job) && Written(service.job) == old(Written(service.job))
    ensures r.Ok? ==> service.job.Some? && service.job.value.phase.Completed? && Written(service.job) == all
    ensures Written(service.job) <= all && service.clock > old(service.clock)
    ensures service.job.Some? && service.job.value.pending == old(service.job).value.pending
    ensures NeverFails(service.script) ==> !HasFailed(service.job)
    ensures Calm(service.script, old(service.clock)) ==> r.Ok?
    ensures r != Err(Artifact)
  {
    hide Faithfully, Public, Calm, NeverFails;
    WrittenIsPrefix(all, service.job);
    for i := 0 to MAX_POLLS
      invariant service.job.Some? && Sane(all, service.job) && Written(service.job) == old(Written(service.job))
      invariant service.job.value.pending == old(service.job).value.pending
      invariant service.clock >= old(service.clock) && (i > 0 ==> service.clock > old(service.clock))
      invariant NeverFails(service.script) ==> !HasFailed(service.job)
      invariant Calm(service.script, old(service.clock)) ==>
                  i == 0 && service.clock == old(service.clock) &&
                    (service.job.value.phase.FinalizePending? || service.job.value.phase.Completed?)
    {
      var current := Observe(service, all);
      WrittenIsPrefix(all, service.job);
      if current.Err? || current.value.None? {
        return Err(Remote);
      }
      if current.value.value.0.phase.Completed? {
        return Ok(Loaded);
      }
      if current.value.value.0.phase.Failed? {
        return Err(Operator);
      }
    }
    return Err(Operator);
  }

  /** Reading the status moves no row. */
  method Observe(service: Service, ghost all: Rows) returns (r: Result<Option<(StatusPage, seq<nat>)>, LoadError>)
    requires Sane(all, service.job)
    modifies service`job, service`clock
    ensures OnlyPhase(old(service.job), service.job) && Sane(all, service.job) &&
            Written(service.job) == old(Written(service.job))
    ensures old(service.job).Some? ==> Public(service.job.value) == Public(old(service.job).value)
    ensures service.clock > old(service.clock)
    ensures NeverFails(service.script) && HasFailed(service.job) ==> HasFailed(old(service.job))
    ensures r.Ok? ==> (r.value.Some? <==> service.job.Some?)
    ensures r.Ok? && r.value.Some? ==>
              && r.value.value.0.phase == service.job.value.phase
              && r.value.value.0.next == |service.job.value.completed|
              && r.value.value.1 == Counts(service.job.value.completed)
    ensures Calm(service.script, old(service.clock)) ==> r.Ok? && Caught(old(service.job), service.job)
    ensures old(service.job).Some? && !old(service.job).value.phase.FinalizePending? ==> service.job == old(service.job)
  {
    hide Faithfully, Calm, NeverFails;
    ghost var before := service.job;
    r := StatusPaged(service);
    OnlyPhaseKeeps(all, before, service.job);
  }

  /** The job has not failed, and no pending chunk differs from the one that would be formed again. */
  ghost predicate Runnable(texts: seq<Line<Update>>, all: Rows, size: Size, job: Option<Job>)
  {
    job.Some? ==> !job.value.phase.Failed? && !Wedged(texts, all, size, job.value)
  }

  lemma WrittenIsPrefix(all: Rows, job: Option<Job>)
    requires Sane(all, job)
    ensures Written(job) <= all
    ensures job.Some? && job.value.phase.Completed? ==> Written(job) == all
  {
    if job.Some? {
      AppliedIsPrefix(all, job.value);
    }
  }

  lemma EmptyJobIsSane(all: Rows)
    ensures Sane(all, None) && Sane(all, Some(Job(Open, [], None, [])))
    ensures forall texts, size :: !Wedged(texts, all, size, Job(Open, [], None, []))
  {}

  lemma PublicBounded(all: Rows, job: Job)
    requires Faithfully(all, job)
    ensures |Public(job)| <= |all|
  {}

  /** Rerun until it succeeds or the patience runs out: rows are written once, in order, throughout. */
  method RunUntilLoaded(service: Service, lines: seq<Line<Update>>, size: Size, patience: nat, ghost all: Rows)
    returns (loaded: bool)
    requires ParsesTo(Texts(lines, 0), all) && Sane(all, service.job)
    modifies service
    ensures Sane(all, service.job) && Written(old(service.job)) <= Written(service.job) <= all
    ensures loaded ==> Written(service.job) == all
    ensures old(service.job).Some? && Wedged(Texts(lines, 0), all, size, old(service.job).value) ==>
              !loaded && service.job == old(service.job)
  {
    hide Faithfully, Wedged, ParsesTo, Texts;
    WrittenIsPrefix(all, service.job);
    for i := 0 to patience
      invariant Sane(all, service.job) && Written(old(service.job)) <= Written(service.job) <= all
      invariant old(service.job).Some? && Wedged(Texts(lines, 0), all, size, old(service.job).value) ==>
                  service.job == old(service.job)
    {
      var r := RunLoad(service, lines, size, all);
      if r.Ok? {
        return true;
      }
    }
    return false;
  }


  lemma MeasureAt(size: Size, rows: Rows, k: nat)
    requires k <= |rows|
    ensures MeasureOf(size, rows)(k) == size(rows[..k])
  {}

  // ---------- when a restart forms the pending chunk again ----------

  /** At every offset the row cap or the end of the file decides a fresh window, or a fully sampled estimate
      stays inside it. */
  ghost predicate Steady(texts: seq<Line<Update>>, all: Rows, size: Size)
  {
    && ParsesTo(texts, all)
    && forall at :: 0 <= at < |all| ==> Settled(Sizes(texts[at..]), MeasureOf(size, all[at..]))
  }

  /** Then no pending chunk that a run formed is ever in the way of a restart. */
  lemma RestartFindsPending(texts: seq<Line<Update>>, all: Rows, size: Size, job: Job)
    requires Steady(texts, all, size) && Formed(texts, all, size, job)
    ensures !Wedged(texts, all, size, job)
  {
    hide ContinuingChunk, FreshChunk, MeasureOf, Sizes, Settled, Flatten;
    if job.pending.Some? && |Public(job)| < |all| {
      var at := |Public(job)|;
      var held :| FormedWith(texts, all, size, job, held);
      TextsParse(texts, all);
      assert Settled(Sizes(texts[at..]), MeasureOf(size, all[at..]));
      SameNextChunk(Sizes(texts[at..]), held, MeasureOf(size, all[at..]));
    }
  }

  /** Artifacts held in memory always are: their rows have no raw size. */
  lemma MemoryIsSteady(texts: seq<Line<Update>>, all: Rows, size: Size)
    requires ParsesTo(texts, all) && forall i :: 0 <= i < |texts| ==> texts[i].size == 0
    ensures Steady(texts, all, size)
  {
    hide MeasureOf;
    forall at | 0 <= at < |all| ensures Settled(Sizes(texts[at..]), MeasureOf(size, all[at..])) {
      MemoryWindow(Sizes(texts[at..]), 0);
    }
  }

  /** Once faults stop, rerunning ends: if the artifact is steady and its rows fit, then however many runs
      died before, some run loads everything, each row written once and in order. */
  method RunToTheEnd(service: Service, lines: seq<Line<Update>>, size: Size, ghost quiet: nat, ghost all: Rows)
    requires ParsesTo(Texts(lines, 0), all) && Sane(all, service.job) &&
             Regular(Texts(lines, 0), all, size, service.job)
    requires Steady(Texts(lines, 0), all, size) && !Oversized(Texts(lines, 0), all, size)
    requires NeverFails(service.script) && !HasFailed(service.job) && Calm(service.script, quiet)
    modifies service
    ensures service.job.Some? && service.job.value.phase.Completed? && Sane(all, service.job)
    ensures Written(service.job) == all
  {
    hide Faithfully, Wedged, ParsesTo, Texts, Oversized, Steady, Formed, Calm, NeverFails, HasFailed;
    ghost var texts := Texts(lines, 0);
    var loaded := false;
    while !loaded
      invariant Sane(all, service.job) && Regular(texts, all, size, service.job) && !HasFailed(service.job)
      invariant loaded ==> service.job.Some? && service.job.value.phase.Completed? && Written(service.job) == all
      decreases !loaded, if service.clock < quiet then quiet - service.clock else 0
    {
      ghost var start := service.clock;
      if quiet <= start {
        CalmLater(service.script, quiet, start);
        RegularIsRunnable(texts, all, size, service.job);
      }
      var r := RunLoad(service, lines, size, all);
      loaded := r.Ok?;
    }
  }

  lemma RegularIsRunnable(texts: seq<Line<Update>>, all: Rows, size: Size, job: Option<Job>)
    requires Steady(texts, all, size) && Regular(texts, all, size, job) && !HasFailed(job)
    ensures Runnable(texts, all, size, job)
  {
    hide Steady, Formed, Wedged;
    if job.Some? {
      RestartFindsPending(texts, all, size, job.value);
    }
  }

  // ---------- and when it does not ----------

  /** The first row alone fills a message, the line of the second reaches the raw byte cap, and the rows after
      the first fit one message together. */
  ghost predicate Lopsided(texts: seq<Line<Update>>, all: Rows, base: nat, width: Update -> nat)
  {
    && ParsesTo(texts, all) && 3 <= |all| <= SAMPLE && |texts| == |all|
    && texts[0].size < MAX_ACCUMULATED_RAW_BYTES <= texts[1].size
    && Encoded(base, width, all[..1]) <= HARD_LIMIT < Encoded(base, width, all[..2])
    && Encoded(base, width, all[1..]) <= TARGET
  }

  /** Row 0 completed in a chunk of its own, the next `n` rows admitted in a second that wrote none. */
  function CutJob(all: Rows, n: nat): Job
    requires 1 <= n < |all|
  {
    var first := Append(Job(Open, [], None, []), 0, all[..1], Whole).0;
    if first.pending.Some? then first else Append(first, 1, all[1..1 + n], CutShort(0, 0, 0)).0
  }

  lemma CutJobIs(all: Rows, n: nat)
    requires 1 <= n < |all|
    ensures CutJob(all, n) == Job(Open, [all[..1]], Some(Pending(all[1..1 + n], 0, 0, 0)), all[..1])
    ensures Public(CutJob(all, n)) == all[..1] && Faithfully(all, CutJob(all, n))
  {
    var first := Append(Job(Open, [], None, []), 0, all[..1], Whole).0;
    assert first.completed == [all[..1]];
    FlattenAppend([], all[..1]);
    assert [] + [all[..1]] == [all[..1]];
    assert all[..1] + all[1..1 + n] == all[..1 + n];
    assert all[1..1 + n][..0] == [];
  }

  lemma LopsidedMeasures(texts: seq<Line<Update>>, all: Rows, base: nat, width: Update -> nat, size: Size)
    requires Lopsided(texts, all, base, width) && forall rows :: size(rows) == Encoded(base, width, rows)
    ensures var first := MeasureOf(size, all);
            first(0) <= HARD_LIMIT && first(1) <= HARD_LIMIT < first(2)
    ensures var rest := MeasureOf(size, all[1..]);
            forall k :: 1 <= k < |all| ==> rest(0) <= rest(k) <= TARGET
  {
    hide Encoded, ParsesTo;
    MeasureAt(size, all, 0);
    MeasureAt(size, all, 1);
    MeasureAt(size, all, 2);
    assert all[..1][..0] == all[..0];
    EncodedGrows(base, width, all[..1], 0);
    var rest := all[1..];
    forall k | 1 <= k < |all| ensures MeasureOf(size, rest)(0) <= MeasureOf(size, rest)(k) <= TARGET {
      MeasureAt(size, rest, 0);
      MeasureAt(size, rest, k);
      EncodedGrows(base, width, rest, k);
      EncodedGrows(base, width, rest[..k], 0);
      assert rest[..k][..0] == rest[..0];
    }
  }

  /** For every lopsided artifact and every such encoder: the first run sends row 0, goes on with several rows
      because the one it still holds is not counted again, and if that call is cut short the chunk stays
      pending while every restart forms row 1 alone. */
  lemma WedgeIsReachable(texts: seq<Line<Update>>, all: Rows, base: nat, width: Update -> nat, size: Size)
    requires Lopsided(texts, all, base, width) && forall rows :: size(rows) == Encoded(base, width, rows)
    ensures var sizes := Sizes(texts);
            && FreshWindow(sizes) == 2
            && FreshChunk(sizes, MeasureOf(size, all)) == Ok(Fitted(1, size(all[..1])))
            && var n := ContinuingWindow(sizes[1..], 1);
               && 2 <= n < |all|
               && ContinuingChunk(sizes[1..], 1, MeasureOf(size, all[1..])) == Ok(Fitted(n, size(all[1..1 + n])))
               && Faithfully(all, CutJob(all, n)) && Wedged(texts, all, size, CutJob(all, n))
  {
    hide Fit, Taken, ParsesTo, MeasureOf, Faithfully, CutJob, Encoded, FreshChunk, ContinuingChunk, FreshWindow,
         ContinuingWindow, Public;
    TextsParse(texts, all);
    LopsidedMeasures(texts, all, base, width, size);
    var sizes := Sizes(texts);
    BoundaryMoves(sizes, MeasureOf(size, all), MeasureOf(size, all[1..]));
    var n := ContinuingWindow(sizes[1..], 1);
    CutJobIs(all, n);
    MeasureAt(size, all, 1);
    MeasureAt(size, all[1..], n);
    assert all[1..][..n] == all[1..1 + n];
    assert Sizes(texts[1..]) == sizes[1..];
  }

  // ---------- an artifact of that kind ----------

  /** A row whose one assignment is `n` bytes long. */
  function WideRow(key: Byte, n: nat): Update
  {
    Update([1], [1], [key], [Property([1], Filler(n))], [])
  }

  /** What a row carries, with 64 bytes for its framing. */
  function RowWidth(u: Update): nat
  {
    64 + |u.vertexLabel| + |u.name| + |u.value| + PropertyWidth(u.sets) + NameWidth(u.removes)
  }

  /** One row of two million bytes, then three of a hundred thousand. */
  const WIDE_ROWS: Rows := [WideRow(0, 2000000), WideRow(1, 100000), WideRow(2, 100000), WideRow(3, 100000)]

  /** Their lines, at least twice as long as what they carry, the second padded to the cap. */
  const WIDE_LINES: seq<Line<Update>> :=
    [Text(Some(WideRow(0, 2000000)), 4194000), Text(Some(WideRow(1, 100000)), MAX_ACCUMULATED_RAW_BYTES),
     Text(Some(WideRow(2, 100000)), 300300), Text(Some(WideRow(3, 100000)), 300300)]

  lemma WideRowWidth(key: Byte, n: nat)
    ensures RowWidth(WideRow(key, n)) == 68 + n
  {
    var sets := WideRow(key, n).sets;
    assert sets[1..] == [];
    assert PropertyWidth(sets) == 1 + n + PropertyWidth(sets[1..]);
  }

  /** An artifact of valid rows, in lines long enough to hold them, that gets stuck this way. */
  lemma WideIsLopsided()
    ensures Lopsided(WIDE_LINES, WIDE_ROWS, 100, RowWidth)
    ensures ValidChunk(Updates(WIDE_ROWS))
    ensures forall i :: 0 <= i < |WIDE_ROWS| ==> WIDE_LINES[i].size >= 2 * RowWidth(WIDE_ROWS[i])
  {
    hide RowWidth, Encoded;
    var a, b, c, d := WideRow(0, 2000000), WideRow(1, 100000), WideRow(2, 100000), WideRow(3, 100000);
    WideRowWidth(0, 2000000);
    WideRowWidth(1, 100000);
    WideRowWidth(2, 100000);
    WideRowWidth(3, 100000);
    assert Parsed(WIDE_LINES) == WIDE_ROWS;
    assert WIDE_ROWS[..1] == [] + [a] && WIDE_ROWS[..2] == [] + [a] + [b];
    assert WIDE_ROWS[1..] == [] + [b] + [c] + [d];
    EncodedNothing(100, RowWidth);
    EncodedAppended(100, RowWidth, [], a);
    EncodedAppended(100, RowWidth, [] + [a], b);
    EncodedAppended(100, RowWidth, [], b);
    EncodedAppended(100, RowWidth, [] + [b], c);
    EncodedAppended(100, RowWidth, [] + [b] + [c], d);
  }
}
