/** The Router's side of an update load. A chunk is admitted under its index and fingerprint, its rows
    are written one by one under idempotent row keys, and the chunk stays pending and invisible until
    every row is in. What is written, what the row journal shows and what the chunk's own record says
    may drift apart when a call dies; the next call settles them. */
module UpdateRouter {
  import opened Outcomes
  import opened BulkWire

  type Rows = seq<Update>

  datatype RowOutcome = Committed | NotWritten | Unresolved | Unknown

  datatype Settlement = Settlement(committed: nat, unresolved: seq<nat>, unreadable: seq<nat>, committedAfterGap: bool)

  // ---------- settling a pending chunk from its row journal ----------

  /** The committed rows that follow one another from the start. */
  function Leading(outcomes: seq<RowOutcome>): (n: nat)
    ensures n <= |outcomes|
    ensures forall i :: 0 <= i < n ==> outcomes[i] == Committed
    ensures n < |outcomes| ==> outcomes[n] != Committed
  {
    if outcomes == [] || outcomes[0] != Committed then 0 else 1 + Leading(outcomes[1..])
  }

  /** One pass over the outcomes of rows `from` and on. */
  method SettleOutcomes(from: nat, outcomes: seq<RowOutcome>) returns (s: Settlement)
    ensures s.committed == from + Leading(outcomes)
    ensures s.committedAfterGap <==> exists i :: Leading(outcomes) < i < |outcomes| && outcomes[i] == Committed
    ensures forall k :: k in s.unresolved <==> from <= k < from + |outcomes| && outcomes[k - from] == Unresolved
    ensures forall k :: k in s.unreadable <==> from <= k < from + |outcomes| && outcomes[k - from] == Unknown
  {
    var committed, after, gap := from, false, false;
    var unresolved: seq<nat>, unreadable: seq<nat> := [], [];
    for i := 0 to |outcomes|
      invariant !gap <==> i <= Leading(outcomes)
      invariant committed == from + if gap then Leading(outcomes) else i
      invariant after <==> exists k :: Leading(outcomes) < k < i && outcomes[k] == Committed
      invariant forall k :: k in unresolved <==> from <= k < from + i && outcomes[k - from] == Unresolved
      invariant forall k :: k in unreadable <==> from <= k < from + i && outcomes[k - from] == Unknown
    {
      match outcomes[i]
      case Committed =>
        if gap {
          after := true;
        } else {
          committed := from + i + 1;
        }
      case NotWritten => gap := true;
      case Unresolved => gap, unresolved := true, unresolved + [from + i];
      case Unknown => gap, unreadable := true, unreadable + [from + i];
    }
    return Settlement(committed, unresolved, unreadable, after);
  }

  // ---------- the job ----------

  /** An admitted chunk: rows below `written` are in the graph, the journal shows those below `seen` as
      committed, and the chunk's record says `recorded`. */
  datatype Pending = Pending(rows: Rows, recorded: nat, seen: nat, written: nat)

  datatype Phase = Open | FinalizePending | Completed | Failed

  datatype Job = Job(phase: Phase, completed: seq<Rows>, pending: Option<Pending>, applied: Rows)

  datatype RouterError = NotFound | Conflict | Busy | Invalid | Unreachable

  /** How far one call gets: turned down before admission, cut short, or through to the end. */
  datatype Work = TurnDown | CutShort(reach: nat, seen: nat, recorded: nat) | Whole

  /** Row by row the same up to the order of assignments and removals: what equal fingerprints mean. */
  predicate SameRows(a: Rows, b: Rows)
  {
    SameUpToOrder(Updates(a), Updates(b))
  }

  lemma FingerprintIsSameRows(a: Rows, b: Rows, encode: Encode, hash: Hash)
    requires ValidChunk(Updates(a)) && Faithful(encode, hash)
    ensures FingerprintOf(Updates(a), encode, hash) == FingerprintOf(Updates(b), encode, hash) <==> SameRows(a, b)
  {
    FingerprintsAgree(Updates(a), Updates(b), encode, hash);
  }

  /** What the journal shows of the rows past the recorded prefix. A row that was written but not yet
      shown is unresolved; running it again under its key writes nothing. */
  function Journal(p: Pending): (outcomes: seq<RowOutcome>)
    requires p.recorded <= |p.rows|
    ensures |outcomes| == |p.rows| - p.recorded
  {
    seq(|p.rows| - p.recorded, i requires 0 <= i < |p.rows| - p.recorded =>
      if p.recorded + i < p.seen then Committed else if p.recorded + i < p.written then Unresolved else NotWritten)
  }

  predicate PendingOk(p: Pending)
  {
    p.rows != [] && p.recorded <= p.seen <= p.written <= |p.rows|
  }

  lemma JournalSettles(p: Pending)
    requires PendingOk(p)
    ensures p.recorded + Leading(Journal(p)) == p.seen
    ensures forall i :: Leading(Journal(p)) < i < |Journal(p)| ==> Journal(p)[i] != Committed
  {
    var outcomes := Journal(p);
    var n := Leading(outcomes);
    assert n < |outcomes| ==> outcomes[n] != Committed;
    assert p.seen < |p.rows| ==> outcomes[p.seen - p.recorded] != Committed;
  }

  /** Dispatch the rows from `from` on; those already written are left alone by their row keys. */
  function Dispatch(job: Job, p: Pending, from: nat, work: Work): (Job, Result<nat, RouterError>)
    requires PendingOk(p) && from <= |p.rows|
  {
    var n := |p.rows|;
    var start := if from < p.written then p.written else from;
    match work
    case TurnDown => (job.(pending := Some(p)), Err(Busy))
    case CutShort(reach, seen, recorded) =>
      var written := if start < reach <= n then reach else start;
      var seen' := if p.seen <= seen <= written then seen else p.seen;
      var recorded' := if p.recorded <= recorded <= seen' then recorded else p.recorded;
      (job.(pending := Some(Pending(p.rows, recorded', seen', written)),
            applied := job.applied + p.rows[start..written]),
       Err(Busy))
    case Whole =>
      (job.(pending := None, completed := job.completed + [p.rows], applied := job.applied + p.rows[start..]), Ok(n))
  }

  function Append(job: Job, index: nat, rows: Rows, work: Work): (Job, Result<nat, RouterError>)
    requires job.pending.Some? ==> PendingOk(job.pending.value)
  {
    if rows == [] then (job, Err(Invalid))
    else if index < |job.completed| then
      if SameRows(job.completed[index], rows) then (job, Ok(|rows|)) else (job, Err(Conflict))
    else if job.phase != Open || index > |job.completed| then (job, Err(Conflict))
    else if job.pending.Some? then
      var p := job.pending.value;
      if !SameRows(p.rows, rows) then (job, Err(Conflict))
      else
        var settled := p.recorded + Leading(Journal(p));
        JournalSettles(p);
        Dispatch(job, p.(recorded := settled), settled, work)
    else if work.TurnDown? then (job, Err(Invalid))
    else Dispatch(job, Pending(rows, 0, 0, 0), 0, work)
  }

  function Finalize(job: Job): (Job, Result<(), RouterError>)
  {
    if job.phase.Failed? then (job, Err(Conflict))
    else if job.pending.Some? then (job, Err(Busy))
    else if job.phase.Open? then (job.(phase := FinalizePending), Ok(()))
    else (job, Ok(()))
  }

  // ---------- what every reachable job looks like ----------

  function Flatten(chunks: seq<Rows>): Rows
  {
    if chunks == [] then [] else Flatten(chunks[..|chunks| - 1]) + chunks[|chunks| - 1]
  }

  lemma FlattenAppend(chunks: seq<Rows>, last: Rows)
    ensures Flatten(chunks + [last]) == Flatten(chunks) + last
  {
    assert (chunks + [last])[..|chunks + [last]| - 1] == chunks;
  }

  /** The rows of completed chunks. */
  function Public(job: Job): Rows
  {
    Flatten(job.completed)
  }

  /** The rows written so far are the artifact's rows, in order, up to some point, each once. */
  ghost predicate Faithfully(all: Rows, job: Job)
  {
    && Public(job) <= all
    && (job.pending.Some? ==>
         PendingOk(job.pending.value) && Public(job) + job.pending.value.rows <= all && job.phase.Open?)
    && job.applied ==
         Public(job) + (if job.pending.Some? then job.pending.value.rows[..job.pending.value.written] else [])
    && (job.phase.FinalizePending? || job.phase.Completed? ==> Public(job) == all)
  }

  lemma AppliedIsPrefix(all: Rows, job: Job)
    requires Faithfully(all, job)
    ensures job.applied <= all
    ensures job.phase.Completed? ==> job.applied == all
  {}

  /** The rows a client sends: a non-empty slice of the artifact right after the public ones. */
  ghost predicate NextSlice(all: Rows, job: Job, rows: Rows)
  {
    rows != [] && Public(job) + rows <= all
  }

  lemma SlicesAgree(all: Rows, prefix: Rows, a: Rows, b: Rows)
    requires prefix + a <= all && prefix + b <= all
    ensures |a| == |b| ==> a == b
    ensures SameRows(a, b) <==> |a| == |b|
  {
    assert forall i :: 0 <= i < |a| ==> a[i] == all[|prefix| + i] by {
      assert forall i :: 0 <= i < |a| ==> (prefix + a)[|prefix| + i] == a[i];
    }
    assert forall i :: 0 <= i < |b| ==> b[i] == all[|prefix| + i] by {
      assert forall i :: 0 <= i < |b| ==> (prefix + b)[|prefix| + i] == b[i];
    }
  }

  lemma DispatchKeeps(all: Rows, job: Job, p: Pending, from: nat, work: Work)
    requires Public(job) <= all && job.phase.Open? && PendingOk(p) && from <= p.written && Public(job) + p.rows <= all
    requires job.applied == Public(job) + p.rows[..p.written]
    ensures var (after, r) := Dispatch(job, p, from, work);
            && Faithfully(all, after) && job.applied <= after.applied
            && (r.Ok? <==> work.Whole?)
            && (r.Ok? ==> r.value == |p.rows| && after.completed == job.completed + [p.rows] && after.pending.None?)
            && (r.Err? ==>
                 after.completed == job.completed && after.pending.Some? && after.pending.value.rows == p.rows)
            && after.phase == job.phase
  {
    hide Flatten;
    var (after, r) := Dispatch(job, p, from, work);
    match work
    case TurnDown =>
    case CutShort(reach, seen, recorded) =>
      WrittenOn(job.applied, Public(job), p.rows, p.written, after.pending.value.written);
    case Whole =>
      FlattenAppend(job.completed, p.rows);
      WrittenOn(job.applied, Public(job), p.rows, p.written, |p.rows|);
      assert p.rows[..|p.rows|] == p.rows && p.rows[p.written..|p.rows|] == p.rows[p.written..];
  }

  lemma WrittenOn(applied: Rows, public: Rows, rows: Rows, from: nat, to: nat)
    requires from <= to <= |rows| && applied == public + rows[..from]
    ensures applied + rows[from..to] == public + rows[..to]
  {
    assert rows[..to] == rows[..from] + rows[from..to];
  }

  /** Sending the next slice keeps the job faithful whatever the Router does. It ends in a conflict
      exactly when a pending chunk of another length is in the way, and then nothing has changed. */
  lemma AppendKeeps(all: Rows, job: Job, rows: Rows, work: Work)
    requires Faithfully(all, job) && NextSlice(all, job, rows)
    ensures var (after, r) := Append(job, |job.completed|, rows, work);
            && Faithfully(all, after) && job.applied <= after.applied && after.phase == job.phase
            && (r.Ok? ==> r.value == |rows| && after.completed == job.completed + [rows] && after.pending.None?)
            && (r.Err? ==> after.completed == job.completed)
            && (after.pending.Some? ==>
                  && after.completed == job.completed
                  && after.pending.value.rows == if job.pending.Some? then job.pending.value.rows else rows)
            && (r == Err(Conflict) <==> !job.phase.Open? || (job.pending.Some? && |job.pending.value.rows| != |rows|))
            && (r == Err(Conflict) ==> after == job)
            && (r.Ok? <==> work.Whole? && r != Err(Conflict))
  {
    hide Flatten, Journal, Leading, SameUpdate, SameRows, Dispatch;
    DispatchNeverConflicts(job, work);
    if job.pending.Some? {
      var p := job.pending.value;
      SlicesAgree(all, Public(job), p.rows, rows);
      if |p.rows| == |rows| {
        JournalSettles(p);
        DispatchKeeps(all, job, p.(recorded := p.seen), p.seen, work);
      }
    } else if job.phase.Open? {
      assert rows[..0] == [];
      DispatchKeeps(all, job, Pending(rows, 0, 0, 0), 0, work);
    }
  }

  lemma DispatchNeverConflicts(job: Job, work: Work)
    ensures forall p: Pending, from: nat :: PendingOk(p) && from <= |p.rows| ==>
              Dispatch(job, p, from, work).1 != Err(Conflict)
  {}

  lemma FinalizeKeeps(all: Rows, job: Job)
    requires Faithfully(all, job) && Public(job) == all
    ensures var (after, r) := Finalize(job);
            && Faithfully(all, after) && after.applied == job.applied && after.completed == job.completed
            && (r.Ok? ==> after.phase.FinalizePending? || after.phase.Completed?)
  {
    hide Flatten;
  }
}
