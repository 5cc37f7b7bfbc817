/** Comparing the local chain with the Router's ledger, page by page. The server's answers are an
    arbitrary sequence: answer `n` is what the `n`-th list call returns. */
module MigrationLedger {
  import opened Outcomes
  import opened MigrationChain

  datatype RecordState = PendingIndex | Applied | Failed

  datatype Record = Record(
    id: string,
    parent: Option<string>,
    selector: Selector,
    resolved: bool,
    checksum: seq<int>,
    statement: string,
    profile: seq<Profile>,
    state: RecordState)

  datatype Page = Page(records: seq<Record>, next: Option<string>)

  datatype Status = Status(applied: nat, total: nat)

  datatype LedgerError =
    | CursorRepeated
    | Transport
    | OversizedPage
    | TooManyRecords
    | CursorWithoutRecords
    | CursorMismatch
    | AfterPending
    | AbsentLocally
    | Mismatch(id: string)
    | PendingNonIndex(id: string)
    | RecordFailed(id: string)

  const PAGE_LIMIT: nat := 16
  const MAX_MIGRATIONS: nat := 4096

  // ---------- what a ledger must look like ----------

  predicate Same(a: Artifact, r: Record)
  {
    r.id == a.id && r.parent == a.parent && r.selector == a.selector && r.checksum == a.checksum
  }

  predicate IndexPending(r: Record)
  {
    r.state.PendingIndex? && CreateIndex in r.profile
  }

  /** The records are a prefix of the local chain, applied, except that the last may be pending. */
  ghost predicate MatchesPrefix(local: seq<Artifact>, records: seq<Record>)
  {
    && |records| <= |local|
    && (forall i :: 0 <= i < |records| ==> Same(local[i], records[i]))
    && (forall i :: 0 <= i < |records| ==>
         records[i].state.Applied? || (i == |records| - 1 && IndexPending(records[i])))
  }

  function AppliedCount(records: seq<Record>): nat
  {
    if records == [] then 0
    else AppliedCount(records[..|records| - 1]) + if records[|records| - 1].state.Applied? then 1 else 0
  }

  ghost predicate EndsPending(records: seq<Record>)
  {
    records != [] && records[|records| - 1].state.PendingIndex?
  }

  // ---------- one record, one page ----------

  /** The checks on the record that follows `count` matching ones. */
  function CheckRecord(local: seq<Artifact>, count: nat, pending: bool, r: Record): Result<bool, LedgerError>
  {
    if pending then Err(AfterPending)
    else if count >= |local| then Err(AbsentLocally)
    else if !Same(local[count], r) then Err(Mismatch(r.id))
    else
      match r.state
      case Applied => Ok(false)
      case PendingIndex => if CreateIndex in r.profile then Ok(true) else Err(PendingNonIndex(r.id))
      case Failed => Err(RecordFailed(r.id))
  }

  lemma PendingIsPending(records: seq<Record>)
    ensures forall i :: 0 <= i < |records| && IndexPending(records[i]) ==> records[i].state.PendingIndex?
  {}

  /** Extending a matching prefix by one record: exactly when the prefix has no pending record, the
      next local migration is the same, and the record is applied or a pending index. */
  lemma MatchesExtended(local: seq<Artifact>, seen: seq<Record>, r: Record)
    requires MatchesPrefix(local, seen)
    ensures MatchesPrefix(local, seen + [r]) <==>
              && !EndsPending(seen) && |seen| < |local| && Same(local[|seen|], r)
              && (r.state.Applied? || IndexPending(r))
  {
    hide Same, IndexPending;
    var longer := seen + [r];
    assert longer[|seen|] == r;
    assert forall i :: 0 <= i < |seen| ==> longer[i] == seen[i];
    if MatchesPrefix(local, longer) {
      assert seen != [] ==> longer[|seen| - 1].state.Applied?;
      assert longer[|seen|].state.Applied? || IndexPending(longer[|seen|]);
      assert Same(local[|seen|], longer[|seen|]);
    }
    if !EndsPending(seen) {
      assert forall i :: 0 <= i < |seen| && IndexPending(seen[i]) && i == |seen| - 1 ==> seen[i].state.Applied? by {
        PendingIsPending(seen);
      }
    }
  }

  lemma CountExtended(seen: seq<Record>, r: Record)
    ensures AppliedCount(seen + [r]) == AppliedCount(seen) + if r.state.Applied? then 1 else 0
  {
    assert (seen + [r])[..|seen + [r]| - 1] == seen;
  }

  lemma CheckExtends(local: seq<Artifact>, seen: seq<Record>, r: Record)
    requires MatchesPrefix(local, seen)
    ensures var checked := CheckRecord(local, |seen|, EndsPending(seen), r);
            && (checked.Ok? <==> MatchesPrefix(local, seen + [r]))
            && (checked.Ok? ==> checked.value == EndsPending(seen + [r]))
            && (checked.Err? ==> checked.error != CursorRepeated)
            && AppliedCount(seen + [r]) == AppliedCount(seen) + if r.state.Applied? then 1 else 0
  {
    hide MatchesPrefix, Same, AppliedCount;
    MatchesExtended(local, seen, r);
    CountExtended(seen, r);
  }

  lemma PrefixClosed(local: seq<Artifact>, records: seq<Record>, n: nat)
    requires n <= |records| && !MatchesPrefix(local, records[..n])
    ensures !MatchesPrefix(local, records)
  {}

  lemma LastMatches(local: seq<Artifact>, records: seq<Record>)
    requires MatchesPrefix(local, records) && records != []
    ensures records[|records| - 1].id == local[|records| - 1].id
  {}

  /** The shape rules a page must meet after `count` records. */
  function CheckPage(page: Page, count: nat): Result<(), LedgerError>
  {
    if |page.records| > PAGE_LIMIT then Err(OversizedPage)
    else if |page.records| > (if MAX_MIGRATIONS < count then 0 else MAX_MIGRATIONS - count) then Err(TooManyRecords)
    else if page.next.Some? && page.records == [] then Err(CursorWithoutRecords)
    else if page.next.Some? && page.next.value != page.records[|page.records| - 1].id then Err(CursorMismatch)
    else Ok(())
  }

  // ---------- whole answers ----------

  type Answers = nat -> Result<Page, LedgerError>

  /** The records of the first `n` answers, end to end. */
  ghost function Concat(answers: Answers, n: nat): seq<Record>
  {
    if n == 0 then []
    else Concat(answers, n - 1) + if answers(n - 1).Ok? then answers(n - 1).value.records else []
  }

  /** Answer `i` is a well-shaped page that asks for another one. */
  ghost predicate Continues(answers: Answers, i: nat)
  {
    && answers(i).Ok?
    && CheckPage(answers(i).value, |Concat(answers, i)|).Ok?
    && answers(i).value.next.Some?
  }

  /** The first `n` answers are a complete well-shaped listing: only the last has no cursor. */
  ghost predicate Listing(answers: Answers, n: nat)
  {
    && n > 0
    && (forall i :: 0 <= i < n - 1 ==> Continues(answers, i))
    && answers(n - 1).Ok?
    && CheckPage(answers(n - 1).value, |Concat(answers, n - 1)|).Ok?
    && answers(n - 1).value.next.None?
  }

  ghost predicate DistinctIds(local: seq<Artifact>)
  {
    forall i, j :: 0 <= i < j < |local| ==> local[i].id != local[j].id
  }

  /** Compare one page, record by record. */
  method ComparePage(local: seq<Artifact>, records: seq<Record>, ghost seen: seq<Record>, count0: nat, applied0: nat,
                     pending0: bool)
    returns (r: Result<(nat, nat, bool), LedgerError>)
    requires MatchesPrefix(local, seen)
    requires count0 == |seen| && applied0 == AppliedCount(seen) && pending0 == EndsPending(seen)
    ensures r.Ok? <==> MatchesPrefix(local, seen + records)
    ensures r.Ok? ==> r.value == (|seen + records|, AppliedCount(seen + records), EndsPending(seen + records))
    ensures r.Err? ==> r.error != CursorRepeated
  {
    hide MatchesPrefix, AppliedCount, EndsPending, CheckRecord;
    var count, applied, pending := count0, applied0, pending0;
    assert seen + records[..0] == seen;
    for i := 0 to |records|
      invariant MatchesPrefix(local, seen + records[..i])
      invariant count == |seen| + i && applied == AppliedCount(seen + records[..i])
      invariant pending == EndsPending(seen + records[..i])
    {
      var upTo := seen + records[..i];
      assert seen + records[..i + 1] == upTo + [records[i]];
      CheckExtends(local, upTo, records[i]);
      var checked := CheckRecord(local, count, pending, records[i]);
      if checked.Err? {
        assert (seen + records)[..|seen| + i + 1] == seen + records[..i + 1];
        PrefixClosed(local, seen + records, |seen| + i + 1);
        return Err(checked.error);
      }
      if records[i].state.Applied? {
        applied := applied + 1;
      }
      count, pending := count + 1, checked.value;
    }
    assert records[..|records|] == records;
    return Ok((count, applied, pending));
  }

  lemma AppliedNothing()
    ensures AppliedCount([]) == 0
  {}

  lemma {:induction false} ConcatPrefix(answers: Answers, k: nat, n: nat)
    requires k <= n
    ensures Concat(answers, k) <= Concat(answers, n)
    decreases n
  {
    if k < n {
      ConcatPrefix(answers, k, n - 1);
    }
  }

  /** If answer `k` breaks the comparison, no listing of these answers could have been accepted. */
  lemma NothingElseMatches(local: seq<Artifact>, answers: Answers, k: nat)
    requires forall i :: 0 <= i < k ==> Continues(answers, i)
    requires answers(k).Err? || CheckPage(answers(k).value, |Concat(answers, k)|).Err?
          || !MatchesPrefix(local, Concat(answers, k + 1))
    ensures forall n: nat :: Listing(answers, n) ==> !MatchesPrefix(local, Concat(answers, n))
  {
    forall n: nat | Listing(answers, n) ensures !MatchesPrefix(local, Concat(answers, n)) {
      assert n > k by {
        assert n - 1 < k ==> Continues(answers, n - 1);
      }
      assert n - 1 > k ==> Continues(answers, k);
      ConcatPrefix(answers, k + 1, n);
      assert Concat(answers, n)[..|Concat(answers, k + 1)|] == Concat(answers, k + 1);
      PrefixClosed(local, Concat(answers, n), |Concat(answers, k + 1)|);
    }
  }

  /** Whatever the server answers, the comparison stops, after at most one call more than there are
      local migrations. It accepts exactly the complete listings of a matching prefix, and the count
      depends on the records alone, not on where the pages are cut. */
  method StatusForPlan(local: seq<Artifact>, answers: Answers)
    returns (r: Result<Status, LedgerError>, calls: nat)
    ensures 1 <= calls <= |local| + 1
    ensures r.Ok? ==> Listing(answers, calls) && MatchesPrefix(local, Concat(answers, calls))
    ensures r.Ok? ==> r.value == Status(AppliedCount(Concat(answers, calls)), |local|)
    ensures r.Err? && r.error != CursorRepeated ==>
              forall n: nat :: Listing(answers, n) ==> !MatchesPrefix(local, Concat(answers, n))
    ensures DistinctIds(local) ==> r != Err(CursorRepeated)
  {
    hide Same, IndexPending, AppliedCount;
    var count, applied, pending := 0, 0, false;
    var startAfter: Option<string> := None;
    var visited: set<Option<string>> := {};
    calls := 0;
    assert AppliedCount([]) == 0 by { AppliedNothing(); }
    while true
      invariant calls <= count <= |local|
      invariant forall i :: 0 <= i < calls ==> Continues(answers, i)
      invariant MatchesPrefix(local, Concat(answers, calls))
      invariant count == |Concat(answers, calls)| && applied == AppliedCount(Concat(answers, calls))
      invariant pending == EndsPending(Concat(answers, calls))
      invariant startAfter == if calls == 0 then None else Some(local[count - 1].id)
      invariant calls == 0 <==> count == 0
      invariant forall c :: c in visited ==>
                  (c == None && calls > 0) || exists i :: 0 <= i < count - 1 && c == Some(local[i].id)
      decreases |local| - count
    {
      ghost var sofar := Concat(answers, calls);
      if startAfter in visited {
        return Err(CursorRepeated), calls;
      }
      visited := visited + {startAfter};
      var answer := answers(calls);
      ghost var k := calls;
      calls := calls + 1;
      if answer.Err? || CheckPage(answer.value, count).Err? || !MatchesPrefix(local, Concat(answers, k + 1)) {
        NothingElseMatches(local, answers, k);
      }
      if answer.Err? {
        return Err(Transport), calls;
      }
      var page := answer.value;
      var shape := CheckPage(page, count);
      if shape.Err? {
        return Err(shape.error), calls;
      }
      var compared := ComparePage(local, page.records, sofar, count, applied, pending);
      if compared.Err? {
        return Err(compared.error), calls;
      }
      count, applied, pending := compared.value.0, compared.value.1, compared.value.2;
      if page.next.None? {
        assert Listing(answers, calls);
        return Ok(Status(applied, |local|)), calls;
      }
      assert Continues(answers, calls - 1);
      LastMatches(local, Concat(answers, calls));
      startAfter := page.next;
    }
  }
}
