/** Driving a chain of migrations to completion against a Router whose ledger only grows. The Router
    may lose a request or a response, refuse a call, advance an index build by any amount, or fail it;
    the script of those choices is arbitrary. */
module MigrationApply {
  import opened Outcomes
  import opened MigrationIds
  import opened MigrationChain
  import opened MigrationLedger

  datatype Args = Args(id: string, parent: Option<string>, selector: Selector, checksum: seq<int>, statement: string)

  datatype Progress = Progress(active: nat, total: nat, phase: nat, completed: nat, targets: nat)

  datatype Outcome = InProgress(progress: Progress) | Done | Replayed | Failure(code: nat)

  datatype Reply = Reply(status: Outcome, record: Record)

  datatype Refusal = Unavailable | Conflict | LedgerFull | BadParent | BadSequence | OtherPending

  /** What a running index build does in one call. */
  datatype Advance = Build(next: nat, phase: nat, completed: nat, targets: nat) | Finish | Abort(code: nat)

  datatype Choice = Lose | Refuse | Run(advance: Advance, answered: bool)

  /** How statements of the modelled kinds are classified, on both sides. Text index migrations are none of
      them: the client has no classification for those. */
  type Classify = string -> seq<Profile>

  datatype Server = Server(ledger: seq<Record>, active: nat)

  datatype ApplyError =
    | StatusFailed(status: LedgerError)
    | PropertiesRefused
    | RoundsExhausted(id: string)
    | ReplayFailed
    | WrongRecord
    | MismatchedRecord
    | MigrationFailed(id: string)
    | Stalled(id: string)

  const MAX_ROUNDS: nat := 4096
  const MAX_UNCHANGED: nat := 8

  function ApplyArgs(a: Artifact): Args
  {
    Args(a.id, a.parent, a.selector, a.checksum, a.statement)
  }

  predicate IsIndex(profile: seq<Profile>)
  {
    CreateIndex in profile
  }

  predicate NeedsGraph(profile: seq<Profile>)
  {
    CreateIndex in profile || CreateVectorIndex in profile
  }

  // ---------- the Router ----------

  function Find(ledger: seq<Record>, id: string): (r: Option<nat>)
    ensures r.Some? ==> r.value < |ledger| && ledger[r.value].id == id
    ensures r.None? ==> forall i :: 0 <= i < |ledger| ==> ledger[i].id != id
  {
    if ledger == [] then None
    else if ledger[|ledger| - 1].id == id then Some(|ledger| - 1)
    else Find(ledger[..|ledger| - 1], id)
  }

  predicate RecordMatches(r: Record, args: Args)
  {
    r.id == args.id && r.parent == args.parent && r.selector == args.selector && r.checksum == args.checksum
    && r.statement == args.statement
  }

  predicate PendingExists(ledger: seq<Record>)
  {
    exists i :: 0 <= i < |ledger| && ledger[i].state.PendingIndex?
  }

  /** Where a new record may go: after the current head, with a larger sequence. */
  function Admission(ledger: seq<Record>, args: Args): Result<(), Refusal>
  {
    if |ledger| >= MAX_MIGRATIONS then Err(LedgerFull)
    else if args.parent.None? then (if ledger == [] then Ok(()) else Err(Conflict))
    else if ledger == [] then Err(BadParent)
    else
      var head := ledger[|ledger| - 1].id;
      if head != args.parent.value then Err(BadParent)
      else if ParseId(head).None? || ParseId(args.id).None? ||
              ParseId(args.id).value <= ParseId(head).value then Err(BadSequence)
      else Ok(())
  }

  /** A build of `total` indexes works through them in order: the active one never goes back. */
  function Resume(s: Server, at: nat, advance: Advance): (Server, Reply)
    requires at < |s.ledger|
  {
    var record := s.ledger[at];
    match advance
    case Build(next, phase, completed, targets) =>
      var active := if s.active <= next < |record.profile| then next else s.active;
      (s.(active := active), Reply(InProgress(Progress(active, |record.profile|, phase, completed, targets)), record))
    case Finish =>
      var applied := record.(state := Applied);
      (s.(ledger := s.ledger[at := applied]), Reply(Done, applied))
    case Abort(code) =>
      var failed := record.(state := Failed);
      (s.(ledger := s.ledger[at := failed]), Reply(Failure(code), failed))
  }

  function Create(classify: Classify, s: Server, args: Args): (Server, Reply)
  {
    var profile := classify(args.statement);
    var record := Record(args.id, args.parent, args.selector, NeedsGraph(profile), args.checksum, args.statement,
                         profile, if IsIndex(profile) then PendingIndex else Applied);
    var status := if IsIndex(profile) then InProgress(Progress(0, |profile|, 0, 0, 0)) else Done;
    (Server(s.ledger + [record], 0), Reply(status, record))
  }

  /** One executed call: replay, resume, or admit. */
  function Execute(classify: Classify, s: Server, args: Args, advance: Advance): (Server, Result<Reply, Refusal>)
  {
    match Find(s.ledger, args.id)
    case Some(at) =>
      var record := s.ledger[at];
      if !RecordMatches(record, args) then (s, Err(Conflict))
      else
        (match record.state
         case Applied => (s, Ok(Reply(Replayed, record)))
         case Failed => (s, Ok(Reply(Failure(0), record)))
         case PendingIndex => var resumed := Resume(s, at, advance); (resumed.0, Ok(resumed.1)))
    case None =>
      var admitted := Admission(s.ledger, args);
      if admitted.Err? then (s, Err(admitted.error))
      else if IsIndex(classify(args.statement)) && PendingExists(s.ledger) then (s, Err(OtherPending))
      else var created := Create(classify, s, args); (created.0, Ok(created.1))
  }

  function React(classify: Classify, s: Server, args: Args, choice: Choice): (Server, Result<Reply, Refusal>)
  {
    match choice
    case Lose => (s, Err(Unavailable))
    case Refuse => (s, Err(Conflict))
    case Run(advance, answered) =>
      var ran := Execute(classify, s, args, advance);
      (ran.0, if answered then ran.1 else Err(Unavailable))
  }

  /** A record's derived fields agree with its statement, and only index builds are ever pending. */
  predicate RecordSound(classify: Classify, r: Record)
  {
    && r.profile == classify(r.statement)
    && r.resolved == NeedsGraph(r.profile)
    && (r.state.PendingIndex? ==> IsIndex(r.profile))
  }

  ghost predicate Sound(classify: Classify, s: Server)
  {
    && (forall i :: 0 <= i < |s.ledger| ==> RecordSound(classify, s.ledger[i]))
    && (forall i :: 0 <= i < |s.ledger| && s.ledger[i].state.PendingIndex? ==> s.active < |s.ledger[i].profile|)
  }

  /** Nothing is removed or rewritten except the state of a record that was still pending. */
  ghost predicate Grows(before: seq<Record>, after: seq<Record>)
  {
    && |before| <= |after|
    && (forall i :: 0 <= i < |before| ==> before[i].(state := after[i].state) == after[i])
    && (forall i :: 0 <= i < |before| ==> before[i].state == after[i].state || before[i].state.PendingIndex?)
  }

  // ---------- where a run stands ----------

  /** The first `k` local migrations are applied; the ledger may also hold number `k`, in any state. */
  ghost predicate Reached(local: seq<Artifact>, ledger: seq<Record>, k: nat)
  {
    && k <= |local|
    && k <= |ledger| <= k + 1
    && |ledger| <= |local|
    && (forall i :: 0 <= i < |ledger| ==> Same(local[i], ledger[i]))
    && (forall i :: 0 <= i < k ==> ledger[i].state.Applied?)
  }

  /** Number `k` is the first migration not yet applied. */
  ghost predicate Next(local: seq<Artifact>, ledger: seq<Record>, k: nat)
  {
    && Reached(local, ledger, k)
    && (|ledger| == k + 1 ==> ledger[k].state.PendingIndex?)
  }

  lemma GrowsTrans(a: seq<Record>, b: seq<Record>, c: seq<Record>)
    requires Grows(a, b) && Grows(b, c)
    ensures Grows(a, c)
  {
    forall i | 0 <= i < |a| ensures a[i].(state := c[i].state) == c[i] {
      assert a[i].(state := b[i].state) == b[i];
      assert b[i].(state := c[i].state) == c[i];
    }
  }

  lemma {:induction false} CountAll(local: seq<Artifact>, ledger: seq<Record>, k: nat)
    requires Reached(local, ledger, k)
    ensures AppliedCount(ledger) == if |ledger| == k + 1 && ledger[k].state.Applied? then k + 1 else k
    decreases k, |ledger|
  {
    if |ledger| == k + 1 {
      var shorter := ledger[..k];
      assert forall i :: 0 <= i < |shorter| ==> Same(local[i], shorter[i]);
      if k > 0 {
        assert Reached(local, shorter, k - 1);
        CountAll(local, shorter, k - 1);
      }
    } else if k > 0 {
      assert Reached(local, ledger, k - 1);
      CountAll(local, ledger, k - 1);
    }
  }

  lemma {:induction false} PrefixCount(local: seq<Artifact>, ledger: seq<Record>)
    requires MatchesPrefix(local, ledger)
    ensures Next(local, ledger, AppliedCount(ledger))
  {
    if ledger == [] {
    } else {
      var n := |ledger| - 1;
      var k := if ledger[n].state.Applied? then n + 1 else n;
      assert Same(local[n], ledger[n]);
      assert Reached(local, ledger, k);
      CountAll(local, ledger, k);
    }
  }

  // ---------- one call about the next migration ----------

  /** What a reply about `a` must look like for the client to accept it. */
  predicate ReplyFits(classify: Classify, a: Artifact, reply: Reply)
  {
    && RecordMatches(reply.record, ApplyArgs(a))
    && RecordSound(classify, reply.record)
    && (reply.status.InProgress? <==> reply.record.state.PendingIndex?)
    && (reply.status.Failure? <==> reply.record.state.Failed?)
  }

  lemma FindNext(local: seq<Artifact>, ledger: seq<Record>, k: nat)
    requires Reached(local, ledger, k) && k < |local| && DistinctIds(local)
    ensures Find(ledger, local[k].id) == if |ledger| == k + 1 then Some(k) else None
  {
    hide Find;
    forall i | 0 <= i < |ledger| && ledger[i].id == local[k].id ensures i == k {
      assert Same(local[i], ledger[i]);
    }
    assert |ledger| == k + 1 ==> Same(local[k], ledger[k]);
  }

  lemma ResumeKeeps(classify: Classify, local: seq<Artifact>, s: Server, k: nat, advance: Advance)
    requires Sound(classify, s) && Next(local, s.ledger, k) && k < |local| && |s.ledger| == k + 1
    requires RecordMatches(s.ledger[k], ApplyArgs(local[k]))
    ensures var (t, reply) := Resume(s, k, advance);
            && Sound(classify, t) && Reached(local, t.ledger, k) && |t.ledger| == k + 1 && Grows(s.ledger, t.ledger)
            && reply.record == t.ledger[k] && ReplyFits(classify, local[k], reply) && s.active <= t.active
            && (reply.status.InProgress? ==> reply.status.progress.active == t.active < |classify(local[k].statement)|)
  {
    hide Same;
    var (t, reply) := Resume(s, k, advance);
    assert RecordSound(classify, s.ledger[k]);
    assert Same(local[k], t.ledger[k]) by { SameKept(local[k], s.ledger[k], t.ledger[k].state); }
    forall i | 0 <= i < k ensures t.ledger[i] == s.ledger[i] {}
  }

  lemma SameKept(a: Artifact, r: Record, state: RecordState)
    requires Same(a, r)
    ensures Same(a, r.(state := state))
  {}

  lemma CreateKeeps(classify: Classify, local: seq<Artifact>, s: Server, k: nat)
    requires Sound(classify, s) && Reached(local, s.ledger, k) && k < |local| && |s.ledger| == k
    ensures var (t, reply) := Create(classify, s, ApplyArgs(local[k]));
            && Sound(classify, t) && Reached(local, t.ledger, k) && |t.ledger| == k + 1 && Grows(s.ledger, t.ledger)
            && reply.record == t.ledger[k] && ReplyFits(classify, local[k], reply)
            && t.ledger[k].statement == local[k].statement
            && (reply.status.InProgress? ==> reply.status.progress.active == t.active < |classify(local[k].statement)|)
  {
    var (t, reply) := Create(classify, s, ApplyArgs(local[k]));
    assert forall i :: 0 <= i < k ==> t.ledger[i] == s.ledger[i];
    assert t.ledger[k] == reply.record;
    assert Same(local[k], reply.record);
    assert forall i :: 0 <= i < k ==> s.ledger[i].state.Applied?;
  }

  /** Whatever the Router does with the envelope of migration `k`, the ledger still agrees with the
      local chain, and an answer is about that migration in the state it now has. */
  lemma ReactKeeps(classify: Classify, local: seq<Artifact>, s: Server, k: nat, choice: Choice)
    requires Sound(classify, s) && Reached(local, s.ledger, k) && k < |local| && DistinctIds(local)
    ensures var (t, r) := React(classify, s, ApplyArgs(local[k]), choice);
            && Sound(classify, t) && Reached(local, t.ledger, k) && Grows(s.ledger, t.ledger)
            && (|s.ledger| == k && |t.ledger| == k + 1 ==> t.ledger[k].statement == local[k].statement)
            && (r.Ok? ==>
                 |t.ledger| == k + 1 && r.value.record == t.ledger[k] && ReplyFits(classify, local[k], r.value))
            && (|s.ledger| == k + 1 ==> s.active <= t.active)
            && (r.Ok? && r.value.status.InProgress? ==>
                  r.value.status.progress.active == t.active < |classify(local[k].statement)|)
  {
    hide Same, Admission, PendingExists, Find, Create, Resume, RecordSound, RecordMatches, ApplyArgs;
    FindNext(local, s.ledger, k);
    IdOfArgs(local[k]);
    GrowsRefl(s.ledger);
    if choice.Run? {
      var args := ApplyArgs(local[k]);
      if |s.ledger| == k + 1 {
        assert RecordSound(classify, s.ledger[k]);
        if RecordMatches(s.ledger[k], args) && s.ledger[k].state.PendingIndex? {
          ResumeKeeps(classify, local, s, k, choice.advance);
        }
      } else {
        CreateKeeps(classify, local, s, k);
      }
    }
  }

  lemma IdOfArgs(a: Artifact)
    ensures ApplyArgs(a).id == a.id
  {}

  lemma GrowsRefl(a: seq<Record>)
    ensures Grows(a, a)
  {}

  // ---------- when the Router has no reason of its own to refuse ----------

  /** The chain fits the ledger, its prefixes grow, and what is already recorded is the local text. */
  ghost predicate Extendable(local: seq<Artifact>, ledger: seq<Record>)
  {
    && |local| <= MAX_MIGRATIONS
    && (forall i :: 0 <= i < |local| ==> Linked(local, i))
    && SortedByPrefix(local)
    && (forall i :: 0 <= i < |ledger| && i < |local| ==> ledger[i].statement == local[i].statement)
  }

  predicate Faulty(choice: Choice)
  {
    choice.Lose? || choice.Refuse? || !choice.answered
  }

  lemma AdmissionOfNext(local: seq<Artifact>, ledger: seq<Record>, k: nat)
    requires Reached(local, ledger, k) && k < |local| && |ledger| == k && Extendable(local, ledger)
    ensures Admission(ledger, ApplyArgs(local[k])).Ok? && !PendingExists(ledger)
  {
    hide ParseId;
    assert Linked(local, k);
    if k > 0 {
      assert Same(local[k - 1], ledger[k - 1]);
    }
  }

  lemma OnlyFaultsRefuse(classify: Classify, local: seq<Artifact>, s: Server, k: nat, choice: Choice)
    requires Reached(local, s.ledger, k) && k < |local| && DistinctIds(local) && Extendable(local, s.ledger)
    ensures React(classify, s, ApplyArgs(local[k]), choice).1.Err? ==> Faulty(choice)
  {
    hide Admission, Find, PendingExists, Create, Resume, Linked, SortedByPrefix;
    FindNext(local, s.ledger, k);
    if |s.ledger| == k {
      AdmissionOfNext(local, s.ledger, k);
    } else {
      assert Same(local[k], s.ledger[k]);
    }
  }

  /** The call arrives, is answered, and does not fail the build; how far it takes it is open. */
  predicate Fair(choice: Choice)
  {
    choice.Run? && choice.answered && !choice.advance.Abort?
  }

  ghost predicate Faultless(script: nat -> Choice)
  {
    forall n :: Fair(script(n))
  }

  /** No fault, and every build finishes when asked. */
  ghost predicate Prompt(script: nat -> Choice)
  {
    forall n :: script(n) == Run(Finish, true)
  }

  lemma FairReact(classify: Classify, local: seq<Artifact>, s: Server, k: nat, choice: Choice)
    requires Next(local, s.ledger, k) && k < |local| && DistinctIds(local) && Extendable(local, s.ledger) &&
             Fair(choice)
    ensures var r := React(classify, s, ApplyArgs(local[k]), choice).1;
            && r.Ok? && !r.value.status.Failure?
            && (|s.ledger| == k + 1 && choice.advance.Finish? ==> r.value.status.Done?)
  {
    hide Admission, Find, PendingExists, Linked, SortedByPrefix, DistinctIds;
    OnlyFaultsRefuse(classify, local, s, k, choice);
    FindNext(local, s.ledger, k);
    if |s.ledger| == k + 1 {
      assert Same(local[k], s.ledger[k]);
    }
  }

  // ---------- what a fair Router reports, call after call ----------

  /** The server after `n` calls with the same envelope. */
  function After(classify: Classify, s: Server, args: Args, script: nat -> Choice, clock: nat, n: nat): Server
  {
    if n == 0 then s else React(classify, After(classify, s, args, script, clock, n - 1), args, script(clock + n - 1)).0
  }

  /** The outcomes are those of the first calls. */
  ghost predicate Reported(classify: Classify, s: Server, args: Args, script: nat -> Choice, clock: nat,
                           seen: seq<Outcome>)
  {
    forall i :: 0 <= i < |seen| ==> Answers(classify, s, args, script, clock, i, seen[i])
  }

  predicate Answers(classify: Classify, s: Server, args: Args, script: nat -> Choice, clock: nat, i: nat, o: Outcome)
  {
    var r := React(classify, After(classify, s, args, script, clock, i), args, script(clock + i)).1;
    r.Ok? && r.value.status == o
  }

  lemma ReportedOn(classify: Classify, s: Server, args: Args, script: nat -> Choice, clock: nat, seen: seq<Outcome>,
                   o: Outcome)
    requires Reported(classify, s, args, script, clock, seen) && Answers(classify, s, args, script, clock, |seen|, o)
    ensures Reported(classify, s, args, script, clock, seen + [o])
  {
    hide Answers;
  }

  // ---------- the Router as the client meets it ----------

  /** A delivered request, with the number of migrations applied when it arrived. */
  datatype Delivery = Delivery(args: Args, applied: nat)

  class Router {
    const classify: Classify
    const script: nat -> Choice
    var server: Server
    var clock: nat
    ghost var sent: seq<Delivery>

    constructor (classify: Classify, script: nat -> Choice)
      ensures this.classify == classify && this.script == script
      ensures server == Server([], 0) && clock == 0 && sent == []
    {
      this.classify, this.script := classify, script;
      server, clock, sent := Server([], 0), 0, [];
    }

    method Deliver(args: Args) returns (r: Result<Reply, Refusal>)
      modifies this
      ensures clock == old(clock) + 1
      ensures sent == old(sent) + [Delivery(args, AppliedCount(old(server.ledger)))]
      ensures (server, r) == React(classify, old(server), args, script(old(clock)))
    {
      sent := sent + [Delivery(args, AppliedCount(server.ledger))];
      var (after, answer) := React(classify, server, args, script(clock));
      server, r, clock := after, answer, clock + 1;
    }
  }

  ghost predicate FirstUnapplied(local: seq<Artifact>, d: Delivery)
  {
    d.applied < |local| && d.args == ApplyArgs(local[d.applied])
  }

  /** From position `from` on, every request is the envelope of the first unapplied migration, or the
      exact replay of one that was. */
  ghost predicate Disciplined(local: seq<Artifact>, log: seq<Delivery>, from: nat)
  {
    forall i :: from <= i < |log| ==> InOrder(local, log, from, i)
  }

  ghost predicate InOrder(local: seq<Artifact>, log: seq<Delivery>, from: nat, i: nat)
    requires from <= i < |log|
  {
    || FirstUnapplied(local, log[i])
    || (i > from && log[i].args == log[i - 1].args && FirstUnapplied(local, log[i - 1]))
  }

  lemma DisciplinedJoin(local: seq<Artifact>, log: seq<Delivery>, longer: seq<Delivery>, from: nat)
    requires from <= |log| && log <= longer && Disciplined(local, log, from) && Disciplined(local, longer, |log|)
    ensures Disciplined(local, longer, from)
  {
    hide FirstUnapplied;
    forall i | from <= i < |longer| ensures InOrder(local, longer, from, i) {
      if i < |log| {
        assert InOrder(local, log, from, i);
        assert longer[i] == log[i];
        assert i > from ==> longer[i - 1] == log[i - 1];
      } else {
        assert InOrder(local, longer, |log|, i);
      }
    }
  }

  lemma DisciplinedRound(local: seq<Artifact>, log: seq<Delivery>, k: nat, again: seq<Delivery>)
    requires k < |local| && |again| <= 1 && (again != [] ==> again[0].args == ApplyArgs(local[k]))
    ensures Disciplined(local, log + [Delivery(ApplyArgs(local[k]), k)] + again, |log|)
  {
    var longer := log + [Delivery(ApplyArgs(local[k]), k)] + again;
    assert FirstUnapplied(local, longer[|log|]);
  }

  // ---------- the client ----------

  /** One round: the envelope, and once more, unchanged, if there was no answer. */
  method Round(router: Router, local: seq<Artifact>, k: nat) returns (r: Result<Reply, Refusal>)
    requires DistinctIds(local) && k < |local|
    requires Sound(router.classify, router.server) && Next(local, router.server.ledger, k)
    modifies router
    ensures Sound(router.classify, router.server) && Reached(local, router.server.ledger, k)
    ensures Grows(old(router.server.ledger), router.server.ledger)
    ensures |old(router.server.ledger)| == k && |router.server.ledger| == k + 1 ==>
              router.server.ledger[k].statement == local[k].statement
    ensures |old(router.server.ledger)| == k + 1 ==> old(router.server.active) <= router.server.active
    ensures r.Ok? ==> |router.server.ledger| == k + 1 && r.value.record == router.server.ledger[k]
    ensures r.Ok? ==> ReplyFits(router.classify, local[k], r.value)
    ensures r.Ok? && r.value.status.InProgress? ==>
              r.value.status.progress.active == router.server.active < |router.classify(local[k].statement)|
    ensures old(router.sent) <= router.sent && |old(router.sent)| < |router.sent| <= |old(router.sent)| + 2
    ensures Disciplined(local, router.sent, |old(router.sent)|)
    ensures Fair(router.script(old(router.clock))) && Extendable(local, old(router.server.ledger)) ==>
              && router.clock == old(router.clock) + 1
              && (router.server, r) ==
                   React(router.classify, old(router.server), ApplyArgs(local[k]), router.script(old(router.clock)))
              && r.Ok? && !r.value.status.Failure?
              && (|old(router.server.ledger)| == k + 1 && router.script(old(router.clock)).advance.Finish? ==>
                   r.value.status.Done?)
    ensures router.clock >= old(router.clock)
    ensures r.Err? && Extendable(local, old(router.server.ledger)) ==>
              router.clock >= 2 && Faulty(router.script(router.clock - 2)) && Faulty(router.script(router.clock - 1))
  {
    hide Sound, Same, React, AppliedCount, Disciplined, Extendable, ReplyFits, DistinctIds, SortedByPrefix,
         MatchesPrefix;
    ghost var s0, log := router.server, router.sent;
    DisciplinedRound(local, log, k, []);
    assert log + [Delivery(ApplyArgs(local[k]), k)] + [] == log + [Delivery(ApplyArgs(local[k]), k)];
    assert Reached(local, s0.ledger, k) && AppliedCount(s0.ledger) == k by { NextCount(local, s0.ledger, k); }
    ReactKeeps(router.classify, local, s0, k, router.script(router.clock));
    if Fair(router.script(router.clock)) && Extendable(local, s0.ledger) {
      FairReact(router.classify, local, s0, k, router.script(router.clock));
    }
    r := router.Deliver(ApplyArgs(local[k]));
    if r.Err? {
      ghost var s1 := router.server;
      ReactKeeps(router.classify, local, s1, k, router.script(router.clock));
      if Extendable(local, s0.ledger) {
        OnlyFaultsRefuse(router.classify, local, s0, k, router.script(router.clock - 1));
        ExtendableKept(local, s0.ledger, s1.ledger, k);
        OnlyFaultsRefuse(router.classify, local, s1, k, router.script(router.clock));
      }
      r := router.Deliver(ApplyArgs(local[k]));
      ghost var again := [Delivery(ApplyArgs(local[k]), AppliedCount(s1.ledger))];
      assert router.sent == log + [Delivery(ApplyArgs(local[k]), k)] + again;
      DisciplinedRound(local, log, k, again);
      GrowsTrans(s0.ledger, s1.ledger, router.server.ledger);
    }
  }

  lemma NextCount(local: seq<Artifact>, ledger: seq<Record>, k: nat)
    requires Next(local, ledger, k)
    ensures Reached(local, ledger, k) && AppliedCount(ledger) == k
  {
    CountAll(local, ledger, k);
  }

  lemma ExtendableKept(local: seq<Artifact>, before: seq<Record>, after: seq<Record>, k: nat)
    requires Extendable(local, before) && Grows(before, after) && k <= |before| && |after| <= k + 1
    requires |before| == k && |after| == k + 1 && k < |local| ==> after[k].statement == local[k].statement
    ensures Extendable(local, after)
  {
    hide Linked, SortedByPrefix;
    forall i | 0 <= i < |after| && i < |local| ensures after[i].statement == local[i].statement {
      if i < |before| {
        assert before[i].(state := after[i].state) == after[i];
      }
    }
  }

  /** The fields of a reply the client compares with its own artifact. */
  predicate Accepts(a: Artifact, reply: Reply)
  {
    var r := reply.record;
    && r.parent == a.parent && r.selector == a.selector && r.checksum == a.checksum
    && r.statement == a.statement && r.profile == a.profile
    && r.resolved == NeedsGraph(a.profile)
    && match reply.status
       case InProgress(_) => r.state.PendingIndex?
       case Done => r.state.Applied?
       case Replayed => r.state.Applied?
       case Failure(_) => r.state.Failed?
  }

  predicate Terminal(o: Outcome)
  {
    o.Done? || o.Replayed?
  }

  function Terminals(outcomes: seq<Outcome>): nat
  {
    if outcomes == [] then 0
    else Terminals(outcomes[..|outcomes| - 1]) + if Terminal(outcomes[|outcomes| - 1]) then 1 else 0
  }

  /** How often the last progress was reported in a row at the end. */
  function Trailing(outcomes: seq<Outcome>): nat
  {
    var n := |outcomes|;
    if n == 0 || !outcomes[n - 1].InProgress? then 0
    else if n >= 2 && outcomes[n - 2] == outcomes[n - 1] then 1 + Trailing(outcomes[..n - 1])
    else 1
  }

  /** How many reports in a row at the end were about the same active index. */
  function Stretch(outcomes: seq<Outcome>): nat
  {
    var n := |outcomes|;
    if n == 0 || !outcomes[n - 1].InProgress? then 0
    else if n >= 2 && outcomes[n - 2].InProgress? && outcomes[n - 2].progress.active == outcomes[n - 1].progress.active
    then 1 + Stretch(outcomes[..n - 1])
    else 1
  }

  lemma StretchAppended(outcomes: seq<Outcome>, p: Progress)
    ensures var n := |outcomes|;
            Stretch(outcomes + [InProgress(p)]) ==
              if n > 0 && outcomes[n - 1].InProgress? && outcomes[n - 1].progress.active == p.active
              then 1 + Stretch(outcomes) else 1
  {
    assert (outcomes + [InProgress(p)])[..|outcomes + [InProgress(p)]| - 1] == outcomes;
  }

  /** The reports so far decide the migration: applied, failed, nothing new for nine reports, or the rounds for
      the active index used up. */
  predicate Decided(outcomes: seq<Outcome>)
  {
    && outcomes != []
    && (|| !outcomes[|outcomes| - 1].InProgress?
        || Trailing(outcomes) > MAX_UNCHANGED || Stretch(outcomes) >= MAX_ROUNDS)
  }

  /** Nothing was decided before the last report. */
  ghost predicate JustDecided(outcomes: seq<Outcome>)
  {
    forall n :: 0 <= n < |outcomes| ==> !Decided(outcomes[..n])
  }

  lemma JustDecidedAppended(outcomes: seq<Outcome>, o: Outcome)
    requires JustDecided(outcomes) && !Decided(outcomes)
    ensures JustDecided(outcomes + [o])
  {
    hide Decided;
    forall n | 0 <= n < |outcomes + [o]| ensures !Decided((outcomes + [o])[..n]) {
      if n == |outcomes| {
        assert (outcomes + [o])[..n] == outcomes;
      } else {
        assert (outcomes + [o])[..n] == outcomes[..n];
      }
    }
  }

  /** No progress was ever accepted more than eight times in a row. */
  ghost predicate Patient(outcomes: seq<Outcome>)
  {
    forall n :: 0 <= n <= |outcomes| ==> Trailing(outcomes[..n]) <= MAX_UNCHANGED
  }

  lemma TrailingAppended(outcomes: seq<Outcome>, o: Outcome)
    ensures Trailing(outcomes + [o]) ==
              if !o.InProgress? then 0
                 else if outcomes != [] && outcomes[|outcomes| - 1] == o then 1 + Trailing(outcomes) else 1
  {
    assert (outcomes + [o])[..|outcomes + [o]| - 1] == outcomes;
  }

  lemma PatientAppended(outcomes: seq<Outcome>, o: Outcome)
    requires Patient(outcomes) && Trailing(outcomes + [o]) <= MAX_UNCHANGED
    ensures Patient(outcomes + [o])
  {
    hide Trailing;
    var longer := outcomes + [o];
    forall n | 0 <= n <= |longer| ensures Trailing(longer[..n]) <= MAX_UNCHANGED {
      if n <= |outcomes| {
        assert longer[..n] == outcomes[..n];
      } else {
        assert longer[..n] == longer;
      }
    }
  }

  predicate EndsApplied(seen: seq<Outcome>)
  {
    seen != [] && Terminal(seen[|seen| - 1])
  }

  predicate EndsFailed(seen: seq<Outcome>)
  {
    seen != [] && seen[|seen| - 1].Failure?
  }

  /** How the outcomes accepted so far and the answer belong together: the run of one migration stops at the first
      report that decides it and says what it decided, unless it stops because a call and its replay failed. */
  ghost predicate Accounted(r: Result<seq<Outcome>, ApplyError>, seen: seq<Outcome>)
  {
    && JustDecided(seen)
    && (r.Ok? ==> r.value == seen)
    && (r.Ok? <==> EndsApplied(seen))
    && (r.Err? && r.error.MigrationFailed? <==> EndsFailed(seen))
    && (r.Err? && r.error.Stalled? <==> Trailing(seen) == MAX_UNCHANGED + 1)
    && (r.Err? && r.error.RoundsExhausted? <==> Stretch(seen) == MAX_ROUNDS && Trailing(seen) <= MAX_UNCHANGED)
    && (r == Err(ReplayFailed) <==> !Decided(seen))
  }

  // ---------- the client's counters ----------

  datatype Meter = Meter(rounds: nat, active: nat, prior: Option<Progress>, still: nat)

  /** Note a progress report: a new active build starts its own round budget and its own baseline. */
  function Note(m: Meter, p: Progress): Meter
  {
    var m := if p.active != m.active then Meter(1, p.active, None, 0) else m;
    if m.prior == Some(p) then m.(still := m.still + 1) else m.(prior := Some(p), still := 0)
  }

  /** The counters agree with what was reported so far. */
  ghost predicate Metered(m: Meter, outcomes: seq<Outcome>, total: nat, builds: nat)
  {
    && Terminals(outcomes) == 0 && Patient(outcomes) && JustDecided(outcomes) && |outcomes| == total
    && m.rounds == Stretch(outcomes) && (Decided(outcomes) <==> m.rounds == MAX_ROUNDS)
    && (m.prior.None? ==> outcomes == [] && m.still == 0)
    && (m.prior.Some? ==>
          && outcomes != [] && outcomes[|outcomes| - 1] == InProgress(m.prior.value) && m.prior.value.active == m.active
          && Trailing(outcomes) == m.still + 1 <= m.rounds)
    && m.still < MAX_UNCHANGED
    && m.rounds <= total <= MAX_ROUNDS * m.active + m.rounds
    && m.rounds <= MAX_ROUNDS && m.active < builds
  }

  lemma MeterStart(builds: nat)
    requires builds > 0
    ensures Metered(Meter(0, 0, None, 0), [], 0, builds)
  {}

  lemma TerminalsAppended(outcomes: seq<Outcome>, o: Outcome)
    ensures Terminals(outcomes + [o]) == Terminals(outcomes) + if Terminal(o) then 1 else 0
  {
    assert (outcomes + [o])[..|outcomes + [o]| - 1] == outcomes;
  }

  lemma MeterBound(m: Meter, outcomes: seq<Outcome>, total: nat, builds: nat)
    requires Metered(m, outcomes, total, builds)
    ensures total <= MAX_ROUNDS * builds && m.rounds <= total && |outcomes| == total
    ensures m.rounds >= MAX_ROUNDS ==> forall id :: Accounted(Err(RoundsExhausted(id)), outcomes)
    ensures m.rounds < MAX_ROUNDS ==> Accounted(Err(ReplayFailed), outcomes)
    ensures m.rounds < MAX_ROUNDS ==> total + 1 <= MAX_ROUNDS * builds
  {
    hide Terminals, Patient, Stretch, JustDecided;
    RoundsBound(m.rounds, m.active, builds, total);
  }

  lemma MeterStep(m: Meter, outcomes: seq<Outcome>, total: nat, builds: nat, p: Progress)
    requires Metered(m, outcomes, total, builds) && m.rounds < MAX_ROUNDS && m.active <= p.active < builds
    ensures var after := Note(m.(rounds := m.rounds + 1), p);
            && (after.still < MAX_UNCHANGED ==>
                  && Metered(after, outcomes + [InProgress(p)], total + 1, builds)
                  && (after.active > m.active || (after.active == m.active && after.rounds == m.rounds + 1)))
            && (after.still >= MAX_UNCHANGED ==> total + 1 >= MAX_UNCHANGED + 1)
            && (after.still >= MAX_UNCHANGED ==> forall id :: Accounted(Err(Stalled(id)), outcomes + [InProgress(p)]))
            && (m.rounds == 0 ==> after.rounds == 1 && after.still == 0)
            && after.active == p.active
  {
    hide Terminals, Patient, Trailing, Stretch, JustDecided;
    JustDecidedAppended(outcomes, InProgress(p));
    StretchAppended(outcomes, p);
    var after := Note(m.(rounds := m.rounds + 1), p);
    TrailingAppended(outcomes, InProgress(p));
    TerminalsAppended(outcomes, InProgress(p));
    if after.still < MAX_UNCHANGED {
      PatientAppended(outcomes, InProgress(p));
    }
  }

  lemma MeterEnd(m: Meter, outcomes: seq<Outcome>, total: nat, builds: nat, o: Outcome)
    requires Metered(m, outcomes, total, builds) && m.rounds < MAX_ROUNDS && !o.InProgress?
    ensures Terminals(outcomes + [o]) == (if Terminal(o) then 1 else 0) && Patient(outcomes + [o])
    ensures Terminal(o) ==> Accounted(Ok(outcomes + [o]), outcomes + [o])
    ensures o.Failure? ==> forall id :: Accounted(Err(MigrationFailed(id)), outcomes + [o])
  {
    hide Terminals, Patient, Trailing, JustDecided;
    TrailingAppended(outcomes, o);
    TerminalsAppended(outcomes, o);
    PatientAppended(outcomes, o);
    JustDecidedAppended(outcomes, o);
  }

  /** The builds of one migration: its index statements, or one for any other kind. */
  function Builds(classify: Classify, a: Artifact): (n: nat)
    ensures n >= 1
  {
    var n := |classify(a.statement)|;
    if n == 0 then 1 else n
  }

  /** The most requests a run can deliver for the migrations from `from` on. */
  function Budget(classify: Classify, local: seq<Artifact>, from: nat): nat
    requires from <= |local|
    decreases |local| - from
  {
    if from == |local| then 0
    else 2 * MAX_ROUNDS * Builds(classify, local[from]) + Budget(classify, local, from + 1)
  }

  lemma RoundsBound(rounds: nat, active: nat, builds: nat, total: nat)
    requires total <= MAX_ROUNDS * active + rounds && rounds <= MAX_ROUNDS && active < builds
    ensures total <= MAX_ROUNDS * builds
  {}

  /** What every round keeps since the migration was taken up with ledger `before` and log `log`. */
  ghost predicate Underway(local: seq<Artifact>, router: Router, k: nat, before: seq<Record>, log: seq<Delivery>)
    reads router
  {
    && Sound(router.classify, router.server)
    && Reached(local, router.server.ledger, k)
    && Grows(before, router.server.ledger)
    && (|before| == k && |router.server.ledger| == k + 1 ==> router.server.ledger[k].statement == local[k].statement)
    && log <= router.sent && Disciplined(local, router.sent, |log|)
  }

  /** A round, with what its answer says about the migration. */
  method RoundKept(router: Router, local: seq<Artifact>, k: nat, ghost before: seq<Record>, ghost log: seq<Delivery>)
    returns (r: Result<Reply, Refusal>)
    requires DistinctIds(local) && k < |local| && local[k].profile == router.classify(local[k].statement) &&
             k <= |before|
    requires Underway(local, router, k, before, log) && Next(local, router.server.ledger, k)
    modifies router
    ensures Underway(local, router, k, before, log)
    ensures |old(router.sent)| < |router.sent| <= |old(router.sent)| + 2
    ensures |old(router.server.ledger)| == k + 1 ==> old(router.server.active) <= router.server.active
    ensures r.Ok? ==>
              && |router.server.ledger| == k + 1
              && r.value.record.id == local[k].id && Accepts(local[k], r.value)
              && (Terminal(r.value.status) ==> router.server.ledger[k].state.Applied?)
              && (r.value.status.Failure? ==> router.server.ledger[k].state.Failed?)
              && (r.value.status.InProgress? ==> Next(local, router.server.ledger, k))
    ensures r.Ok? && r.value.status.InProgress? ==>
              && r.value.status.progress.active == router.server.active < |router.classify(local[k].statement)|
              && IsIndex(local[k].profile)
    ensures Fair(router.script(old(router.clock))) && Extendable(local, before) ==>
              && router.clock == old(router.clock) + 1
              && (router.server, r) ==
                   React(router.classify, old(router.server), ApplyArgs(local[k]), router.script(old(router.clock)))
              && r.Ok? && !r.value.status.Failure?
              && (|old(router.server.ledger)| == k + 1 && router.script(old(router.clock)).advance.Finish? ==>
                   r.value.status.Done?)
    ensures r.Err? && Extendable(local, before) ==>
              router.clock >= 2 && Faulty(router.script(router.clock - 2)) && Faulty(router.script(router.clock - 1))
  {
    hide Sound, Same, Extendable, DistinctIds, Disciplined, React, Fair;
    ghost var ledger, sent := router.server.ledger, router.sent;
    if Extendable(local, before) {
      ExtendableKept(local, before, ledger, k);
    }
    r := Round(router, local, k);
    DisciplinedJoin(local, sent, router.sent, |log|);
    GrowsTrans(before, ledger, router.server.ledger);
    GrowsStatement(ledger, router.server.ledger, k);
  }

  /** The last two deliveries of the run were faulty. */
  ghost predicate EndedInFaults(router: Router)
    reads router
  {
    router.clock >= 2 && Faulty(router.script(router.clock - 2)) && Faulty(router.script(router.clock - 1))
  }

  /** Where the router stood when the migration was taken up. */
  datatype Origin = Origin(server: Server, clock: nat, log: seq<Delivery>)

  ghost function Here(router: Router): Origin
    reads router
  {
    Origin(router.server, router.clock, router.sent)
  }

  ghost predicate FairFrom(local: seq<Artifact>, router: Router, from: Origin)
  {
    Faultless(router.script) && Extendable(local, from.server.ledger)
  }

  /** Between rounds: the counters agree with the outcomes, and each outcome took one or two requests. */
  ghost predicate Standing(local: seq<Artifact>, router: Router, k: nat, meter: Meter, outcomes: seq<Outcome>,
                           from: Origin)
    requires k < |local|
    reads router
  {
    && Underway(local, router, k, from.server.ledger, from.log) && Next(local, router.server.ledger, k)
    && Metered(meter, outcomes, |outcomes|, Builds(router.classify, local[k]))
    && |from.log| + |outcomes| <= |router.sent| <= |from.log| + 2 * |outcomes|
    && (if |router.server.ledger| == k + 1 then meter.active <= router.server.active else meter.active == 0)
    && (FairFrom(local, router, from) ==> Following(router, from.server, ApplyArgs(local[k]), from.clock, outcomes))
    && (!IsIndex(local[k].profile) ==> outcomes == [])
    && (Prompt(router.script) && outcomes != [] && Extendable(local, from.server.ledger) ==>
          |outcomes| == 1 && |router.server.ledger| == k + 1)
  }

  /** How a migration taken up at `from` can end, with the outcomes the client saw. */
  ghost predicate Ended(local: seq<Artifact>, router: Router, k: nat, r: Result<seq<Outcome>, ApplyError>,
                        seen: seq<Outcome>, from: Origin)
    requires k < |local|
    reads router
  {
    && Underway(local, router, k, from.server.ledger, from.log)
    && |from.log| + |seen| <= |router.sent| <= |from.log| + 2 * MAX_ROUNDS * Builds(router.classify, local[k])
    && Accounted(r, seen)
    && (r.Ok? ==> |router.server.ledger| == k + 1 && router.server.ledger[k].state.Applied?)
    && (r.Ok? ==> Terminals(r.value) == 1 && Patient(r.value))
    && (r.Err? ==> r.error.RoundsExhausted? || r.error.Stalled? || r.error.ReplayFailed? || r.error.MigrationFailed?)
    && (r.Err? && !r.error.ReplayFailed? ==> r.error.id == local[k].id)
    && (r.Err? && r.error.MigrationFailed? ==> |router.server.ledger| == k + 1 && router.server.ledger[k].state.Failed?)
    && (r == Err(ReplayFailed) && Extendable(local, from.server.ledger) ==> EndedInFaults(router))
    && (FairFrom(local, router, from) ==>
          && (r.Ok? || r.error.Stalled? || r.error.RoundsExhausted?)
          && (!IsIndex(local[k].profile) ==> r.Ok?)
          && Reported(router.classify, from.server, ApplyArgs(local[k]), router.script, from.clock, seen))
    && (Prompt(router.script) && Extendable(local, from.server.ledger) ==> r.Ok?)
  }

  lemma SpentEnds(local: seq<Artifact>, router: Router, k: nat, meter: Meter, outcomes: seq<Outcome>, from: Origin)
    requires k < |local| && Standing(local, router, k, meter, outcomes, from) && meter.rounds >= MAX_ROUNDS
    ensures Ended(local, router, k, Err(RoundsExhausted(local[k].id)), outcomes, from)
  {
    hide Underway, Metered, Next, Accounted, Reported, After, Extendable, Prompt, Faultless, Builds, IsIndex,
         Terminals, Patient;
    MeterBound(meter, outcomes, |outcomes|, Builds(router.classify, local[k]));
  }

  /** One round of a migration, and what it decides. */
  method Turn(router: Router, local: seq<Artifact>, k: nat, meter: Meter, outcomes: seq<Outcome>, ghost from: Origin)
    returns (stop: Option<Result<seq<Outcome>, ApplyError>>, after: Meter, seen: seq<Outcome>)
    requires DistinctIds(local) && k < |local| && local[k].profile == router.classify(local[k].statement)
    requires Standing(local, router, k, meter, outcomes, from) && meter.rounds < MAX_ROUNDS && k <= |from.server.ledger|
    modifies router
    ensures stop.Some? ==> Ended(local, router, k, stop.value, seen, from)
    ensures stop.None? ==> Standing(local, router, k, after, seen, from)
    ensures stop.None? ==>
              after.active > meter.active || (after.active == meter.active && after.rounds == meter.rounds + 1)
  {
    hide Sound, Same, Extendable, DistinctIds, Disciplined, Patient, Metered, Terminals, Note, Accepts, Next, Grows;
    hide Accounted, Reported, After, React, Fair, Faultless, Prompt, Following, Underway, IsIndex;
    var artifact := local[k];
    ghost var builds, s1 := Builds(router.classify, artifact), router.server;
    ghost var fair := FairFrom(local, router, from);
    MeterBound(meter, outcomes, |outcomes|, builds);
    UnderwayMeans(local, router, k, from.server.ledger, from.log);
    ScriptAt(router.script, router.clock);
    if fair {
      FollowingMeans(router, from.server, ApplyArgs(artifact), from.clock, outcomes);
    }
    after, seen := meter, outcomes;
    var answer := RoundKept(router, local, k, from.server.ledger, from.log);
    if answer.Err? {
      return Some(Err(ReplayFailed)), meter, outcomes;
    }
    var result := answer.value;
    if result.record.id != artifact.id {
      return Some(Err(WrongRecord)), meter, outcomes;
    }
    if !Accepts(artifact, result) {
      return Some(Err(MismatchedRecord)), meter, outcomes;
    }
    seen := outcomes + [result.status];
    if fair {
      ReportedNext(router, s1, from.server, ApplyArgs(artifact), from.clock, outcomes, result);
      FollowingMeans(router, from.server, ApplyArgs(artifact), from.clock, seen);
    }
    if result.status.Failure? {
      MeterEnd(meter, outcomes, |outcomes|, builds, result.status);
      return Some(Err(MigrationFailed(artifact.id))), meter, seen;
    }
    if Terminal(result.status) {
      MeterEnd(meter, outcomes, |outcomes|, builds, result.status);
      return Some(Ok(seen)), meter, seen;
    }
    MeterStep(meter, outcomes, |outcomes|, builds, result.status.progress);
    after := Note(meter.(rounds := meter.rounds + 1), result.status.progress);
    if after.still >= MAX_UNCHANGED {
      return Some(Err(Stalled(artifact.id))), after, seen;
    }
    return None, after, seen;
  }

  /** One migration, driven until it is applied, fails, stalls, or uses up its rounds. */
  method ApplyOne(router: Router, local: seq<Artifact>, k: nat)
    returns (r: Result<seq<Outcome>, ApplyError>, ghost seen: seq<Outcome>)
    requires DistinctIds(local) && k < |local| && local[k].profile == router.classify(local[k].statement)
    requires Sound(router.classify, router.server) && Next(local, router.server.ledger, k)
    modifies router
    ensures Sound(router.classify, router.server) && Reached(local, router.server.ledger, k)
    ensures Grows(old(router.server.ledger), router.server.ledger)
    ensures |old(router.server.ledger)| == k && |router.server.ledger| == k + 1 ==>
              router.server.ledger[k].statement == local[k].statement
    ensures r.Ok? ==> |router.server.ledger| == k + 1 && router.server.ledger[k].state.Applied?
    ensures r.Ok? ==> Terminals(r.value) == 1 && Patient(r.value)
    ensures old(router.sent) <= router.sent && Disciplined(local, router.sent, |old(router.sent)|)
    ensures |router.sent| <= |old(router.sent)| + 2 * MAX_ROUNDS * Builds(router.classify, local[k])
    ensures r.Err? ==> r.error.RoundsExhausted? || r.error.Stalled? || r.error.ReplayFailed? || r.error.MigrationFailed?
    ensures r.Err? && !r.error.ReplayFailed? ==> r.error.id == local[k].id
    ensures r.Err? && r.error.MigrationFailed? ==>
              |router.server.ledger| == k + 1 && router.server.ledger[k].state.Failed?
    ensures r == Err(ReplayFailed) && Extendable(local, old(router.server.ledger)) ==> EndedInFaults(router)
    ensures |router.sent| >= |old(router.sent)| + |seen| && Accounted(r, seen)
    ensures Faultless(router.script) && Extendable(local, old(router.server.ledger)) ==>
              && (r.Ok? || r.error.Stalled? || r.error.RoundsExhausted?)
              && (!IsIndex(local[k].profile) ==> r.Ok?)
              && Reported(router.classify, old(router.server), ApplyArgs(local[k]), router.script, old(router.clock),
                          seen)
    ensures Prompt(router.script) && Extendable(local, old(router.server.ledger)) ==> r.Ok?
  {
    hide Sound, Extendable, DistinctIds, Disciplined, Patient, Terminals, Next, Grows, Standing, Accounted, Reported;
    hide Faultless, Prompt, Underway, IsIndex, Reached, Builds;
    ghost var from := Here(router);
    var meter := Meter(0, 0, None, 0);
    var outcomes: seq<Outcome> := [];
    StandingAtFirst(local, router, k);
    while meter.rounds < MAX_ROUNDS
      invariant Standing(local, router, k, meter, outcomes, from)
      decreases Builds(router.classify, local[k]) - meter.active, MAX_ROUNDS - meter.rounds
    {
      var stop, after, reports := Turn(router, local, k, meter, outcomes, from);
      if stop.Some? {
        UnderwayMeans(local, router, k, from.server.ledger, from.log);
        return stop.value, reports;
      }
      StandingBounds(local, router, k, after, reports, from);
      meter, outcomes := after, reports;
    }
    SpentEnds(local, router, k, meter, outcomes, from);
    UnderwayMeans(local, router, k, from.server.ledger, from.log);
    return Err(RoundsExhausted(local[k].id)), outcomes;
  }

  lemma StandingAtFirst(local: seq<Artifact>, router: Router, k: nat)
    requires k < |local| && Sound(router.classify, router.server) && Next(local, router.server.ledger, k)
    ensures Standing(local, router, k, Meter(0, 0, None, 0), [], Here(router))
    ensures k <= |router.server.ledger| <= k + 1
  {
    hide Underway, Next, Metered, Following, IsIndex;
    MeterStart(Builds(router.classify, local[k]));
    UnderwayAtFirst(local, router, k);
    FollowingNothing(router);
  }

  lemma StandingBounds(local: seq<Artifact>, router: Router, k: nat, meter: Meter, outcomes: seq<Outcome>, from: Origin)
    requires k < |local| && Standing(local, router, k, meter, outcomes, from)
    ensures meter.rounds <= MAX_ROUNDS && meter.active < Builds(router.classify, local[k])
  {
    hide Underway, Next, Following, IsIndex, Builds, Trailing, Stretch, Terminals, Patient, JustDecided;
  }

  lemma ScriptAt(script: nat -> Choice, n: nat)
    ensures Faultless(script) ==> Fair(script(n))
    ensures Prompt(script) ==> Fair(script(n)) && script(n).advance.Finish?
  {}

  /** The outcomes are all the Router has reported, one call each. */
  ghost predicate Following(router: Router, s: Server, args: Args, start: nat, seen: seq<Outcome>)
    reads router
  {
    && router.clock == start + |seen|
    && router.server == After(router.classify, s, args, router.script, start, |seen|)
    && Reported(router.classify, s, args, router.script, start, seen)
  }

  lemma FollowingMeans(router: Router, s: Server, args: Args, start: nat, seen: seq<Outcome>)
    requires Following(router, s, args, start, seen)
    ensures router.clock == start + |seen|
    ensures router.server == After(router.classify, s, args, router.script, start, |seen|)
    ensures Reported(router.classify, s, args, router.script, start, seen)
  {}

  lemma FollowingNothing(router: Router)
    ensures forall args :: Following(router, router.server, args, router.clock, [])
  {}

  lemma ReportedNext(router: Router, s1: Server, s: Server, args: Args, start: nat, seen: seq<Outcome>, reply: Reply)
    requires s1 == After(router.classify, s, args, router.script, start, |seen|)
    requires Reported(router.classify, s, args, router.script, start, seen) && router.clock == start + |seen| + 1
    requires (router.server, Ok(reply)) == React(router.classify, s1, args, router.script(start + |seen|))
    ensures Following(router, s, args, start, seen + [reply.status])
  {
    hide React;
    ReportedOn(router.classify, s, args, router.script, start, seen, reply.status);
  }

  lemma UnderwayAtFirst(local: seq<Artifact>, router: Router, k: nat)
    requires Sound(router.classify, router.server) && Next(local, router.server.ledger, k)
    ensures Underway(local, router, k, router.server.ledger, router.sent)
    ensures k <= |router.server.ledger| <= k + 1
  {
    hide Sound, Disciplined;
    GrowsRefl(router.server.ledger);
    DisciplinedNothing(local, router.sent);
  }

  lemma UnderwayMeans(local: seq<Artifact>, router: Router, k: nat, before: seq<Record>, log: seq<Delivery>)
    requires Underway(local, router, k, before, log)
    ensures Sound(router.classify, router.server) && Reached(local, router.server.ledger, k)
    ensures Grows(before, router.server.ledger) && k <= |router.server.ledger| <= k + 1
    ensures k < |local| && |before| == k && |router.server.ledger| == k + 1 ==>
              router.server.ledger[k].statement == local[k].statement
    ensures log <= router.sent && Disciplined(local, router.sent, |log|)
  {
    hide Sound, Disciplined;
  }

  lemma DisciplinedNothing(local: seq<Artifact>, log: seq<Delivery>)
    ensures Disciplined(local, log, |log|)
  {}

  lemma GrowsStatement(before: seq<Record>, after: seq<Record>, k: nat)
    requires Grows(before, after)
    ensures |before| == k + 1 ==> after[k].statement == before[k].statement
  {
    if |before| == k + 1 {
      assert before[k].(state := after[k].state) == after[k];
    }
  }

  // ---------- a build that is not stuck but looks it ----------

  /** The build of the envelope's migration is under way. */
  predicate Building(s: Server, args: Args, k: nat)
  {
    && k < |s.ledger| && Find(s.ledger, args.id) == Some(k)
    && RecordMatches(s.ledger[k], args) && s.ledger[k].state.PendingIndex?
  }

  /** Where a report puts the active index. */
  function Active(s: Server, k: nat, build: Advance): nat
    requires k < |s.ledger| && build.Build?
  {
    if s.active <= build.next < |s.ledger[k].profile| then build.next else s.active
  }

  function ReportOf(s: Server, k: nat, build: Advance): Outcome
    requires k < |s.ledger| && build.Build?
  {
    InProgress(Progress(Active(s, k, build), |s.ledger[k].profile|, build.phase, build.completed, build.targets))
  }

  lemma BuildReact(classify: Classify, s: Server, args: Args, k: nat, build: Advance)
    requires Building(s, args, k) && build.Build?
    ensures var (t, r) := React(classify, s, args, Run(build, true));
            t == s.(active := Active(s, k, build)) && r == Ok(Reply(ReportOf(s, k, build), s.ledger[k]))
            && Building(t, args, k) && ReportOf(t, k, build) == ReportOf(s, k, build)
  {
    hide Find;
  }

  /** After the first call the build is under way, whether it had begun before or not. */
  lemma FirstCall(classify: Classify, local: seq<Artifact>, s: Server, k: nat, build: Advance)
    requires Next(local, s.ledger, k) && k < |local| && DistinctIds(local) && Extendable(local, s.ledger)
    requires IsIndex(classify(local[k].statement)) && build.Build?
    ensures Building(React(classify, s, ApplyArgs(local[k]), Run(build, true)).0, ApplyArgs(local[k]), k)
    ensures var r := React(classify, s, ApplyArgs(local[k]), Run(build, true)).1; r.Ok? && r.value.status.InProgress?
  {
    hide Admission, PendingExists, Linked, SortedByPrefix, DistinctIds;
    FindNext(local, s.ledger, k);
    if |s.ledger| == k {
      AdmissionOfNext(local, s.ledger, k);
    } else {
      assert Same(local[k], s.ledger[k]);
      BuildReact(classify, s, ApplyArgs(local[k]), k, build);
    }
  }

  /** From then on every report is the same. */
  lemma {:induction false} SameReports(classify: Classify, s: Server, args: Args, script: nat -> Choice, clock: nat,
                                       k: nat, build: Advance, i: nat)
    requires build.Build? && (forall n :: script(n) == Run(build, true)) && i >= 1
    requires Building(After(classify, s, args, script, clock, 1), args, k)
    ensures var first, later := After(classify, s, args, script, clock, 1), After(classify, s, args, script, clock, i);
            && Building(later, args, k)
            && React(classify, later, args, script(clock + i)).1 ==
                 Ok(Reply(ReportOf(first, k, build), later.ledger[k]))
            && ReportOf(later, k, build) == ReportOf(first, k, build)
  {
    hide React, Building;
    if i > 1 {
      SameReports(classify, s, args, script, clock, k, build, i - 1);
      BuildReact(classify, After(classify, s, args, script, clock, i - 1), args, k, build);
    }
    BuildReact(classify, After(classify, s, args, script, clock, i), args, k, build);
  }

  lemma {:induction false} TrailingOfSame(outcomes: seq<Outcome>, o: Outcome)
    requires o.InProgress? && forall i :: 1 <= i < |outcomes| ==> outcomes[i] == o
    ensures |outcomes| >= 2 ==> Trailing(outcomes) >= |outcomes| - 1
  {
    if |outcomes| > 2 {
      TrailingOfSame(outcomes[..|outcomes| - 1], o);
    }
  }

  lemma {:induction false} StretchAtMost(outcomes: seq<Outcome>)
    ensures Stretch(outcomes) <= |outcomes|
  {
    if outcomes != [] {
      StretchAtMost(outcomes[..|outcomes| - 1]);
    }
  }

  /** Reports of a build that never shows a new position never decide for success. */
  lemma SameReportsStall(classify: Classify, local: seq<Artifact>, s: Server, k: nat, script: nat -> Choice, clock: nat,
                         build: Advance, r: Result<seq<Outcome>, ApplyError>, seen: seq<Outcome>)
    requires Next(local, s.ledger, k) && k < |local| && DistinctIds(local) && Extendable(local, s.ledger)
    requires IsIndex(classify(local[k].statement)) && build.Build? && forall n :: script(n) == Run(build, true)
    requires Reported(classify, s, ApplyArgs(local[k]), script, clock, seen) && Accounted(r, seen)
    requires r.Ok? || r.error.Stalled? || r.error.RoundsExhausted?
    ensures r.Err? && r.error.Stalled? && |seen| <= MAX_UNCHANGED + 2
  {
    hide After, React, Building, Next, Extendable, Trailing, Stretch, IsIndex, DistinctIds, ReportOf, Linked;
    var args := ApplyArgs(local[k]);
    FirstAfter(classify, s, args, script, clock);
    FirstCall(classify, local, s, k, build);
    var first := After(classify, s, args, script, clock, 1);
    BuildingIndex(first, args, k);
    var o := ReportOf(first, k, build);
    forall i | 1 <= i < |seen| ensures seen[i] == o {
      assert Answers(classify, s, args, script, clock, i, seen[i]);
      SameReports(classify, s, args, script, clock, k, build, i);
    }
    ReportIsProgress(first, k, build);
    if seen != [] {
      assert Answers(classify, s, args, script, clock, 0, seen[0]);
      AfterNothing(classify, s, args, script, clock);
      assert seen[|seen| - 1].InProgress?;
    }
    TrailingOfSame(seen, o);
    StretchAtMost(seen);
  }

  lemma FirstAfter(classify: Classify, s: Server, args: Args, script: nat -> Choice, clock: nat)
    ensures After(classify, s, args, script, clock, 1) == React(classify, s, args, script(clock)).0
  {
    hide React;
    assert After(classify, s, args, script, clock, 0) == s;
  }

  lemma AfterNothing(classify: Classify, s: Server, args: Args, script: nat -> Choice, clock: nat)
    ensures After(classify, s, args, script, clock, 0) == s
  {}

  lemma BuildingIndex(s: Server, args: Args, k: nat)
    requires Building(s, args, k)
    ensures k < |s.ledger|
  {}

  lemma ReportIsProgress(s: Server, k: nat, build: Advance)
    requires k < |s.ledger| && build.Build?
    ensures ReportOf(s, k, build).InProgress?
  {}

  /** With no fault at all, a build whose calls keep reporting the same position is given up as stalled after at
      most ten of them, however far along it is. */
  method BuildStalls(router: Router, local: seq<Artifact>, k: nat, ghost build: Advance)
    returns (r: Result<seq<Outcome>, ApplyError>)
    requires DistinctIds(local) && k < |local| && local[k].profile == router.classify(local[k].statement)
    requires Sound(router.classify, router.server) && Next(local, router.server.ledger, k)
    requires Extendable(local, router.server.ledger) && IsIndex(local[k].profile)
    requires build.Build? && forall n :: router.script(n) == Run(build, true)
    modifies router
    ensures Faultless(router.script)
    ensures r == Err(Stalled(local[k].id))
  {
    hide Sound, Next, Extendable, DistinctIds, Reported, Accounted, After, React, IsIndex, Grows, Patient, Terminals,
         Disciplined;
    ghost var s, clock := router.server, router.clock;
    ghost var seen;
    assert Faultless(router.script);
    r, seen := ApplyOne(router, local, k);
    SameReportsStall(router.classify, local, s, k, router.script, clock, build, r, seen);
  }

  // ---------- the Router's own listing ----------

  /** The page that starts after the record named by the cursor. */
  function PageAfter(ledger: seq<Record>, cursor: Option<string>): Option<Page>
  {
    match cursor
    case None => Some(PageFrom(ledger, 0))
    case Some(id) => match Find(ledger, id) { case None => None case Some(i) => Some(PageFrom(ledger, i + 1)) }
  }

  function PageFrom(ledger: seq<Record>, start: nat): Page
  {
    if start + PAGE_LIMIT < |ledger| then
      Page(ledger[start..start + PAGE_LIMIT], Some(ledger[start + PAGE_LIMIT - 1].id))
    else if start <= |ledger| then Page(ledger[start..], None)
    else Page([], None)
  }

  /** Following cursors visits the ledger in steps of one page; any call may fail. */
  function Pages(ledger: seq<Record>, fails: nat -> bool): Answers
  {
    (n: nat) => if fails(n) then Err(Transport) else Ok(PageFrom(ledger, n * PAGE_LIMIT))
  }

  lemma CursorFollows(ledger: seq<Record>, start: nat)
    requires forall i, j :: 0 <= i < j < |ledger| ==> ledger[i].id != ledger[j].id
    requires PageFrom(ledger, start).next.Some?
    ensures PageAfter(ledger, PageFrom(ledger, start).next) == Some(PageFrom(ledger, start + PAGE_LIMIT))
  {
    hide Find;
    var at := Find(ledger, ledger[start + PAGE_LIMIT - 1].id);
  }

  lemma {:induction false} PagesConcat(ledger: seq<Record>, fails: nat -> bool, n: nat)
    requires forall i :: 0 <= i < n ==> !fails(i)
    ensures Concat(Pages(ledger, fails), n) == ledger[..if n * PAGE_LIMIT <= |ledger| then n * PAGE_LIMIT else |ledger|]
  {
    if n > 0 {
      PagesConcat(ledger, fails, n - 1);
    }
  }

  /** A complete listing of the Router's pages is the ledger. */
  lemma ListingIsLedger(ledger: seq<Record>, fails: nat -> bool, n: nat)
    requires Listing(Pages(ledger, fails), n)
    ensures Concat(Pages(ledger, fails), n) == ledger
  {
    hide Concat, CheckPage;
    var answers := Pages(ledger, fails);
    forall i | 0 <= i < n ensures !fails(i) {
      assert i < n - 1 ==> Continues(answers, i);
    }
    PagesConcat(ledger, fails, n);
  }

  function PageCount(ledger: seq<Record>): nat
  {
    if ledger == [] then 1 else (|ledger| - 1) / PAGE_LIMIT + 1
  }

  lemma PageIsWellShaped(ledger: seq<Record>, n: nat)
    requires n * PAGE_LIMIT <= |ledger| <= MAX_MIGRATIONS
    ensures CheckPage(PageFrom(ledger, n * PAGE_LIMIT), n * PAGE_LIMIT).Ok?
    ensures PageFrom(ledger, n * PAGE_LIMIT).next.Some? <==> n + 1 < PageCount(ledger)
  {}

  /** Without faults there is a complete listing. */
  lemma LedgerHasListing(ledger: seq<Record>, fails: nat -> bool)
    requires (forall i :: !fails(i)) && |ledger| <= MAX_MIGRATIONS
    ensures Listing(Pages(ledger, fails), PageCount(ledger))
  {
    hide Concat, CheckPage, PageFrom;
    var answers := Pages(ledger, fails);
    forall i | 0 <= i < PageCount(ledger)
      ensures |Concat(answers, i)| == i * PAGE_LIMIT && CheckPage(answers(i).value, i * PAGE_LIMIT).Ok?
      ensures answers(i).value.next.Some? <==> i + 1 < PageCount(ledger)
    {
      PagesConcat(ledger, fails, i);
      PageIsWellShaped(ledger, i);
    }
    forall i | 0 <= i < PageCount(ledger) - 1 ensures Continues(answers, i) {}
  }

  // ---------- a whole run ----------

  /** Everything local is recorded and applied, and nothing else is. */
  ghost predicate Complete(local: seq<Artifact>, ledger: seq<Record>)
  {
    && |ledger| == |local|
    && (forall i :: 0 <= i < |local| ==> Same(local[i], ledger[i]) && ledger[i].state.Applied?)
  }

  /** The comparison that opens a run: it says where to start exactly when the ledger matches. */
  method Preflight(local: seq<Artifact>, ledger: seq<Record>, fails: nat -> bool)
    returns (r: Result<nat, LedgerError>)
    requires DistinctIds(local)
    ensures r.Ok? ==> MatchesPrefix(local, ledger) && r.value == AppliedCount(ledger) && Next(local, ledger, r.value)
    ensures r.Err? && (forall i :: !fails(i)) && |ledger| <= MAX_MIGRATIONS ==> !MatchesPrefix(local, ledger)
  {
    hide AppliedCount, Same, DistinctIds, Listing, Concat;
    var status, calls := StatusForPlan(local, Pages(ledger, fails));
    if status.Err? {
      if (forall i :: !fails(i)) && |ledger| <= MAX_MIGRATIONS {
        LedgerHasListing(ledger, fails);
        ListingIsLedger(ledger, fails, PageCount(ledger));
      }
      return Err(status.error);
    }
    ListingIsLedger(ledger, fails, calls);
    PrefixCount(local, ledger);
    return Ok(status.value.applied);
  }

  /** Migrations `first` and on, one after the other. */
  method ApplyFrom(router: Router, local: seq<Artifact>, first: nat, intern: Artifact -> bool)
    returns (r: Result<seq<Outcome>, ApplyError>, ghost seen: seq<Outcome>)
    requires DistinctIds(local)
    requires forall i :: 0 <= i < |local| ==> local[i].profile == router.classify(local[i].statement)
    requires Sound(router.classify, router.server) && Next(local, router.server.ledger, first)
    modifies router
    ensures r.Ok? ==> Next(local, router.server.ledger, |local|) && Terminals(r.value) == |local| - first
    ensures Sound(router.classify, router.server) && Grows(old(router.server.ledger), router.server.ledger)
    ensures exists k :: Reached(local, router.server.ledger, k)
    ensures old(router.sent) <= router.sent && Disciplined(local, router.sent, |old(router.sent)|)
    ensures |router.sent| <= |old(router.sent)| + Budget(router.classify, local, first)
    ensures r.Err? ==> !r.error.StatusFailed? && !r.error.WrongRecord? && !r.error.MismatchedRecord?
    ensures r == Err(ReplayFailed) && Extendable(local, old(router.server.ledger)) ==> EndedInFaults(router)
    ensures r.Err? && !r.error.PropertiesRefused? ==> Accounted(r, seen)
    ensures Faultless(router.script) && Extendable(local, old(router.server.ledger)) && (forall a :: intern(a)) ==>
              && (r.Ok? || r.error.Stalled? || r.error.RoundsExhausted?)
              && (NoIndexes(local) ==> r.Ok?)
    ensures Prompt(router.script) && Extendable(local, old(router.server.ledger)) && (forall a :: intern(a)) ==> r.Ok?
  {
    hide Sound, Same, Extendable, DistinctIds, Disciplined, Grows, Prompt, Patient, Faultless, Accounted, Reported;
    seen := [];
    ghost var ledger0, log0 := router.server.ledger, router.sent;
    GrowsRefl(ledger0);
    DisciplinedNothing(local, log0);
    var outcomes: seq<Outcome> := [];
    var k := first;
    while k < |local|
      invariant first <= k <= |local|
      invariant Sound(router.classify, router.server) && Next(local, router.server.ledger, k)
      invariant Grows(ledger0, router.server.ledger)
      invariant Extendable(local, ledger0) ==> Extendable(local, router.server.ledger)
      invariant Terminals(outcomes) == k - first
      invariant log0 <= router.sent && Disciplined(local, router.sent, |log0|)
      invariant |router.sent| + Budget(router.classify, local, k) <= |log0| + Budget(router.classify, local, first)
    {
      var artifact := local[k];
      if artifact.selector.Named? && !intern(artifact) {
        return Err(PropertiesRefused), [];
      }
      ghost var before, log := router.server.ledger, router.sent;
      var one, reports := ApplyOne(router, local, k);
      DisciplinedJoin(local, log, router.sent, |log0|);
      GrowsTrans(ledger0, before, router.server.ledger);
      if one.Err? {
        AccountedAgain(one, Err(one.error), reports);
        return Err(one.error), reports;
      }
      if Extendable(local, before) {
        ExtendableKept(local, before, router.server.ledger, k);
      }
      TerminalsJoin(outcomes, one.value);
      outcomes := outcomes + one.value;
      k := k + 1;
    }
    return Ok(outcomes), [];
  }

  lemma AccountedAgain(one: Result<seq<Outcome>, ApplyError>, same: Result<seq<Outcome>, ApplyError>,
                       seen: seq<Outcome>)
    requires Accounted(one, seen) && one == same
    ensures Accounted(same, seen)
  {}

  predicate NoIndexes(local: seq<Artifact>)
  {
    forall i :: 0 <= i < |local| ==> !IsIndex(local[i].profile)
  }

  /** A whole run. Success means the ledger is the local chain; whatever happens, the ledger only grows
      and stays on the chain, every request is the first unapplied migration's envelope or its replay,
      and the number of requests is bounded by the builds there are. */
  method Apply(router: Router, local: seq<Artifact>, fails: nat -> bool, intern: Artifact -> bool)
    returns (r: Result<seq<Outcome>, ApplyError>, ghost seen: seq<Outcome>)
    requires DistinctIds(local)
    requires forall i :: 0 <= i < |local| ==> local[i].profile == router.classify(local[i].statement)
    requires Sound(router.classify, router.server)
    modifies router
    ensures r.Ok? ==> MatchesPrefix(local, old(router.server.ledger)) && Complete(local, router.server.ledger)
    ensures r.Ok? ==> Terminals(r.value) == |local| - AppliedCount(old(router.server.ledger))
    ensures Sound(router.classify, router.server) && Grows(old(router.server.ledger), router.server.ledger)
    ensures MatchesPrefix(local, old(router.server.ledger)) ==> exists k :: Reached(local, router.server.ledger, k)
    ensures old(router.sent) <= router.sent && Disciplined(local, router.sent, |old(router.sent)|)
    ensures |router.sent| <= |old(router.sent)| + Budget(router.classify, local, 0)
    ensures r != Err(WrongRecord) && r != Err(MismatchedRecord)
    ensures r.Err? && r.error.StatusFailed? ==> router.server == old(router.server) && router.sent == old(router.sent)
    ensures (forall i :: !fails(i)) && |old(router.server.ledger)| <= MAX_MIGRATIONS && r.Err? &&
            r.error.StatusFailed? ==>
              !MatchesPrefix(local, old(router.server.ledger))
    ensures r == Err(ReplayFailed) && Extendable(local, old(router.server.ledger)) ==> EndedInFaults(router)
    ensures r.Err? && !r.error.StatusFailed? && !r.error.PropertiesRefused? ==> Accounted(r, seen)
    ensures Faultless(router.script) && (forall i :: !fails(i)) && (forall a :: intern(a)) ==>
              |old(router.server.ledger)| <= MAX_MIGRATIONS ==>
                MatchesPrefix(local, old(router.server.ledger)) && Extendable(local, old(router.server.ledger)) ==>
                  && (r.Ok? || r.error.Stalled? || r.error.RoundsExhausted?)
                  && (NoIndexes(local) ==> r.Ok?)
    ensures Prompt(router.script) && (forall i :: !fails(i)) && (forall a :: intern(a)) &&
            |old(router.server.ledger)| <= MAX_MIGRATIONS ==>
              MatchesPrefix(local, old(router.server.ledger)) && Extendable(local, old(router.server.ledger)) ==> r.Ok?
  {
    hide Sound, Same, Extendable, DistinctIds, Disciplined, Prompt, AppliedCount, Grows, MatchesPrefix, Budget,
         Terminals;
    hide IndexPending, Faultless, Accounted, NoIndexes;
    ghost var ledger0 := router.server.ledger;
    GrowsRefl(ledger0);
    DisciplinedNothing(local, router.sent);
    var preflight := Preflight(local, router.server.ledger, fails);
    if preflight.Err? {
      if MatchesPrefix(local, ledger0) {
        PrefixCount(local, ledger0);
      }
      return Err(StatusFailed(preflight.error)), [];
    }
    BudgetShrinks(router.classify, local, preflight.value);
    r, seen := ApplyFrom(router, local, preflight.value, intern);
  }

  lemma {:induction false} BudgetShrinks(classify: Classify, local: seq<Artifact>, from: nat)
    requires from <= |local|
    ensures Budget(classify, local, from) <= Budget(classify, local, 0)
  {
    if from > 0 {
      BudgetShrinks(classify, local, from - 1);
    }
  }

  lemma {:induction false} TerminalsJoin(a: seq<Outcome>, b: seq<Outcome>)
    ensures Terminals(a + b) == Terminals(a) + Terminals(b)
    decreases |b|
  {
    if b == [] {
      assert a + b == a;
    } else {
      var shorter := b[..|b| - 1];
      assert (a + b)[..|a + b| - 1] == a + shorter;
      TerminalsJoin(a, shorter);
    }
  }
}
