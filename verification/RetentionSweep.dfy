/** The bounded retention sweep: one step visits at most `budget` keys after a cursor and removes the
    rows whose review window has passed. A lap is a run of steps from an empty cursor until a step
    returns no cursor. */
module RetentionSweep {
  import opened Bytes
  import opened Outcomes
  import opened Privileges
  import opened GrantRows
  import opened GrantStore
  import opened KeyOrder

  const RETENTION: U64 := 90 * 24 * 60 * 60 * 1_000_000_000

  function SaturatingAdd(a: U64, b: U64): U64
  {
    if a + b > U64_MAX then U64_MAX else a + b
  }

  predicate PastReview(v: Bytes, now: U64)
  {
    match DecodeRow(v)
    case None => false
    case Some(r) => r.expires.Some? && now > SaturatingAdd(r.expires.value, RETENTION)
  }

  datatype Step = Step(store: Store, removed: nat, resume: Option<Bytes>)

  /** The keys one step examines, in order. A budget of 0 never stops the scan early. */
  function Visited(store: Store, cursor: Option<Bytes>, budget: nat): seq<Bytes>
  {
    var e := Listing(After(store.Keys, cursor));
    if budget == 0 || |e| <= budget then e else e[..budget]
  }

  function Dead(store: Store, visited: seq<Bytes>, now: U64): set<Bytes>
  {
    set k | k in visited && k in store && PastReview(store[k], now)
  }

  function Sweep(store: Store, now: U64, budget: nat, cursor: Option<Bytes>): Step
  {
    var visited := Visited(store, cursor, budget);
    var dead := Dead(store, visited, now);
    Step(Without(store, dead), |dead|,
         if |visited| < budget || visited == [] then None else Some(visited[|visited| - 1]))
  }

  // ---------- a step ----------

  /** The keys a step examines are those after the cursor it was given and not after the one it returns. */
  lemma VisitedBetween(store: Store, now: U64, budget: nat, cursor: Option<Bytes>, k: Bytes)
    requires k in store
    ensures var resume := Sweep(store, now, budget, cursor).resume;
            k in Visited(store, cursor, budget) <==>
              (cursor.Some? ==> LexLt(cursor.value, k)) && (resume.Some? ==> !LexLt(resume.value, k))
  {
    hide LexLe, Dead, Without, Listing;
    var e := Listing(After(store.Keys, cursor));
    var visited := Visited(store, cursor, budget);
    assert k in e <==> (cursor.Some? ==> LexLt(cursor.value, k));
    assert forall j :: 0 <= j < |visited| ==> visited[j] == e[j];
    if k in visited {
      var i :| 0 <= i < |visited| && visited[i] == k;
      var last := |visited| - 1;
      assert i < last ==> LexLt(e[i], e[last]);
      if LexLt(e[last], k) {
        LexAntisymmetric(e[last], k);
      }
    } else if k in e {
      var i :| |visited| <= i < |e| && e[i] == k;
      assert LexLt(e[budget - 1], e[i]);
    }
  }

  /** A step removes a row exactly when it is due and its key lies after the cursor given and not after the one
      returned; every other row stays as it is. */
  lemma StepProgress(store: Store, now: U64, budget: nat, cursor: Option<Bytes>, k: Bytes)
    requires k in store
    ensures var step := Sweep(store, now, budget, cursor);
            && (k !in step.store <==>
                  && PastReview(store[k], now) && (cursor.Some? ==> LexLt(cursor.value, k))
                  && (step.resume.Some? ==> !LexLt(step.resume.value, k)))
            && (k in step.store ==> step.store[k] == store[k])
            && step.store.Keys <= store.Keys
  {
    hide Visited, PastReview;
    VisitedBetween(store, now, budget, cursor, k);
  }

  lemma DueIsExpired(v: Bytes, r: Row, now: U64, t: U64)
    requires DecodeRow(v) == Some(r) && PastReview(v, now) && now <= t
    ensures !Unexpired(r, t)
  {}

  /** Removing rows past their review window changes no answer from `now` on. */
  lemma RemovingDueRows(store: Store, dead: set<Bytes>, now: U64, t: U64, p: Privilege, s: Subject)
    requires WellFormed(store) && now <= t
    requires forall k :: k in dead ==> k in store && PastReview(store[k], now)
    ensures WellFormed(Without(store, dead))
    ensures HoldsIn(View(Without(store, dead)), p, s, t) == HoldsIn(View(store), p, s, t)
  {
    WithoutRefines(store, dead);
    ViewAt(store, p, s);
    var k := EncodeKey(p, s);
    if k in dead {
      DueIsExpired(store[k], View(store)[(p, s)], now, t);
    }
  }

  /** The sweep is invisible to authorization: from the sweep's time on, every question about every
      subject, privilege and graph has the same answer before and after a step. */
  lemma SweepIsInvisible(store: Store, now: U64, budget: nat, cursor: Option<Bytes>, t: U64, s: Subject, graph: U32,
                         ids: set<U32>)
    requires WellFormed(store) && now <= t
    ensures var after := Sweep(store, now, budget, cursor).store;
            && WellFormed(after)
            && (forall p :: HoldsIn(View(after), p, s, t) == HoldsIn(View(store), p, s, t))
            && HoldsSomeGrant(View(after), s, graph, t) == HoldsSomeGrant(View(store), s, graph, t)
            && HoldsSomeMatch(View(after), s, graph, t) == HoldsSomeMatch(View(store), s, graph, t)
            && IsMatchSet(View(after), s, graph, t, ids) == IsMatchSet(View(store), s, graph, t, ids)
  {
    var dead := Dead(store, Visited(store, cursor, budget), now);
    var after := Without(store, dead);
    WithoutRefines(store, dead);
    forall p ensures HoldsIn(View(after), p, s, t) == HoldsIn(View(store), p, s, t) {
      RemovingDueRows(store, dead, now, t, p, s);
    }
    SameAnswers(View(after), View(store), s, graph, t, ids);
  }

  lemma SameAnswers(v: Grants, w: Grants, s: Subject, graph: U32, t: U64, ids: set<U32>)
    requires forall p :: HoldsIn(v, p, s, t) == HoldsIn(w, p, s, t)
    ensures HoldsSomeGrant(v, s, graph, t) == HoldsSomeGrant(w, s, graph, t)
    ensures HoldsSomeMatch(v, s, graph, t) == HoldsSomeMatch(w, s, graph, t)
    ensures IsMatchSet(v, s, graph, t, ids) == IsMatchSet(w, s, graph, t, ids)
  {}

  // ---------- a lap under interference ----------

  /** One sweep call of a lap. Between two calls the store may change. */
  datatype Call = Call(before: Store, now: U64, budget: nat, step: Step)

  ghost function CursorOf(lap: seq<Call>, i: nat): Option<Bytes>
    requires i < |lap|
  {
    if i == 0 then None else lap[i - 1].step.resume
  }

  ghost predicate IsLap(lap: seq<Call>)
  {
    && |lap| > 0
    && (forall i :: 0 <= i < |lap| ==>
          lap[i].step == Sweep(lap[i].before, lap[i].now, lap[i].budget, CursorOf(lap, i)))
    && (forall i, j :: 0 <= i < j < |lap| ==> lap[i].now <= lap[j].now)
    && lap[|lap| - 1].step.resume.None?
  }

  /** Between calls nobody writes the row of `k`; it may be revoked. */
  ghost predicate NotRewritten(lap: seq<Call>, k: Bytes)
  {
    forall i :: 0 < i < |lap| && k in lap[i].before ==>
      k in lap[i - 1].step.store && lap[i].before[k] == lap[i - 1].step.store[k]
  }

  lemma {:induction false} LapInvariant(lap: seq<Call>, k: Bytes, n: nat)
    requires IsLap(lap) && NotRewritten(lap, k) && n < |lap|
    requires k in lap[0].before && PastReview(lap[0].before[k], lap[0].now)
    ensures k in lap[n].step.store ==>
              && lap[n].step.store[k] == lap[0].before[k]
              && lap[n].step.resume.Some? && LexLt(lap[n].step.resume.value, k)
    decreases n
  {
    var call := lap[n];
    if n > 0 {
      LapInvariant(lap, k, n - 1);
    }
    if k in call.before {
      assert call.before[k] == lap[0].before[k];
      assert lap[0].now <= call.now;
      StepProgress(call.before, call.now, call.budget, CursorOf(lap, n), k);
    }
  }

  /** Whatever is granted or revoked between the steps, a row that was due at the start of a lap and
      is not rewritten is gone when the lap ends. */
  lemma LapCollectsDueRows(lap: seq<Call>, k: Bytes)
    requires IsLap(lap) && NotRewritten(lap, k)
    requires k in lap[0].before && PastReview(lap[0].before[k], lap[0].now)
    ensures k !in lap[|lap| - 1].step.store
  {
    LapInvariant(lap, k, |lap| - 1);
  }

  // ---------- an undisturbed lap ----------

  lemma AfterRemoval(keys: set<Bytes>, e: seq<Bytes>, n: nat, left: set<Bytes>)
    requires Ascending(e) && 0 < n <= |e|
    requires left <= keys && forall k :: k in keys && k !in left ==> k in e[..n]
    ensures After(left, Some(e[n - 1])) == After(keys, Some(e[n - 1]))
  {
    forall k | k in e[..n] ensures !LexLt(e[n - 1], k) {
      HeadNotAfter(e, n, k);
    }
  }

  /** What is left to visit after a step that returned a cursor. */
  lemma StepRemainder(store: Store, now: U64, budget: nat, cursor: Option<Bytes>)
    requires budget >= 1 && Sweep(store, now, budget, cursor).resume.Some?
    ensures var step, e := Sweep(store, now, budget, cursor), Listing(After(store.Keys, cursor));
            && |e| >= budget
            && Visited(store, cursor, budget) == e[..budget]
            && Listing(After(step.store.Keys, step.resume)) == e[budget..]
  {
    hide PastReview, Listing, LexLt;
    var e := Listing(After(store.Keys, cursor));
    assert Visited(store, cursor, budget) == e[..budget];
    ResumeContinues(store.Keys, cursor, budget);
    var dead := Dead(store, e[..budget], now);
    assert Without(store, dead).Keys == store.Keys - dead;
    AfterRemoval(store.Keys, e, budget, store.Keys - dead);
  }

  lemma HeadNotAfter(e: seq<Bytes>, n: nat, k: Bytes)
    requires Ascending(e) && 0 < n <= |e| && k in e[..n]
    ensures !LexLt(e[n - 1], k)
  {
    var i :| 0 <= i < n && e[i] == k;
    if LexLt(e[n - 1], k) {
      LexAntisymmetric(e[n - 1], k);
    }
  }

  /** Sweeping with nobody else writing; the clock may move from step to step. */
  ghost function RunLap(store: Store, clock: nat -> U64, at: nat, budget: nat, cursor: Option<Bytes>): (lap: seq<Call>)
    requires budget >= 1
    decreases |Listing(After(store.Keys, cursor))|
  {
    var step := Sweep(store, clock(at), budget, cursor);
    var call := Call(store, clock(at), budget, step);
    if step.resume.None? then [call]
    else
      StepRemainder(store, clock(at), budget, cursor);
      [call] + RunLap(step.store, clock, at + 1, budget, step.resume)
  }

  ghost function AllVisited(lap: seq<Call>, cursor: Option<Bytes>): seq<Bytes>
  {
    if lap == [] then []
    else Visited(lap[0].before, cursor, lap[0].budget) + AllVisited(lap[1..], lap[0].step.resume)
  }

  lemma LastStep(store: Store, now: U64, budget: nat, cursor: Option<Bytes>)
    requires budget >= 1 && Sweep(store, now, budget, cursor).resume.None?
    ensures var e := Listing(After(store.Keys, cursor));
            |e| < budget && Visited(store, cursor, budget) == e
  {}

  lemma FirstCall(call: Call, rest: seq<Call>, cursor: Option<Bytes>)
    ensures AllVisited([call] + rest, cursor)
         == Visited(call.before, cursor, call.budget) + AllVisited(rest, call.step.resume)
  {
    assert ([call] + rest)[1..] == rest;
  }

  lemma ExtendLap(call: Call, cursor: Option<Bytes>, rest: seq<Call>, e: seq<Bytes>)
    requires 1 <= call.budget <= |e|
    requires Visited(call.before, cursor, call.budget) == e[..call.budget]
    requires AllVisited(rest, call.step.resume) == e[call.budget..]
    requires |rest| == LapLength(|e| - call.budget, call.budget)
    ensures AllVisited([call] + rest, cursor) == e && |[call] + rest| == LapLength(|e|, call.budget)
  {
    FirstCall(call, rest, cursor);
    assert e[..call.budget] + e[call.budget..] == e;
  }

  lemma EndLap(call: Call, cursor: Option<Bytes>, e: seq<Bytes>)
    requires |e| < call.budget && Visited(call.before, cursor, call.budget) == e
    ensures AllVisited([call], cursor) == e && |[call]| == LapLength(|e|, call.budget)
  {
    FirstCall(call, [], cursor);
    assert [call] + [] == [call] && e + [] == e;
  }

  lemma {:induction false} LapVisitsAll(store: Store, clock: nat -> U64, at: nat, budget: nat, cursor: Option<Bytes>)
    requires budget >= 1
    ensures var lap, e := RunLap(store, clock, at, budget, cursor), Listing(After(store.Keys, cursor));
            AllVisited(lap, cursor) == e && |lap| == LapLength(|e|, budget)
    decreases |Listing(After(store.Keys, cursor))|
  {
    hide Sweep, Visited, AllVisited, LapLength, Listing, After, LexLe;
    var e := Listing(After(store.Keys, cursor));
    var step := Sweep(store, clock(at), budget, cursor);
    var call := Call(store, clock(at), budget, step);
    if step.resume.None? {
      LastStep(store, clock(at), budget, cursor);
      EndLap(call, cursor, e);
    } else {
      StepRemainder(store, clock(at), budget, cursor);
      LapVisitsAll(step.store, clock, at + 1, budget, step.resume);
      ExtendLap(call, cursor, RunLap(step.store, clock, at + 1, budget, step.resume), e);
    }
  }

  function LapLength(n: nat, budget: nat): nat
    requires budget >= 1
  {
    if n < budget then 1 else 1 + LapLength(n - budget, budget)
  }

  lemma {:induction false} LapLengthIsQuotient(n: nat, budget: nat)
    requires budget >= 1
    ensures LapLength(n, budget) == n / budget + 1
  {
    if n >= budget {
      LapLengthIsQuotient(n - budget, budget);
      var q, r := (n - budget) / budget, (n - budget) % budget;
      assert budget * (q + 1) == budget * q + budget;
      QuotientUnique(n, budget, q + 1, r);
    }
  }

  lemma QuotientUnique(n: nat, d: nat, q: nat, r: nat)
    requires d > 0 && r < d && n == d * q + r
    ensures n / d == q
  {
    var q', r' := n / d, n % d;
    assert n == d * q' + r';
    if q > q' {
      Scale(d, q, q');
    } else if q < q' {
      Scale(d, q', q);
    }
  }

  lemma {:induction false} Scale(d: nat, a: nat, b: nat)
    requires a > b
    ensures d * a >= d * b + d
  {
    assert d * a == d * (a - 1) + d;
    if a > b + 1 {
      Scale(d, a - 1, b);
    }
  }

  /** An undisturbed lap examines every key exactly once, in key order, and over `n` rows it takes
      `n / budget + 1` steps. */
  lemma UndisturbedLap(store: Store, clock: nat -> U64, budget: nat)
    requires budget >= 1
    ensures var lap := RunLap(store, clock, 0, budget, None);
            && AllVisited(lap, None) == Listing(store.Keys)
            && |lap| == |store| / budget + 1
  {
    assert After(store.Keys, None) == store.Keys;
    LapVisitsAll(store, clock, 0, budget, None);
    LapLengthIsQuotient(|store|, budget);
  }
}
