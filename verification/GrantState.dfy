/** The grant collection as the program holds it: one mutable ordered map of byte strings. Every
    method is stated on the abstract (privilege, subject)-to-row map that the bytes stand for. */
module GrantState {
  import opened Bytes
  import opened Outcomes
  import opened Privileges
  import opened Policies
  import opened GrantRows
  import opened GrantStore
  import opened KeyOrder
  import opened RetentionSweep

  datatype WriteError =
    | AnonymousPrincipal
    | EmptyJustification
    | JustificationTooLong(max: nat)
    | Trapped  // a failed assertion rolls the whole message back

  datatype Entry = Entry(subject: Subject, privilege: Privilege, row: Row)

  function ValidateEvidence(e: Evidence): Result<(), WriteError>
  {
    if e.justification == [] then Err(EmptyJustification)
    else if |e.justification| > MAX_JUSTIFICATION then Err(JustificationTooLong(MAX_JUSTIFICATION))
    else Ok(())
  }

  class GrantState {
    var grants: Store

    ghost predicate Valid()
      reads this
    {
      WellFormed(grants)
    }

    constructor ()
      ensures Valid() && View(grants) == map[]
    {
      grants := map[];
    }

    /** The canonical write path. A legal row of a representable privilege refines to one map update;
        a name too long for the key header is the only way to break the collection. */
    method Put(subject: Subject, privilege: Privilege, row: Row) returns (r: Result<(), WriteError>)
      requires Valid()
      modifies this
      ensures subject == Principal(ANONYMOUS) ==> r == Err(AnonymousPrincipal)
      ensures subject != Principal(ANONYMOUS) ==> r == if Encodable(row) then Ok(()) else Err(Trapped)
      ensures r.Err? ==> grants == old(grants)
      ensures r.Ok? && LegalRow(privilege, row) ==> (Valid() <==> Representable(privilege))
      ensures r.Ok? && LegalRow(privilege, row) && Representable(privilege) ==>
                View(grants) == old(View(grants))[(privilege, subject) := row]
    {
      if subject == Principal(ANONYMOUS) {
        return Err(AnonymousPrincipal);
      }
      if !Encodable(row) {
        return Err(Trapped);
      }
      if LegalRow(privilege, row) {
        PutKeepsWellFormed(grants, privilege, subject, row);
        if Representable(privilege) {
          PutRefines(grants, privilege, subject, row);
        }
      }
      grants := grants[EncodeKey(privilege, subject) := EncodeRow(row)];
      return Ok(());
    }

    method Grant(subject: Subject, privilege: Privilege, expires: Option<U64>, policy: Option<Predicate>)
      returns (r: Result<(), WriteError>)
      requires Valid()
      modifies this
      ensures r.Ok? <==> subject != Principal(ANONYMOUS) && (policy.Some? ==> InBounds(policy.value))
      ensures r.Err? ==> grants == old(grants)
      ensures r.Ok? ==> (Valid() <==> Representable(privilege))
      ensures r.Ok? && Representable(privilege) ==>
                View(grants) == old(View(grants))[(privilege, subject) := Row(expires, policy, None)]
    {
      r := Put(subject, privilege, Row(expires, policy, None));
    }

    /** Elevation rows are evidence-complete by construction, whatever the caller passes. */
    method GrantElevation(subject: Subject, privilege: Privilege, expires: U64, evidence: Evidence)
      returns (r: Result<(), WriteError>)
      requires Valid()
      modifies this
      ensures Valid()
      ensures !privilege.Metadata? ==> r == Err(Trapped)
      ensures privilege.Metadata? && evidence.justification == [] ==> r == Err(EmptyJustification)
      ensures privilege.Metadata? && |evidence.justification| > 512 ==> r == Err(JustificationTooLong(512))
      ensures privilege.Metadata? && 1 <= |evidence.justification| <= 512 ==>
                r == if subject == Principal(ANONYMOUS) then Err(AnonymousPrincipal) else Ok(())
      ensures r.Err? ==> grants == old(grants)
      ensures r.Ok? ==>
                View(grants) == old(View(grants))[(privilege, subject) := Row(Some(expires), None, Some(evidence))]
    {
      if !privilege.Metadata? {
        return Err(Trapped);
      }
      var checked := ValidateEvidence(evidence);
      if checked.Err? {
        return checked;
      }
      r := Put(subject, privilege, Row(Some(expires), None, Some(evidence)));
    }

    method Revoke(subject: Subject, privilege: Privilege) returns (existed: bool)
      requires Valid()
      modifies this
      ensures Valid()
      ensures existed <==> (privilege, subject) in old(View(grants))
      ensures View(grants) == old(View(grants)) - {(privilege, subject)}
    {
      var k := EncodeKey(privilege, subject);
      ViewAt(grants, privilege, subject);
      existed := k in grants;
      RemoveOne(grants, privilege, subject);
      grants := Without(grants, {k});
    }

    method Holds(subject: Subject, privilege: Privilege, now: U64) returns (held: bool)
      requires Valid()
      ensures held <==> HoldsIn(View(grants), privilege, subject, now)
    {
      var k := EncodeKey(privilege, subject);
      ViewAt(grants, privilege, subject);
      if k !in grants {
        return false;
      }
      var row := DecodeRow(grants[k]);
      return !(row.value.expires.Some? && row.value.expires.value < now);
    }

    method Contains(subject: Subject, privilege: Privilege) returns (stored: bool)
      requires Valid()
      ensures stored <==> (privilege, subject) in View(grants)
    {
      ViewAt(grants, privilege, subject);
      stored := EncodeKey(privilege, subject) in grants;
    }

    /** The full scan agrees with point lookups: some graph privilege is held. */
    method HoldsAnyGraphGrant(subject: Subject, graph: U32, now: U64) returns (held: bool)
      requires Valid()
      ensures held <==> HoldsSomeGrant(View(grants), subject, graph, now)
    {
      var entries := Iterate(grants);
      held := ScanForGrant(View(grants), entries, subject, graph, now);
    }

    /** Likewise for `MATCH` on a concrete vertex label or on all of them. */
    method HoldsAnyVertexLabelMatch(subject: Subject, graph: U32, now: U64) returns (held: bool)
      requires Valid()
      ensures held <==> HoldsSomeMatch(View(grants), subject, graph, now)
    {
      var entries := Iterate(grants);
      held := ScanForMatch(View(grants), entries, subject, graph, now);
    }

    /** The collected labels and the wildcard flag are what point lookups would say. */
    method CollectVertexLabelMatchSet(subject: Subject, graph: U32, now: U64)
      returns (ids: set<U32>, wildcard: bool)
      requires Valid()
      ensures IsMatchSet(View(grants), subject, graph, now, ids)
      ensures wildcard <==> HoldsIn(View(grants), MatchAll(graph), subject, now)
      ensures ids != {} || wildcard <==> HoldsSomeMatch(View(grants), subject, graph, now)
    {
      var entries := Iterate(grants);
      ids, wildcard := CollectMatches(View(grants), entries, subject, graph, now);
    }

    /** Cascade: exactly the rows whose privilege targets `graph` go, and they are counted. */
    method RevokeAllForGraph(graph: U32) returns (count: nat)
      requires Valid()
      modifies this
      ensures Valid()
      ensures forall p, s :: (p, s) in View(grants) <==> (p, s) in old(View(grants)) && !Targets(p, graph)
      ensures forall p, s :: (p, s) in View(grants) ==> View(grants)[(p, s)] == old(View(grants))[(p, s)]
      ensures count == |old(View(grants))| - |View(grants)|
    {
      var store := grants;
      var entries := Iterate(store);
      var dead := CollectTargets(entries, graph);
      CascadeRefines(store, entries, dead, graph);
      grants := Without(store, dead);
      count := |dead|;
    }

    /** One bounded sweep step, as the loop runs it. */
    method SweepExpiredRows(now: U64, budget: nat, resumeAfter: Option<Bytes>)
      returns (removed: nat, resume: Option<Bytes>)
      requires Valid()
      modifies this
      ensures Valid()
      ensures Step(grants, removed, resume) == Sweep(old(grants), now, budget, resumeAfter)
    {
      var store := grants;
      var dead, last := SweepScan(store, now, budget, resumeAfter);
      WithoutRefines(store, dead);
      grants := Without(store, dead);
      return |dead|, last;
    }

    /** Introspection lists every abstract row once, in canonical key order. */
    method Rows() returns (entries: seq<Entry>)
      requires Valid()
      ensures Lists(View(grants), entries) && |entries| == |View(grants)|
      ensures InKeyOrder(entries)
    {
      entries := Iterate(grants);
    }
  }

  // ---------- iteration ----------

  function Holding(e: Entry): Holder
  {
    (e.privilege, e.subject)
  }

  /** The entries are exactly the rows of `v`. */
  ghost predicate Lists(v: Grants, entries: seq<Entry>)
  {
    && (forall i :: 0 <= i < |entries| ==> Holding(entries[i]) in v && v[Holding(entries[i])] == entries[i].row)
    && (forall h: Holder :: h in v ==> exists i :: 0 <= i < |entries| && Holding(entries[i]) == h)
  }

  ghost predicate InKeyOrder(entries: seq<Entry>)
  {
    forall i, j :: 0 <= i < j < |entries| ==> LexLt(KeyOf(Holding(entries[i])), KeyOf(Holding(entries[j])))
  }

  ghost predicate IsEntry(store: Store, k: Bytes, e: Entry)
  {
    k in store && DecodeRow(store[k]) == Some(e.row) && k == KeyOf(Holding(e))
  }

  method DecodeEntry(store: Store, k: Bytes) returns (e: Entry)
    requires WellFormed(store) && k in store
    ensures IsEntry(store, k, e)
  {
    assert Canonical(k, store[k]);
    var (privilege, subject) := DecodeKey(k).value;
    e := Entry(subject, privilege, DecodeRow(store[k]).value);
  }

  method DecodeAll(store: Store, keys: seq<Bytes>) returns (entries: seq<Entry>)
    requires WellFormed(store) && forall k :: k in keys ==> k in store
    ensures |entries| == |keys| && forall j :: 0 <= j < |keys| ==> IsEntry(store, keys[j], entries[j])
  {
    hide IsEntry, Canonical;
    entries := [];
    for i := 0 to |keys|
      invariant |entries| == i
      invariant forall j :: 0 <= j < i ==> IsEntry(store, keys[j], entries[j])
    {
      assert keys[i] in keys;
      var e := DecodeEntry(store, keys[i]);
      entries := entries + [e];
    }
  }

  /** The decoded entries in canonical key order. */
  method Iterate(store: Store) returns (entries: seq<Entry>)
    requires WellFormed(store)
    ensures Lists(View(store), entries) && |entries| == |View(store)| && InKeyOrder(entries)
  {
    var keys := Listing(store.Keys);
    entries := DecodeAll(store, keys);
    EntriesListView(store, keys, entries);
  }

  lemma EntriesListView(store: Store, keys: seq<Bytes>, entries: seq<Entry>)
    requires WellFormed(store) && keys == Listing(store.Keys) && |entries| == |keys|
    requires forall j :: 0 <= j < |keys| ==> IsEntry(store, keys[j], entries[j])
    ensures Lists(View(store), entries) && |entries| == |View(store)| && InKeyOrder(entries)
  {
    ViewSize(store);
    forall i | 0 <= i < |entries|
      ensures Holding(entries[i]) in View(store) && View(store)[Holding(entries[i])] == entries[i].row
    {
      assert IsEntry(store, keys[i], entries[i]);
      ViewAt(store, entries[i].privilege, entries[i].subject);
    }
    forall h: Holder | h in View(store) ensures exists i :: 0 <= i < |entries| && Holding(entries[i]) == h {
      HolderKey(store, h);
      assert KeyOf(h) in keys;
      var i :| 0 <= i < |keys| && keys[i] == KeyOf(h);
      assert IsEntry(store, keys[i], entries[i]);
      KeyInjective(entries[i].privilege, entries[i].subject, h.0, h.1);
      assert Holding(entries[i]) == h;
    }
    forall i, j | 0 <= i < j < |entries|
      ensures LexLt(KeyOf(Holding(entries[i])), KeyOf(Holding(entries[j])))
    {
      assert IsEntry(store, keys[i], entries[i]) && IsEntry(store, keys[j], entries[j]);
    }
  }

  // ---------- the scans ----------

  /** The entry grants `p` to `subject` and has not expired. */
  predicate Confers(e: Entry, p: Privilege, subject: Subject, now: U64)
  {
    e.privilege == p && e.subject == subject && Unexpired(e.row, now)
  }

  lemma HeldIffListed(v: Grants, entries: seq<Entry>, p: Privilege, s: Subject, now: U64)
    requires Lists(v, entries)
    ensures HoldsIn(v, p, s, now) <==> exists i :: 0 <= i < |entries| && Confers(entries[i], p, s, now)
  {
    if HoldsIn(v, p, s, now) {
      var i :| 0 <= i < |entries| && Holding(entries[i]) == (p, s);
      assert Confers(entries[i], p, s, now);
    }
    forall i | 0 <= i < |entries| && Confers(entries[i], p, s, now) ensures HoldsIn(v, p, s, now) {
      assert Holding(entries[i]) in v;
    }
  }

  method ScanForGrant(ghost v: Grants, entries: seq<Entry>, subject: Subject, graph: U32, now: U64)
    returns (held: bool)
    requires Lists(v, entries)
    ensures held <==> HoldsSomeGrant(v, subject, graph, now)
  {
    for i := 0 to |entries|
      invariant forall j, p: Privilege :: 0 <= j < i && p.Graph? && p.graph == graph ==>
                  !Confers(entries[j], p, subject, now)
    {
      var e := entries[i];
      if Unexpired(e.row, now) && e.privilege.Graph? && e.privilege.graph == graph && e.subject == subject {
        HeldIffListed(v, entries, e.privilege, subject, now);
        assert Confers(entries[i], e.privilege, subject, now);
        return true;
      }
    }
    forall p: Privilege | p.Graph? && p.graph == graph ensures !HoldsIn(v, p, subject, now) {
      HeldIffListed(v, entries, p, subject, now);
    }
    return false;
  }

  method ScanForMatch(ghost v: Grants, entries: seq<Entry>, subject: Subject, graph: U32, now: U64)
    returns (held: bool)
    requires Lists(v, entries)
    ensures held <==> HoldsSomeMatch(v, subject, graph, now)
  {
    for i := 0 to |entries|
      invariant forall j :: 0 <= j < i ==> !Confers(entries[j], MatchAll(graph), subject, now)
      invariant forall j, id: U32 :: 0 <= j < i ==> !Confers(entries[j], MatchLabel(graph, id), subject, now)
    {
      var e := entries[i];
      if Unexpired(e.row, now) && IsMatch(e.privilege, graph) && e.subject == subject {
        HeldIffListed(v, entries, e.privilege, subject, now);
        assert Confers(entries[i], e.privilege, subject, now);
        assert e.privilege == MatchAll(graph) || e.privilege == MatchLabel(graph, e.privilege.resource.id);
        return true;
      }
    }
    HeldIffListed(v, entries, MatchAll(graph), subject, now);
    forall id: U32 ensures !HoldsIn(v, MatchLabel(graph, id), subject, now) {
      HeldIffListed(v, entries, MatchLabel(graph, id), subject, now);
    }
    return false;
  }

  predicate IsMatch(p: Privilege, graph: U32)
  {
    p.Graph? && p.graph == graph && p.operation.Match? && (p.resource.VertexLabel? || p.resource.AllVertexLabels?)
  }

  method CollectMatches(ghost v: Grants, entries: seq<Entry>, subject: Subject, graph: U32, now: U64)
    returns (ids: set<U32>, wildcard: bool)
    requires Lists(v, entries)
    ensures IsMatchSet(v, subject, graph, now, ids)
    ensures wildcard <==> HoldsIn(v, MatchAll(graph), subject, now)
    ensures ids != {} || wildcard <==> HoldsSomeMatch(v, subject, graph, now)
  {
    ids, wildcard := {}, false;
    for i := 0 to |entries|
      invariant forall id: U32 :: id in ids <==>
                  exists j :: 0 <= j < i && Confers(entries[j], MatchLabel(graph, id), subject, now)
      invariant wildcard <==> exists j :: 0 <= j < i && Confers(entries[j], MatchAll(graph), subject, now)
    {
      var e := entries[i];
      if Unexpired(e.row, now) && e.subject == subject {
        if e.privilege.Graph? && e.privilege.resource.VertexLabel?
           && e.privilege == MatchLabel(graph, e.privilege.resource.id)
        {
          ids := ids + {e.privilege.resource.id};
          assert Confers(entries[i], MatchLabel(graph, e.privilege.resource.id), subject, now);
        } else if e.privilege == MatchAll(graph) {
          wildcard := true;
          assert Confers(entries[i], MatchAll(graph), subject, now);
        }
      }
    }
    HeldIffListed(v, entries, MatchAll(graph), subject, now);
    forall id: U32 ensures id in ids <==> HoldsIn(v, MatchLabel(graph, id), subject, now) {
      HeldIffListed(v, entries, MatchLabel(graph, id), subject, now);
    }
    if ids != {} {
      var id :| id in ids;
      assert HoldsIn(v, MatchLabel(graph, id), subject, now);
    }
  }

  // ---------- the cascade ----------

  predicate Targets(p: Privilege, graph: U32)
  {
    (p.Graph? && p.graph == graph) || (p.Metadata? && p.scope == GraphScope(graph))
  }

  /** `dead` holds the keys of the entries that target `graph`, among the first `n`. */
  ghost predicate TargetKeys(entries: seq<Entry>, n: nat, graph: U32, dead: set<Bytes>)
    requires n <= |entries|
  {
    forall k :: k in dead <==>
      exists i :: 0 <= i < n && Targets(entries[i].privilege, graph) && k == KeyOf(Holding(entries[i]))
  }

  method CollectTargets(entries: seq<Entry>, graph: U32) returns (dead: set<Bytes>)
    ensures TargetKeys(entries, |entries|, graph, dead)
  {
    hide KeyOf;
    dead := {};
    for i := 0 to |entries|
      invariant TargetKeys(entries, i, graph, dead)
    {
      if Targets(entries[i].privilege, graph) {
        dead := dead + {KeyOf(Holding(entries[i]))};
      }
    }
  }

  lemma EntryIsStored(store: Store, e: Entry)
    requires WellFormed(store) && Holding(e) in View(store)
    ensures KeyOf(Holding(e)) in store
  {
    HolderKey(store, Holding(e));
  }

  lemma DeadIsStored(store: Store, entries: seq<Entry>, dead: set<Bytes>, graph: U32)
    requires WellFormed(store) && Lists(View(store), entries) && TargetKeys(entries, |entries|, graph, dead)
    ensures dead <= store.Keys
  {
    hide KeyOf, View, Canonical, Targets;
    forall i | 0 <= i < |entries| ensures KeyOf(Holding(entries[i])) in store {
      EntryIsStored(store, entries[i]);
    }
  }

  lemma DeadIffTargets(store: Store, entries: seq<Entry>, dead: set<Bytes>, graph: U32, p: Privilege, s: Subject)
    requires WellFormed(store) && Lists(View(store), entries) && (p, s) in View(store)
    requires TargetKeys(entries, |entries|, graph, dead)
    ensures EncodeKey(p, s) in dead <==> Targets(p, graph)
  {
    hide EncodeKey, View, Canonical;
    var k := KeyOf((p, s));
    if k in dead {
      var i :| 0 <= i < |entries| && Targets(entries[i].privilege, graph) && k == KeyOf(Holding(entries[i]));
      KeyInjective(p, s, entries[i].privilege, entries[i].subject);
    }
    if Targets(p, graph) {
      var i :| 0 <= i < |entries| && Holding(entries[i]) == (p, s);
    }
  }

  lemma RemovedCount(store: Store, dead: set<Bytes>)
    requires WellFormed(store) && dead <= store.Keys
    ensures WellFormed(Without(store, dead)) && |dead| == |View(store)| - |View(Without(store, dead))|
  {
    hide EncodeKey, View, Canonical;
    WithoutRefines(store, dead);
    ViewSize(store);
    ViewSize(Without(store, dead));
    assert Without(store, dead).Keys == store.Keys - dead;
  }

  lemma CascadeRefines(store: Store, entries: seq<Entry>, dead: set<Bytes>, graph: U32)
    requires WellFormed(store) && Lists(View(store), entries) && TargetKeys(entries, |entries|, graph, dead)
    ensures var store' := Without(store, dead);
            && WellFormed(store')
            && (forall p, s :: (p, s) in View(store') <==> (p, s) in View(store) && !Targets(p, graph))
            && (forall p, s :: (p, s) in View(store') ==> View(store')[(p, s)] == View(store)[(p, s)])
            && |dead| == |View(store)| - |View(store')|
  {
    hide EncodeKey, View, Canonical, TargetKeys, Lists, Targets, Without;
    WithoutRefines(store, dead);
    forall p, s | (p, s) in View(store) ensures EncodeKey(p, s) in dead <==> Targets(p, graph) {
      DeadIffTargets(store, entries, dead, graph, p, s);
    }
    DeadIsStored(store, entries, dead, graph);
    RemovedCount(store, dead);
  }

  // ---------- the sweep loop ----------

  /** Examine entries until `budget` of them are done or none is left. */
  method ExamineEntries(store: Store, entries: seq<Bytes>, now: U64, budget: nat)
    returns (visited: nat, dead: set<Bytes>, lastExamined: Option<Bytes>)
    requires forall k :: k in entries ==> k in store
    ensures visited == if budget == 0 || |entries| <= budget then |entries| else budget
    ensures dead == Dead(store, entries[..visited], now)
    ensures lastExamined == if visited == 0 then None else Some(entries[visited - 1])
  {
    visited, lastExamined, dead := 0, None, {};
    while visited < |entries|
      invariant 0 <= visited <= |entries|
      invariant budget > 0 ==> visited < budget
      invariant lastExamined == if visited == 0 then None else Some(entries[visited - 1])
      invariant dead == Dead(store, entries[..visited], now)
    {
      var key := entries[visited];
      ExamineOne(store, entries, visited, now);
      lastExamined := Some(key);
      visited := visited + 1;
      if PastReview(store[key], now) {
        dead := dead + {key};
      }
      if visited == budget {
        break;
      }
    }
  }

  lemma ExamineOne(store: Store, entries: seq<Bytes>, i: nat, now: U64)
    requires i < |entries| && entries[i] in store
    ensures Dead(store, entries[..i + 1], now)
         == Dead(store, entries[..i], now) + if PastReview(store[entries[i]], now) then {entries[i]} else {}
  {
    assert entries[..i + 1] == entries[..i] + [entries[i]];
  }

  method SweepScan(store: Store, now: U64, budget: nat, resumeAfter: Option<Bytes>)
    returns (dead: set<Bytes>, lastExamined: Option<Bytes>)
    ensures dead == Dead(store, Visited(store, resumeAfter, budget), now)
    ensures lastExamined == Sweep(store, now, budget, resumeAfter).resume
  {
    hide PastReview, Listing, LexLt;
    var entries := Listing(After(store.Keys, resumeAfter));
    var visited;
    visited, dead, lastExamined := ExamineEntries(store, entries, now, budget);
    assert entries[..visited] == Visited(store, resumeAfter, budget);
    if visited < budget {
      lastExamined := None;
    }
  }

  lemma RemoveOne(store: Store, p: Privilege, s: Subject)
    requires WellFormed(store)
    ensures WellFormed(Without(store, {EncodeKey(p, s)}))
    ensures View(Without(store, {EncodeKey(p, s)})) == View(store) - {(p, s)}
  {
    hide EncodeKey, DecodeRow, Canonical;
    var k := EncodeKey(p, s);
    var store' := Without(store, {k});
    WithoutRefines(store, {k});
    var v := View(store) - {(p, s)};
    forall h: Holder ensures h in v <==> KeyOf(h) in store'
                     ensures h in v ==> DecodeRow(store'[KeyOf(h)]) == Some(v[h])
    {
      ViewAt(store, h.0, h.1);
      assert h == (h.0, h.1);
      if KeyOf(h) == k {
        KeyInjective(h.0, h.1, p, s);
      }
    }
    ViewExtensional(store', v);
  }
}
