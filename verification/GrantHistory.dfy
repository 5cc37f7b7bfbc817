/** Whole histories of the grant collection: after any sequence of operations on the byte store, the
    decoded contents are those of a plain map that was updated directly, and the storage rules
    hold of every row. */
module GrantHistory {
  import opened Bytes
  import opened Outcomes
  import opened Privileges
  import opened Policies
  import opened GrantRows
  import opened GrantStore
  import opened KeyOrder
  import opened RetentionSweep
  import opened GrantState

  datatype Command =
    | Grant(subject: Subject, privilege: Privilege, expires: Option<U64>, policy: Option<Predicate>)
    | Elevate(subject: Subject, privilege: Privilege, until: U64, evidence: Evidence)
    | Revoke(subject: Subject, privilege: Privilege)
    | RevokeAll(graph: U32)
    | SweepRows(now: U64, budget: nat, cursor: Option<Bytes>)

  /** Prepared-query names must fit the 16-bit key header. */
  predicate Storable(c: Command)
  {
    c.Grant? ==> Representable(c.privilege)
  }

  // ---------- the reference: operations on a plain map ----------

  predicate Due(r: Row, now: U64)
  {
    r.expires.Some? && now > SaturatingAdd(r.expires.value, RETENTION)
  }

  /** The keys a sweep step examines, told from the holders alone. */
  ghost function Examined(v: Grants, budget: nat, cursor: Option<Bytes>): seq<Bytes>
  {
    var e := Listing(After(set h | h in v :: KeyOf(h), cursor));
    if budget == 0 || |e| <= budget then e else e[..budget]
  }

  ghost function Model(v: Grants, c: Command): Grants
  {
    match c
    case Grant(s, p, expires, policy) =>
      if s == Principal(ANONYMOUS) || (policy.Some? && !InBounds(policy.value)) then v
      else v[(p, s) := Row(expires, policy, None)]
    case Elevate(s, p, until, evidence) =>
      if p.Metadata? && 1 <= |evidence.justification| <= 512 && s != Principal(ANONYMOUS)
      then v[(p, s) := Row(Some(until), None, Some(evidence))]
      else v
    case Revoke(s, p) => v - {(p, s)}
    case RevokeAll(graph) => map h | h in v && !Targets(h.0, graph) :: v[h]
    case SweepRows(now, budget, cursor) =>
      map h | h in v && !(KeyOf(h) in Examined(v, budget, cursor) && Due(v[h], now)) :: v[h]
  }

  ghost function ModelAll(v: Grants, commands: seq<Command>): Grants
  {
    if commands == [] then v
    else Model(ModelAll(v, commands[..|commands| - 1]), commands[|commands| - 1])
  }

  // ---------- refinement ----------

  lemma StoredKeys(store: Store)
    requires WellFormed(store)
    ensures store.Keys == set h | h in View(store) :: KeyOf(h)
  {
    hide EncodeKey, View;
    forall k | k in store ensures HolderOf(k) in View(store) && KeyOf(HolderOf(k)) == k {
      assert Canonical(k, store[k]);
      ViewAt(store, HolderOf(k).0, HolderOf(k).1);
    }
    forall h: Holder | h in View(store) ensures KeyOf(h) in store {
      ViewAt(store, h.0, h.1);
      assert h == (h.0, h.1);
    }
  }

  lemma DeadIffDue(store: Store, now: U64, budget: nat, cursor: Option<Bytes>, h: Holder)
    requires WellFormed(store) && h in View(store)
    ensures KeyOf(h) in Dead(store, Visited(store, cursor, budget), now)
       <==> KeyOf(h) in Examined(View(store), budget, cursor) && Due(View(store)[h], now)
  {
    hide EncodeKey, View, Listing, DecodeRow;
    StoredKeys(store);
    ViewAt(store, h.0, h.1);
    assert h == (h.0, h.1);
  }

  lemma SweepRefines(store: Store, now: U64, budget: nat, cursor: Option<Bytes>)
    requires WellFormed(store)
    ensures var after := Sweep(store, now, budget, cursor).store;
            WellFormed(after) && View(after) == Model(View(store), SweepRows(now, budget, cursor))
  {
    hide EncodeKey, View, Canonical, Examined, Due, Visited, Dead, Without;
    var dead := Dead(store, Visited(store, cursor, budget), now);
    WithoutRefines(store, dead);
    var v, w := View(store), View(Without(store, dead));
    forall h: Holder ensures h in w <==> h in v && !(KeyOf(h) in Examined(v, budget, cursor) && Due(v[h], now))
                     ensures h in w ==> w[h] == v[h]
    {
      assert h == (h.0, h.1);
      if h in v {
        DeadIffDue(store, now, budget, cursor, h);
      }
    }
  }

  method Perform(state: GrantState, c: Command)
    requires state.Valid() && Storable(c)
    modifies state
    ensures state.Valid() && View(state.grants) == Model(old(View(state.grants)), c)
  {
    hide EncodeKey, View, Canonical, WellFormed, InBounds, Examined;
    match c
    case Grant(s, p, expires, policy) =>
      var _ := state.Grant(s, p, expires, policy);
    case Elevate(s, p, until, evidence) =>
      var _ := state.GrantElevation(s, p, until, evidence);
    case Revoke(s, p) =>
      var _ := state.Revoke(s, p);
    case RevokeAll(graph) =>
      ghost var v := View(state.grants);
      var _ := state.RevokeAllForGraph(graph);
      assert forall h: Holder :: h in View(state.grants) <==> h in v && !Targets(h.0, graph) by {
        forall h: Holder ensures h in View(state.grants) <==> h in v && !Targets(h.0, graph) {
          assert h == (h.0, h.1);
        }
      }
      assert forall h: Holder :: h in View(state.grants) ==> View(state.grants)[(h.0, h.1)] == v[h];
    case SweepRows(now, budget, cursor) =>
      SweepRefines(state.grants, now, budget, cursor);
      var _, _ := state.SweepExpiredRows(now, budget, cursor);
  }

  /** The byte store refines the plain map over whole histories. */
  method PerformAll(state: GrantState, commands: seq<Command>)
    requires state.Valid() && forall i :: 0 <= i < |commands| ==> Storable(commands[i])
    modifies state
    ensures state.Valid() && View(state.grants) == ModelAll(old(View(state.grants)), commands)
  {
    hide View, WellFormed, Model;
    for i := 0 to |commands|
      invariant state.Valid() && View(state.grants) == ModelAll(old(View(state.grants)), commands[..i])
    {
      assert commands[..i + 1][..i] == commands[..i];
      Perform(state, commands[i]);
    }
    assert commands[..|commands|] == commands;
  }

  // ---------- the storage rules, over every history ----------

  ghost predicate StorageRules(v: Grants)
  {
    forall h: Holder :: h in v ==> h.1 != Principal(ANONYMOUS) && LegalRow(h.0, v[h])
  }

  /** In every history, storable or not, the plain map never gets an anonymous subject, nor evidence
      off a metadata row, without an expiry, with a predicate, or with an empty or overlong text. */
  lemma {:induction false} RulesHoldAlways(commands: seq<Command>)
    ensures StorageRules(ModelAll(map[], commands))
  {
    if commands != [] {
      RulesHoldAlways(commands[..|commands| - 1]);
      RulesKept(ModelAll(map[], commands[..|commands| - 1]), commands[|commands| - 1]);
    }
  }

  lemma RulesKept(v: Grants, c: Command)
    requires StorageRules(v)
    ensures StorageRules(Model(v, c))
  {
    hide InBounds, Examined;
  }
}
