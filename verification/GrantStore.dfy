/** The stored grant collection: an ordered map from key bytes to row bytes, the abstract
    (privilege, subject)-to-row map it stands for, and what each write does to both. */
module GrantStore {
  import opened Bytes
  import opened Outcomes
  import opened Privileges
  import opened Policies
  import opened GrantRows

  type Store = map<Bytes, Bytes>
  type Holder = (Privilege, Subject)
  type Grants = map<Holder, Row>

  /** Evidence appears only on metadata rows with an expiry, a bounded non-empty justification and
      no predicate. */
  predicate LegalRow(p: Privilege, r: Row)
  {
    && Encodable(r)
    && (r.evidence.Some? ==>
          && p.Metadata? && r.expires.Some? && r.policy.None?
          && 1 <= |r.evidence.value.justification| <= MAX_JUSTIFICATION)
  }

  /** One stored entry is the canonical encoding of a legal row of a non-anonymous subject. */
  predicate Canonical(k: Bytes, v: Bytes)
  {
    match (DecodeKey(k), DecodeRow(v))
    case (Some((p, s)), Some(r)) =>
      && Representable(p) && s != Principal(ANONYMOUS) && k == EncodeKey(p, s)
      && LegalRow(p, r) && v == EncodeRow(r)
    case _ => false
  }

  ghost predicate WellFormed(store: Store)
  {
    forall k :: k in store ==> Canonical(k, store[k])
  }

  function KeyOf(h: Holder): Bytes
  {
    EncodeKey(h.0, h.1)
  }

  /** The holder a key addresses; well-formed stores hold no key without one. */
  function HolderOf(k: Bytes): Holder
  {
    if DecodeKey(k).Some? then DecodeKey(k).value else (Metadata(ControlPlane), Public)
  }

  ghost function Holders(store: Store): set<Holder>
    requires WellFormed(store)
  {
    set k | k in store :: HolderOf(k)
  }

  lemma HolderKey(store: Store, h: Holder)
    requires WellFormed(store)
    ensures h in Holders(store) <==> EncodeKey(h.0, h.1) in store
    ensures EncodeKey(h.0, h.1) in store ==> Representable(h.0) && DecodeKey(EncodeKey(h.0, h.1)) == Some(h)
  {
    var k := EncodeKey(h.0, h.1);
    if k in store {
      assert Canonical(k, store[k]);
      var g := HolderOf(k);
      KeyInjective(h.0, h.1, g.0, g.1);
      assert g == h;
    }
    if h in Holders(store) {
      var k' :| k' in store && HolderOf(k') == h;
      assert Canonical(k', store[k']);
    }
  }

  /** Decoding every stored byte string gives the abstract map. */
  ghost function View(store: Store): (v: Grants)
    requires WellFormed(store)
  {
    map h | h in Holders(store) ::
      HolderKey(store, h);
      assert Canonical(EncodeKey(h.0, h.1), store[EncodeKey(h.0, h.1)]);
      DecodeRow(store[EncodeKey(h.0, h.1)]).value
  }

  /** A point lookup by exact key is a lookup in the abstract map. */
  lemma ViewAt(store: Store, p: Privilege, s: Subject)
    requires WellFormed(store)
    ensures (p, s) in View(store) <==> EncodeKey(p, s) in store
    ensures EncodeKey(p, s) in store ==> DecodeRow(store[EncodeKey(p, s)]) == Some(View(store)[(p, s)])
  {
    HolderKey(store, (p, s));
    if EncodeKey(p, s) in store {
      assert Canonical(EncodeKey(p, s), store[EncodeKey(p, s)]);
    }
  }

  /** No anonymous subject, and no misplaced evidence, in any reachable view. */
  lemma ViewIsLegal(store: Store, p: Privilege, s: Subject)
    requires WellFormed(store) && (p, s) in View(store)
    ensures s != Principal(ANONYMOUS) && Representable(p) && LegalRow(p, View(store)[(p, s)])
  {
    ViewAt(store, p, s);
    HolderKey(store, (p, s));
    assert Canonical(EncodeKey(p, s), store[EncodeKey(p, s)]);
  }

  /** The view is determined by what each key decodes to. */
  lemma ViewExtensional(store: Store, v: Grants)
    requires WellFormed(store)
    requires forall h: Holder :: h in v <==> KeyOf(h) in store
    requires forall h: Holder :: h in v ==> DecodeRow(store[KeyOf(h)]) == Some(v[h])
    ensures View(store) == v
  {
    hide EncodeKey, DecodeRow, Canonical;
    var w := View(store);
    forall h: Holder ensures h in w <==> h in v {
      HolderKey(store, h);
    }
    forall h: Holder | h in w ensures w[h] == v[h] {
      assert h in v && DecodeRow(store[KeyOf(h)]) == Some(v[h]);
    }
  }

  lemma PutCanonical(p: Privilege, s: Subject, r: Row)
    requires Representable(p) && s != Principal(ANONYMOUS) && LegalRow(p, r)
    ensures Canonical(EncodeKey(p, s), EncodeRow(r))
  {
    KeyRoundTrip(p, s);
    RowRoundTrip(r);
  }

  /** Writing one row changes exactly that row of the abstract map. */
  lemma PutRefines(store: Store, p: Privilege, s: Subject, r: Row)
    requires WellFormed(store)
    requires Representable(p) && s != Principal(ANONYMOUS) && LegalRow(p, r)
    ensures var store' := store[EncodeKey(p, s) := EncodeRow(r)];
            WellFormed(store') && View(store') == View(store)[(p, s) := r]
  {
    var k := EncodeKey(p, s);
    var store' := store[k := EncodeRow(r)];
    PutCanonical(p, s, r);
    assert WellFormed(store');
    RowRoundTrip(r);
    var v := View(store)[(p, s) := r];
    forall h: Holder ensures h in v <==> KeyOf(h) in store'
                     ensures h in v ==> DecodeRow(store'[KeyOf(h)]) == Some(v[h]) {
      ViewAt(store, h.0, h.1);
      assert h == (h.0, h.1);
      if KeyOf(h) == k {
        KeyInjective(h.0, h.1, p, s);
      }
    }
    ViewExtensional(store', v);
  }

  /** A name too long for the key header leaves a store that no longer decodes: the write is
      harmless exactly when the privilege is representable. */
  lemma PutKeepsWellFormed(store: Store, p: Privilege, s: Subject, r: Row)
    requires WellFormed(store) && s != Principal(ANONYMOUS) && LegalRow(p, r)
    ensures WellFormed(store[EncodeKey(p, s) := EncodeRow(r)]) <==> Representable(p)
  {
    var k := EncodeKey(p, s);
    var store' := store[k := EncodeRow(r)];
    if Representable(p) {
      PutRefines(store, p, s, r);
    } else if WellFormed(store') {
      assert Canonical(k, store'[k]);
      var g := HolderOf(k);
      KeyInjective(p, s, g.0, g.1);
    }
  }

  function Without(store: Store, dead: set<Bytes>): Store
  {
    map k | k in store && k !in dead :: store[k]
  }

  /** Removing keys removes exactly their holders. */
  lemma WithoutRefines(store: Store, dead: set<Bytes>)
    requires WellFormed(store)
    ensures WellFormed(Without(store, dead))
    ensures forall p, s :: (p, s) in View(Without(store, dead))
                      <==> (p, s) in View(store) && EncodeKey(p, s) !in dead
    ensures forall p, s :: (p, s) in View(Without(store, dead))
                       ==> View(Without(store, dead))[(p, s)] == View(store)[(p, s)]
  {
    var store' := Without(store, dead);
    assert WellFormed(store');
    forall p, s ensures (p, s) in View(store') <==> (p, s) in View(store) && EncodeKey(p, s) !in dead
                ensures (p, s) in View(store') ==> View(store')[(p, s)] == View(store)[(p, s)] {
      ViewAt(store, p, s);
      ViewAt(store', p, s);
    }
  }

  lemma {:induction false} HolderCount(keys: set<Bytes>)
    requires forall k :: k in keys ==> KeyOf(HolderOf(k)) == k
    ensures |set k | k in keys :: HolderOf(k)| == |keys|
    decreases keys
  {
    hide KeyOf, HolderOf;
    var image := set k | k in keys :: HolderOf(k);
    if keys == {} {
      assert image == {};
    } else {
      var k :| k in keys;
      var rest := keys - {k};
      var image' := set j | j in rest :: HolderOf(j);
      HolderCount(rest);
      forall j | j in rest ensures HolderOf(j) != HolderOf(k) {
        assert KeyOf(HolderOf(j)) == j && KeyOf(HolderOf(k)) == k;
      }
      assert image == image' + {HolderOf(k)};
    }
  }

  /** The abstract map has one entry per stored key. */
  lemma ViewSize(store: Store)
    requires WellFormed(store)
    ensures |View(store)| == |store|
  {
    forall k | k in store.Keys ensures KeyOf(HolderOf(k)) == k {
      assert Canonical(k, store[k]);
    }
    HolderCount(store.Keys);
    assert View(store).Keys == Holders(store) == set k | k in store.Keys :: HolderOf(k);
  }

  // ---------- authorization on the abstract map ----------

  predicate Unexpired(r: Row, now: U64)
  {
    !(r.expires.Some? && r.expires.value < now)
  }

  /** `s` holds `p` at `now`: the exact row exists and has not expired. */
  predicate HoldsIn(v: Grants, p: Privilege, s: Subject, now: U64)
  {
    (p, s) in v && Unexpired(v[(p, s)], now)
  }

  function MatchLabel(graph: U32, id: U32): Privilege
  {
    Graph(graph, Match, VertexLabel(id))
  }

  function MatchAll(graph: U32): Privilege
  {
    Graph(graph, Match, AllVertexLabels)
  }

  /** Some data-plane privilege on `graph` is held; metadata and prepared-query rows never count. */
  ghost predicate HoldsSomeGrant(v: Grants, s: Subject, graph: U32, now: U64)
  {
    exists p: Privilege :: p.Graph? && p.graph == graph && HoldsIn(v, p, s, now)
  }

  /** `MATCH` is held on some concrete vertex label, or on all of them. */
  ghost predicate HoldsSomeMatch(v: Grants, s: Subject, graph: U32, now: U64)
  {
    HoldsIn(v, MatchAll(graph), s, now) || exists id: U32 :: HoldsIn(v, MatchLabel(graph, id), s, now)
  }

  /** `ids` are exactly the concrete labels whose `MATCH` row is held. */
  ghost predicate IsMatchSet(v: Grants, s: Subject, graph: U32, now: U64, ids: set<U32>)
  {
    forall id: U32 :: id in ids <==> HoldsIn(v, MatchLabel(graph, id), s, now)
  }
}
