/** The chunks of a bulk load on the wire: validation, the normal form behind the fingerprint, and
    what a chunk means for the properties of a vertex. Text is its UTF-8 bytes. */
module BulkWire {
  import opened Outcomes
  import opened Bytes
  import opened StableSort

  const ENCODED_ID_BYTES: nat := 8
  const MAX_NAME_BYTES: nat := 256
  const MAX_PAYLOAD_BYTES: nat := 2097152
  const MAX_INLINE_BYTES: nat := 65535
  const MAX_INDEX_KEY_BYTES: nat := 4096

  datatype Property = Property(name: Bytes, value: Bytes)

  datatype Vertex = Vertex(labels: seq<Bytes>, properties: seq<Property>)

  datatype Endpoint = Existing(id: Bytes) | ByProperty(vertexLabel: Bytes, name: Bytes, value: Bytes)

  datatype Edge = Edge(source: Endpoint, target: Endpoint, directed: bool, edgeLabel: Option<Bytes>,
                       inlined: Option<Bytes>, properties: seq<Property>)

  datatype Update = Update(vertexLabel: Bytes, name: Bytes, value: Bytes, sets: seq<Property>, removes: seq<Bytes>)

  datatype Chunk = Vertices(vertices: seq<Vertex>) | Edges(edges: seq<Edge>) | Updates(updates: seq<Update>)

  datatype WireError = Empty | BadItem(ordinal: nat) | TooBig

  // ---------- validity ----------

  predicate NameOk(name: Bytes)
  {
    0 < |name| <= MAX_NAME_BYTES
  }

  predicate ValidProperties(s: seq<Property>)
  {
    && (forall i :: 0 <= i < |s| ==> s[i].name != [] && |s[i].value| <= MAX_PAYLOAD_BYTES)
    && (forall i, j :: 0 <= i < j < |s| ==> s[i].name != s[j].name)
  }

  predicate ValidVertex(v: Vertex)
  {
    (forall i :: 0 <= i < |v.labels| ==> v.labels[i] != []) && ValidProperties(v.properties)
  }

  predicate ValidEndpoint(e: Endpoint)
  {
    match e
    case Existing(id) => |id| == ENCODED_ID_BYTES
    case ByProperty(vertexLabel, name, value) => NameOk(vertexLabel) && NameOk(name) && |value| <= MAX_INDEX_KEY_BYTES
  }

  predicate ValidEdge(e: Edge)
  {
    && ValidEndpoint(e.source) && ValidEndpoint(e.target)
    && e.edgeLabel != Some([])
    && (e.inlined.Some? ==> |e.inlined.value| <= MAX_INLINE_BYTES)
    && ValidProperties(e.properties)
  }

  /** Names removed are well formed and none of them is also set. */
  predicate ValidRemovals(sets: seq<Property>, removes: seq<Bytes>)
  {
    forall i :: 0 <= i < |removes| ==>
      NameOk(removes[i]) && forall j :: 0 <= j < |sets| ==> sets[j].name != removes[i]
  }

  predicate ValidUpdate(u: Update)
  {
    && NameOk(u.vertexLabel) && NameOk(u.name)
    && (u.sets != [] || u.removes != [])
    && ValidProperties(u.sets)
    && ValidRemovals(u.sets, u.removes)
  }

  function Count(c: Chunk): nat
  {
    match c
    case Vertices(vertices) => |vertices|
    case Edges(edges) => |edges|
    case Updates(updates) => |updates|
  }

  predicate ValidItem(c: Chunk, i: nat)
    requires i < Count(c)
  {
    match c
    case Vertices(vertices) => ValidVertex(vertices[i])
    case Edges(edges) => ValidEdge(edges[i])
    case Updates(updates) => ValidUpdate(updates[i])
  }

  ghost predicate ValidChunk(c: Chunk)
  {
    Count(c) > 0 && forall i :: 0 <= i < Count(c) ==> ValidItem(c, i)
  }

  /** The name set grows as the properties are read; a repeat stops the check. */
  method CheckProperties(s: seq<Property>) returns (ok: bool)
    ensures ok <==> ValidProperties(s)
  {
    var names: set<Bytes> := {};
    for k := 0 to |s|
      invariant ValidProperties(s[..k])
      invariant forall n :: n in names <==> exists i :: 0 <= i < k && s[i].name == n
    {
      if s[k].name == [] || s[k].name in names || |s[k].value| > MAX_PAYLOAD_BYTES {
        return false;
      }
      names := names + {s[k].name};
      assert s[k].name in names;
    }
    assert s[..|s|] == s;
    return true;
  }

  method CheckUpdate(u: Update) returns (ok: bool)
    ensures ok <==> ValidUpdate(u)
  {
    if !NameOk(u.vertexLabel) || !NameOk(u.name) || (u.sets == [] && u.removes == []) {
      return false;
    }
    var sets := CheckProperties(u.sets);
    if !sets {
      return false;
    }
    for k := 0 to |u.removes|
      invariant ValidRemovals(u.sets, u.removes[..k])
    {
      if !NameOk(u.removes[k]) || exists j :: 0 <= j < |u.sets| && u.sets[j].name == u.removes[k] {
        return false;
      }
    }
    assert u.removes[..|u.removes|] == u.removes;
    return true;
  }

  method CheckItem(c: Chunk, i: nat) returns (ok: bool)
    requires i < Count(c)
    ensures ok <==> ValidItem(c, i)
  {
    hide ValidProperties, ValidUpdate, ValidEndpoint;
    match c
    case Vertices(vertices) =>
      if exists k :: 0 <= k < |vertices[i].labels| && vertices[i].labels[k] == [] {
        return false;
      }
      ok := CheckProperties(vertices[i].properties);
    case Edges(edges) =>
      var e := edges[i];
      if !ValidEndpoint(e.source) || !ValidEndpoint(e.target) || e.edgeLabel == Some([])
         || (e.inlined.Some? && |e.inlined.value| > MAX_INLINE_BYTES) {
        return false;
      }
      ok := CheckProperties(e.properties);
    case Updates(updates) =>
      ok := CheckUpdate(updates[i]);
  }

  /** Item by item, then the size of the whole encoding. */
  method Validate(c: Chunk, size: Chunk -> nat) returns (r: Result<(), WireError>)
    ensures r.Ok? <==> ValidChunk(c) && size(c) <= MAX_PAYLOAD_BYTES
    ensures r == Err(Empty) <==> Count(c) == 0
    ensures r.Err? && r.error.BadItem? ==>
              && r.error.ordinal < Count(c) && !ValidItem(c, r.error.ordinal)
              && forall i :: 0 <= i < r.error.ordinal ==> ValidItem(c, i)
  {
    hide ValidItem;
    if Count(c) == 0 {
      return Err(Empty);
    }
    for i := 0 to Count(c)
      invariant forall k :: 0 <= k < i ==> ValidItem(c, k)
    {
      var ok := CheckItem(c, i);
      if !ok {
        return Err(BadItem(i));
      }
    }
    return if size(c) > MAX_PAYLOAD_BYTES then Err(TooBig) else Ok(());
  }

  // ---------- the normal form ----------

  function NameOf(p: Property): Bytes
  {
    p.name
  }

  function Itself(name: Bytes): Bytes
  {
    name
  }

  function NormalVertex(v: Vertex): Vertex
  {
    Vertex(Sort(v.labels, Itself), Sort(v.properties, NameOf))
  }

  function NormalEdge(e: Edge): Edge
  {
    e.(properties := Sort(e.properties, NameOf))
  }

  function NormalUpdate(u: Update): Update
  {
    u.(sets := Sort(u.sets, NameOf), removes := Sort(u.removes, Itself))
  }

  function Normal(c: Chunk): Chunk
  {
    match c
    case Vertices(vertices) => Vertices(seq(|vertices|, i requires 0 <= i < |vertices| => NormalVertex(vertices[i])))
    case Edges(edges) => Edges(seq(|edges|, i requires 0 <= i < |edges| => NormalEdge(edges[i])))
    case Updates(updates) => Updates(seq(|updates|, i requires 0 <= i < |updates| => NormalUpdate(updates[i])))
  }

  /** A copy whose items are sorted one after the other. */
  method Normalize(c: Chunk) returns (normal: Chunk)
    ensures normal == Normal(c)
  {
    hide Sort;
    match c
    case Vertices(vertices) =>
      var items := vertices;
      for i := 0 to |items|
        invariant |items| == |vertices|
        invariant forall k :: 0 <= k < |items| ==> items[k] == if k < i then NormalVertex(vertices[k]) else vertices[k]
      {
        items := items[i := Vertex(Sort(items[i].labels, Itself), Sort(items[i].properties, NameOf))];
      }
      assert items == Normal(c).vertices;
      return Vertices(items);
    case Edges(edges) =>
      var items := edges;
      for i := 0 to |items|
        invariant |items| == |edges|
        invariant forall k :: 0 <= k < |items| ==> items[k] == if k < i then NormalEdge(edges[k]) else edges[k]
      {
        items := items[i := items[i].(properties := Sort(items[i].properties, NameOf))];
      }
      assert items == Normal(c).edges;
      return Edges(items);
    case Updates(updates) =>
      var items := updates;
      for i := 0 to |items|
        invariant |items| == |updates|
        invariant forall k :: 0 <= k < |items| ==> items[k] == if k < i then NormalUpdate(updates[k]) else updates[k]
      {
        items := items[i := items[i].(sets := Sort(items[i].sets, NameOf), removes := Sort(items[i].removes, Itself))];
      }
      assert items == Normal(c).updates;
      return Updates(items);
  }

  // ---------- the normal form is canonical ----------

  predicate SameVertex(a: Vertex, b: Vertex)
  {
    multiset(a.labels) == multiset(b.labels) && multiset(a.properties) == multiset(b.properties)
  }

  predicate SameEdge(a: Edge, b: Edge)
  {
    a.(properties := b.properties) == b && multiset(a.properties) == multiset(b.properties)
  }

  predicate SameUpdate(a: Update, b: Update)
  {
    && a.(sets := b.sets, removes := b.removes) == b
    && multiset(a.sets) == multiset(b.sets) && multiset(a.removes) == multiset(b.removes)
  }

  /** Item by item the same, up to the order of labels, properties and removals. */
  predicate SameUpToOrder(a: Chunk, b: Chunk)
  {
    match (a, b)
    case (Vertices(s), Vertices(t)) => |s| == |t| && forall i :: 0 <= i < |s| ==> SameVertex(s[i], t[i])
    case (Edges(s), Edges(t)) => |s| == |t| && forall i :: 0 <= i < |s| ==> SameEdge(s[i], t[i])
    case (Updates(s), Updates(t)) => |s| == |t| && forall i :: 0 <= i < |s| ==> SameUpdate(s[i], t[i])
    case _ => false
  }

  lemma UniqueNamesIdentify(s: seq<Property>)
    requires ValidProperties(s)
    ensures Identified(s, NameOf)
  {}

  lemma NormalVertexCanonical(a: Vertex, b: Vertex)
    requires ValidVertex(a)
    ensures NormalVertex(a) == NormalVertex(b) <==> SameVertex(a, b)
  {
    hide Sort, ValidProperties;
    SortCanonical(a.labels, b.labels, Itself);
    UniqueNamesIdentify(a.properties);
    SortCanonical(a.properties, b.properties, NameOf);
  }

  lemma NormalEdgeCanonical(a: Edge, b: Edge)
    requires ValidEdge(a)
    ensures NormalEdge(a) == NormalEdge(b) <==> SameEdge(a, b)
  {
    hide Sort, ValidProperties, ValidEndpoint;
    UniqueNamesIdentify(a.properties);
    SortCanonical(a.properties, b.properties, NameOf);
    assert a.(properties := b.properties) == b <==>
             NormalEdge(a).(properties := []) == NormalEdge(b).(properties := []);
  }

  lemma NormalUpdateCanonical(a: Update, b: Update)
    requires ValidUpdate(a)
    ensures NormalUpdate(a) == NormalUpdate(b) <==> SameUpdate(a, b)
  {
    hide Sort, ValidProperties, ValidRemovals;
    UniqueNamesIdentify(a.sets);
    SortCanonical(a.sets, b.sets, NameOf);
    SortCanonical(a.removes, b.removes, Itself);
    assert a.(sets := b.sets, removes := b.removes) == b <==>
           NormalUpdate(a).(sets := [], removes := []) == NormalUpdate(b).(sets := [], removes := []);
  }

  /** Equal normal forms mean the same chunk up to reordering inside its items, and conversely. */
  lemma NormalCanonical(a: Chunk, b: Chunk)
    requires ValidChunk(a)
    ensures Normal(a) == Normal(b) <==> SameUpToOrder(a, b)
  {
    hide NormalVertex, NormalEdge, NormalUpdate, SameVertex, SameEdge, SameUpdate, ValidVertex, ValidEdge, ValidUpdate;
    match (a, b)
    case (Vertices(s), Vertices(t)) =>
      forall i | 0 <= i < |s| && i < |t| ensures NormalVertex(s[i]) == NormalVertex(t[i]) <==> SameVertex(s[i], t[i]) {
        assert ValidItem(a, i);
        NormalVertexCanonical(s[i], t[i]);
      }
      assert forall i :: 0 <= i < |s| ==> Normal(a).vertices[i] == NormalVertex(s[i]);
      assert forall i :: 0 <= i < |t| ==> Normal(b).vertices[i] == NormalVertex(t[i]);
      EqualItems(Normal(a).vertices, Normal(b).vertices);
    case (Edges(s), Edges(t)) =>
      forall i | 0 <= i < |s| && i < |t| ensures NormalEdge(s[i]) == NormalEdge(t[i]) <==> SameEdge(s[i], t[i]) {
        assert ValidItem(a, i);
        NormalEdgeCanonical(s[i], t[i]);
      }
      assert forall i :: 0 <= i < |s| ==> Normal(a).edges[i] == NormalEdge(s[i]);
      assert forall i :: 0 <= i < |t| ==> Normal(b).edges[i] == NormalEdge(t[i]);
      EqualItems(Normal(a).edges, Normal(b).edges);
    case (Updates(s), Updates(t)) =>
      forall i | 0 <= i < |s| && i < |t| ensures NormalUpdate(s[i]) == NormalUpdate(t[i]) <==> SameUpdate(s[i], t[i]) {
        assert ValidItem(a, i);
        NormalUpdateCanonical(s[i], t[i]);
      }
      assert forall i :: 0 <= i < |s| ==> Normal(a).updates[i] == NormalUpdate(s[i]);
      assert forall i :: 0 <= i < |t| ==> Normal(b).updates[i] == NormalUpdate(t[i]);
      EqualItems(Normal(a).updates, Normal(b).updates);
    case _ =>
  }

  lemma EqualItems<T>(s: seq<T>, t: seq<T>)
    ensures s == t <==> |s| == |t| && forall i :: 0 <= i < |s| ==> s[i] == t[i]
  {}

  lemma NormalIdempotent(c: Chunk)
    ensures Normal(Normal(c)) == Normal(c)
  {
    hide Sort;
    match c
    case Vertices(s) =>
      forall i | 0 <= i < |s| ensures NormalVertex(NormalVertex(s[i])) == NormalVertex(s[i]) {
        SortIdempotent(s[i].labels, Itself);
        SortIdempotent(s[i].properties, NameOf);
      }
      EqualItems(Normal(Normal(c)).vertices, Normal(c).vertices);
    case Edges(s) =>
      forall i | 0 <= i < |s| ensures NormalEdge(NormalEdge(s[i])) == NormalEdge(s[i]) {
        SortIdempotent(s[i].properties, NameOf);
      }
      EqualItems(Normal(Normal(c)).edges, Normal(c).edges);
    case Updates(s) =>
      forall i | 0 <= i < |s| ensures NormalUpdate(NormalUpdate(s[i])) == NormalUpdate(s[i]) {
        SortIdempotent(s[i].sets, NameOf);
        SortIdempotent(s[i].removes, Itself);
      }
      EqualItems(Normal(Normal(c)).updates, Normal(c).updates);
  }

  // ---------- the fingerprint ----------

  type Encode = Chunk -> Bytes
  type Hash = Bytes -> Bytes

  ghost predicate Faithful(encode: Encode, hash: Hash)
  {
    && (forall a, b :: encode(a) == encode(b) ==> a == b)
    && (forall x, y :: hash(x) == hash(y) ==> x == y)
  }

  function FingerprintOf(c: Chunk, encode: Encode, hash: Hash): Bytes
  {
    hash(encode(Normal(c)))
  }

  method Fingerprint(c: Chunk, encode: Encode, hash: Hash) returns (r: Result<Bytes, WireError>)
    ensures r.Ok? <==> ValidChunk(c) && |encode(c)| <= MAX_PAYLOAD_BYTES
    ensures r.Ok? ==> r.value == FingerprintOf(c, encode, hash)
  {
    hide ValidChunk, Normal;
    var valid := Validate(c, c => |encode(c)|);
    if valid.Err? {
      return Err(valid.error);
    }
    var normal := Normalize(c);
    return Ok(hash(encode(normal)));
  }

  /** Two valid chunks have one fingerprint exactly when they are the same up to order. */
  lemma FingerprintsAgree(a: Chunk, b: Chunk, encode: Encode, hash: Hash)
    requires ValidChunk(a) && Faithful(encode, hash)
    ensures FingerprintOf(a, encode, hash) == FingerprintOf(b, encode, hash) <==> SameUpToOrder(a, b)
  {
    hide ValidChunk, Normal, SameUpToOrder;
    NormalCanonical(a, b);
  }

  // ---------- what a row means ----------

  type Values = map<Bytes, Bytes>

  /** Assignments in order; a later one wins. */
  function Assign(m: Values, sets: seq<Property>): Values
    decreases |sets|
  {
    if sets == [] then m else Assign(m[sets[0].name := sets[0].value], sets[1..])
  }

  function Clear(m: Values, removes: seq<Bytes>): Values
  {
    m - (set i | 0 <= i < |removes| :: removes[i])
  }

  function Effect(m: Values, u: Update): Values
  {
    Clear(Assign(m, u.sets), u.removes)
  }

  lemma {:induction false} InsertKeepsAssign(m: Values, x: Property, s: seq<Property>)
    ensures Assign(m, Insert(x, s, NameOf)) == Assign(m, [x] + s)
    decreases |s|
  {
    if !(s == [] || LexLe(x.name, s[0].name)) {
      LexReflexive(x.name);
      var swapped := [s[0]] + ([x] + s[1..]);
      var m' := m[s[0].name := s[0].value];
      InsertKeepsAssign(m', x, s[1..]);
      assert Insert(x, s, NameOf)[1..] == Insert(x, s[1..], NameOf);
      assert ([x] + s)[1..] == s && ([x] + s[1..])[1..] == s[1..];
      assert m'[x.name := x.value] == m[x.name := x.value][s[0].name := s[0].value];
    }
  }

  /** Because the sort is stable, it never changes what a list of assignments does. */
  lemma {:induction false} SortKeepsAssign(m: Values, s: seq<Property>)
    ensures Assign(m, Sort(s, NameOf)) == Assign(m, s)
    decreases |s|
  {
    if s != [] {
      var rest := Sort(s[1..], NameOf);
      InsertKeepsAssign(m, s[0], rest);
      assert ([s[0]] + rest)[1..] == rest;
      SortKeepsAssign(m[s[0].name := s[0].value], s[1..]);
    }
  }

  lemma SortKeepsClear(m: Values, removes: seq<Bytes>)
    ensures Clear(m, Sort(removes, Itself)) == Clear(m, removes)
  {
    hide Sort;
    SortSorts(removes, Itself);
    var sorted := Sort(removes, Itself);
    SameElements(removes, sorted);
  }

  lemma SameElements(s: seq<Bytes>, t: seq<Bytes>)
    requires multiset(s) == multiset(t)
    ensures (set i | 0 <= i < |s| :: s[i]) == (set i | 0 <= i < |t| :: t[i])
  {
    forall i | 0 <= i < |s| ensures s[i] in (set i | 0 <= i < |t| :: t[i]) {
      var _ := InMultiset(s, t, i);
    }
    forall i | 0 <= i < |t| ensures t[i] in (set i | 0 <= i < |s| :: s[i]) {
      var _ := InMultiset(t, s, i);
    }
  }

  /** Normalising a row keeps its effect on every property map. */
  lemma NormalKeepsEffect(m: Values, u: Update)
    ensures Effect(m, NormalUpdate(u)) == Effect(m, u)
  {
    hide Sort, Assign, Clear;
    SortKeepsAssign(m, u.sets);
    SortKeepsClear(Assign(m, u.sets), u.removes);
  }

  /** Valid rows that differ only in order have the same effect. */
  lemma OrderKeepsEffect(m: Values, a: Update, b: Update)
    requires ValidUpdate(a) && SameUpdate(a, b)
    ensures Effect(m, a) == Effect(m, b)
  {
    hide Sort, Assign, Clear, ValidUpdate, SameUpdate, Effect, NormalUpdate;
    NormalUpdateCanonical(a, b);
    NormalKeepsEffect(m, a);
    NormalKeepsEffect(m, b);
  }

  lemma LastAssignmentStays(name: Bytes, first: Bytes, last: Bytes)
    ensures Assign(map[], [Property(name, first), Property(name, last)]) == map[name := last]
  {
    var sets := [Property(name, first), Property(name, last)];
    assert sets[1..] == [Property(name, last)];
    assert Assign(map[], sets) == Assign(map[name := first], sets[1..]) == map[name := last];
  }

  /** With a repeated name that fails: neither the effect nor the normal form survives reordering. */
  lemma RepeatedNameBreaksOrder()
    ensures exists a: Update, b: Update ::
              SameUpdate(a, b) && Effect(map[], a) != Effect(map[], b) && NormalUpdate(a) != NormalUpdate(b)
  {
    hide Assign, NormalUpdate;
    var p, q := Property([1], [2]), Property([1], [3]);
    var a := Update([1], [1], [1], [p, q], []);
    var b := a.(sets := [q, p]);
    LastAssignmentStays([1], [2], [3]);
    LastAssignmentStays([1], [3], [2]);
    assert multiset(a.sets) == multiset(b.sets);
    assert SameUpdate(a, b);
    NormalKeepsEffect(map[], a);
    NormalKeepsEffect(map[], b);
    assert Effect(map[], a)[[1]] == [3] && Effect(map[], b)[[1]] == [2];
  }

  lemma {:induction false} AssignDomain(m: Values, s: seq<Property>, n: Bytes)
    ensures n in Assign(m, s) <==> n in m || exists i :: 0 <= i < |s| && s[i].name == n
    decreases |s|
  {
    if s != [] {
      AssignDomain(m[s[0].name := s[0].value], s[1..], n);
      assert forall i :: 0 <= i < |s| - 1 ==> s[1..][i] == s[i + 1];
      if exists i :: 0 < i < |s| && s[i].name == n {
        var i :| 0 < i < |s| && s[i].name == n;
        assert s[1..][i - 1].name == n;
      }
    }
  }

  lemma {:induction false} AssignAfterRemoval(m: Values, s: seq<Property>, gone: set<Bytes>)
    requires forall i :: 0 <= i < |s| ==> s[i].name !in gone
    ensures Assign(m - gone, s) == Assign(m, s) - gone
    decreases |s|
  {
    if s != [] {
      var p := s[0];
      assert (m - gone)[p.name := p.value] == m[p.name := p.value] - gone;
      AssignAfterRemoval(m[p.name := p.value], s[1..], gone);
    }
  }

  /** Whether removals come after or before the assignments matters exactly when a name is in both
      lists, which validation rules out. */
  lemma PhaseOrderMatters(m: Values, sets: seq<Property>, removes: seq<Bytes>)
    ensures Clear(Assign(m, sets), removes) == Assign(Clear(m, removes), sets) <==>
              forall i, j :: 0 <= i < |sets| && 0 <= j < |removes| ==> sets[i].name != removes[j]
  {
    var gone := set j | 0 <= j < |removes| :: removes[j];
    if i, j :| 0 <= i < |sets| && 0 <= j < |removes| && sets[i].name == removes[j] {
      assert removes[j] in gone;
      AssignDomain(Clear(m, removes), sets, sets[i].name);
      assert sets[i].name in Assign(Clear(m, removes), sets);
      assert sets[i].name !in Clear(Assign(m, sets), removes);
    } else {
      AssignAfterRemoval(m, sets, gone);
    }
  }

  // ---------- what rows carry ----------

  function Filler(n: nat): seq<Byte>
  {
    seq(n, _ => 7)
  }

  function PropertyWidth(sets: seq<Property>): nat
  {
    if sets == [] then 0 else |sets[0].name| + |sets[0].value| + PropertyWidth(sets[1..])
  }

  function NameWidth(names: seq<seq<Byte>>): nat
  {
    if names == [] then 0 else |names[0]| + NameWidth(names[1..])
  }
}
