/** The rows of an insert artifact, their validation, and how edge endpoints find their vertex ids. */
module InsertArtifact {
  import opened Outcomes
  import opened Bytes
  import opened BulkWire
  import opened InsertRouter

  datatype VertexRow = VertexRow(sourceId: Bytes, labels: seq<Bytes>, properties: seq<Property>)

  /** A vertex of the same artifact, or one found by a property; `value` is the index key, if it has one. */
  datatype Ref = SourceId(id: Bytes) | ByKey(vertexLabel: Bytes, name: Bytes, value: Option<Bytes>)

  datatype EdgeRow = EdgeRow(source: Ref, target: Ref, directed: bool, edgeLabel: Bytes, inlined: Option<Bytes>,
                             properties: seq<Property>)

  datatype LoadError = Remote | Operator | Artifact

  // ---------- validation ----------

  predicate NamesOk(s: seq<Property>)
  {
    && (forall i :: 0 <= i < |s| ==> s[i].name != [])
    && (forall i, j :: 0 <= i < j < |s| ==> s[i].name != s[j].name)
  }

  predicate RowOk(v: VertexRow)
  {
    v.sourceId != [] && v.labels != [] && [] !in v.labels && NamesOk(v.properties)
  }

  predicate RefOk(r: Ref, sources: set<Bytes>)
  {
    match r
    case SourceId(id) => id != [] && id in sources
    case ByKey(vertexLabel, name, value) => vertexLabel != [] && name != [] && value.Some?
  }

  predicate EdgeOk(e: EdgeRow, sources: set<Bytes>)
  {
    RefOk(e.source, sources) && RefOk(e.target, sources) && e.edgeLabel != [] && NamesOk(e.properties)
  }

  function Sources(vs: seq<VertexRow>): set<Bytes>
  {
    set i | 0 <= i < |vs| :: vs[i].sourceId
  }

  /** Source ids are unique, every row is well formed, and every reference by source id has its vertex. */
  predicate ValidArtifact(vs: seq<VertexRow>, es: seq<EdgeRow>)
  {
    && (forall i :: 0 <= i < |vs| ==> RowOk(vs[i]))
    && (forall i, j :: 0 <= i < j < |vs| ==> vs[i].sourceId != vs[j].sourceId)
    && (forall i :: 0 <= i < |es| ==> EdgeOk(es[i], Sources(vs)))
  }

  method CheckNames(s: seq<Property>) returns (ok: bool)
    ensures ok <==> NamesOk(s)
  {
    var names: set<Bytes> := {};
    for k := 0 to |s|
      invariant NamesOk(s[..k])
      invariant forall n :: n in names <==> exists i :: 0 <= i < k && s[i].name == n
    {
      if s[k].name == [] || s[k].name in names {
        return false;
      }
      names := names + {s[k].name};
      assert s[k].name in names;
    }
    assert s[..|s|] == s;
    return true;
  }

  method CheckEndpoint(r: Ref, hasVertices: bool, sources: set<Bytes>) returns (ok: bool)
    requires hasVertices <==> sources != {}
    ensures ok <==> RefOk(r, sources)
  {
    match r
    case SourceId(id) =>
      if id == [] || !hasVertices {
        return false;
      }
      return id in sources;
    case ByKey(vertexLabel, name, value) =>
      return vertexLabel != [] && name != [] && value.Some?;
  }

  method ValidateArtifact(vs: seq<VertexRow>, es: seq<EdgeRow>) returns (r: Result<(), LoadError>)
    ensures r.Ok? <==> ValidArtifact(vs, es)
  {
    hide NamesOk;
    var sources: set<Bytes> := {};
    assert Sources([]) == {};
    for k := 0 to |vs|
      invariant forall i :: 0 <= i < k ==> RowOk(vs[i])
      invariant forall i, j :: 0 <= i < j < k ==> vs[i].sourceId != vs[j].sourceId
      invariant sources == Sources(vs[..k])
    {
      if vs[k].sourceId == [] || vs[k].sourceId in sources || vs[k].labels == [] || [] in vs[k].labels {
        SourceSeen(vs, k);
        return Err(Artifact);
      }
      SourceSeen(vs, k);
      var names := CheckNames(vs[k].properties);
      if !names {
        return Err(Artifact);
      }
      sources := sources + {vs[k].sourceId};
    }
    assert vs[..|vs|] == vs;
    HasVertices(vs);
    for k := 0 to |es|
      invariant forall i :: 0 <= i < k ==> EdgeOk(es[i], Sources(vs))
    {
      var source := CheckEndpoint(es[k].source, vs != [], sources);
      var target := CheckEndpoint(es[k].target, vs != [], sources);
      var names := CheckNames(es[k].properties);
      if !source || !target || es[k].edgeLabel == [] || !names {
        return Err(Artifact);
      }
    }
    return Ok(());
  }

  lemma SourceSeen(vs: seq<VertexRow>, k: nat)
    requires k < |vs|
    ensures vs[k].sourceId in Sources(vs[..k]) <==> exists i :: 0 <= i < k && vs[i].sourceId == vs[k].sourceId
    ensures Sources(vs[..k + 1]) == Sources(vs[..k]) + {vs[k].sourceId}
  {
    assert vs[..k + 1] == vs[..k] + [vs[k]];
    forall i | 0 <= i < k ensures vs[i].sourceId in Sources(vs[..k]) {
      assert vs[..k][i] == vs[i];
    }
  }

  lemma HasVertices(vs: seq<VertexRow>)
    ensures vs != [] <==> Sources(vs) != {}
  {
    if vs != [] {
      assert vs[0].sourceId in Sources(vs);
    }
  }

  // ---------- ids ----------

  type IdMap = map<Bytes, Bytes>

  /** The ids of the first `n` rows by source id, as allocated. */
  function Bound(vs: seq<VertexRow>, allocate: Allocate, n: nat): IdMap
    requires n <= |vs|
  {
    if n == 0 then map[] else Bound(vs, allocate, n - 1)[vs[n - 1].sourceId := allocate(n - 1)]
  }

  lemma {:induction false} BoundKeys(vs: seq<VertexRow>, allocate: Allocate, n: nat)
    requires n <= |vs|
    ensures Bound(vs, allocate, n).Keys == Sources(vs[..n])
  {
    if n == 0 {
      assert vs[..0] == [];
    } else {
      BoundKeys(vs, allocate, n - 1);
      SourceSeen(vs, n - 1);
    }
  }

  lemma {:induction false} BoundAt(vs: seq<VertexRow>, allocate: Allocate, n: nat, i: nat)
    requires i < n <= |vs| && forall i, j :: 0 <= i < j < |vs| ==> vs[i].sourceId != vs[j].sourceId
    ensures vs[i].sourceId in Bound(vs, allocate, n) && Bound(vs, allocate, n)[vs[i].sourceId] == allocate(i)
    decreases n
  {
    if i < n - 1 {
      BoundAt(vs, allocate, n - 1, i);
    }
  }

  /** Bind rows to the ids a receipt lists, in order. */
  method BindIds(ids: IdMap, rows: seq<VertexRow>, given: seq<Bytes>, ghost vs: seq<VertexRow>,
                 ghost allocate: Allocate, ghost at: nat)
    returns (r: IdMap)
    requires at + |rows| <= |vs| && rows == vs[at..at + |rows|] && |given| == |rows|
    requires given == Ids(allocate, at, |rows|) && ids == Bound(vs, allocate, at)
    ensures r == Bound(vs, allocate, at + |rows|)
  {
    r := ids;
    for i := 0 to |rows|
      invariant r == Bound(vs, allocate, at + i)
    {
      r := r[rows[i].sourceId := given[i]];
    }
  }

  function Resolve(ref: Ref, ids: IdMap): Result<Endpoint, LoadError>
  {
    match ref
    case SourceId(id) => if id in ids then Ok(Existing(ids[id])) else Err(Artifact)
    case ByKey(vertexLabel, name, value) =>
      if value.Some? then Ok(ByProperty(vertexLabel, name, value.value)) else Err(Artifact)
  }

  function EdgeItem(e: EdgeRow, ids: IdMap): Result<Edge, LoadError>
  {
    var source := Resolve(e.source, ids);
    var target := Resolve(e.target, ids);
    if source.Err? || target.Err? then Err(Artifact)
    else Ok(Edge(source.value, target.value, e.directed, Some(e.edgeLabel), e.inlined, e.properties))
  }

  function VertexItems(vs: seq<VertexRow>): (items: seq<Vertex>)
    ensures |items| == |vs|
    ensures forall i :: 0 <= i < |vs| ==> items[i] == Vertex(vs[i].labels, vs[i].properties)
  {
    seq(|vs|, i requires 0 <= i < |vs| => Vertex(vs[i].labels, vs[i].properties))
  }

  /** The wire items of a run of edges, if every endpoint resolves. */
  method EdgeItems(es: seq<EdgeRow>, ids: IdMap) returns (r: Result<seq<Edge>, LoadError>)
    ensures r.Ok? <==> forall i :: 0 <= i < |es| ==> EdgeItem(es[i], ids).Ok?
    ensures r.Ok? ==> |r.value| == |es| && forall i :: 0 <= i < |es| ==> Ok(r.value[i]) == EdgeItem(es[i], ids)
  {
    var items: seq<Edge> := [];
    for k := 0 to |es|
      invariant |items| == k && forall i :: 0 <= i < k ==> Ok(items[i]) == EdgeItem(es[i], ids)
    {
      var item := EdgeItem(es[k], ids);
      if item.Err? {
        return Err(Artifact);
      }
      items := items + [item.value];
    }
    return Ok(items);
  }

  /** In a valid artifact every edge resolves once all vertices are bound, and a reference by source id
      becomes the id allocated to the vertex row of that name. */
  lemma ValidEdgesResolve(vs: seq<VertexRow>, es: seq<EdgeRow>, allocate: Allocate, i: nat)
    requires ValidArtifact(vs, es) && i < |es|
    ensures EdgeItem(es[i], Bound(vs, allocate, |vs|)).Ok?
    ensures forall k :: 0 <= k < |vs| && es[i].source == SourceId(vs[k].sourceId) ==>
              EdgeItem(es[i], Bound(vs, allocate, |vs|)).value.source == Existing(allocate(k))
    ensures forall k :: 0 <= k < |vs| && es[i].target == SourceId(vs[k].sourceId) ==>
              EdgeItem(es[i], Bound(vs, allocate, |vs|)).value.target == Existing(allocate(k))
  {
    hide NamesOk, Bound, RowOk;
    BoundKeys(vs, allocate, |vs|);
    assert vs[..|vs|] == vs;
    assert EdgeOk(es[i], Sources(vs));
    forall k | 0 <= k < |vs| ensures vs[k].sourceId in Bound(vs, allocate, |vs|) &&
      Bound(vs, allocate, |vs|)[vs[k].sourceId] == allocate(k) {
      BoundAt(vs, allocate, |vs|, k);
    }
  }

  function AllEdges(es: seq<EdgeRow>, ids: IdMap): (items: seq<Edge>)
    requires forall i :: 0 <= i < |es| ==> EdgeItem(es[i], ids).Ok?
    ensures |items| == |es| && forall i :: 0 <= i < |es| ==> EdgeItem(es[i], ids) == Ok(items[i])
  {
    if es == [] then [] else [EdgeItem(es[0], ids).value] + AllEdges(es[1..], ids)
  }

  /** The artifact as the items that should end up in the graph. */
  ghost function PlanOf(vs: seq<VertexRow>, es: seq<EdgeRow>, allocate: Allocate): (plan: Plan)
    requires ValidArtifact(vs, es)
    ensures |plan.vertices| == |vs| && |plan.edges| == |es| && plan.vertices == VertexItems(vs)
    ensures forall i :: 0 <= i < |es| ==> EdgeItem(es[i], Bound(vs, allocate, |vs|)) == Ok(plan.edges[i])
  {
    AllResolve(vs, es, allocate);
    Plan(VertexItems(vs), AllEdges(es, Bound(vs, allocate, |vs|)))
  }

  lemma AllResolve(vs: seq<VertexRow>, es: seq<EdgeRow>, allocate: Allocate)
    requires ValidArtifact(vs, es)
    ensures forall i :: 0 <= i < |es| ==> EdgeItem(es[i], Bound(vs, allocate, |vs|)).Ok?
  {
    hide ValidArtifact, EdgeItem, Bound;
    forall i | 0 <= i < |es| ensures EdgeItem(es[i], Bound(vs, allocate, |vs|)).Ok? {
      ValidEdgesResolve(vs, es, allocate, i);
    }
  }
}
