/** Ordering a set of migration packages into the one root-to-head chain, and extending it. */
module MigrationChain {
  import opened Outcomes
  import opened MigrationIds

  datatype Profile = CreateGraphType | CreateTypedGraph | CreateIndex | CreateVectorIndex

  datatype Selector = Default | Named(name: string)

  datatype Artifact = Artifact(
    id: string,
    parent: Option<string>,
    selector: Selector,
    checksum: seq<int>,
    statement: string,
    profile: seq<Profile>)

  datatype ChainError =
    | RootCount(n: nat)
    | MissingParent(id: string)
    | InvalidId(id: string)
    | PrefixOrder(id: string)
    | ManyChildren(id: string)
    | Cycle
    | Disconnected
    | PrefixExhausted

  type Packages = map<string, Artifact>

  /** Packages are keyed by their own id. */
  ghost predicate Keyed(m: Packages)
  {
    forall id :: id in m ==> m[id].id == id
  }

  function Roots(m: Packages): set<string>
  {
    set id | id in m && m[id].parent.None?
  }

  /** The link from `id` to its parent is sound: the parent exists and has a smaller prefix. */
  predicate LinkOk(m: Packages, id: string)
    requires id in m && m[id].parent.Some?
  {
    var p := m[id].parent.value;
    && p in m
    && ParseId(p).Some? && ParseId(id).Some?
    && ParseId(p).value < ParseId(id).value
  }

  /** What makes a set of packages a single chain. */
  ghost predicate WellLinked(m: Packages)
  {
    m == map[] ||
    (&& |Roots(m)| == 1
     && (forall id :: id in m && m[id].parent.Some? ==> LinkOk(m, id))
     && (forall a, b :: a in m && b in m && m[a].parent.Some? && m[a].parent == m[b].parent ==> a == b))
  }

  /** Element `i` names the element before it as its parent, the first one none. */
  predicate Linked(plan: seq<Artifact>, i: nat)
    requires i < |plan|
  {
    plan[i].parent == if i == 0 then None else Some(plan[i - 1].id)
  }

  /** The packages of `m` in parent-to-child order, each directly after its parent. */
  ghost predicate IsPlan(m: Packages, plan: seq<Artifact>)
  {
    && |plan| == |m|
    && (forall i :: 0 <= i < |plan| ==> plan[i].id in m && m[plan[i].id] == plan[i])
    && (forall id :: id in m ==> exists i :: 0 <= i < |plan| && plan[i].id == id)
    && (forall i :: 0 <= i < |plan| ==> Linked(plan, i))
    && (forall i, j :: 0 <= i < j < |plan| ==> plan[i].id != plan[j].id)
  }

  /** Any repetition-free order of all packages in which a parent comes somewhere before its child. */
  ghost predicate ParentFirst(m: Packages, q: seq<Artifact>)
  {
    && |q| == |m|
    && (forall i :: 0 <= i < |q| ==> q[i].id in m && m[q[i].id] == q[i])
    && (forall i, j :: 0 <= i < j < |q| ==> q[i].id != q[j].id)
    && (forall i :: 0 <= i < |q| && q[i].parent.Some? ==>
          exists j :: 0 <= j < i && q[j].id == q[i].parent.value)
  }

  /** Prefixes grow along the plan. */
  ghost predicate SortedByPrefix(plan: seq<Artifact>)
  {
    forall i, j :: 0 <= i < j < |plan| ==>
      ParseId(plan[i].id).Some? && ParseId(plan[j].id).Some? && ParseId(plan[i].id).value < ParseId(plan[j].id).value
  }

  // ---------- the program ----------

  /** The child map the second loop fills: a child per parent among the packages in `done`. */
  ghost predicate ChildMap(m: Packages, done: set<string>, children: map<string, string>)
    requires done <= m.Keys
  {
    && (forall id :: id in done && m[id].parent.Some? ==>
          LinkOk(m, id) && m[id].parent.value in children && children[m[id].parent.value] == id)
    && (forall p :: p in children ==> children[p] in done && m[children[p]].parent == Some(p))
  }

  method LinkChildren(m: Packages) returns (r: Result<map<string, string>, ChainError>)
    requires Keyed(m)
    ensures r.Ok? ==> ChildMap(m, m.Keys, r.value)
    ensures r.Ok? <==>
              && (forall id :: id in m && m[id].parent.Some? ==> LinkOk(m, id))
              && (forall a, b :: a in m && b in m && m[a].parent.Some? && m[a].parent == m[b].parent ==> a == b)
    ensures r.Err? ==> r.error.MissingParent? || r.error.InvalidId? || r.error.PrefixOrder? || r.error.ManyChildren?
  {
    var children: map<string, string> := map[];
    var todo := m.Keys;
    while todo != {}
      invariant todo <= m.Keys
      invariant ChildMap(m, m.Keys - todo, children)
      decreases todo
    {
      var id :| id in todo;
      var artifact := m[id];
      if artifact.parent.Some? {
        var parent := artifact.parent.value;
        if parent !in m {
          return Err(MissingParent(id));
        }
        if ParseId(parent).None? {
          return Err(InvalidId(parent));
        }
        if ParseId(id).None? {
          return Err(InvalidId(id));
        }
        if ParseId(id).value <= ParseId(parent).value {
          return Err(PrefixOrder(id));
        }
        if parent in children {
          assert m[children[parent]].parent == m[id].parent;
          return Err(ManyChildren(parent));
        }
        children := children[parent := id];
      }
      todo := todo - {id};
    }
    assert m.Keys - todo == m.Keys;
    return Ok(children);
  }

  /** The ids walked so far, ending at the last element of `walk`. */
  ghost predicate IsWalk(m: Packages, walk: seq<Artifact>)
  {
    && walk != []
    && (forall i :: 0 <= i < |walk| ==> walk[i].id in m && m[walk[i].id] == walk[i])
    && (forall i :: 0 <= i < |walk| ==> Linked(walk, i))
  }

  ghost function IdSet(walk: seq<Artifact>): set<string>
  {
    set i | 0 <= i < |walk| :: walk[i].id
  }

  /** Follow the child map from the root. The cycle error is there, but never reached. */
  method WalkFrom(m: Packages, root: string, children: map<string, string>)
    returns (r: Result<seq<Artifact>, ChainError>)
    requires Keyed(m) && ChildMap(m, m.Keys, children) && root in Roots(m)
    ensures r.Ok? && IsWalk(m, r.value) && r.value[|r.value| - 1].id !in children
  {
    hide LinkOk, IdSet;
    var current := root;
    var walk, visited: set<string> := [], {};
    assert IsWalk(m, [m[root]]) && [] + [m[root]] == [m[root]];
    EmptyIdSet();
    while true
      invariant current in m && current !in visited
      invariant visited == IdSet(walk) && visited <= m.Keys
      invariant IsWalk(m, walk + [m[current]])
      decreases m.Keys - visited
    {
      if current in visited {
        return Err(Cycle);
      }
      IdSetGrows(walk, m[current]);
      visited := visited + {current};
      walk := walk + [m[current]];
      if current !in children {
        return Ok(walk);
      }
      NextIsNew(m, walk, children[current]);
      current := children[current];
    }
  }

  method OrderChain(m: Packages) returns (r: Result<seq<Artifact>, ChainError>)
    requires Keyed(m)
    ensures r.Ok? <==> WellLinked(m)
    ensures r.Ok? ==> IsPlan(m, r.value) && SortedByPrefix(r.value)
    ensures r.Err? ==> r.error != Cycle && r.error != Disconnected
    ensures m != map[] && |Roots(m)| != 1 ==> r == Err(RootCount(|Roots(m)|))
  {
    hide LinkOk, IsWalk, ChildMap, ParseId;
    if m == map[] {
      return Ok([]);
    }
    var roots := Roots(m);
    if |roots| != 1 {
      return Err(RootCount(|roots|));
    }
    var linked := LinkChildren(m);
    if linked.Err? {
      return Err(linked.error);
    }
    var root :| root in roots;
    var walked := WalkFrom(m, root, linked.value);
    var ordered := walked.value;
    WalkIsPlan(m, linked.value, ordered);
    if |ordered| != |m| {
      return Err(Disconnected);
    }
    return Ok(ordered);
  }

  // ---------- why the late errors cannot happen ----------

  lemma {:induction false} WalkAscends(m: Packages, walk: seq<Artifact>, i: nat, j: nat)
    requires IsWalk(m, walk) && Keyed(m) && i < j < |walk|
    requires forall id :: id in m && m[id].parent.Some? ==> LinkOk(m, id)
    ensures ParseId(walk[i].id).Some? && ParseId(walk[j].id).Some?
    ensures ParseId(walk[i].id).value < ParseId(walk[j].id).value
    decreases j
  {
    assert Linked(walk, j) && LinkOk(m, walk[j].id);
    if i < j - 1 {
      WalkAscends(m, walk, i, j - 1);
    }
  }

  /** The walk never comes back: prefixes only grow. */
  lemma NextIsNew(m: Packages, walk: seq<Artifact>, next: string)
    requires IsWalk(m, walk) && Keyed(m)
    requires forall id :: id in m && m[id].parent.Some? ==> LinkOk(m, id)
    requires next in m && m[next].parent == Some(walk[|walk| - 1].id)
    ensures next !in IdSet(walk) && IsWalk(m, walk + [m[next]])
  {
    var longer := walk + [m[next]];
    assert IsWalk(m, longer) by {
      forall i | 0 <= i < |longer| ensures Linked(longer, i) {
        if i < |walk| {
          assert Linked(walk, i);
        }
      }
    }
    forall i | 0 <= i < |walk| ensures walk[i].id != next {
      WalkAscends(m, longer, i, |walk|);
      assert longer[i] == walk[i] && longer[|walk|].id == next;
    }
  }

  /** Every package is on the walk, by induction on its prefix: its parent is on the walk, and the
      walk goes on from there to the parent's only child. */
  lemma {:induction false} OnWalk(m: Packages, children: map<string, string>, walk: seq<Artifact>, id: string,
                                  bound: nat)
    requires Keyed(m) && |Roots(m)| == 1 && IsWalk(m, walk) && ChildMap(m, m.Keys, children)
    requires walk[|walk| - 1].id !in children
    requires id in m && (m[id].parent.Some? ==> ParseId(id).value < bound)
    ensures id in IdSet(walk)
    decreases bound
  {
    if m[id].parent.None? {
      assert Linked(walk, 0);
      OnlyRoot(m, id, walk[0].id);
    } else {
      var p := m[id].parent.value;
      assert LinkOk(m, id);
      OnWalk(m, children, walk, p, ParseId(id).value);
      var i :| 0 <= i < |walk| && walk[i].id == p;
      assert children[p] == id;
      assert Linked(walk, i + 1);
      assert children[p] == walk[i + 1].id;
    }
  }

  lemma OnlyRoot(m: Packages, a: string, b: string)
    requires |Roots(m)| == 1 && a in Roots(m) && b in Roots(m)
    ensures a == b
  {
    var rest := Roots(m) - {a};
    assert |rest| == 0;
    assert b == a || b in rest;
  }

  lemma WalkIsPlan(m: Packages, children: map<string, string>, walk: seq<Artifact>)
    requires Keyed(m) && |Roots(m)| == 1 && IsWalk(m, walk) && ChildMap(m, m.Keys, children)
    requires walk[|walk| - 1].id !in children
    ensures |walk| == |m| && IsPlan(m, walk) && SortedByPrefix(walk)
  {
    forall i, j | 0 <= i < j < |walk|
      ensures walk[i].id != walk[j].id
      ensures ParseId(walk[i].id).Some? && ParseId(walk[j].id).Some? &&
              ParseId(walk[i].id).value < ParseId(walk[j].id).value
    {
      WalkAscends(m, walk, i, j);
    }
    forall id | id in m ensures id in IdSet(walk) {
      OnWalk(m, children, walk, id, if ParseId(id).Some? then ParseId(id).value + 1 else 0);
    }
    assert IdSet(walk) == m.Keys;
    DistinctCount(walk);
  }

  lemma EmptyIdSet()
    ensures IdSet([]) == {}
  {}

  lemma IdSetGrows(walk: seq<Artifact>, a: Artifact)
    ensures IdSet(walk + [a]) == IdSet(walk) + {a.id}
  {
    var longer := walk + [a];
    forall id ensures id in IdSet(longer) <==> id in IdSet(walk) + {a.id} {
      if id in IdSet(walk) {
        var i :| 0 <= i < |walk| && walk[i].id == id;
        assert longer[i].id == id;
      }
      if id == a.id {
        assert longer[|walk|].id == id;
      }
    }
  }

  lemma {:induction false} DistinctCount(walk: seq<Artifact>)
    requires forall i, j :: 0 <= i < j < |walk| ==> walk[i].id != walk[j].id
    ensures |IdSet(walk)| == |walk|
  {
    if walk != [] {
      var n := |walk| - 1;
      DistinctCount(walk[..n]);
      assert walk == walk[..n] + [walk[n]];
      IdSetGrows(walk[..n], walk[n]);
      assert walk[n].id !in IdSet(walk[..n]);
    }
  }

  // ---------- uniqueness ----------

  /** If the orders agree before `i`, they agree at `i`: what comes next must have its parent
      already placed, and only one unplaced package has. */
  lemma AgreeAt(m: Packages, plan: seq<Artifact>, q: seq<Artifact>, i: nat)
    requires IsPlan(m, plan) && ParentFirst(m, q) && i < |m|
    requires forall j :: 0 <= j < i ==> q[j] == plan[j]
    ensures q[i] == plan[i]
  {
    hide ParseId;
    var k :| 0 <= k < |plan| && plan[k].id == q[i].id;
    assert k >= i by {
      assert forall j :: 0 <= j < i ==> q[j].id != q[i].id;
    }
    assert Linked(plan, k);
    if k > 0 {
      var j :| 0 <= j < i && q[j].id == q[i].parent.value;
      assert plan[j].id == plan[k - 1].id;
      assert j == k - 1;
    }
  }

  lemma {:induction false} AgreeUpTo(m: Packages, plan: seq<Artifact>, q: seq<Artifact>, n: nat)
    requires IsPlan(m, plan) && ParentFirst(m, q) && n <= |m|
    ensures forall j :: 0 <= j < n ==> q[j] == plan[j]
  {
    hide IsPlan, ParentFirst;
    if n > 0 {
      AgreeUpTo(m, plan, q, n - 1);
      assert |plan| == |q| == |m| by { Lengths(m, plan, q); }
      AgreeAt(m, plan, q, n - 1);
    }
  }

  lemma Lengths(m: Packages, plan: seq<Artifact>, q: seq<Artifact>)
    requires IsPlan(m, plan) && ParentFirst(m, q)
    ensures |plan| == |q| == |m|
  {}

  /** The plan is the only parent-first order there is. */
  lemma PlanIsUnique(m: Packages, plan: seq<Artifact>, q: seq<Artifact>)
    requires IsPlan(m, plan) && ParentFirst(m, q)
    ensures q == plan
  {
    AgreeUpTo(m, plan, q, |m|);
  }

  lemma PlanIsParentFirst(m: Packages, plan: seq<Artifact>)
    requires IsPlan(m, plan)
    ensures ParentFirst(m, plan)
  {
    forall i | 0 <= i < |plan| && plan[i].parent.Some?
      ensures exists j :: 0 <= j < i && plan[j].id == plan[i].parent.value
    {
      assert Linked(plan, i);
      assert plan[i - 1].id == plan[i].parent.value;
    }
  }

  // ---------- adding a package ----------

  /** Choose the next id and parent, as the `new` command does after discovery. */
  method NextPackage(plan: seq<Artifact>, slug: string) returns (r: Result<(string, Option<string>), ChainError>)
    requires forall i :: 0 <= i < |plan| ==> ParseId(plan[i].id).Some?
    requires SortedByPrefix(plan)
    ensures r == Err(InvalidId(slug)) <==> !IsSlug(slug) || |slug| + 7 > MAX_ID
    ensures IsSlug(slug) && |slug| + 7 <= MAX_ID ==>
              (r == Err(PrefixExhausted) <==> plan != [] && ParseId(plan[|plan| - 1].id).value >= MAX_PREFIX)
    ensures r.Err? ==> r.error == InvalidId(slug) || r.error == PrefixExhausted
    ensures r.Ok? ==>
              var (id, parent) := r.value;
              && parent == (if plan == [] then None else Some(plan[|plan| - 1].id))
              && ParseId(id) == Some(if plan == [] then 1 else ParseId(plan[|plan| - 1].id).value + 1)
  {
    if |slug| + 7 > MAX_ID || !IsSlug(slug) {
      return Err(InvalidId(slug));
    }
    var highest := 0;
    for i := 0 to |plan|
      invariant highest == if i == 0 then 0 else ParseId(plan[i - 1].id).value
    {
      assert i > 0 ==> ParseId(plan[i - 1].id).value < ParseId(plan[i].id).value;
      if ParseId(plan[i].id).value > highest {
        highest := ParseId(plan[i].id).value;
      }
    }
    if highest + 1 > MAX_PREFIX {
      return Err(PrefixExhausted);
    }
    FormatParses(highest + 1, slug);
    return Ok((FormatId(highest + 1, slug), if plan == [] then None else Some(plan[|plan| - 1].id)));
  }

  /** A package made that way extends the chain by exactly one element, at the end. */
  lemma NewPackageExtendsPlan(m: Packages, plan: seq<Artifact>, a: Artifact)
    requires Keyed(m) && IsPlan(m, plan) && SortedByPrefix(plan)
    requires forall id :: id in m ==> ParseId(id).Some?
    requires a.parent == if plan == [] then None else Some(plan[|plan| - 1].id)
    requires ParseId(a.id) == Some(if plan == [] then 1 else ParseId(plan[|plan| - 1].id).value + 1)
    ensures a.id !in m
    ensures var m', plan' := m[a.id := a], plan + [a];
            Keyed(m') && IsPlan(m', plan') && SortedByPrefix(plan') && WellLinked(m')
  {
    hide ParseId;
    var m', plan' := m[a.id := a], plan + [a];
    assert SortedByPrefix(plan') by {
      forall i | 0 <= i < |plan|
        ensures ParseId(plan[i].id).Some? && ParseId(plan[i].id).value < ParseId(a.id).value
      {
        assert plan[i].id in m;
        assert i < |plan| - 1 ==> ParseId(plan[i].id).value < ParseId(plan[|plan| - 1].id).value;
      }
    }
    assert a.id !in m by {
      assert forall i :: 0 <= i < |plan| ==> plan'[i].id != plan'[|plan|].id;
      assert forall i :: 0 <= i < |plan| ==> plan[i].id == plan'[i].id != a.id;
    }
    AppendKeepsPlan(m, plan, a);
    PlanIsWellLinked(m', plan');
  }

  lemma AppendCovers(m: Packages, plan: seq<Artifact>, a: Artifact, id: string)
    requires IsPlan(m, plan) && (id in m || id == a.id)
    ensures exists i :: 0 <= i < |plan + [a]| && (plan + [a])[i].id == id
  {
    hide Linked;
    var plan' := plan + [a];
    if id == a.id {
      assert plan'[|plan|].id == id;
    } else {
      var i :| 0 <= i < |plan| && plan[i].id == id;
      assert plan'[i].id == id;
    }
  }

  lemma AppendLinks(plan: seq<Artifact>, a: Artifact, i: nat)
    requires forall i :: 0 <= i < |plan| ==> Linked(plan, i)
    requires a.parent == if plan == [] then None else Some(plan[|plan| - 1].id)
    requires i <= |plan|
    ensures Linked(plan + [a], i)
  {
    if i < |plan| {
      assert Linked(plan, i);
    }
  }

  lemma AppendEntries(m: Packages, plan: seq<Artifact>, a: Artifact)
    requires forall i :: 0 <= i < |plan| ==> plan[i].id in m && m[plan[i].id] == plan[i]
    requires forall i, j :: 0 <= i < j < |plan| ==> plan[i].id != plan[j].id
    requires a.id !in m
    ensures var m', plan' := m[a.id := a], plan + [a];
            && (forall i :: 0 <= i < |plan'| ==> plan'[i].id in m' && m'[plan'[i].id] == plan'[i])
            && (forall i, j :: 0 <= i < j < |plan'| ==> plan'[i].id != plan'[j].id)
  {
    forall i | 0 <= i < |plan| ensures plan[i].id != a.id {
      assert plan[i].id in m;
    }
  }

  lemma AppendKeepsPlan(m: Packages, plan: seq<Artifact>, a: Artifact)
    requires Keyed(m) && IsPlan(m, plan) && a.id !in m
    requires a.parent == if plan == [] then None else Some(plan[|plan| - 1].id)
    ensures IsPlan(m[a.id := a], plan + [a])
  {
    hide Linked;
    var m', plan' := m[a.id := a], plan + [a];
    assert m'.Keys == m.Keys + {a.id};
    forall i | 0 <= i < |plan'| ensures Linked(plan', i) {
      AppendLinks(plan, a, i);
    }
    forall id | id in m' ensures exists i :: 0 <= i < |plan'| && plan'[i].id == id {
      AppendCovers(m, plan, a, id);
    }
    AppendEntries(m, plan, a);
  }

  lemma PlanRoot(m: Packages, plan: seq<Artifact>)
    requires IsPlan(m, plan) && m != map[]
    ensures Roots(m) == {plan[0].id}
  {
    assert |plan| > 0 by {
      var id :| id in m;
    }
    forall id | id in m ensures m[id].parent.None? <==> id == plan[0].id {
      var i :| 0 <= i < |plan| && plan[i].id == id;
      assert Linked(plan, i) && Linked(plan, 0);
    }
    assert plan[0].id in m;
  }

  /** Conversely, only a well-linked set has a plan. */
  lemma PlanIsWellLinked(m: Packages, plan: seq<Artifact>)
    requires Keyed(m) && IsPlan(m, plan) && SortedByPrefix(plan)
    ensures WellLinked(m)
  {
    hide LinkOk, Linked, SortedByPrefix, Roots;
    if m != map[] {
      PlanRoot(m, plan);
      forall id | id in m && m[id].parent.Some? ensures LinkOk(m, id) {
        var _ := PlanLink(m, plan, id);
      }
      forall a, b | a in m && b in m && m[a].parent.Some? && m[a].parent == m[b].parent ensures a == b {
        var i := PlanLink(m, plan, a);
        var j := PlanLink(m, plan, b);
        assert i - 1 == j - 1;
      }
    }
  }

  lemma PlanLink(m: Packages, plan: seq<Artifact>, id: string) returns (i: nat)
    requires Keyed(m) && IsPlan(m, plan) && SortedByPrefix(plan)
    requires id in m && m[id].parent.Some?
    ensures 0 < i < |plan| && plan[i].id == id && m[id].parent == Some(plan[i - 1].id) && LinkOk(m, id)
  {
    hide ParseId;
    i :| 0 <= i < |plan| && plan[i].id == id;
    assert Linked(plan, i);
    assert plan[i - 1].id in m;
  }
}
