/** The ascending listing of a finite key set, which is how the stable ordered map iterates, and the
    part of it that lies strictly after a cursor. */
module KeyOrder {
  import opened Bytes
  import opened Outcomes

  ghost predicate Ascending(s: seq<Bytes>)
  {
    forall i, j :: 0 <= i < j < |s| ==> LexLt(s[i], s[j])
  }

  ghost predicate IsLeast(k: Bytes, keys: set<Bytes>)
  {
    k in keys && forall j :: j in keys ==> LexLe(k, j)
  }

  lemma {:induction false} LeastExists(keys: set<Bytes>)
    requires keys != {}
    ensures exists k :: IsLeast(k, keys)
    decreases keys
  {
    var k :| k in keys;
    var rest := keys - {k};
    LexReflexive(k);
    if rest == {} {
      assert keys == {k};
      assert IsLeast(k, keys);
    } else {
      LeastExists(rest);
      var m :| IsLeast(m, rest);
      LexTotal(k, m);
      if LexLe(k, m) {
        forall j | j in keys ensures LexLe(k, j) {
          if j != k {
            LexTransitive(k, m, j);
          }
        }
        assert IsLeast(k, keys);
      } else {
        assert IsLeast(m, keys);
      }
    }
  }

  lemma LeastUnique(k: Bytes, m: Bytes, keys: set<Bytes>)
    requires IsLeast(k, keys) && IsLeast(m, keys)
    ensures k == m
  {
    LexAntisymmetric(k, m);
  }

  function Least(keys: set<Bytes>): (k: Bytes)
    requires keys != {}
    ensures IsLeast(k, keys)
  {
    LeastExists(keys);
    assert forall x, y :: IsLeast(x, keys) && IsLeast(y, keys) ==> x == y by {
      forall x, y | IsLeast(x, keys) && IsLeast(y, keys) ensures x == y {
        LeastUnique(x, y, keys);
      }
    }
    assert forall k :: (k in keys && forall j :: j in keys ==> LexLe(k, j)) ==> IsLeast(k, keys);
    var k :| k in keys && forall j :: j in keys ==> LexLe(k, j);
    k
  }

  function Listing(keys: set<Bytes>): (s: seq<Bytes>)
    ensures Ascending(s)
    ensures forall k :: k in s <==> k in keys
    ensures |s| == |keys|
  {
    if keys == {} then []
    else
      var k := Least(keys);
      [k] + Listing(keys - {k})
  }

  /** A listing is determined by its elements. */
  lemma {:induction false} ListingUnique(s: seq<Bytes>, t: seq<Bytes>)
    requires Ascending(s) && Ascending(t)
    requires forall k :: k in s <==> k in t
    ensures s == t
  {
    assert t == [] || t[0] in t;
    if s != [] {
      assert s[0] in t && t != [] && t[0] in s;
      HeadIsLeast(s, t[0]);
      HeadIsLeast(t, s[0]);
      LexAntisymmetric(s[0], t[0]);
      forall k ensures k in s[1..] <==> k in t[1..] {
        TailMembers(s, k);
        TailMembers(t, k);
      }
      ListingUnique(s[1..], t[1..]);
      assert s == [s[0]] + s[1..] && t == [t[0]] + t[1..];
    }
  }

  lemma HeadIsLeast(s: seq<Bytes>, k: Bytes)
    requires Ascending(s) && k in s
    ensures LexLe(s[0], k)
  {
    LexReflexive(k);
  }

  lemma TailMembers(s: seq<Bytes>, k: Bytes)
    requires Ascending(s) && s != []
    ensures k in s[1..] <==> k in s && k != s[0]
  {}

  /** The keys a range scan visits: strictly after the cursor, or all of them. */
  function After(keys: set<Bytes>, cursor: Option<Bytes>): set<Bytes>
  {
    set k | k in keys && (cursor.Some? ==> LexLt(cursor.value, k))
  }

  lemma AfterLast(keys: set<Bytes>, cursor: Option<Bytes>, n: nat, k: Bytes)
    requires 0 < n <= |Listing(After(keys, cursor))|
    ensures var e := Listing(After(keys, cursor));
            k in After(keys, Some(e[n - 1])) <==> k in e[n..]
  {
    var e := Listing(After(keys, cursor));
    var last := e[n - 1];
    if k in e[n..] {
      var i :| n <= i < |e| && e[i] == k;
      assert k in e && LexLt(e[n - 1], e[i]);
    }
    if k in After(keys, Some(last)) {
      AfterShrinks(keys, cursor, last, k);
      var i :| 0 <= i < |e| && e[i] == k;
      if i < n - 1 {
        LexAntisymmetric(k, last);
      }
      assert k == e[n..][i - n];
    }
  }

  lemma AfterShrinks(keys: set<Bytes>, cursor: Option<Bytes>, last: Bytes, k: Bytes)
    requires last in After(keys, cursor) && k in After(keys, Some(last))
    ensures k in After(keys, cursor)
  {
    if cursor.Some? {
      LexTransitive(cursor.value, last, k);
      if cursor.value == k {
        LexAntisymmetric(last, k);
      }
    }
  }

  /** Resuming after the `n`-th visited key continues with the `n+1`-th. */
  lemma ResumeContinues(keys: set<Bytes>, cursor: Option<Bytes>, n: nat)
    requires 0 < n <= |Listing(After(keys, cursor))|
    ensures var e := Listing(After(keys, cursor));
            Listing(After(keys, Some(e[n - 1]))) == e[n..]
  {
    var e := Listing(After(keys, cursor));
    forall k ensures k in Listing(After(keys, Some(e[n - 1]))) <==> k in e[n..] {
      AfterLast(keys, cursor, n, k);
    }
    ListingUnique(Listing(After(keys, Some(e[n - 1]))), e[n..]);
  }
}
