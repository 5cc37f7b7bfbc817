/** Stable sorting by a byte-string key, as the normal form of a chunk uses it. */
module StableSort {
  import opened Bytes

  ghost predicate Sorted<T>(s: seq<T>, key: T -> Bytes)
  {
    forall i, j :: 0 <= i < j < |s| ==> LexLe(key(s[i]), key(s[j]))
  }

  /** Elements with equal keys are equal. */
  ghost predicate Identified<T>(s: seq<T>, key: T -> Bytes)
  {
    forall i, j :: 0 <= i < |s| && 0 <= j < |s| && key(s[i]) == key(s[j]) ==> s[i] == s[j]
  }

  /** `x` goes before the first element whose key is not smaller. */
  function Insert<T>(x: T, s: seq<T>, key: T -> Bytes): seq<T>
  {
    if s == [] || LexLe(key(x), key(s[0])) then [x] + s else [s[0]] + Insert(x, s[1..], key)
  }

  function Sort<T>(s: seq<T>, key: T -> Bytes): seq<T>
  {
    if s == [] then [] else Insert(s[0], Sort(s[1..], key), key)
  }

  lemma {:induction false} InsertPermutes<T>(x: T, s: seq<T>, key: T -> Bytes)
    ensures multiset(Insert(x, s, key)) == multiset(s) + multiset{x}
  {
    if !(s == [] || LexLe(key(x), key(s[0]))) {
      InsertPermutes(x, s[1..], key);
      assert s == [s[0]] + s[1..];
    }
  }

  lemma {:induction false} InsertSorts<T>(x: T, s: seq<T>, key: T -> Bytes)
    requires Sorted(s, key)
    ensures Sorted(Insert(x, s, key), key)
  {
    var r := Insert(x, s, key);
    if s == [] {
    } else if LexLe(key(x), key(s[0])) {
      forall i, j | 0 <= i < j < |r| ensures LexLe(key(r[i]), key(r[j])) {
        if i == 0 && j > 1 {
          LexTransitive(key(x), key(s[0]), key(s[j - 1]));
        }
      }
    } else {
      InsertSorts(x, s[1..], key);
      LexTotal(key(x), key(s[0]));
      var tail := Insert(x, s[1..], key);
      InsertPermutes(x, s[1..], key);
      forall i, j | 0 <= i < j < |r| ensures LexLe(key(r[i]), key(r[j])) {
        if i == 0 {
          assert tail[j - 1] in multiset(tail);
          assert tail[j - 1] == x || tail[j - 1] in s[1..];
        } else {
          assert r[i] == tail[i - 1] && r[j] == tail[j - 1];
        }
      }
    }
  }

  lemma {:induction false} SortSorts<T>(s: seq<T>, key: T -> Bytes)
    ensures Sorted(Sort(s, key), key)
    ensures multiset(Sort(s, key)) == multiset(s)
  {
    if s != [] {
      SortSorts(s[1..], key);
      InsertSorts(s[0], Sort(s[1..], key), key);
      InsertPermutes(s[0], Sort(s[1..], key), key);
      assert s == [s[0]] + s[1..];
    }
  }

  lemma InMultiset<T>(s: seq<T>, t: seq<T>, i: nat) returns (j: nat)
    requires multiset(s) == multiset(t) && i < |s|
    ensures j < |t| && t[j] == s[i]
  {
    assert s[i] in multiset(t);
    j :| 0 <= j < |t| && t[j] == s[i];
  }

  lemma HeadIsLeast<T>(s: seq<T>, key: T -> Bytes, i: nat)
    requires Sorted(s, key) && i < |s|
    ensures LexLe(key(s[0]), key(s[i]))
  {
    LexReflexive(key(s[0]));
  }

  lemma SameHead<T>(s: seq<T>, t: seq<T>, key: T -> Bytes)
    requires Sorted(s, key) && Sorted(t, key) && multiset(s) == multiset(t) && Identified(s, key) && s != [] && t != []
    ensures s[0] == t[0]
  {
    hide LexLe, Sorted;
    var j := InMultiset(s, t, 0);
    var i := InMultiset(t, s, 0);
    HeadIsLeast(t, key, j);
    HeadIsLeast(s, key, i);
    LexAntisymmetric(key(s[0]), key(t[0]));
  }

  lemma SameTail<T>(s: seq<T>, t: seq<T>)
    requires multiset(s) == multiset(t) && s != [] && t != [] && s[0] == t[0]
    ensures multiset(s[1..]) == multiset(t[1..])
  {
    assert s == [s[0]] + s[1..] && t == [t[0]] + t[1..];
    assert multiset(s[1..]) == multiset(s) - multiset{s[0]};
  }

  lemma TailKeeps<T>(s: seq<T>, key: T -> Bytes)
    requires s != [] && Sorted(s, key)
    ensures Sorted(s[1..], key)
    ensures Identified(s, key) ==> Identified(s[1..], key)
  {
    hide LexLe;
  }

  /** Keys that identify their elements make the sorted order unique. */
  lemma {:induction false} SortedUnique<T>(s: seq<T>, t: seq<T>, key: T -> Bytes)
    requires Sorted(s, key) && Sorted(t, key) && multiset(s) == multiset(t) && Identified(s, key)
    ensures s == t
  {
    hide LexLe, Sorted, Identified;
    assert |s| == |multiset(s)| == |multiset(t)| == |t|;
    if s != [] {
      SameHead(s, t, key);
      SameTail(s, t);
      TailKeeps(s, key);
      TailKeeps(t, key);
      SortedUnique(s[1..], t[1..], key);
    }
  }

  lemma IdentifiedPermuted<T>(s: seq<T>, t: seq<T>, key: T -> Bytes)
    requires multiset(s) == multiset(t) && Identified(s, key)
    ensures Identified(t, key)
  {
    forall i, j | 0 <= i < |t| && 0 <= j < |t| && key(t[i]) == key(t[j]) ensures t[i] == t[j] {
      var a := InMultiset(t, s, i);
      var b := InMultiset(t, s, j);
    }
  }

  /** Sorting forgets the order and nothing else. */
  lemma SortCanonical<T>(s: seq<T>, t: seq<T>, key: T -> Bytes)
    requires Identified(s, key)
    ensures Sort(s, key) == Sort(t, key) <==> multiset(s) == multiset(t)
  {
    SortSorts(s, key);
    SortSorts(t, key);
    if multiset(s) == multiset(t) {
      IdentifiedPermuted(s, Sort(s, key), key);
      SortedUnique(Sort(s, key), Sort(t, key), key);
    }
  }

  lemma {:induction false} SortFixes<T>(s: seq<T>, key: T -> Bytes)
    requires Sorted(s, key)
    ensures Sort(s, key) == s
  {
    if s != [] {
      SortFixes(s[1..], key);
      assert s == [s[0]] + s[1..];
    }
  }

  lemma SortIdempotent<T>(s: seq<T>, key: T -> Bytes)
    ensures Sort(Sort(s, key), key) == Sort(s, key)
  {
    SortSorts(s, key);
    SortFixes(Sort(s, key), key);
  }
}
