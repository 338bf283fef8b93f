/** Python's `sorted`: a stable sort, given the order of the keys. */
module StableSort {
  /** Total and transitive; two elements may be ranked the same. */
  ghost predicate IsOrder<T(!new)>(le: (T, T) -> bool) {
    && (forall a, b :: le(a, b) || le(b, a))
    && (forall a, b, c :: le(a, b) && le(b, c) ==> le(a, c))
  }

  predicate Sorted<T>(s: seq<T>, le: (T, T) -> bool) {
    forall i, j :: 0 <= i < j < |s| ==> le(s[i], s[j])
  }

  lemma FrontAndLast<T>(s: seq<T>)
    requires s != []
    ensures s[..|s| - 1] + [s[|s| - 1]] == s
  {
  }

  /** The last element goes behind everything not ranked after it. */
  function Insert<T>(s: seq<T>, x: T, le: (T, T) -> bool): (r: seq<T>)
    ensures |r| == |s| + 1
  {
    if s == [] || le(s[|s| - 1], x) then s + [x]
    else Insert(s[..|s| - 1], x, le) + [s[|s| - 1]]
  }

  function Sort<T>(s: seq<T>, le: (T, T) -> bool): (r: seq<T>)
    ensures |r| == |s|
  {
    if s == [] then [] else Insert(Sort(s[..|s| - 1], le), s[|s| - 1], le)
  }

  lemma {:induction false} InsertKeeps<T>(s: seq<T>, x: T, le: (T, T) -> bool)
    ensures multiset(Insert(s, x, le)) == multiset(s) + multiset{x}
  {
    if !(s == [] || le(s[|s| - 1], x)) {
      InsertKeeps(s[..|s| - 1], x, le);
      assert s == s[..|s| - 1] + [s[|s| - 1]];
    }
  }

  lemma {:induction false} InsertSorted<T(!new)>(s: seq<T>, x: T, le: (T, T) -> bool)
    requires IsOrder(le) && Sorted(s, le)
    ensures Sorted(Insert(s, x, le), le)
  {
    if s == [] || le(s[|s| - 1], x) {
      forall i | 0 <= i < |s| ensures le(s[i], x) {
        if i < |s| - 1 {
          assert le(s[i], s[|s| - 1]);
        }
      }
    } else {
      var front, last := s[..|s| - 1], s[|s| - 1];
      InsertSorted(front, x, le);
      InsertKeeps(front, x, le);
      forall i | 0 <= i < |s| ensures le(Insert(front, x, le)[i], last) {
        var y := Insert(front, x, le)[i];
        assert y in multiset(front) + multiset{x};
        if y != x {
          assert y in front;
        }
      }
    }
  }

  /** The result is sorted and holds the same elements, each as often. */
  lemma {:induction false} SortSorts<T(!new)>(s: seq<T>, le: (T, T) -> bool)
    requires IsOrder(le)
    ensures Sorted(Sort(s, le), le) && multiset(Sort(s, le)) == multiset(s)
  {
    if s != [] {
      var front := s[..|s| - 1];
      SortSorts(front, le);
      InsertSorted(Sort(front, le), s[|s| - 1], le);
      InsertKeeps(Sort(front, le), s[|s| - 1], le);
      assert s == front + [s[|s| - 1]];
    }
  }

  lemma SameElements<T>(a: seq<T>, b: seq<T>)
    requires multiset(a) == multiset(b)
    ensures forall x :: x in a <==> x in b
  {
    forall x ensures x in a <==> x in b {
      assert x in a <==> x in multiset(a);
      assert x in b <==> x in multiset(b);
    }
  }

  predicate NoDuplicates<T(==)>(s: seq<T>) {
    forall i, j :: 0 <= i < j < |s| ==> s[i] != s[j]
  }

  lemma {:induction false} AtMostOnce<T>(s: seq<T>, x: T)
    requires NoDuplicates(s)
    ensures multiset(s)[x] <= 1
  {
    if s != [] {
      AtMostOnce(s[..|s| - 1], x);
      assert s == s[..|s| - 1] + [s[|s| - 1]];
      if x == s[|s| - 1] {
        assert x !in s[..|s| - 1];
      }
    }
  }

  lemma SameNoDuplicates<T>(a: seq<T>, b: seq<T>)
    requires multiset(a) == multiset(b) && NoDuplicates(a)
    ensures NoDuplicates(b)
  {
    forall i, j | 0 <= i < j < |b| ensures b[i] != b[j] {
      if b[i] == b[j] {
        assert b == b[..i] + [b[i]] + b[i + 1..j] + [b[j]] + b[j + 1..];
        AtMostOnce(a, b[i]);
        assert false;
      }
    }
  }

  /** A sequence that is sorted already is left alone. */
  lemma {:induction false} SortedUnchanged<T>(s: seq<T>, le: (T, T) -> bool)
    requires Sorted(s, le)
    ensures Sort(s, le) == s
  {
    if s != [] {
      var front := s[..|s| - 1];
      SortedUnchanged(front, le);
      assert s == front + [s[|s| - 1]];
    }
  }

  // ---------- stability ----------

  function Filter<T>(s: seq<T>, keep: T -> bool): (r: seq<T>) {
    if s == [] then []
    else Filter(s[..|s| - 1], keep) + (if keep(s[|s| - 1]) then [s[|s| - 1]] else [])
  }

  /** The elements ranked the same as `y`. */
  function Peers<T>(s: seq<T>, y: T, le: (T, T) -> bool): seq<T> {
    Filter(s, x => le(x, y) && le(y, x))
  }

  lemma {:induction false} InsertStable<T(!new)>(s: seq<T>, x: T, y: T, le: (T, T) -> bool)
    requires IsOrder(le) && Sorted(s, le)
    ensures Peers(Insert(s, x, le), y, le) == Peers(s, y, le) + (if le(x, y) && le(y, x) then [x] else [])
  {
    if s == [] || le(s[|s| - 1], x) {
      assert (s + [x])[..|s|] == s;
    } else {
      var front, last := s[..|s| - 1], s[|s| - 1];
      InsertStable(front, x, y, le);
      assert (Insert(front, x, le) + [last])[..|s|] == Insert(front, x, le);
    }
  }

  /** Elements ranked the same keep their order. */
  lemma {:induction false} SortStable<T(!new)>(s: seq<T>, y: T, le: (T, T) -> bool)
    requires IsOrder(le)
    ensures Peers(Sort(s, le), y, le) == Peers(s, y, le)
  {
    if s != [] {
      var front := s[..|s| - 1];
      SortStable(front, y, le);
      SortSorts(front, le);
      InsertStable(Sort(front, le), s[|s| - 1], y, le);
    }
  }
}
