/** Ordering of query results and of `Array.prototype.sort`: a stable
    insertion sort by a caller-supplied "comes no later than" relation. The
    database's `ORDER BY` and JavaScript's comparator sort are both modelled
    with it; ties keep their input order. */
module Sorting {

  ghost predicate Total<T(!new)>(le: (T, T) -> bool) {
    forall a, b :: le(a, b) || le(b, a)
  }

  ghost predicate Transitive<T(!new)>(le: (T, T) -> bool) {
    forall a, b, c :: le(a, b) && le(b, c) ==> le(a, c)
  }

  ghost predicate TotalPreorder<T(!new)>(le: (T, T) -> bool) {
    Total(le) && Transitive(le)
  }

  /** Every element comes no later than every element after it. */
  ghost predicate Sorted<T>(s: seq<T>, le: (T, T) -> bool) {
    forall i, j :: 0 <= i < j < |s| ==> le(s[i], s[j])
  }

  /** Insert `x` before the first element it comes no later than. */
  function Insert<T>(x: T, s: seq<T>, le: (T, T) -> bool): (r: seq<T>)
    ensures multiset(r) == multiset(s) + multiset{x}
    ensures |r| == |s| + 1
  {
    if s == [] then [x]
    else if le(x, s[0]) then [x] + s
    else
      assert s == [s[0]] + s[1..];
      [s[0]] + Insert(x, s[1..], le)
  }

  /** Sort by inserting each element, last first, into the sorted rest. */
  function Sort<T>(s: seq<T>, le: (T, T) -> bool): (r: seq<T>)
    ensures multiset(r) == multiset(s)
    ensures |r| == |s|
  {
    if s == [] then []
    else
      assert s == [s[0]] + s[1..];
      Insert(s[0], Sort(s[1..], le), le)
  }

  lemma {:induction false} InsertSorted<T(!new)>(x: T, s: seq<T>, le: (T, T) -> bool)
    requires TotalPreorder(le)
    requires Sorted(s, le)
    ensures Sorted(Insert(x, s, le), le)
  {
    if s != [] && !le(x, s[0]) {
      InsertSorted(x, s[1..], le);
      var r := Insert(x, s[1..], le);
      assert le(s[0], x);
      forall k | 0 <= k < |r| ensures le(s[0], r[k]) {
        assert r[k] in multiset(s[1..]) + multiset{x} by {
          assert r[k] in multiset(r);
        }
        if r[k] != x {
          assert r[k] in s[1..];
          var m :| 0 <= m < |s[1..]| && s[1..][m] == r[k];
          assert s[1 + m] == r[k];
        }
      }
    }
  }

  /** The sort returns its input in an order consistent with `le`. */
  lemma {:induction false} SortSorted<T(!new)>(s: seq<T>, le: (T, T) -> bool)
    requires TotalPreorder(le)
    ensures Sorted(Sort(s, le), le)
  {
    if s != [] {
      SortSorted(s[1..], le);
      InsertSorted(s[0], Sort(s[1..], le), le);
    }
  }

  /** Descending order by an integer key (`ORDER BY key DESC`,
      `sort((a, b) => key(b) - key(a))`). */
  function ByKeyDesc<T>(key: T -> int): (T, T) -> bool {
    (a: T, b: T) => key(a) >= key(b)
  }

  lemma ByKeyDescIsTotalPreorder<T(!new)>(key: T -> int)
    ensures TotalPreorder(ByKeyDesc(key))
  {
  }

  /** Sorting by a descending key puts the largest keys first. */
  lemma SortByKeyDesc<T(!new)>(s: seq<T>, key: T -> int)
    ensures multiset(Sort(s, ByKeyDesc(key))) == multiset(s)
    ensures forall i, j :: 0 <= i < j < |s| ==>
              key(Sort(s, ByKeyDesc(key))[i]) >= key(Sort(s, ByKeyDesc(key))[j])
  {
    ByKeyDescIsTotalPreorder(key);
    SortSorted(s, ByKeyDesc(key));
  }

  /** In a sorted sequence the first element passing a test comes no later
      than any other element passing it. */
  lemma FirstPassingIsLeast<T(!new)>(s: seq<T>, le: (T, T) -> bool, p: T -> bool, k: nat)
    requires TotalPreorder(le) && Sorted(s, le)
    requires k < |s| && p(s[k]) && forall j :: 0 <= j < k ==> !p(s[j])
    ensures forall m :: 0 <= m < |s| && p(s[m]) ==> le(s[k], s[m])
  {
    forall m | 0 <= m < |s| && p(s[m]) ensures le(s[k], s[m]) {
      if m == k {
        assert le(s[k], s[k]);
      }
    }
  }

  /** The same, stated over the unsorted input: the first element of a
      sorted permutation that passes is least among all that pass. */
  lemma FirstPassingIsLeastOf<T(!new)>(xs: seq<T>, s: seq<T>, le: (T, T) -> bool, p: T -> bool, k: nat)
    requires TotalPreorder(le) && Sorted(s, le) && multiset(s) == multiset(xs)
    requires k < |s| && p(s[k]) && forall j :: 0 <= j < k ==> !p(s[j])
    ensures s[k] in xs
    ensures forall x :: x in xs && p(x) ==> le(s[k], x)
  {
    FirstPassingIsLeast(s, le, p, k);
    assert s[k] in multiset(s);
    forall x | x in xs && p(x) ensures le(s[k], x) {
      assert x in multiset(xs);
      var m :| 0 <= m < |s| && s[m] == x;
    }
  }
}
