// `List.sort` with a comparator that may throw, as the JDK performs it on a
// list of the sizes a playlist has: a stable insertion of each element into
// the already sorted prefix, comparing from the right.

module ListSort {
  import opened Wrappers

  /** A comparator: the sign of the result orders two elements; None means it threw. */
  type Comparator<-T> = (T, T) -> Option<int>

  /**
   * Inserts `x` after every element it does not compare below; whatever the
   * comparator, a result holds `x` and the elements of `sorted`, each once.
   */
  function Insert<T>(x: T, sorted: seq<T>, cmp: Comparator<T>): (r: Option<seq<T>>)
    ensures r.Some? ==> |r.value| == |sorted| + 1 && multiset(r.value) == multiset(sorted) + multiset{x}
  {
    if sorted == [] then Some([x])
    else
      var last := sorted[|sorted| - 1];
      match cmp(x, last)
      case None => None
      case Some(c) =>
        if c < 0 then
          match Insert(x, sorted[..|sorted| - 1], cmp)
          case None => None
          case Some(t) =>
            assert sorted == sorted[..|sorted| - 1] + [last];
            Some(t + [last])
        else Some(sorted + [x])
  }

  /** Sorts `s`, or is None when a comparison throws; a result is a permutation of `s`. */
  function Sort<T>(s: seq<T>, cmp: Comparator<T>): (r: Option<seq<T>>)
    ensures r.Some? ==> |r.value| == |s| && multiset(r.value) == multiset(s)
  {
    if s == [] then Some([])
    else
      match Sort(s[..|s| - 1], cmp)
      case None => None
      case Some(t) =>
        assert s == s[..|s| - 1] + [s[|s| - 1]];
        Insert(s[|s| - 1], t, cmp)
  }

  /** The comparator never reports a pair as descending. */
  ghost predicate NeverNegative<T(!new)>(cmp: Comparator<T>) {
    forall a, b :: cmp(a, b).Some? ==> cmp(a, b).value >= 0
  }

  /** Every element can be compared with the one before it. */
  predicate AdjacentComparable<T>(s: seq<T>, cmp: Comparator<T>) {
    forall i :: 0 < i < |s| ==> cmp(s[i], s[i - 1]).Some?
  }

  /**
   * A comparator that never reports a descending pair leaves the list as it
   * is; the sort throws exactly when a pair of neighbours cannot be compared.
   */
  lemma {:induction false} SortKeepsOrder<T(!new)>(s: seq<T>, cmp: Comparator<T>)
    requires NeverNegative(cmp)
    ensures Sort(s, cmp) == if AdjacentComparable(s, cmp) then Some(s) else None
  {
    if s != [] {
      var init, last := s[..|s| - 1], s[|s| - 1];
      assert s == init + [last];
      SortKeepsOrder(init, cmp);
      AdjacentAppend(init, last, cmp);
      if AdjacentComparable(init, cmp) && |init| > 0 {
        assert Insert(last, init, cmp) == if cmp(last, init[|init| - 1]).Some? then Some(s) else None;
      }
    }
  }

  /** Appending keeps all neighbours comparable exactly when the new pair is comparable. */
  lemma AdjacentAppend<T>(init: seq<T>, last: T, cmp: Comparator<T>)
    ensures AdjacentComparable(init + [last], cmp) <==>
            AdjacentComparable(init, cmp) && (|init| > 0 ==> cmp(last, init[|init| - 1]).Some?)
  {
    var s := init + [last];
    if AdjacentComparable(s, cmp) {
      forall i | 0 < i < |init|
        ensures cmp(init[i], init[i - 1]).Some?
      {
        assert s[i] == init[i] && s[i - 1] == init[i - 1];
      }
      if |init| > 0 {
        assert s[|init|] == last && s[|init| - 1] == init[|init| - 1];
      }
    }
    if AdjacentComparable(init, cmp) && (|init| > 0 ==> cmp(last, init[|init| - 1]).Some?) {
      forall i | 0 < i < |s|
        ensures cmp(s[i], s[i - 1]).Some?
      {
        if i < |init| {
          assert s[i] == init[i] && s[i - 1] == init[i - 1];
        }
      }
    }
  }

  // ---------------------------------------------------------------------------
  // Sorting by a numeric key

  /** The comparator of `key(a)` against `key(b)`. */
  function ByKey<T>(key: T -> real): Comparator<T> {
    (a: T, b: T) => Some(if key(a) < key(b) then -1 else if key(a) > key(b) then 1 else 0)
  }

  predicate SortedBy<T>(s: seq<T>, key: T -> real) {
    forall i, j :: 0 <= i < j < |s| ==> key(s[i]) <= key(s[j])
  }

  lemma {:induction false} InsertByKey<T>(x: T, sorted: seq<T>, key: T -> real)
    requires SortedBy(sorted, key)
    ensures Insert(x, sorted, ByKey(key)).Some?
    ensures SortedBy(Insert(x, sorted, ByKey(key)).value, key)
  {
    if sorted != [] {
      var init, last := sorted[..|sorted| - 1], sorted[|sorted| - 1];
      assert sorted == init + [last];
      if key(x) < key(last) {
        assert SortedBy(init, key);
        InsertByKey(x, init, key);
        var t := Insert(x, init, ByKey(key)).value;
        assert Insert(x, sorted, ByKey(key)).value == t + [last];
        InsertedBelow(x, init, last, t, key);
        AppendSorted(t, last, key);
      } else {
        assert Insert(x, sorted, ByKey(key)).value == sorted + [x];
        AppendSorted(sorted, x, key);
      }
    } else {
      assert Insert(x, sorted, ByKey(key)).value == [x];
    }
  }

  lemma AppendSorted<T>(t: seq<T>, y: T, key: T -> real)
    requires SortedBy(t, key)
    requires forall i :: 0 <= i < |t| ==> key(t[i]) <= key(y)
    ensures SortedBy(t + [y], key)
  {
    var u := t + [y];
    forall i, j | 0 <= i < j < |u|
      ensures key(u[i]) <= key(u[j])
    {
      assert u[i] == t[i];
      if j < |t| {
        assert u[j] == t[j];
      }
    }
  }

  /** After inserting an element below `last`, nothing in the result exceeds `last`. */
  lemma InsertedBelow<T>(x: T, init: seq<T>, last: T, t: seq<T>, key: T -> real)
    requires key(x) < key(last)
    requires forall i :: 0 <= i < |init| ==> key(init[i]) <= key(last)
    requires multiset(t) == multiset(init) + multiset{x}
    ensures forall i :: 0 <= i < |t| ==> key(t[i]) <= key(last)
  {
    forall i | 0 <= i < |t|
      ensures key(t[i]) <= key(last)
    {
      assert t[i] in multiset(t);
      if t[i] != x {
        assert t[i] in multiset(init);
        var j :| 0 <= j < |init| && init[j] == t[i];
      }
    }
  }

  /** Sorting by a key never throws and orders by that key (and `Sort` keeps every element exactly once). */
  lemma {:induction false} SortByKey<T>(s: seq<T>, key: T -> real)
    ensures Sort(s, ByKey(key)).Some?
    ensures SortedBy(Sort(s, ByKey(key)).value, key)
  {
    if s != [] {
      var init := s[..|s| - 1];
      SortByKey(init, key);
      InsertByKey(s[|s| - 1], Sort(init, ByKey(key)).value, key);
    }
  }
}
