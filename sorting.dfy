/** Array.prototype.sort with a comparator, as the notes and model stores
    use it: a stable sort. It is modelled by insertion sort on sequences,
    where `le(a, b)` means that the comparator does not put b before a
    (`compare(a, b) <= 0`). */
module Sorting {

  ghost predicate TotalPreorder<T(!new)>(le: (T, T) -> bool) {
    && (forall a, b :: le(a, b) || le(b, a))
    && (forall a, b, c :: le(a, b) && le(b, c) ==> le(a, c))
  }

  ghost predicate SortedBy<T>(s: seq<T>, le: (T, T) -> bool) {
    forall i, j :: 0 <= i < j < |s| ==> le(s[i], s[j])
  }

  /** Places x in front of the first element it may precede. */
  function Insert<T>(x: T, s: seq<T>, le: (T, T) -> bool): seq<T> {
    if s == [] then [x]
    else if le(x, s[0]) then [x] + s
    else [s[0]] + Insert(x, s[1..], le)
  }

  function SortBy<T>(s: seq<T>, le: (T, T) -> bool): seq<T> {
    if s == [] then [] else Insert(s[0], SortBy(s[1..], le), le)
  }

  lemma {:induction false} InsertCorrect<T(!new)>(x: T, s: seq<T>, le: (T, T) -> bool)
    requires TotalPreorder(le)
    requires SortedBy(s, le)
    ensures multiset(Insert(x, s, le)) == multiset(s) + multiset{x}
    ensures SortedBy(Insert(x, s, le), le)
  {
    if s == [] {
    } else if le(x, s[0]) {
      InsertFront(x, s, le);
    } else {
      InsertCorrect(x, s[1..], le);
      InsertLater(x, s, le);
    }
  }

  /** x goes in front when it may precede the head. */
  lemma InsertFront<T(!new)>(x: T, s: seq<T>, le: (T, T) -> bool)
    requires TotalPreorder(le)
    requires SortedBy(s, le) && s != [] && le(x, s[0])
    ensures multiset(Insert(x, s, le)) == multiset(s) + multiset{x}
    ensures SortedBy(Insert(x, s, le), le)
  {
    forall k | 0 <= k < |s| ensures le(x, s[k]) {
      if k > 0 { assert le(s[0], s[k]); }
    }
    ConsSorted(x, s, le);
  }

  /** Otherwise the head stays in front of the tail with x inserted. */
  lemma InsertLater<T(!new)>(x: T, s: seq<T>, le: (T, T) -> bool)
    requires TotalPreorder(le)
    requires SortedBy(s, le) && s != [] && !le(x, s[0])
    requires multiset(Insert(x, s[1..], le)) == multiset(s[1..]) + multiset{x}
    requires SortedBy(Insert(x, s[1..], le), le)
    ensures multiset(Insert(x, s, le)) == multiset(s) + multiset{x}
    ensures SortedBy(Insert(x, s, le), le)
  {
    assert le(s[0], x);
    var tail := Insert(x, s[1..], le);
    assert s == [s[0]] + s[1..];
    HeadBelowAll(s, x, tail, le);
    ConsSorted(s[0], tail, le);
  }

  /** A sorted list stays sorted under a head that may precede all of it. */
  lemma ConsSorted<T>(h: T, s: seq<T>, le: (T, T) -> bool)
    requires SortedBy(s, le)
    requires forall k :: 0 <= k < |s| ==> le(h, s[k])
    ensures SortedBy([h] + s, le)
  {
    var r := [h] + s;
    forall i, j | 0 <= i < j < |r| ensures le(r[i], r[j]) {
      assert r[j] == s[j - 1];
      if i > 0 { assert r[i] == s[i - 1]; }
    }
  }

  /** The head of a sorted list may precede every element of the tail with x inserted. */
  lemma HeadBelowAll<T>(s: seq<T>, x: T, tail: seq<T>, le: (T, T) -> bool)
    requires s != [] && SortedBy(s, le) && le(s[0], x)
    requires multiset(tail) == multiset(s[1..]) + multiset{x}
    ensures forall k :: 0 <= k < |tail| ==> le(s[0], tail[k])
  {
    forall k | 0 <= k < |tail| ensures le(s[0], tail[k]) {
      assert tail[k] in multiset(tail);
      if tail[k] != x {
        assert tail[k] in multiset(s[1..]);
        var m :| 0 <= m < |s[1..]| && s[1..][m] == tail[k];
        assert s[m + 1] == tail[k];
      }
    }
  }

  /** The sort returns a permutation of its input in comparator order. */
  lemma {:induction false} SortByCorrect<T(!new)>(s: seq<T>, le: (T, T) -> bool)
    requires TotalPreorder(le)
    ensures multiset(SortBy(s, le)) == multiset(s)
    ensures SortedBy(SortBy(s, le), le)
  {
    if s != [] {
      SortByCorrect(s[1..], le);
      InsertCorrect(s[0], SortBy(s[1..], le), le);
      assert s == [s[0]] + s[1..];
    }
  }
  /** The sort keeps the length, whatever the comparator. */
  lemma {:induction false} SortByLength<T>(s: seq<T>, le: (T, T) -> bool)
    ensures |SortBy(s, le)| == |s|
  {
    if s != [] {
      SortByLength(s[1..], le);
      InsertLength(s[0], SortBy(s[1..], le), le);
    }
  }

  lemma {:induction false} InsertLength<T>(x: T, s: seq<T>, le: (T, T) -> bool)
    ensures |Insert(x, s, le)| == |s| + 1
  {
    if s != [] && !le(x, s[0]) {
      InsertLength(x, s[1..], le);
    }
  }
}
