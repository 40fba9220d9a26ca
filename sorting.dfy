/**
 * A stable insertion sort by a comparison `le` ("may come before"). It is the
 * reference definition of `Array.prototype.sort` with a consistent
 * comparator, which is stable, and one of the orders `ORDER BY` may return:
 * the database leaves the order of ties open.
 */
module Sorting {

  import opened Seqs

  ghost predicate Total<T(!new)>(le: (T, T) -> bool) {
    forall a, b :: le(a, b) || le(b, a)
  }

  ghost predicate Transitive<T(!new)>(le: (T, T) -> bool) {
    forall a, b, c :: le(a, b) && le(b, c) ==> le(a, c)
  }

  /** Every element may come before every later one. */
  predicate SortedBy<T>(s: seq<T>, le: (T, T) -> bool) {
    forall i, j :: 0 <= i < j < |s| ==> le(s[i], s[j])
  }

  /** Puts `x` in front of the first element it may come before. */
  function Insert<T>(x: T, s: seq<T>, le: (T, T) -> bool): (r: seq<T>)
    ensures multiset(r) == multiset(s) + multiset{x}
    ensures |r| == |s| + 1
  {
    if s == [] then [x]
    else if le(x, s[0]) then [x] + s
    else
      assert s == [s[0]] + s[1..];
      [s[0]] + Insert(x, s[1..], le)
  }

  /** Inserting into a sorted sequence keeps it sorted. */
  lemma {:induction false} InsertSorted<T(!new)>(x: T, s: seq<T>, le: (T, T) -> bool)
    requires Total(le) && Transitive(le)
    requires SortedBy(s, le)
    ensures SortedBy(Insert(x, s, le), le)
    decreases |s|
  {
    if s == [] {
    } else if le(x, s[0]) {
      var r := [x] + s;
      forall i, j | 0 <= i < j < |r| ensures le(r[i], r[j]) {
        if i == 0 {
          assert le(s[0], s[j - 1]) || j == 1;
        }
      }
    } else {
      var tail := s[1..];
      assert le(s[0], x);
      InsertSorted(x, tail, le);
      var rest := Insert(x, tail, le);
      forall k | 0 <= k < |rest| ensures le(s[0], rest[k]) {
        assert rest[k] in multiset(rest);
        if rest[k] != x {
          assert rest[k] in multiset(tail);
          var j :| 0 <= j < |tail| && tail[j] == rest[k];
          assert tail[j] == s[j + 1];
        }
      }
      var r := [s[0]] + rest;
      forall i, j | 0 <= i < j < |r| ensures le(r[i], r[j]) {
        assert r[j] == rest[j - 1];
        if i > 0 {
          assert r[i] == rest[i - 1];
        }
      }
    }
  }

  /** The elements of `s`, reordered so that the result is sorted by `le`. */
  function SortBy<T(!new)>(s: seq<T>, le: (T, T) -> bool): (r: seq<T>)
    requires Total(le) && Transitive(le)
    ensures multiset(r) == multiset(s)
    ensures |r| == |s|
    ensures SortedBy(r, le)
  {
    if s == [] then []
    else
      assert s == [s[0]] + s[1..];
      InsertSorted(s[0], SortBy(s[1..], le), le);
      Insert(s[0], SortBy(s[1..], le), le)
  }

  /**
   * Inserting `x` keeps the order within the class of elements equivalent to
   * `e`: `x` lands in front of every element of its own class.
   */
  lemma {:induction false} InsertKeepsClass<T(!new)>(x: T, s: seq<T>, le: (T, T) -> bool, e: T, same: T -> bool)
    requires Transitive(le)
    requires forall y :: same(y) <==> le(y, e) && le(e, y)
    ensures Filter(Insert(x, s, le), same) == if same(x) then [x] + Filter(s, same) else Filter(s, same)
    decreases |s|
  {
    if s == [] {
      assert Insert(x, s, le) == [x];
      assert [x][1..] == [];
    } else if le(x, s[0]) {
      var r := [x] + s;
      assert r[0] == x && r[1..] == s;
    } else {
      InsertKeepsClass(x, s[1..], le, e, same);
      var r := [s[0]] + Insert(x, s[1..], le);
      assert r[0] == s[0] && r[1..] == Insert(x, s[1..], le);
      if same(x) && same(s[0]) {
        assert false;
      }
    }
  }

  /**
   * The sort is stable: the elements equivalent to `e` come out in the order
   * they went in.
   */
  lemma {:induction false} SortByStable<T(!new)>(s: seq<T>, le: (T, T) -> bool, e: T, same: T -> bool)
    requires Total(le) && Transitive(le)
    requires forall y :: same(y) <==> le(y, e) && le(e, y)
    ensures Filter(SortBy(s, le), same) == Filter(s, same)
    decreases |s|
  {
    if s != [] {
      SortByStable(s[1..], le, e, same);
      InsertKeepsClass(s[0], SortBy(s[1..], le), le, e, same);
    }
  }
}
