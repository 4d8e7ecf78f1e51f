/**
 * Array.prototype.sort with a comparator, as the view functions use it. Since ECMAScript 2019 the sort
 * is stable, so with a consistent comparator its result is the one a stable insertion sort gives:
 * elements the comparator ranks equal keep their input order. `le(a, b)` stands for `compare(a, b) <= 0`.
 */
module Sorting {

  /** The comparator describes a total preorder, as Array.prototype.sort requires of a consistent comparator. */
  ghost predicate TotalPreorder<T(!new)>(le: (T, T) -> bool) {
    && (forall a, b :: le(a, b) || le(b, a))
    && (forall a, b, c :: le(a, b) && le(b, c) ==> le(a, c))
  }

  ghost predicate Sorted<T>(s: seq<T>, le: (T, T) -> bool) {
    forall i, j :: 0 <= i < j < |s| ==> le(s[i], s[j])
  }

  /** Inserts x after every leading element that is not greater than it (which keeps the sort stable). */
  function Insert<T>(x: T, s: seq<T>, le: (T, T) -> bool): (r: seq<T>)
    ensures multiset(r) == multiset(s) + multiset{x}
  {
    if s == [] then [x]
    else if le(s[0], x) then
      assert s == [s[0]] + s[1..];
      [s[0]] + Insert(x, s[1..], le)
    else [x] + s
  }

  /** The stable sort: each element in input order is inserted into the sorted prefix before it. */
  function Sort<T>(s: seq<T>, le: (T, T) -> bool): (r: seq<T>)
    ensures multiset(r) == multiset(s)
    ensures |r| == |s|
  {
    if s == [] then []
    else
      assert s == s[..|s| - 1] + [s[|s| - 1]];
      var r := Insert(s[|s| - 1], Sort(s[..|s| - 1], le), le);
      assert |r| == |multiset(r)|;
      r
  }

  lemma {:induction false} InsertSorted<T(!new)>(x: T, s: seq<T>, le: (T, T) -> bool)
    requires TotalPreorder(le)
    requires Sorted(s, le)
    ensures Sorted(Insert(x, s, le), le)
  {
    if s == [] {
    } else if le(s[0], x) {
      var t := Insert(x, s[1..], le);
      assert Sorted(s[1..], le);
      InsertSorted(x, s[1..], le);
      forall k | 0 <= k < |t| ensures le(s[0], t[k]) {
        assert t[k] in multiset(t);
        assert t[k] in multiset(s[1..]) || t[k] == x;
        if t[k] != x {
          var m :| 0 <= m < |s[1..]| && s[1..][m] == t[k];
          assert s[m + 1] == t[k];
        }
      }
      ConsSorted(s[0], t, le);
    } else {
      assert le(x, s[0]);
      forall k | 0 <= k < |s| ensures le(x, s[k]) {
        if k > 0 {
          assert le(s[0], s[k]);
        }
      }
      ConsSorted(x, s, le);
    }
  }

  /** An element that precedes every element of a sorted list can be put in front of it. */
  lemma ConsSorted<T>(a: T, t: seq<T>, le: (T, T) -> bool)
    requires Sorted(t, le)
    requires forall k :: 0 <= k < |t| ==> le(a, t[k])
    ensures Sorted([a] + t, le)
  {
    var r := [a] + t;
    forall i, j | 0 <= i < j < |r| ensures le(r[i], r[j]) {
      assert r[j] == t[j - 1];
      if i > 0 {
        assert r[i] == t[i - 1];
      }
    }
  }

  lemma {:induction false} SortSorted<T(!new)>(s: seq<T>, le: (T, T) -> bool)
    requires TotalPreorder(le)
    ensures Sorted(Sort(s, le), le)
  {
    if s != [] {
      SortSorted(s[..|s| - 1], le);
      InsertSorted(s[|s| - 1], Sort(s[..|s| - 1], le), le);
    }
  }

  /** Every element of the sorted result comes from the input and vice versa. */
  lemma SortMembers<T>(s: seq<T>, le: (T, T) -> bool)
    ensures forall x :: x in Sort(s, le) <==> x in s
  {
    var r := Sort(s, le);
    forall x ensures x in r <==> x in s {
      assert x in r <==> x in multiset(r);
      assert x in s <==> x in multiset(s);
    }
  }

  /** The elements of s the comparator ranks equal to x, in their order in s. */
  function Tied<T>(s: seq<T>, x: T, le: (T, T) -> bool): seq<T> {
    if s == [] then []
    else (if le(x, s[0]) && le(s[0], x) then [s[0]] else []) + Tied(s[1..], x, le)
  }

  lemma {:induction false} TiedAppend<T>(a: seq<T>, b: seq<T>, x: T, le: (T, T) -> bool)
    ensures Tied(a + b, x, le) == Tied(a, x, le) + Tied(b, x, le)
  {
    if a != [] {
      assert (a + b)[0] == a[0];
      assert (a + b)[1..] == a[1..] + b;
      TiedAppend(a[1..], b, x, le);
    } else {
      assert a + b == b;
    }
  }

  lemma {:induction false} TiedNone<T>(s: seq<T>, x: T, le: (T, T) -> bool)
    requires forall k :: 0 <= k < |s| ==> !(le(x, s[k]) && le(s[k], x))
    ensures Tied(s, x, le) == []
  {
    if s != [] {
      TiedNone(s[1..], x, le);
    }
  }

  /** No element of a sorted list that starts above y is ranked equal to y. */
  lemma AboveNotTied<T(!new)>(y: T, s: seq<T>, x: T, le: (T, T) -> bool)
    requires TotalPreorder(le)
    requires Sorted(s, le)
    requires s != [] && !le(s[0], y)
    requires le(x, y) && le(y, x)
    ensures Tied(s, x, le) == []
  {
    forall k | 0 <= k < |s| ensures !(le(x, s[k]) && le(s[k], x)) {
      if k > 0 {
        assert le(s[0], s[k]);
      }
      assert !le(s[k], y);
    }
    TiedNone(s, x, le);
  }

  /** Inserting y into a sorted list puts it after every element ranked equal to it. */
  lemma {:induction false} InsertTied<T(!new)>(y: T, s: seq<T>, x: T, le: (T, T) -> bool)
    requires TotalPreorder(le)
    requires Sorted(s, le)
    ensures Tied(Insert(y, s, le), x, le) == Tied(s, x, le) + Tied([y], x, le)
  {
    if s == [] {
      assert [y] + [] == [y];
    } else if le(s[0], y) {
      assert Sorted(s[1..], le);
      InsertTied(y, s[1..], x, le);
      assert s == [s[0]] + s[1..];
      TiedAppend([s[0]], s[1..], x, le);
      TiedAppend([s[0]], Insert(y, s[1..], le), x, le);
    } else {
      TiedAppend([y], s, x, le);
      if le(x, y) && le(y, x) {
        AboveNotTied(y, s, x, le);
      } else {
        assert Tied([y], x, le) == [] by {
          assert [y][1..] == [];
        }
      }
    }
  }

  lemma SortLast<T>(s: seq<T>, le: (T, T) -> bool)
    requires s != []
    ensures Sort(s, le) == Insert(s[|s| - 1], Sort(s[..|s| - 1], le), le)
  {
  }

  lemma TiedLast<T>(s: seq<T>, x: T, le: (T, T) -> bool)
    requires s != []
    ensures Tied(s, x, le) == Tied(s[..|s| - 1], x, le) + Tied([s[|s| - 1]], x, le)
  {
    TiedAppend(s[..|s| - 1], [s[|s| - 1]], x, le);
    assert s == s[..|s| - 1] + [s[|s| - 1]];
  }

  /**
   * Stability: for every x, the elements ranked equal to x appear in the sorted result in the same
   * order as in the input.
   */
  lemma {:induction false} SortStable<T(!new)>(s: seq<T>, x: T, le: (T, T) -> bool)
    requires TotalPreorder(le)
    ensures Tied(Sort(s, le), x, le) == Tied(s, x, le)
  {
    if s != [] {
      var init, last := s[..|s| - 1], s[|s| - 1];
      SortLast(s, le);
      SortStable(init, x, le);
      SortSorted(init, le);
      InsertTied(last, Sort(init, le), x, le);
      TiedLast(s, x, le);
    }
  }
}
