/** The ordering the search endpoint obtains from `Array.prototype.sort`: a
    stable sort under a comparator that is a total preorder. `le(a, b)` means
    "a may stay ahead of b" (the comparator returns a value <= 0). */
module Ranking {

  ghost predicate Total<T(!new)>(le: (T, T) -> bool) {
    forall a, b :: le(a, b) || le(b, a)
  }

  ghost predicate Transitive<T(!new)>(le: (T, T) -> bool) {
    forall a, b, c :: le(a, b) && le(b, c) ==> le(a, c)
  }

  ghost predicate TotalPreorder<T(!new)>(le: (T, T) -> bool) {
    Total(le) && Transitive(le)
  }

  /** Every element may stay ahead of every later one. */
  predicate SortedBy<T>(s: seq<T>, le: (T, T) -> bool) {
    forall i, j :: 0 <= i < j < |s| ==> le(s[i], s[j])
  }

  predicate Equivalent<T>(le: (T, T) -> bool, a: T, b: T) {
    le(a, b) && le(b, a)
  }

  /** The elements of `s` that tie with `y`, in their order in `s`. */
  function TiesWith<T>(s: seq<T>, le: (T, T) -> bool, y: T): seq<T> {
    if s == [] then []
    else (if Equivalent(le, s[0], y) then [s[0]] else []) + TiesWith(s[1..], le, y)
  }

  /** Places `x` ahead of the first element it may precede. */
  function Insert<T>(x: T, t: seq<T>, le: (T, T) -> bool): (r: seq<T>)
    ensures multiset(r) == multiset(t) + multiset{x}
  {
    if t == [] || le(x, t[0]) then [x] + t
    else
      assert t == [t[0]] + t[1..];
      [t[0]] + Insert(x, t[1..], le)
  }

  /** Stable insertion sort: every element is inserted ahead of the equal
      elements that followed it in the input. */
  function SortBy<T>(s: seq<T>, le: (T, T) -> bool): (r: seq<T>)
    ensures multiset(r) == multiset(s)
  {
    if s == [] then []
    else
      assert s == [s[0]] + s[1..];
      Insert(s[0], SortBy(s[1..], le), le)
  }

  lemma {:induction false} InsertSorted<T(!new)>(x: T, t: seq<T>, le: (T, T) -> bool)
    requires TotalPreorder(le)
    requires SortedBy(t, le)
    ensures SortedBy(Insert(x, t, le), le)
  {
    if t == [] || le(x, t[0]) {
    } else {
      var tail := Insert(x, t[1..], le);
      InsertSorted(x, t[1..], le);
      assert le(t[0], x);
      forall z | z in tail
        ensures le(t[0], z)
      {
        assert z in multiset(tail);
        if z != x {
          assert z in multiset(t[1..]);
          var k :| 0 <= k < |t[1..]| && t[1..][k] == z;
          assert t[k + 1] == z;
        }
      }
      var r := [t[0]] + tail;
      forall i, j | 0 <= i < j < |r|
        ensures le(r[i], r[j])
      {
        if i == 0 {
          assert r[j] == tail[j - 1];
          assert r[j] in tail;
        } else {
          assert r[i] == tail[i - 1] && r[j] == tail[j - 1];
        }
      }
    }
  }

  /** The result of SortBy is ordered by `le`. */
  lemma {:induction false} SortBySorted<T(!new)>(s: seq<T>, le: (T, T) -> bool)
    requires TotalPreorder(le)
    ensures SortedBy(SortBy(s, le), le)
  {
    if s != [] {
      SortBySorted(s[1..], le);
      InsertSorted(s[0], SortBy(s[1..], le), le);
    }
  }

  /** Two elements, the first of which may not precede the second, cannot
      both tie with the same element. */
  lemma NotBothTie<T(!new)>(le: (T, T) -> bool, x: T, z: T, y: T)
    requires Transitive(le)
    requires !le(x, z)
    ensures Equivalent(le, x, y) ==> !Equivalent(le, z, y)
  {
    if Equivalent(le, x, y) && le(z, y) {
      assert le(y, z) ==> le(x, z);
    }
  }

  lemma TiesWithCons<T>(h: T, s: seq<T>, le: (T, T) -> bool, y: T)
    ensures TiesWith([h] + s, le, y) == (if Equivalent(le, h, y) then [h] else []) + TiesWith(s, le, y)
  {
    assert ([h] + s)[1..] == s;
  }

  lemma SwapEmpty<T>(a: seq<T>, b: seq<T>, c: seq<T>)
    requires a == [] || b == []
    ensures a + (b + c) == b + (a + c)
  {
  }

  lemma {:induction false} InsertTies<T(!new)>(x: T, t: seq<T>, le: (T, T) -> bool, y: T)
    requires Transitive(le)
    ensures TiesWith(Insert(x, t, le), le, y)
         == (if Equivalent(le, x, y) then [x] else []) + TiesWith(t, le, y)
  {
    if t == [] || le(x, t[0]) {
      TiesWithCons(x, t, le, y);
    } else {
      var tail := Insert(x, t[1..], le);
      assert Insert(x, t, le) == [t[0]] + tail;
      var headTie: seq<T> := if Equivalent(le, t[0], y) then [t[0]] else [];
      var xTie: seq<T> := if Equivalent(le, x, y) then [x] else [];
      var rest := TiesWith(t[1..], le, y);
      TiesWithCons(t[0], tail, le, y);
      InsertTies(x, t[1..], le, y);
      assert TiesWith(tail, le, y) == xTie + rest;
      assert t == [t[0]] + t[1..];
      TiesWithCons(t[0], t[1..], le, y);
      NotBothTie(le, x, t[0], y);
      SwapEmpty(headTie, xTie, rest);
    }
  }

  /** SortBy is stable: the elements tying with any `y` keep their order. */
  lemma {:induction false} SortByStable<T(!new)>(s: seq<T>, le: (T, T) -> bool, y: T)
    requires Transitive(le)
    ensures TiesWith(SortBy(s, le), le, y) == TiesWith(s, le, y)
  {
    if s != [] {
      SortByStable(s[1..], le, y);
      InsertTies(s[0], SortBy(s[1..], le), le, y);
    }
  }
}
