/** `Array.prototype.sort`, which is stable: an insertion sort that keeps
    elements the order ranks equal in their original order. */
module Sorting {
  import opened Seqs

  /** `le(a, b)`: `a` may stand before `b`. A comparator must make this a
      total preorder. */
  ghost predicate TotalPreorder<T(!new)>(le: (T, T) -> bool) {
    (forall a, b :: le(a, b) || le(b, a)) &&
    (forall a, b, c :: le(a, b) && le(b, c) ==> le(a, c))
  }

  predicate SortedBy<T>(s: seq<T>, le: (T, T) -> bool) {
    forall i, j :: 0 <= i < j < |s| ==> le(s[i], s[j])
  }

  /** Puts `x` after every element of `r` that may stand before it. */
  function Insert<T>(r: seq<T>, x: T, le: (T, T) -> bool): (r': seq<T>)
    ensures multiset(r') == multiset(r) + multiset{x}
    ensures |r'| == |r| + 1
  {
    if r == [] then [x]
    else if !le(r[0], x) then [x] + r
    else
      assert r == [r[0]] + r[1..];
      [r[0]] + Insert(r[1..], x, le)
  }

  lemma {:induction false} InsertSorted<T(!new)>(r: seq<T>, x: T, le: (T, T) -> bool)
    requires TotalPreorder(le)
    requires SortedBy(r, le)
    ensures SortedBy(Insert(r, x, le), le)
  {
    if r != [] {
      if !le(r[0], x) {
        assert le(x, r[0]);
      } else {
        var tail := Insert(r[1..], x, le);
        InsertSorted(r[1..], x, le);
        forall y | y in tail ensures le(r[0], y) {
          assert y in multiset(tail);
          assert y in r[1..] || y == x;
        }
      }
    }
  }

  /** The sorted copy: `s` ordered by `le`, a permutation of `s`. */
  function SortBy<T(!new)>(s: seq<T>, le: (T, T) -> bool): (r: seq<T>)
    requires TotalPreorder(le)
    ensures SortedBy(r, le)
    ensures multiset(r) == multiset(s)
    ensures |r| == |s|
  {
    if s == [] then []
    else
      var r := SortBy(s[..|s| - 1], le);
      InsertSorted(r, s[|s| - 1], le);
      assert s == s[..|s| - 1] + [s[|s| - 1]];
      Insert(r, s[|s| - 1], le)
  }

  /** The elements that `le` ranks alike with `e`. */
  function RanksAlike<T>(le: (T, T) -> bool, e: T): T -> bool {
    y => le(y, e) && le(e, y)
  }

  /** When `x` ranks strictly before all of `r`, nothing in `r` ranks alike
      with `x`. */
  lemma NoneAlikeAfter<T(!new)>(r: seq<T>, x: T, le: (T, T) -> bool, e: T)
    requires TotalPreorder(le)
    requires SortedBy(r, le)
    requires r != [] && !le(r[0], x)
    requires RanksAlike(le, e)(x)
    ensures Keep(r, RanksAlike(le, e)) == []
  {
    var alike := RanksAlike(le, e);
    forall y | y in r ensures !alike(y) {
      var i :| 0 <= i < |r| && r[i] == y;
      assert i == 0 || le(r[0], y);
    }
  }

  lemma FrontInsertStable<T(!new)>(r: seq<T>, x: T, le: (T, T) -> bool, e: T)
    requires TotalPreorder(le)
    requires SortedBy(r, le)
    requires r != [] && !le(r[0], x)
    ensures Keep([x] + r, RanksAlike(le, e)) ==
            Keep(r, RanksAlike(le, e)) + Keep([x], RanksAlike(le, e))
  {
    var alike := RanksAlike(le, e);
    KeepAppend([x], r, alike);
    if alike(x) {
      NoneAlikeAfter(r, x, le, e);
    } else {
      assert Keep([x], alike) == [];
    }
  }

  lemma {:induction false} InsertStable<T(!new)>(r: seq<T>, x: T, le: (T, T) -> bool, e: T)
    requires TotalPreorder(le)
    requires SortedBy(r, le)
    ensures Keep(Insert(r, x, le), RanksAlike(le, e)) ==
            Keep(r, RanksAlike(le, e)) + Keep([x], RanksAlike(le, e))
  {
    var alike := RanksAlike(le, e);
    if r == [] {
      assert [] + [x] == [x];
    } else if !le(r[0], x) {
      FrontInsertStable(r, x, le, e);
    } else {
      assert r == [r[0]] + r[1..];
      calc {
        Keep(Insert(r, x, le), alike);
        Keep([r[0]] + Insert(r[1..], x, le), alike);
        { KeepAppend([r[0]], Insert(r[1..], x, le), alike); }
        Keep([r[0]], alike) + Keep(Insert(r[1..], x, le), alike);
        { InsertStable(r[1..], x, le, e); }
        Keep([r[0]], alike) + (Keep(r[1..], alike) + Keep([x], alike));
        { KeepAppend([r[0]], r[1..], alike); }
        Keep(r, alike) + Keep([x], alike);
      }
    }
  }

  /** The sort is stable: elements ranked alike appear in their input order. */
  lemma {:induction false} SortByStable<T(!new)>(s: seq<T>, le: (T, T) -> bool, e: T)
    requires TotalPreorder(le)
    ensures Keep(SortBy(s, le), RanksAlike(le, e)) == Keep(s, RanksAlike(le, e))
  {
    if s != [] {
      var init, last := s[..|s| - 1], s[|s| - 1];
      var alike := RanksAlike(le, e);
      assert s == init + [last];
      calc {
        Keep(SortBy(s, le), alike);
        Keep(Insert(SortBy(init, le), last, le), alike);
        { InsertStable(SortBy(init, le), last, le, e); }
        Keep(SortBy(init, le), alike) + Keep([last], alike);
        { SortByStable(init, le, e); }
        Keep(init, alike) + Keep([last], alike);
        { KeepAppend(init, [last], alike); }
        Keep(s, alike);
      }
    }
  }
}
