/**
 * `Array.prototype.sort(compare)`, which is stable: elements are ordered by
 * the comparator and elements the comparator calls equal keep their
 * original relative order.
 *
 * A comparator is represented by `lt`, where `lt(a, b)` means
 * `compare(a, b) < 0`, "a belongs before b". The comparators of this
 * application all induce a strict weak order.
 */
module StableSort {

  /** `lt` is asymmetric and its incomparability is transitive (negative transitivity). */
  ghost predicate StrictWeakOrder<T(!new)>(lt: (T, T) -> bool)
  {
    && (forall a, b :: lt(a, b) ==> !lt(b, a))
    && (forall a, b, c :: lt(a, c) ==> lt(a, b) || lt(b, c))
  }

  /** Neither element belongs before the other: the comparator returns 0. */
  predicate Equivalent<T>(a: T, b: T, lt: (T, T) -> bool)
  {
    !lt(a, b) && !lt(b, a)
  }

  /** No element belongs before an element that precedes it. */
  ghost predicate Sorted<T>(s: seq<T>, lt: (T, T) -> bool)
  {
    forall i, j :: 0 <= i < j < |s| ==> !lt(s[j], s[i])
  }

  /** The elements of `s` equivalent to `k`, in their order in `s`. */
  function ClassOf<T>(s: seq<T>, k: T, lt: (T, T) -> bool): seq<T>
  {
    if s == [] then []
    else (if Equivalent(s[0], k, lt) then [s[0]] else []) + ClassOf(s[1..], k, lt)
  }

  /**
   * The stable-sort contract: `r` is sorted and, for every class of
   * equivalent elements, lists that class exactly as `s` does.
   */
  ghost predicate IsStableSortOf<T(!new)>(r: seq<T>, s: seq<T>, lt: (T, T) -> bool)
  {
    && Sorted(r, lt)
    && multiset(r) == multiset(s)
    && forall k :: ClassOf(r, k, lt) == ClassOf(s, k, lt)
  }

  /** `x` placed after every element it does not belong before. */
  function Insert<T>(x: T, s: seq<T>, lt: (T, T) -> bool): seq<T>
  {
    if s == [] then [x]
    else if lt(x, s[0]) then [x] + s
    else [s[0]] + Insert(x, s[1..], lt)
  }

  /** Insertion sort, adding the elements from first to last. */
  function Sort<T>(s: seq<T>, lt: (T, T) -> bool): seq<T>
    decreases |s|
  {
    if s == [] then [] else Insert(s[|s| - 1], Sort(s[..|s| - 1], lt), lt)
  }

  // ---------------------------------------------------------------------------
  // Facts about Insert

  lemma {:induction false} InsertMultiset<T>(x: T, s: seq<T>, lt: (T, T) -> bool)
    ensures multiset(Insert(x, s, lt)) == multiset(s) + multiset{x}
    decreases |s|
  {
    if s != [] && !lt(x, s[0]) {
      InsertMultiset(x, s[1..], lt);
      assert s == [s[0]] + s[1..];
    }
  }

  lemma {:induction false} InsertSorted<T(!new)>(x: T, s: seq<T>, lt: (T, T) -> bool)
    requires StrictWeakOrder(lt)
    requires Sorted(s, lt)
    ensures Sorted(Insert(x, s, lt), lt)
    decreases |s|
  {
    if s == [] {
    } else if lt(x, s[0]) {
      var r := [x] + s;
      forall i, j | 0 <= i < j < |r| ensures !lt(r[j], r[i]) {
        if i == 0 && j > 1 {
          assert !lt(s[j - 1], s[0]);
        }
      }
    } else {
      var t := Insert(x, s[1..], lt);
      InsertSorted(x, s[1..], lt);
      InsertMultiset(x, s[1..], lt);
      var r := [s[0]] + t;
      forall i, j | 0 <= i < j < |r| ensures !lt(r[j], r[i]) {
        if i == 0 {
          assert r[j] in multiset(t);
          assert r[j] in multiset(s[1..]) || r[j] == x;
          if r[j] != x {
            var m :| 0 <= m < |s[1..]| && s[1..][m] == r[j];
            assert s[m + 1] == r[j];
          }
        } else {
          assert r[j] == t[j - 1] && r[i] == t[i - 1];
        }
      }
    }
  }

  /** If nothing in `s` is equivalent to `k`, the class of `k` in `s` is empty. */
  lemma {:induction false} ClassOfNone<T>(s: seq<T>, k: T, lt: (T, T) -> bool)
    requires forall i :: 0 <= i < |s| ==> !Equivalent(s[i], k, lt)
    ensures ClassOf(s, k, lt) == []
    decreases |s|
  {
    if s != [] {
      ClassOfNone(s[1..], k, lt);
    }
  }

  lemma {:induction false} ClassOfAppend<T>(s: seq<T>, t: seq<T>, k: T, lt: (T, T) -> bool)
    ensures ClassOf(s + t, k, lt) == ClassOf(s, k, lt) + ClassOf(t, k, lt)
    decreases |s|
  {
    if s != [] {
      assert (s + t)[1..] == s[1..] + t;
      ClassOfAppend(s[1..], t, k, lt);
    } else {
      assert s + t == t;
    }
  }

  /** Nothing in a sorted sequence that `x` belongs before is equivalent to `x`'s class. */
  lemma ClassAfterSmallerEmpty<T(!new)>(x: T, s: seq<T>, k: T, lt: (T, T) -> bool)
    requires StrictWeakOrder(lt)
    requires Sorted(s, lt)
    requires s != [] && lt(x, s[0])
    requires Equivalent(x, k, lt)
    ensures ClassOf(s, k, lt) == []
  {
    forall i | 0 <= i < |s| ensures !Equivalent(s[i], k, lt) {
      assert lt(x, s[i]) by {
        if i > 0 {
          assert !lt(s[i], s[0]);
        }
      }
      assert lt(k, s[i]);
    }
    ClassOfNone(s, k, lt);
  }

  /** Inserting into a sorted sequence adds `x` at the END of its class. */
  lemma {:induction false} ClassOfInsert<T(!new)>(x: T, s: seq<T>, k: T, lt: (T, T) -> bool)
    requires StrictWeakOrder(lt)
    requires Sorted(s, lt)
    ensures ClassOf(Insert(x, s, lt), k, lt)
         == ClassOf(s, k, lt) + (if Equivalent(x, k, lt) then [x] else [])
    decreases |s|
  {
    if s == [] {
    } else if lt(x, s[0]) {
      assert ClassOf([x] + s, k, lt) == (if Equivalent(x, k, lt) then [x] else []) + ClassOf(s, k, lt) by {
        assert ([x] + s)[1..] == s;
      }
      if Equivalent(x, k, lt) {
        ClassAfterSmallerEmpty(x, s, k, lt);
      }
    } else {
      ClassOfInsert(x, s[1..], k, lt);
      assert ([s[0]] + Insert(x, s[1..], lt))[1..] == Insert(x, s[1..], lt);
    }
  }

  /**
   * In a sorted sequence, `x` goes at the position `j` where the elements
   * `x` belongs before begin; this is where the in-place loop stops.
   */
  lemma {:induction false} InsertAt<T(!new)>(x: T, s: seq<T>, j: nat, lt: (T, T) -> bool)
    requires StrictWeakOrder(lt)
    requires Sorted(s, lt)
    requires j <= |s|
    requires forall m :: j <= m < |s| ==> lt(x, s[m])
    requires j > 0 ==> !lt(x, s[j - 1])
    ensures Insert(x, s, lt) == s[..j] + [x] + s[j..]
    decreases |s|
  {
    if j == 0 {
      assert s[..0] + [x] + s[0..] == [x] + s;
    } else {
      assert !lt(x, s[0]) by {
        if j - 1 > 0 {
          assert !lt(s[j - 1], s[0]);
        }
      }
      InsertAt(x, s[1..], j - 1, lt);
      assert s[..j] + [x] + s[j..] == [s[0]] + (s[1..][..j - 1] + [x] + s[1..][j - 1..]);
    }
  }

  // ---------------------------------------------------------------------------
  // The sort meets the stable-sort contract

  /** Insertion sort is a stable sort: sorted, a permutation, every class in its original order. */
  lemma {:induction false} SortIsStable<T(!new)>(s: seq<T>, lt: (T, T) -> bool)
    requires StrictWeakOrder(lt)
    ensures IsStableSortOf(Sort(s, lt), s, lt)
    decreases |s|
  {
    if s != [] {
      var init, last := s[..|s| - 1], s[|s| - 1];
      assert s == init + [last];
      SortIsStable(init, lt);
      var t := Sort(init, lt);
      InsertSorted(last, t, lt);
      InsertMultiset(last, t, lt);
      forall k ensures ClassOf(Sort(s, lt), k, lt) == ClassOf(s, k, lt) {
        ClassOfInsert(last, t, k, lt);
        ClassOfAppend(init, [last], k, lt);
        assert ClassOf([last], k, lt) == if Equivalent(last, k, lt) then [last] else [];
      }
    }
  }

  /** The length is kept. */
  lemma SortLength<T(!new)>(s: seq<T>, lt: (T, T) -> bool)
    requires StrictWeakOrder(lt)
    ensures |Sort(s, lt)| == |s|
  {
    SortIsStable(s, lt);
    assert |multiset(Sort(s, lt))| == |multiset(s)|;
  }

  // ---------------------------------------------------------------------------
  // The in-place algorithm

  /**
   * Sorts `a` in place by insertion: each element in turn is shifted left
   * past the elements it belongs before. Its result is `Sort` of the old
   * contents, a stable sort (SortIsStable).
   */
  method SortInPlace<T(!new)>(a: array<T>, lt: (T, T) -> bool)
    requires StrictWeakOrder(lt)
    modifies a
    ensures a[..] == Sort(old(a[..]), lt)
    ensures IsStableSortOf(a[..], old(a[..]), lt)
  {
    ghost var original := a[..];
    var i := 0;
    while i < a.Length
      invariant 0 <= i <= a.Length
      invariant a[..i] == Sort(original[..i], lt)
      invariant a[i..] == original[i..]
    {
      SortIsStable(original[..i], lt);
      InsertLast(a, i, lt);
      assert original[..i + 1][..i] == original[..i];
      assert a[i + 1..] == original[i + 1..];
      i := i + 1;
    }
    assert original[..a.Length] == original;
    SortIsStable(original, lt);
  }

  /** One step of SortInPlace: moves `a[i]` into place within the sorted prefix `a[..i]`. */
  method InsertLast<T(!new)>(a: array<T>, i: nat, lt: (T, T) -> bool)
    requires StrictWeakOrder(lt)
    requires i < a.Length
    requires Sorted(a[..i], lt)
    modifies a
    ensures a[..i + 1] == Insert(old(a[i]), old(a[..i]), lt)
    ensures a[i + 1..] == old(a[i + 1..])
  {
    var x := a[i];
    ghost var sorted := a[..i];
    var j := ShiftRight(a, i, x, lt);
    a[j] := x;
    InsertAt(x, sorted, j, lt);
    ghost var placed := sorted[..j] + [x] + sorted[j..];
    forall m | 0 <= m <= i ensures a[m] == placed[m] {
      if m < j {
        assert placed[m] == sorted[m];
      } else if j < m {
        assert placed[m] == sorted[m - 1];
      }
    }
    assert a[..i + 1] == placed;
  }

  /**
   * Shifts one place right the elements at the end of `a[..i]` that `x`
   * belongs before, and returns the position they leave free.
   */
  method ShiftRight<T>(a: array<T>, i: nat, x: T, lt: (T, T) -> bool) returns (j: nat)
    requires i < a.Length
    modifies a
    ensures j <= i
    ensures forall m :: 0 <= m < j ==> a[m] == old(a[m])
    ensures forall m :: j < m <= i ==> a[m] == old(a[m - 1])
    ensures forall m :: i < m < a.Length ==> a[m] == old(a[m])
    ensures forall m :: j <= m < i ==> lt(x, old(a[m]))
    ensures j > 0 ==> !lt(x, old(a[j - 1]))
  {
    j := i;
    while j > 0 && lt(x, a[j - 1])
      invariant j <= i
      invariant forall m :: 0 <= m < j ==> a[m] == old(a[m])
      invariant forall m :: j < m <= i ==> a[m] == old(a[m - 1])
      invariant forall m :: i < m < a.Length ==> a[m] == old(a[m])
      invariant forall m :: j <= m < i ==> lt(x, old(a[m]))
    {
      a[j] := a[j - 1];
      j := j - 1;
    }
  }
}
