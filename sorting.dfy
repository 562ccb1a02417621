/** Python's `sorted(xs, key=...)`: a stable sort under a total preorder on
    the elements (their keys compared with `<=`). It is specified here by a
    reference insertion sort and the properties proved about it: the result
    is ordered, a permutation of the input, keeps elements with equal keys
    in their input order, and sorting again changes nothing. */
module Sorting {

  ghost predicate Total<T(!new)>(leq: (T, T) -> bool) {
    forall a, b :: leq(a, b) || leq(b, a)
  }

  ghost predicate Transitive<T(!new)>(leq: (T, T) -> bool) {
    forall a, b, c :: leq(a, b) && leq(b, c) ==> leq(a, c)
  }

  ghost predicate TotalPreorder<T(!new)>(leq: (T, T) -> bool) {
    Total(leq) && Transitive(leq)
  }

  ghost predicate Sorted<T>(s: seq<T>, leq: (T, T) -> bool) {
    forall i, j :: 0 <= i < j < |s| ==> leq(s[i], s[j])
  }

  /** `a` and `b` have equal keys. */
  predicate Equiv<T>(a: T, b: T, leq: (T, T) -> bool) {
    leq(a, b) && leq(b, a)
  }

  /** The elements of `s` whose key equals that of `y`, in their order in `s`. */
  function Class<T>(s: seq<T>, y: T, leq: (T, T) -> bool): seq<T> {
    if s == [] then []
    else (if Equiv(s[0], y, leq) then [s[0]] else []) + Class(s[1..], y, leq)
  }

  /** Cutting a list cuts each class: the class of a prefix is a prefix of
      the class. */
  lemma {:induction false} ClassOfPrefix<T>(s: seq<T>, k: nat, y: T, leq: (T, T) -> bool)
    requires k <= |s|
    ensures Class(s[..k], y, leq) <= Class(s, y, leq)
    decreases k
  {
    if k > 0 {
      ClassOfPrefix(s[1..], k - 1, y, leq);
      assert s[..k][0] == s[0] && s[..k][1..] == s[1..][..k - 1];
    }
  }

  /** Puts `x` before the first element that is not below it. */
  function Insert<T>(x: T, s: seq<T>, leq: (T, T) -> bool): seq<T>
  {
    if s == [] then [x]
    else if leq(x, s[0]) then [x] + s
    else [s[0]] + Insert(x, s[1..], leq)
  }

  /** The stable sort: each element goes in front of the ones after it that
      share its key. */
  function Sort<T>(xs: seq<T>, leq: (T, T) -> bool): seq<T>
  {
    if xs == [] then []
    else Insert(xs[0], Sort(xs[1..], leq), leq)
  }

  /** Insertion adds exactly the one element. */
  lemma {:induction false} InsertPermutes<T>(x: T, s: seq<T>, leq: (T, T) -> bool)
    ensures multiset(Insert(x, s, leq)) == multiset(s) + multiset{x}
    decreases |s|
  {
    if s != [] && !leq(x, s[0]) {
      InsertPermutes(x, s[1..], leq);
      assert s == [s[0]] + s[1..];
    }
  }

  lemma {:induction false} InsertSorted<T(!new)>(x: T, s: seq<T>, leq: (T, T) -> bool)
    requires TotalPreorder(leq) && Sorted(s, leq)
    ensures Sorted(Insert(x, s, leq), leq)
    ensures Insert(x, s, leq) != [] && (s != [] ==> Insert(x, s, leq)[0] == x || Insert(x, s, leq)[0] == s[0])
  {
    if s == [] {
    } else if leq(x, s[0]) {
      ConsSorted(x, s, leq);
    } else {
      SortedTail(s, leq);
      InsertSorted(x, s[1..], leq);
      var t := Insert(x, s[1..], leq);
      assert leq(s[0], x);
      assert leq(s[0], t[0]) by {
        if |s| > 1 {
          assert leq(s[0], s[1]);
        }
      }
      ConsSorted(s[0], t, leq);
    }
  }

  lemma SortedTail<T>(s: seq<T>, leq: (T, T) -> bool)
    requires s != [] && Sorted(s, leq)
    ensures Sorted(s[1..], leq)
  {
    forall i, j | 0 <= i < j < |s| - 1 ensures leq(s[1..][i], s[1..][j]) {
      assert s[1..][i] == s[i + 1] && s[1..][j] == s[j + 1];
    }
  }

  /** A head below the first element of an ordered tail keeps it ordered. */
  lemma ConsSorted<T(!new)>(h: T, t: seq<T>, leq: (T, T) -> bool)
    requires Transitive(leq) && Sorted(t, leq)
    requires t != [] ==> leq(h, t[0])
    ensures Sorted([h] + t, leq)
  {
    var r := [h] + t;
    forall i, j | 0 <= i < j < |r| ensures leq(r[i], r[j]) {
      if i == 0 {
        if j > 1 {
          assert leq(t[0], t[j - 1]);
        }
      } else {
        assert r[i] == t[i - 1] && r[j] == t[j - 1];
      }
    }
  }

  /** The result is ordered and a permutation of the input. */
  lemma {:induction false} SortIsOrderedPermutation<T(!new)>(xs: seq<T>, leq: (T, T) -> bool)
    requires TotalPreorder(leq)
    ensures Sorted(Sort(xs, leq), leq)
    ensures multiset(Sort(xs, leq)) == multiset(xs)
  {
    if xs != [] {
      SortIsOrderedPermutation(xs[1..], leq);
      InsertSorted(xs[0], Sort(xs[1..], leq), leq);
      InsertPermutes(xs[0], Sort(xs[1..], leq), leq);
      assert xs == [xs[0]] + xs[1..];
    }
  }

  lemma {:induction false} ClassConcat<T>(a: seq<T>, b: seq<T>, y: T, leq: (T, T) -> bool)
    ensures Class(a + b, y, leq) == Class(a, y, leq) + Class(b, y, leq)
  {
    if a == [] {
      assert a + b == b;
    } else {
      ClassConcat(a[1..], b, y, leq);
      assert a + b == [a[0]] + (a[1..] + b);
      ClassCons(a[0], a[1..] + b, y, leq);
      assert a == [a[0]] + a[1..];
      ClassCons(a[0], a[1..], y, leq);
    }
  }

  /** Insertion passes over elements strictly below `x` only, so none of
      them shares a key with `x`. */
  lemma {:induction false} InsertClass<T(!new)>(x: T, s: seq<T>, y: T, leq: (T, T) -> bool)
    requires Equiv(x, y, leq) ==> BelowOnlyOthers(x, y, leq)
    ensures Class(Insert(x, s, leq), y, leq) ==
            (if Equiv(x, y, leq) then [x] else []) + Class(s, y, leq)
  {
    if s == [] {
    } else if leq(x, s[0]) {
      ClassCons(x, s, y, leq);
    } else {
      var t := Insert(x, s[1..], leq);
      assert Insert(x, s, leq) == [s[0]] + t;
      var e := if Equiv(x, y, leq) then [x] else [];
      var c0 := if Equiv(s[0], y, leq) then [s[0]] else [];
      InsertClass(x, s[1..], y, leq);
      assert Class(t, y, leq) == e + Class(s[1..], y, leq);
      ClassCons(s[0], t, y, leq);
      assert Class([s[0]] + t, y, leq) == c0 + Class(t, y, leq);
      assert Class(s, y, leq) == c0 + Class(s[1..], y, leq);
      if Equiv(x, y, leq) {
        assert !leq(x, s[0]);
        assert c0 == [];
      } else {
        assert e == [];
      }
    }
  }

  lemma ClassCons<T>(a: T, t: seq<T>, y: T, leq: (T, T) -> bool)
    ensures Class([a] + t, y, leq) == (if Equiv(a, y, leq) then [a] else []) + Class(t, y, leq)
  {
    assert ([a] + t)[1..] == t;
  }

  /** Everything strictly below `x` has a key other than that of `y`. */
  ghost predicate BelowOnlyOthers<T(!new)>(x: T, y: T, leq: (T, T) -> bool) {
    forall z :: !leq(x, z) ==> !Equiv(z, y, leq)
  }

  lemma AboveIsOtherClass<T(!new)>(x: T, y: T, leq: (T, T) -> bool)
    requires Transitive(leq) && Equiv(x, y, leq)
    ensures BelowOnlyOthers(x, y, leq)
  {
  }

  /** Stability: for every key, the elements with that key appear in the
      output in the same order as in the input. */
  lemma {:induction false} SortIsStable<T(!new)>(xs: seq<T>, y: T, leq: (T, T) -> bool)
    requires TotalPreorder(leq)
    ensures Class(Sort(xs, leq), y, leq) == Class(xs, y, leq)
  {
    if xs != [] {
      SortIsStable(xs[1..], y, leq);
      SortIsOrderedPermutation(xs[1..], leq);
      if Equiv(xs[0], y, leq) {
        AboveIsOtherClass(xs[0], y, leq);
      }
      InsertClass(xs[0], Sort(xs[1..], leq), y, leq);
    }
  }

  /** An ordered sequence is left as it is. */
  lemma {:induction false} SortOfSorted<T>(s: seq<T>, leq: (T, T) -> bool)
    requires Sorted(s, leq)
    ensures Sort(s, leq) == s
  {
    if s != [] {
      SortOfSorted(s[1..], leq);
      if |s| > 1 {
        assert leq(s[0], s[1]);
        assert s == [s[0]] + s[1..];
      }
    }
  }

  /** Sorting twice gives the same sequence as sorting once. */
  lemma SortIdempotent<T(!new)>(xs: seq<T>, leq: (T, T) -> bool)
    requires TotalPreorder(leq)
    ensures Sort(Sort(xs, leq), leq) == Sort(xs, leq)
  {
    SortIsOrderedPermutation(xs, leq);
    SortOfSorted(Sort(xs, leq), leq);
  }
}
