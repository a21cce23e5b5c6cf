/** Python's `sorted()` on a list of strings, `list.remove(x)`, and the list
    comprehension `[f(x) for x in s]`. `sorted()` is a
    builtin; it is modelled by insertion sort, and what callers rely on is proved about
    it: the result is ascending, is a permutation of the input, and is the only ascending
    permutation, so it depends on the input's elements and not on their order. */
module PySorted {
  import opened PyStr

  ghost predicate Ascending(s: seq<string>)
  {
    forall i, j :: 0 <= i < j < |s| ==> LexLe(s[i], s[j])
  }

  function Insert(x: string, s: seq<string>): (r: seq<string>)
    ensures multiset(r) == multiset(s) + multiset{x}
  {
    if s == [] then [x]
    else if LexLe(x, s[0]) then [x] + s
    else
      assert s == [s[0]] + s[1..];
      [s[0]] + Insert(x, s[1..])
  }

  /** `sorted(s)`. */
  function Sorted(s: seq<string>): (r: seq<string>)
    ensures multiset(r) == multiset(s)
  {
    if s == [] then []
    else
      assert s == [s[0]] + s[1..];
      Insert(s[0], Sorted(s[1..]))
  }

  lemma {:induction false} InsertAscending(x: string, s: seq<string>)
    requires Ascending(s)
    ensures Ascending(Insert(x, s))
  {
    if s == [] {
    } else if LexLe(x, s[0]) {
      forall j | 0 < j < |s| ensures LexLe(x, s[j]) {
        LexLeTransitive(x, s[0], s[j]);
      }
    } else {
      LexLeTotal(x, s[0]);
      var t := Insert(x, s[1..]);
      InsertAscending(x, s[1..]);
      forall k | 0 <= k < |t| ensures LexLe(s[0], t[k]) {
        assert t[k] in multiset(t);
        if t[k] != x {
          assert t[k] in multiset(s[1..]);
          var j :| 0 <= j < |s[1..]| && s[1..][j] == t[k];
          assert s[j + 1] == t[k];
        }
      }
    }
  }

  lemma {:induction false} SortedAscending(s: seq<string>)
    ensures Ascending(Sorted(s))
  {
    if s != [] {
      SortedAscending(s[1..]);
      InsertAscending(s[0], Sorted(s[1..]));
    }
  }

  /** The head of an ascending list is its least element. */
  lemma AscendingHeadLeast(a: seq<string>, x: string)
    requires Ascending(a) && x in a
    ensures LexLe(a[0], x)
  {
    var i := FirstIndex(a, x);
    if i == 0 {
      LexLeReflexive(x);
    }
  }

  lemma AscendingTail(a: seq<string>)
    requires Ascending(a) && a != []
    ensures Ascending(a[1..])
  {
    forall i, j | 0 <= i < j < |a| - 1 ensures LexLe(a[1..][i], a[1..][j]) {
      assert a[1..][i] == a[i + 1] && a[1..][j] == a[j + 1];
    }
  }

  /** Two rearrangements of each other with the same head have rearranged tails. */
  lemma TailsPermute(a: seq<string>, b: seq<string>)
    requires a != [] && b != [] && a[0] == b[0]
    requires multiset(a) == multiset(b)
    ensures multiset(a[1..]) == multiset(b[1..])
  {
    assert a == [a[0]] + a[1..];
    assert b == [b[0]] + b[1..];
    assert multiset(a[1..]) == multiset(a) - multiset{a[0]};
    assert multiset(b[1..]) == multiset(b) - multiset{b[0]};
  }

  /** Two ascending lists with the same elements are the same list. */
  lemma {:induction false} AscendingUnique(a: seq<string>, b: seq<string>)
    requires Ascending(a) && Ascending(b)
    requires multiset(a) == multiset(b)
    ensures a == b
  {
    if a != [] {
      assert a[0] in multiset(b);
      assert b[0] in multiset(a);
      AscendingHeadLeast(a, b[0]);
      AscendingHeadLeast(b, a[0]);
      LexLeAntisymmetric(a[0], b[0]);
      TailsPermute(a, b);
      AscendingTail(a);
      AscendingTail(b);
      AscendingUnique(a[1..], b[1..]);
      assert |a| == |multiset(a)| == |b|;
      forall k | 0 <= k < |a| ensures a[k] == b[k] {
        if k > 0 {
          assert a[k] == a[1..][k - 1] && b[k] == b[1..][k - 1];
        }
      }
      assert a == b;
    } else {
      assert |b| == |multiset(b)| == 0;
    }
  }

  /** `sorted()` is the ascending permutation of its input: any ascending list with the
      same elements is equal to it. */
  lemma SortedIsTheAscendingPermutation(s: seq<string>, p: seq<string>)
    requires Ascending(p) && multiset(p) == multiset(s)
    ensures Sorted(s) == p
  {
    SortedAscending(s);
    AscendingUnique(Sorted(s), p);
  }

  /** Reordering the input does not change `sorted()`'s result. */
  lemma SortedIgnoresOrder(s: seq<string>, t: seq<string>)
    requires multiset(s) == multiset(t)
    ensures Sorted(s) == Sorted(t)
  {
    SortedAscending(t);
    SortedIsTheAscendingPermutation(s, Sorted(t));
  }

  /** `list.index(x)` for an `x` the list contains: where it first occurs. */
  function FirstIndex(s: seq<string>, x: string): (i: nat)
    requires x in s
    ensures i < |s| && s[i] == x
    ensures forall k :: 0 <= k < i ==> s[k] != x
  {
    if s[0] == x then 0 else 1 + FirstIndex(s[1..], x)
  }

  /** `list.remove(x)` for an `x` the list contains: drops its first occurrence. */
  function RemoveFirst(s: seq<string>, x: string): (r: seq<string>)
    requires x in s
    ensures multiset(r) == multiset(s) - multiset{x}
    ensures |r| == |s| - 1
  {
    var i := FirstIndex(s, x);
    assert s == s[..i] + [x] + s[i + 1..];
    s[..i] + s[i + 1..]
  }

  /** `[f(x) for x in s]`. */
  function Map(f: string -> string, s: seq<string>): (r: seq<string>)
    ensures |r| == |s|
    ensures forall i :: 0 <= i < |s| ==> r[i] == f(s[i])
  {
    if s == [] then [] else [f(s[0])] + Map(f, s[1..])
  }

  /** Taking one element out of a list takes exactly that element out of its multiset. */
  lemma MultisetWithout(b: seq<string>, i: nat)
    requires i < |b|
    ensures multiset(b) == multiset(b[..i] + b[i + 1..]) + multiset{b[i]}
  {
    assert b == b[..i] + [b[i]] + b[i + 1..];
  }

  /** Mapping a list with one element taken out loses exactly that element's image. */
  lemma MapRemove(f: string -> string, b: seq<string>, i: nat)
    requires i < |b|
    ensures multiset(Map(f, b)) == multiset(Map(f, b[..i] + b[i + 1..])) + multiset{f(b[i])}
  {
    var c := b[..i] + b[i + 1..];
    var mb := Map(f, b);
    var l, r := Map(f, c), mb[..i] + mb[i + 1..];
    forall k | 0 <= k < |l| ensures l[k] == r[k] {
      if k < i {
        assert c[k] == b[k];
        assert r[k] == mb[k];
      } else {
        assert c[k] == b[k + 1];
        assert r[k] == mb[k + 1];
      }
    }
    assert |l| == |r|;
    assert l == r;
    MultisetWithout(mb, i);
  }

  /** In a rearrangement of a non-empty list, the head sits at some index, and the tail
      is a rearrangement of what is left once that index is taken out. */
  lemma PermutationWithout(a: seq<string>, b: seq<string>) returns (i: nat)
    requires a != [] && multiset(a) == multiset(b)
    ensures i < |b| && b[i] == a[0]
    ensures multiset(a[1..]) == multiset(b[..i] + b[i + 1..])
  {
    assert a[0] in multiset(b);
    i := FirstIndex(b, a[0]);
    MultisetWithout(a, 0);
    assert a[..0] + a[1..] == a[1..];
    MultisetWithout(b, i);
    Cancel(multiset(a[1..]), multiset(b[..i] + b[i + 1..]), a[0]);
  }

  lemma Cancel(p: multiset<string>, q: multiset<string>, x: string)
    requires p + multiset{x} == q + multiset{x}
    ensures p == q
  {
    assert p == (p + multiset{x}) - multiset{x};
  }

  /** Mapping a rearranged list gives a rearrangement of the images. */
  lemma {:induction false} MapPermutes(f: string -> string, a: seq<string>, b: seq<string>)
    requires multiset(a) == multiset(b)
    ensures multiset(Map(f, a)) == multiset(Map(f, b))
    decreases |a|
  {
    if a != [] {
      var i := PermutationWithout(a, b);
      MapPermutes(f, a[1..], b[..i] + b[i + 1..]);
      MapRemove(f, b, i);
      MapRemove(f, a, 0);
      assert a[..0] + a[1..] == a[1..];
    } else {
      assert |b| == |multiset(b)| == 0;
    }
  }

  /** No element occurs twice, as for the keys of a dictionary. */
  predicate Distinct<T(==)>(s: seq<T>)
  {
    forall i, j :: 0 <= i < j < |s| ==> s[i] != s[j]
  }

  lemma {:induction false} DistinctCountsOnce<T>(s: seq<T>, x: T)
    requires Distinct(s)
    ensures multiset(s)[x] <= 1
  {
    if s != [] {
      assert s == [s[0]] + s[1..];
      DistinctCountsOnce(s[1..], x);
      if x == s[0] {
        assert x !in s[1..];
      }
    }
  }

  lemma TwiceCountsTwice<T>(s: seq<T>, i: nat, j: nat)
    requires i < j < |s| && s[i] == s[j]
    ensures multiset(s)[s[i]] >= 2
  {
    assert s == s[..i] + [s[i]] + s[i + 1..j] + [s[j]] + s[j + 1..];
  }

  /** A rearrangement of a list without repetitions has none either. */
  lemma PermutationKeepsDistinct<T>(a: seq<T>, b: seq<T>)
    requires multiset(a) == multiset(b) && Distinct(a)
    ensures Distinct(b)
  {
    forall i, j | 0 <= i < j < |b| ensures b[i] != b[j] {
      if b[i] == b[j] {
        TwiceCountsTwice(b, i, j);
        DistinctCountsOnce(a, b[i]);
      }
    }
  }
}
