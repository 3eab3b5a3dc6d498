/** The runtime MULTISET operators on lists: UNION ALL, EXCEPT ALL and INTERSECT ALL
    keep multiplicities and the order of their first operand; the DISTINCT forms
    give each qualifying element once, as a set. */
module SqlFunctionsMultiset {

  /** Whether `xs` is `ys` with some elements left out, the rest in order. */
  predicate IsSubsequence<T(==)>(xs: seq<T>, ys: seq<T>)
  {
    xs == [] || (ys != [] && if xs[0] == ys[0] then IsSubsequence(xs[1..], ys[1..]) else IsSubsequence(xs, ys[1..]))
  }

  lemma {:induction false} SubsequenceReflexive<T>(xs: seq<T>)
    ensures IsSubsequence(xs, xs)
  {
    if xs != [] {
      SubsequenceReflexive(xs[1..]);
    }
  }

  lemma {:induction false} SubsequenceTransitive<T>(xs: seq<T>, ys: seq<T>, zs: seq<T>)
    requires IsSubsequence(xs, ys) && IsSubsequence(ys, zs)
    ensures IsSubsequence(xs, zs)
    decreases |zs|
  {
    if xs != [] {
      if ys[0] == zs[0] {
        if xs[0] == ys[0] {
          SubsequenceTransitive(xs[1..], ys[1..], zs[1..]);
        } else {
          SubsequenceTransitive(xs, ys[1..], zs[1..]);
        }
      } else {
        SubsequenceTransitive(xs, ys, zs[1..]);
        SubsequenceStep(xs, zs);
      }
    }
  }

  /** A subsequence of the tail is a subsequence of the whole. */
  lemma {:induction false} SubsequenceStep<T>(xs: seq<T>, ys: seq<T>)
    requires ys != [] && IsSubsequence(xs, ys[1..])
    ensures IsSubsequence(xs, ys)
    decreases |ys|, 0
  {
    if xs != [] && xs[0] == ys[0] {
      SubsequenceFromTail(xs, ys[1..]);
    }
  }

  /** Dropping the first element of a subsequence leaves a subsequence. */
  lemma {:induction false} SubsequenceFromTail<T>(xs: seq<T>, ys: seq<T>)
    requires xs != [] && IsSubsequence(xs, ys)
    ensures IsSubsequence(xs[1..], ys)
    decreases |ys|, 1
  {
    if xs[0] != ys[0] {
      SubsequenceFromTail(xs, ys[1..]);
    }
    if xs[1..] != [] {
      SubsequenceStep(xs[1..], ys);
    }
  }

  /** MULTISET UNION ALL: the two lists one after the other. */
  function UnionAll<T>(a: seq<T>, b: seq<T>): (r: seq<T>)
    ensures |r| == |a| + |b|
    ensures multiset(r) == multiset(a) + multiset(b)
    ensures r[..|a|] == a && r[|a|..] == b
  {
    a + b
  }

  /** `xs` without the first occurrence of `e`, as removing one element from a list
      does; `xs` itself when `e` does not occur. */
  function RemoveFirst<T(==)>(xs: seq<T>, e: T): seq<T>
  {
    if xs == [] then []
    else if xs[0] == e then xs[1..]
    else [xs[0]] + RemoveFirst(xs[1..], e)
  }

  /** Removing `e` takes one copy of it away and changes nothing else: the rest keeps
      its order, and a list without `e` is left as it is. */
  lemma {:induction false} RemoveFirstMeaning<T>(xs: seq<T>, e: T)
    ensures multiset(RemoveFirst(xs, e)) == multiset(xs) - multiset{e}
    ensures e !in xs ==> RemoveFirst(xs, e) == xs
    ensures IsSubsequence(RemoveFirst(xs, e), xs)
  {
    if xs != [] {
      MultisetOfFirst(xs);
      if xs[0] == e {
        SubsequenceReflexive(xs[1..]);
        SubsequenceStep(xs[1..], xs);
      } else {
        var tail := RemoveFirst(xs[1..], e);
        RemoveFirstMeaning(xs[1..], e);
        assert ([xs[0]] + tail)[1..] == tail;
        if e !in xs {
          FirstAndRest(xs);
        }
      }
    }
  }

  /** MULTISET EXCEPT ALL: for each element of `b`, in order, one occurrence is removed
      from what is left of `a`. */
  function ExceptAll<T(==)>(a: seq<T>, b: seq<T>): seq<T>
    decreases |b|
  {
    if b == [] then a else ExceptAll(RemoveFirst(a, b[0]), b[1..])
  }

  /** EXCEPT ALL is the multiset difference, and keeps the order of `a`. */
  lemma {:induction false} ExceptAllMeaning<T>(a: seq<T>, b: seq<T>)
    ensures multiset(ExceptAll(a, b)) == multiset(a) - multiset(b)
    ensures IsSubsequence(ExceptAll(a, b), a)
    decreases |b|
  {
    if b == [] {
      SubsequenceReflexive(a);
    } else {
      var rest := RemoveFirst(a, b[0]);
      RemoveFirstMeaning(a, b[0]);
      ExceptAllMeaning(rest, b[1..]);
      SubsequenceTransitive(ExceptAll(rest, b[1..]), rest, a);
      MultisetOfFirst(b);
      DifferenceInTurn(multiset(a), b[0], multiset(b[1..]));
    }
  }

  lemma FirstAndRest<T>(s: seq<T>)
    requires s != []
    ensures s == [s[0]] + s[1..]
  {
  }

  lemma MultisetOfFirst<T>(s: seq<T>)
    requires s != []
    ensures multiset(s) == multiset{s[0]} + multiset(s[1..])
  {
    FirstAndRest(s);
  }

  /** Taking away one copy of `x` and then `m` is taking away `x` and `m` together. */
  lemma DifferenceInTurn<T>(s: multiset<T>, x: T, m: multiset<T>)
    ensures s - multiset{x} - m == s - (multiset{x} + m)
  {
    forall y
      ensures (s - multiset{x} - m)[y] == (s - (multiset{x} + m))[y]
    {
    }
  }

  /** MULTISET INTERSECT ALL: the elements of `a`, in order, that can each be matched
      with a still unmatched element of `b`. */
  function IntersectAll<T(==)>(a: seq<T>, b: seq<T>): seq<T>
  {
    if a == [] then []
    else if a[0] in b then [a[0]] + IntersectAll(a[1..], RemoveFirst(b, a[0]))
    else IntersectAll(a[1..], b)
  }

  /** INTERSECT ALL is the multiset intersection, and keeps the order of `a`. */
  lemma {:induction false} IntersectAllMeaning<T>(a: seq<T>, b: seq<T>)
    ensures multiset(IntersectAll(a, b)) == multiset(a) * multiset(b)
    ensures IsSubsequence(IntersectAll(a, b), a)
  {
    if a != [] {
      MultisetOfFirst(a);
      if a[0] in b {
        var r := IntersectAll(a[1..], RemoveFirst(b, a[0]));
        RemoveFirstMeaning(b, a[0]);
        IntersectAllMeaning(a[1..], RemoveFirst(b, a[0]));
        IntersectStep(a, b);
        assert ([a[0]] + r)[1..] == r;
      } else {
        var r := IntersectAll(a[1..], b);
        IntersectAllMeaning(a[1..], b);
        SubsequenceStep(r, a);
      }
    }
  }

  /** The multiset step behind INTERSECT ALL: matching `a[0]` with one copy in `b`. */
  lemma IntersectStep<T>(a: seq<T>, b: seq<T>)
    requires a != [] && a[0] in b
    ensures multiset(a) * multiset(b)
      == multiset{a[0]} + multiset(a[1..]) * (multiset(b) - multiset{a[0]})
  {
    assert a == [a[0]] + a[1..];
    var x := a[0];
    var ma := multiset(a[1..]);
    var mb := multiset(b);
    assert multiset(a) == multiset{x} + ma;
    forall y
      ensures (multiset{x} + ma)[y] <= mb[y] ==> (multiset{x} + ma)[y] == (multiset{x} + ma * (mb - multiset{x}))[y]
      ensures (multiset{x} + ma)[y] > mb[y] ==> mb[y] == (multiset{x} + ma * (mb - multiset{x}))[y]
    {
    }
    assert (multiset{x} + ma) * mb == multiset{x} + ma * (mb - multiset{x});
  }

  /** MULTISET UNION DISTINCT, EXCEPT DISTINCT and INTERSECT DISTINCT, as sets. */
  function UnionDistinct<T(!new)>(a: seq<T>, b: seq<T>): (r: set<T>)
    ensures r == set x | x in UnionAll(a, b)
  {
    (set x | x in a) + (set x | x in b)
  }

  function ExceptDistinct<T(==,!new)>(a: seq<T>, b: seq<T>): (r: set<T>)
    ensures r == set x | x in ExceptAll(a, b) && x !in b
  {
    ExceptDistinctInExceptAll(a, b);
    set x | x in a && x !in b
  }

  function IntersectDistinct<T(==,!new)>(a: seq<T>, b: seq<T>): (r: set<T>)
    ensures r == set x | x in IntersectAll(a, b)
  {
    IntersectDistinctIsIntersectAll(a, b);
    set x | x in a && x in b
  }

  /** Among the elements `b` lacks, EXCEPT ALL keeps exactly those of `a`. */
  lemma ExceptDistinctInExceptAll<T>(a: seq<T>, b: seq<T>)
    ensures forall x :: x in ExceptAll(a, b) && x !in b <==> x in a && x !in b
  {
    ExceptAllMeaning(a, b);
    forall x
      ensures x in ExceptAll(a, b) && x !in b <==> x in a && x !in b
    {
      assert x in ExceptAll(a, b) <==> multiset(ExceptAll(a, b))[x] > 0;
      assert x in a <==> multiset(a)[x] > 0;
      assert x in b <==> multiset(b)[x] > 0;
    }
  }

  /** An element is in INTERSECT ALL exactly when both lists have it. */
  lemma IntersectDistinctIsIntersectAll<T>(a: seq<T>, b: seq<T>)
    ensures forall x :: x in IntersectAll(a, b) <==> x in a && x in b
  {
    IntersectAllMeaning(a, b);
    forall x
      ensures x in IntersectAll(a, b) <==> x in a && x in b
    {
      assert x in IntersectAll(a, b) <==> multiset(IntersectAll(a, b))[x] > 0;
      assert x in a <==> multiset(a)[x] > 0;
      assert x in b <==> multiset(b)[x] > 0;
    }
  }

  /** An operation with an empty side gives the other side, or nothing. */
  lemma EmptySides<T(!new)>(a: seq<T>)
    ensures UnionAll(a, []) == a && UnionAll([], a) == a
    ensures ExceptAll(a, []) == a && ExceptAll([], a) == []
    ensures IntersectAll(a, []) == [] && IntersectAll([], a) == []
    ensures UnionDistinct(a, []) == set x | x in a
    ensures ExceptDistinct(a, []) == set x | x in a
    ensures ExceptDistinct([], a) == {} && IntersectDistinct(a, []) == {} && IntersectDistinct([], a) == {}
  {
  }

  lemma UnionAllFixture()
    ensures UnionAll(["a", "b", "a", "c", "e", "e"], ["a", "d", "c", "d", "c"])
      == ["a", "b", "a", "c", "e", "e", "a", "d", "c", "d", "c"]
  {
  }

  lemma ExceptAllFixture()
    ensures ExceptAll(["a", "b", "a", "c", "e", "e"], ["a", "d", "c", "d", "c"]) == ["b", "a", "e", "e"]
  {
    assert RemoveFirst(["a", "b", "a", "c", "e", "e"], "a") == ["b", "a", "c", "e", "e"];
    assert RemoveFirst(["b", "a", "c", "e", "e"], "d") == ["b", "a", "c", "e", "e"];
    assert RemoveFirst(["b", "a", "c", "e", "e"], "c") == ["b", "a", "e", "e"];
    assert RemoveFirst(["b", "a", "e", "e"], "d") == ["b", "a", "e", "e"];
    assert RemoveFirst(["b", "a", "e", "e"], "c") == ["b", "a", "e", "e"];
  }
  lemma IntersectAllFixture1()
    ensures IntersectAll(["a", "b", "a", "c", "e", "e"], ["a", "d", "c", "d", "c"]) == ["a", "c"]
  {
    assert RemoveFirst(["a", "d", "c", "d", "c"], "a") == ["d", "c", "d", "c"];
    assert IntersectAll(["b", "a", "c", "e", "e"], ["d", "c", "d", "c"]) == ["c"] by {
      assert RemoveFirst(["d", "c", "d", "c"], "c") == ["d", "d", "c"];
      assert IntersectAll(["e", "e"], ["d", "d", "c"]) == [];
    }
  }
  lemma IntersectAllFixture2()
    ensures IntersectAll(["a", "b", "a", "c", "e", "e"], ["a", "d", "a", "a"]) == ["a", "a"]
  {
    assert RemoveFirst(["a", "d", "a", "a"], "a") == ["d", "a", "a"];
    assert RemoveFirst(["d", "a", "a"], "a") == ["d", "a"];
    assert IntersectAll(["c", "e", "e"], ["d", "a"]) == [];
  }
  lemma IntersectAllFixture3()
    ensures IntersectAll(["a", "d", "a", "a"], ["a", "b", "a", "c", "e", "e"]) == ["a", "a"]
  {
    assert RemoveFirst(["a", "b", "a", "c", "e", "e"], "a") == ["b", "a", "c", "e", "e"];
    assert RemoveFirst(["b", "a", "c", "e", "e"], "a") == ["b", "c", "e", "e"];
    assert IntersectAll(["a"], ["b", "c", "e", "e"]) == [];
  }

  lemma ExceptDistinctFixture1()
    ensures ExceptDistinct(["a", "b", "a", "c", "e", "e"], ["a", "d", "c", "d", "c"]) == {"b", "e"}
  {
  }

  lemma ExceptDistinctFixture2()
    ensures ExceptDistinct(["a", "b", "a", "c", "e", "e"], []) == {"a", "b", "c", "e"}
  {
  }

  lemma IntersectDistinctFixture1()
    ensures IntersectDistinct(["a", "b", "a", "c", "e", "e"], ["a", "d", "c", "d", "c"]) == {"a", "c"}
  {
  }

  lemma IntersectDistinctFixture2()
    ensures IntersectDistinct(["a", "b", "a", "c", "e", "e"], ["a", "d", "a", "a"]) == {"a"}
  {
  }

  lemma IntersectDistinctFixture3()
    ensures IntersectDistinct(["a", "d", "a", "a"], ["a", "b", "a", "c", "e", "e"]) == {"a"}
  {
  }

  lemma UnionDistinctFixture1()
    ensures UnionDistinct(["a", "b", "a", "c", "e", "e"], ["a", "d", "c", "d", "c"]) == {"a", "b", "c", "d", "e"}
  {
  }

  lemma UnionDistinctFixture2()
    ensures UnionDistinct(["a", "b", "a", "c", "e", "e"], []) == {"a", "b", "c", "e"}
  {
  }

  lemma UnionDistinctFixture3()
    ensures UnionDistinct([], ["a", "d", "c", "d", "c"]) == {"a", "c", "d"}
  {
  }
}
