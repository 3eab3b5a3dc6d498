/** The runtime comparison helpers: lexicographic comparison of strings and of
    lists of strings (returning -1, 0 or 1), the null-coalescing NVL / IFNULL /
    ISNULL, and LESSER / GREATER, which fail when only their second argument is
    null. A null value is `None`. */
module SqlFunctionsCompare {
  import opened Wrappers

  /** The runtime failure LESSER and GREATER raise when a non-null value is compared
      with null. */
  datatype RuntimeError = NullPointer

  /** The sign of the lexicographic comparison of two strings by character code:
      the first differing character decides, and a proper prefix sorts first. */
  function StringCompare(a: string, b: string): (r: int)
    ensures -1 <= r <= 1
  {
    if a == [] && b == [] then 0
    else if a == [] then -1
    else if b == [] then 1
    else if a[0] < b[0] then -1
    else if a[0] > b[0] then 1
    else StringCompare(a[1..], b[1..])
  }

  lemma {:induction false} StringCompareAntisymmetric(a: string, b: string)
    ensures StringCompare(a, b) == -StringCompare(b, a)
  {
    if a != [] && b != [] && a[0] == b[0] {
      StringCompareAntisymmetric(a[1..], b[1..]);
    }
  }

  lemma {:induction false} StringCompareZeroIffEqual(a: string, b: string)
    ensures StringCompare(a, b) == 0 <==> a == b
  {
    if a != [] && b != [] && a[0] == b[0] {
      StringCompareZeroIffEqual(a[1..], b[1..]);
      assert a == [a[0]] + a[1..] && b == [b[0]] + b[1..];
    }
  }

  lemma {:induction false} StringCompareTransitive(a: string, b: string, c: string)
    requires StringCompare(a, b) < 0 && StringCompare(b, c) < 0
    ensures StringCompare(a, c) < 0
  {
    if a != [] && b != [] && c != [] && a[0] == b[0] && b[0] == c[0] {
      StringCompareTransitive(a[1..], b[1..], c[1..]);
    }
  }

  /** Lists of strings compared lexicographically: the first pair of elements that
      differ decides, and a proper prefix (the empty list included) sorts first. */
  function ListCompare(xs: seq<string>, ys: seq<string>): (r: int)
    ensures -1 <= r <= 1
  {
    if xs == [] && ys == [] then 0
    else if xs == [] then -1
    else if ys == [] then 1
    else if StringCompare(xs[0], ys[0]) != 0 then StringCompare(xs[0], ys[0])
    else ListCompare(xs[1..], ys[1..])
  }

  lemma {:induction false} ListCompareAntisymmetric(xs: seq<string>, ys: seq<string>)
    ensures ListCompare(xs, ys) == -ListCompare(ys, xs)
  {
    if xs != [] && ys != [] {
      StringCompareAntisymmetric(xs[0], ys[0]);
      ListCompareAntisymmetric(xs[1..], ys[1..]);
    }
  }

  lemma {:induction false} ListCompareZeroIffEqual(xs: seq<string>, ys: seq<string>)
    ensures ListCompare(xs, ys) == 0 <==> xs == ys
  {
    if xs != [] && ys != [] {
      StringCompareZeroIffEqual(xs[0], ys[0]);
      ListCompareZeroIffEqual(xs[1..], ys[1..]);
      assert xs == [xs[0]] + xs[1..] && ys == [ys[0]] + ys[1..];
    }
  }

  /** A proper prefix sorts before the longer list. */
  lemma {:induction false} ProperPrefixSortsFirst(xs: seq<string>, ys: seq<string>)
    requires |xs| < |ys| && xs == ys[..|xs|]
    ensures ListCompare(xs, ys) == -1
  {
    if xs != [] {
      StringCompareZeroIffEqual(xs[0], ys[0]);
      assert xs[1..] == ys[1..][..|xs| - 1];
      ProperPrefixSortsFirst(xs[1..], ys[1..]);
    }
  }

  lemma CompareFixtures()
    ensures ListCompare(["a", "c"], ["a", "c"]) == 0
    ensures ListCompare(["a"], ["a", "c"]) == -1
    ensures ListCompare([], ["a", "c"]) == -1
    ensures ListCompare(["a", "c"], ["a"]) == 1
    ensures ListCompare(["a", "c"], ["a", "b", "c"]) == 1
    ensures ListCompare(["a", "c"], []) == 1
    ensures ListCompare([], []) == 0
  {
    ListCompareZeroIffEqual(["a", "c"], ["a", "c"]);
    ProperPrefixSortsFirst(["a"], ["a", "c"]);
    ListCompareAntisymmetric(["a", "c"], ["a"]);
    assert StringCompare("a", "a") == 0;
    assert StringCompare("c", "b") == 1;
    assert ["a", "c"][1..] == ["c"] && ["a", "b", "c"][1..] == ["b", "c"];
  }

  // ---------------------------------------------------------------------------
  // Null helpers

  /** NVL(a, b): `a` unless it is null, then `b`. */
  function Nvl<T>(a: Option<T>, b: Option<T>): (r: Option<T>)
  {
    if a.Some? then a else b
  }

  /** IFNULL and ISNULL are other names of NVL. */
  function IfNull<T>(a: Option<T>, b: Option<T>): Option<T>
  {
    Nvl(a, b)
  }

  function IsNull<T>(a: Option<T>, b: Option<T>): Option<T>
  {
    Nvl(a, b)
  }

  /** NVL is null only when both arguments are, keeps a non-null first argument, and
      chains: NVL(NVL(a, b), c) is NVL(a, NVL(b, c)), the first non-null of three. */
  lemma NvlFirstNonNull<T>(a: Option<T>, b: Option<T>, c: Option<T>)
    ensures Nvl(a, b).None? <==> a.None? && b.None?
    ensures a.Some? ==> Nvl(a, b) == a
    ensures Nvl(Nvl(a, b), c) == Nvl(a, Nvl(b, c))
  {
  }

  lemma NvlFixtures()
    ensures Nvl(Some("a"), Some("b")) == Some("a") && Nvl(None, Some("b")) == Some("b")
    ensures Nvl<string>(None, None) == None && Nvl(Some(1), Some(1)) == Some(1)
    ensures IfNull(Some("a"), Some("b")) == Some("a") && IfNull(None, Some("b")) == Some("b")
    ensures IfNull<string>(None, None) == None
    ensures IsNull(Some("a"), Some("b")) == Some("a") && IsNull(None, Some("b")) == Some("b")
    ensures IsNull<string>(None, None) == None
  {
  }

  // ---------------------------------------------------------------------------
  // LESSER and GREATER

  /** LESSER(a, b): `b` when `a` is null or sorts after `b`, otherwise `a`. Comparing
      a non-null `a` with a null `b` fails. */
  function Lesser(a: Option<string>, b: Option<string>): (r: Result<Option<string>, RuntimeError>)
    ensures r.Err? <==> a.Some? && b.None?
  {
    if a.None? then Ok(b)
    else if b.None? then Err(NullPointer)
    else if StringCompare(a.value, b.value) > 0 then Ok(b)
    else Ok(a)
  }

  /** GREATER(a, b): `b` when `a` is null or sorts before `b`, otherwise `a`. */
  function Greater(a: Option<string>, b: Option<string>): (r: Result<Option<string>, RuntimeError>)
    ensures r.Err? <==> a.Some? && b.None?
  {
    if a.None? then Ok(b)
    else if b.None? then Err(NullPointer)
    else if StringCompare(a.value, b.value) < 0 then Ok(b)
    else Ok(a)
  }

  /** On two non-null strings LESSER gives the minimum: one of the arguments, and
      one that sorts no later than either. */
  lemma LesserIsMinimum(a: string, b: string)
    ensures Lesser(Some(a), Some(b)) == Ok(Some(a)) || Lesser(Some(a), Some(b)) == Ok(Some(b))
    ensures var lo := Lesser(Some(a), Some(b)).value.value;
      StringCompare(lo, a) <= 0 && StringCompare(lo, b) <= 0
  {
    StringCompareAntisymmetric(a, b);
    StringCompareZeroIffEqual(a, a);
    StringCompareZeroIffEqual(b, b);
  }

  /** GREATER gives the maximum: one of the arguments, sorting no earlier than either. */
  lemma GreaterIsMaximum(a: string, b: string)
    ensures Greater(Some(a), Some(b)) == Ok(Some(a)) || Greater(Some(a), Some(b)) == Ok(Some(b))
    ensures var hi := Greater(Some(a), Some(b)).value.value;
      StringCompare(hi, a) >= 0 && StringCompare(hi, b) >= 0
  {
    StringCompareAntisymmetric(a, b);
    StringCompareZeroIffEqual(a, a);
    StringCompareZeroIffEqual(b, b);
  }

  /** LESSER and GREATER of the same two strings are those two strings. */
  lemma LesserGreaterSplit(a: string, b: string)
    ensures multiset{Lesser(Some(a), Some(b)).value.value, Greater(Some(a), Some(b)).value.value}
      == multiset{a, b}
  {
    StringCompareAntisymmetric(a, b);
    StringCompareZeroIffEqual(a, b);
  }

  /** A null first argument gives the second, whatever it is. */
  lemma LesserGreaterNullFirst(b: Option<string>)
    ensures Lesser(None, b) == Ok(b) && Greater(None, b) == Ok(b)
  {
  }

  lemma LesserGreaterFixtures()
    ensures Lesser(Some("a"), Some("bc")) == Ok(Some("a"))
    ensures Lesser(Some("bc"), Some("ac")) == Ok(Some("ac"))
    ensures Lesser(Some("a"), None) == Err(NullPointer)
    ensures Lesser(None, Some("a")) == Ok(Some("a")) && Lesser(None, None) == Ok(None)
    ensures Greater(Some("a"), Some("bc")) == Ok(Some("bc"))
    ensures Greater(Some("bc"), Some("ac")) == Ok(Some("bc"))
    ensures Greater(Some("a"), None) == Err(NullPointer)
    ensures Greater(None, Some("a")) == Ok(Some("a")) && Greater(None, None) == Ok(None)
  {
    assert StringCompare("a", "bc") == -1;
    assert StringCompare("bc", "ac") == 1;
  }
}
