/** The runtime integer functions that round to a multiple: FLOOR(x, y), CEIL(x, y),
    TRUNCATE(x, m) and ROUND(x, m). Integers are unbounded here. */
module SqlFunctionsNumeric {

  /** Whether `r` is a multiple of `y`. */
  predicate IsMultiple(r: int, y: int)
    requires y > 0
  {
    r % y == 0
  }

  /** FLOOR(x, y): the largest multiple of `y` that is at most `x`. Dafny's `/` with
      a positive divisor rounds towards negative infinity, as this needs. */
  function Floor(x: int, y: int): (r: int)
    requires y > 0
    ensures IsMultiple(r, y)
    ensures r <= x < r + y
  {
    ModOfMultiple(x / y, y);
    x / y * y
  }

  /** CEIL(x, y): the smallest multiple of `y` that is at least `x`. */
  function Ceil(x: int, y: int): (r: int)
    requires y > 0
    ensures IsMultiple(r, y)
    ensures r - y < x <= r
  {
    ModOfMultiple(x / y, y);
    ModOfMultiple(x / y + 1, y);
    assert x - x % y + y == (x / y + 1) * y;
    if x % y == 0 then x else x - x % y + y
  }

  /** No multiple of `y` lies strictly between Floor(x, y) and x, nor strictly
      between x and Ceil(x, y): they are the nearest multiples below and above. */
  lemma {:induction false} FloorCeilAreNearest(x: int, y: int, m: int)
    requires y > 0 && IsMultiple(m, y)
    ensures m <= x ==> m <= Floor(x, y)
    ensures x <= m ==> Ceil(x, y) <= m
  {
    var f := Floor(x, y);
    var c := Ceil(x, y);
    if m <= x && m > f {
      MultiplesApart(f, m, y);
    }
    if x <= m && m < c {
      MultiplesApart(m, c, y);
    }
  }

  /** Two different multiples of `y` are at least `y` apart. */
  lemma {:induction false} MultiplesApart(a: int, b: int, y: int)
    requires y > 0 && IsMultiple(a, y) && IsMultiple(b, y) && a < b
    ensures a + y <= b
  {
    assert a == (a / y) * y;
    assert b == (b / y) * y;
    assert a / y < b / y by {
      if a / y >= b / y {
        MultiplyMonotone(b / y, a / y, y);
      }
    }
    MultiplyMonotone(a / y + 1, b / y, y);
  }

  /** A product with `y` leaves no remainder on division by `y`. */
  lemma ModOfMultiple(q: int, y: int)
    requires y > 0
    ensures (q * y) % y == 0
  {
    var a := q * y;
    var d := q - a / y;
    assert a % y == d * y by {
      assert a == y * (a / y) + a % y;
      assert q * y - y * (a / y) == (q - a / y) * y;
    }
    if d >= 1 {
      MultiplyMonotone(1, d, y);
    } else if d <= -1 {
      MultiplyMonotone(d, -1, y);
    }
  }

  lemma MultiplyMonotone(p: int, q: int, y: int)
    requires p <= q && y > 0
    ensures p * y <= q * y
  {
    assert q * y - p * y == (q - p) * y;
  }

  /** The negation of a multiple is a multiple. */
  lemma NegatedMultiple(r: int, y: int)
    requires y > 0 && IsMultiple(r, y)
    ensures IsMultiple(-r, y)
  {
    assert r == r / y * y;
    assert -r == -(r / y) * y;
    ModOfMultiple(-(r / y), y);
  }

  /** CEIL is FLOOR mirrored through zero. */
  lemma {:induction false} CeilMirrorsFloor(x: int, y: int)
    requires y > 0
    ensures Ceil(x, y) == -Floor(-x, y)
  {
    var f := Floor(-x, y);
    var c := Ceil(x, y);
    NegatedMultiple(f, y);
    FloorCeilAreNearest(x, y, -f);
    NegatedMultiple(c, y);
    FloorCeilAreNearest(-x, y, -c);
  }

  /** FLOOR and CEIL agree exactly on multiples; otherwise they are `y` apart. */
  lemma {:induction false} CeilAboveFloor(x: int, y: int)
    requires y > 0
    ensures Ceil(x, y) == Floor(x, y) <==> IsMultiple(x, y)
    ensures !IsMultiple(x, y) ==> Ceil(x, y) == Floor(x, y) + y
  {
    var f := Floor(x, y);
    var c := Ceil(x, y);
    if IsMultiple(x, y) {
      FloorCeilAreNearest(x, y, x);
    } else {
      assert f < c;
      MultiplesApart(f, c, y);
      assert f + y == (f / y + 1) * y;
      ModOfMultiple(f / y + 1, y);
      FloorCeilAreNearest(x, y, f + y);
    }
  }

  lemma FloorFixtures()
    ensures Floor(0, 10) == 0
    ensures Floor(27, 10) == 20
    ensures Floor(30, 10) == 30
    ensures Floor(-30, 10) == -30
    ensures Floor(-27, 10) == -30
  {
  }

  lemma CeilFixtures()
    ensures Ceil(0, 10) == 0 && Ceil(27, 10) == 30 && Ceil(30, 10) == 30
    ensures Ceil(-30, 10) == -30 && Ceil(-27, 10) == -20 && Ceil(-27, 1) == -27
  {
  }

  /** TRUNCATE(x, m) on integers rounds down to a multiple of `m`, towards negative
      infinity rather than towards zero. */
  function Truncate(x: int, m: int): (r: int)
    requires m > 0
    ensures IsMultiple(r, m)
    ensures r <= x < r + m
  {
    Floor(x, m)
  }

  /** ROUND(x, m): half of `m` (rounded down) is added, then the sum is truncated. */
  function Round(x: int, m: int): (r: int)
    requires m > 0
    ensures IsMultiple(r, m)
  {
    Truncate(x + m / 2, m)
  }

  function Abs(d: int): nat
  {
    if d < 0 then -d else d
  }

  /** ROUND gives the nearest multiple of `m`: no multiple `k` is closer to `x`, and
      when one is as close (a tie) ROUND has taken the upper of the two. */
  lemma {:induction false} RoundIsNearest(x: int, m: int, k: int)
    requires m > 0 && IsMultiple(k, m)
    ensures Abs(x - Round(x, m)) <= Abs(x - k)
    ensures Abs(x - Round(x, m)) == Abs(x - k) ==> k <= Round(x, m)
  {
    var r := Round(x, m);
    FloorCeilAreNearest(x + m / 2, m, k);
    if k > r {
      MultiplesApart(r, k, m);
    } else if k < r {
      MultiplesApart(k, r, m);
    }
  }

  lemma TruncateFixtures()
    ensures Truncate(12345, 1000) == 12000 && Truncate(12000, 1000) == 12000
    ensures Truncate(12001, 1000) == 12000 && Truncate(11999, 1000) == 11000
    ensures Truncate(-12345, 1000) == -13000 && Truncate(-12000, 1000) == -12000
    ensures Truncate(-12001, 1000) == -13000 && Truncate(-11999, 1000) == -12000
  {
  }

  lemma RoundFixtures()
    ensures Round(12345, 1000) == 12000 && Round(12845, 1000) == 13000
    ensures Round(-12345, 1000) == -12000 && Round(-12845, 1000) == -13000
  {
  }
}
