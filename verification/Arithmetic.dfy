/** Division facts the solver does not find on its own. */
module Arithmetic {

  lemma SuccessorModulo(x: nat, m: nat)
    requires m > 1
    ensures (x + 1) % m == if x % m == m - 1 then 0 else x % m + 1
  {
    var q, r := x / m, x % m;
    assert x == q * m + r;
    if r == m - 1 {
      assert x + 1 == (q + 1) * m;
      MultipleModulo(q + 1, m, 0);
    } else {
      MultipleModulo(q, m, r + 1);
    }
  }

  lemma MultipleModulo(q: nat, m: nat, r: nat)
    requires r < m
    ensures (q * m + r) % m == r
  {
    var x := q * m + r;
    assert x == x / m * m + x % m;
    if x / m < q {
      LessMultiple(x / m, q, m, x % m, r);
    } else if q < x / m {
      LessMultiple(q, x / m, m, r, x % m);
    }
  }

  lemma {:induction false} MultiplesGrow(q: nat, q': nat, m: nat)
    requires q <= q'
    ensures q * m <= q' * m
    decreases q' - q
  {
    if q < q' {
      MultiplesGrow(q, q' - 1, m);
      assert q' * m == (q' - 1) * m + m;
    }
  }

  lemma LessMultiple(q: nat, q': nat, m: nat, r: nat, r': nat)
    requires q < q' && r < m
    ensures q * m + r < q' * m + r'
    ensures (q' - q) * m == q' * m - q * m && (q' - q) * m >= m
  {
    MultiplesGrow(q + 1, q', m);
    assert (q + 1) * m == q * m + m;
  }

  lemma CongruentApart(a: nat, b: nat, m: nat)
    requires m > 0 && a < b && a % m == b % m
    ensures b - a >= m
  {
    assert a == a / m * m + a % m && b == b / m * m + b % m;
    if a / m < b / m {
      LessMultiple(a / m, b / m, m, a % m, b % m);
    } else if b / m < a / m {
      LessMultiple(b / m, a / m, m, b % m, a % m);
    }
  }

  lemma CongruentWithin(a: nat, b: nat, m: nat)
    requires a < b <= a + m
    ensures a % m == b % m <==> b == a + m
  {
    if b == a + m {
      assert b == (a / m + 1) * m + a % m;
      MultipleModulo(a / m + 1, m, a % m);
    } else if a % m == b % m {
      CongruentApart(a, b, m);
    }
  }
}
