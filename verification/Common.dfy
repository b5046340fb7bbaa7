/** Integer widths, a bit of arithmetic, and the one option type. */
module Common {
  const TWO_31: int := 0x8000_0000
  const TWO_32: nat := 0x1_0000_0000
  const TWO_64: nat := 0x1_0000_0000_0000_0000

  datatype Option<+T> = None | Some(value: T)

  function Add32(a: nat, b: nat): nat {
    (a + b) % TWO_32
  }

  function Sub32(a: nat, b: nat): nat {
    (a - b) % TWO_32
  }

  function CeilDiv(a: nat, n: nat): nat
    requires n > 0
  {
    (a + n - 1) / n
  }

  lemma Assoc<T>(a: seq<T>, b: seq<T>, c: seq<T>)
    ensures a + (b + c) == a + b + c
  {
  }

  lemma HeadOfConcat<T>(xs: seq<T>, ys: seq<T>)
    requires xs != []
    ensures (xs + ys)[0] == xs[0] && (xs + ys)[1..] == xs[1..] + ys
  {
  }

  lemma NoBorrow(a: nat, b: nat)
    requires b <= a < TWO_32
    ensures Sub32(a, b) == a - b
  {
  }

  lemma Untruncated(x: nat)
    requires x < TWO_32
    ensures x % TWO_32 == x
  {
  }

  lemma MulMonotone(a: nat, b: nat, n: nat)
    requires a <= b
    ensures a * n <= b * n
  {
  }

  lemma MulAssoc(a: nat, b: nat, n: nat)
    ensures a * (b * n) == (a * b) * n
  {
  }

  lemma Successor(n: nat, a: nat)
    ensures (n + 1) * a == n * a + a
  {
  }

  lemma NextMultiple(a: nat, b: nat, n: nat)
    requires a < b
    ensures a * n + n <= b * n
  {
    assert (a + 1) * n <= b * n;
  }

  lemma AtLeastOnce(x: int, b: int)
    requires x >= 1 && b >= 0
    ensures x * b >= b
  {
  }

  lemma ExactQuotient(a: nat, b: nat)
    requires b > 0
    ensures a * b / b == a
  {
    var q, r := a * b / b, a * b % b;
    assert (a - q) * b == r;
    if a != q {
      AtLeastOnce(if q < a then a - q else q - a, b);
    }
  }

  lemma QuotientFits(a: nat, b: nat)
    requires b > 0
    ensures a / b <= a
  {
    var q, r := a / b, a % b;
    assert q * b + r == a;
    AtLeastOnce(b, q);
  }

  lemma DivUpper(n: nat, e: nat, a: nat)
    requires n >= 1 && n * e <= a
    ensures e <= a / n
  {
    if a / n < e {
      MulMonotone(a / n + 1, e, n);
    }
  }

  lemma DivUpperStrict(n: nat, e: nat, a: nat)
    requires n >= 1 && a <= n * e + n - 1
    ensures a / n <= e
  {
    if e < a / n {
      MulMonotone(e + 1, a / n, n);
    }
  }

  lemma Quotient(n: nat, m: nat, q: nat)
    requires m > 0 && q * m <= n < q * m + m
    ensures n / m == q
  {
    DivUpper(m, q, n);
    DivUpperStrict(m, q, n);
  }
}
