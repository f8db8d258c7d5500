/** Remainders. */
module Arithmetic {

  lemma ModSub(a: int, b: int, m: int, n: int)
    requires m > 0 && n > 0 && m % n == 0
    ensures (a % m - b % m) % n == (a - b) % n
  {
    var q, r := a / m, b / m;
    var k := m / n;
    assert m == n * k;
    assert a == m * q + a % m && b == m * r + b % m;
    assert a - b == n * (k * (q - r)) + (a % m - b % m) by {
      assert m * q - m * r == n * (k * (q - r)) by {
        assert m * (q - r) == (n * k) * (q - r) == n * (k * (q - r));
      }
    }
    ModShift(a % m - b % m, k * (q - r), n);
  }

  lemma ModShift(a: int, k: int, n: int)
    requires n > 0
    ensures (n * k + a) % n == a % n
  {
    var q := a / n;
    assert n * k + a == n * (k + q) + a % n;
    ModUnique(n * k + a, k + q, a % n, n);
  }

  lemma ModUnique(x: int, q: int, r: int, n: int)
    requires n > 0 && 0 <= r < n && x == n * q + r
    ensures x % n == r
  {
    var d := x / n - q;
    assert n * d == r - x % n;
    MulAtLeast(n, d);
    MulAtLeast(n, -d);
  }

  lemma MulAtLeast(n: int, d: int)
    requires n > 0
    ensures d >= 1 ==> n * d >= n
  {
    if d >= 1 {
      assert n * d == n * (d - 1) + n;
    }
  }
}
