/** The two helpers the player imports from its utility module: a true
    (never negative) modulo and an inclusive random integer. Only their
    contracts matter to the player; the random source is left abstract. */
module Utils {

  /** `modulo(x, n)`: the representative of `x` in `[0, n)`. Dafny's `%`
      on `int` is Euclidean, so for `n > 0` it is already the true modulo
      (unlike JavaScript's `%`, whose result takes the sign of `x`). */
  function Modulo(x: int, n: int): (r: int)
    requires n > 0
    ensures 0 <= r < n
    ensures x == (x / n) * n + r
    ensures 0 <= x < n ==> r == x
  {
    x % n
  }

  /** `random(lo, hi)`: some integer in `[lo, hi]`. Which one is not
      modelled; any value in the range may come back. */
  method Random(lo: int, hi: int) returns (r: int)
    requires lo <= hi
    ensures lo <= r <= hi
  {
    r :| lo <= r <= hi;
  }

  /** Adding `q` multiples of `n` to `r` in `[0, n)` keeps `r` as the
      modulo. */
  lemma ModuloOfMultiplePlus(q: int, n: int, r: int)
    requires n > 0 && 0 <= r < n
    ensures Modulo(q * n + r, n) == r
  {
    var m := Modulo(q * n + r, n);
    var d := (q * n + r) / n;
    assert q * n + r == d * n + m;
    assert (q - d) * n == m - r;
    MultipleInOpenBand(q - d, n);
  }

  /** The only multiple of `n` strictly between `-n` and `n` is zero. */
  lemma MultipleInOpenBand(k: int, n: int)
    requires n > 0 && -n < k * n < n
    ensures k == 0
  {
  }

  /** Adding `step` commutes with taking the modulo. */
  lemma ModuloShift(x: int, n: int, step: int)
    requires n > 0
    ensures Modulo(Modulo(x, n) + step, n) == Modulo(x + step, n)
  {
    var q, r := x / n, Modulo(x, n);
    var p, m := (r + step) / n, Modulo(r + step, n);
    assert x + step == (q + p) * n + m;
    ModuloOfMultiplePlus(q + p, n, m);
  }
}
