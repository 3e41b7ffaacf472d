/** Go's int64: addition and subtraction wrap modulo 2^64. */
module Int64 {
  const TWO64: int := 0x1_0000_0000_0000_0000
  const TWO63: int := 0x8000_0000_0000_0000

  function Wrap(x: int): (r: int)
    ensures Fits(r)
    ensures Congruent(x, r)
  {
    (x + TWO63) % TWO64 - TWO63
  }

  predicate Fits(x: int) {
    -TWO63 <= x < TWO63
  }

  ghost predicate Congruent(x: int, y: int) {
    (x - y) % TWO64 == 0
  }

  function Add(x: int, y: int): int {
    Wrap(x + y)
  }

  function Sub(x: int, y: int): int {
    Wrap(x - y)
  }

  lemma CongruentSum(a: int, b: int, x: int, y: int)
    requires Congruent(a, b) && Congruent(x, y)
    ensures Congruent(a + x, b + y) && Congruent(a - x, b - y)
  {
  }

  lemma CongruentBack(a: int, b: int)
    requires Congruent(a, b)
    ensures Congruent(b, a)
  {
  }

  lemma CongruentTrans(a: int, b: int, c: int)
    requires Congruent(a, b) && Congruent(b, c)
    ensures Congruent(a, c)
  {
  }

  /** Two sums have the same int64 image exactly when they are congruent. */
  lemma WrapAgrees(x: int, y: int)
    ensures Wrap(x) == Wrap(y) <==> Congruent(x, y)
    ensures Fits(x) ==> Wrap(x) == x
  {
  }

  /** Wrapping at every addition gives the same int64 as wrapping once at the end. */
  lemma WrapAbsorbs(x: int, y: int)
    ensures Add(Wrap(x), y) == Wrap(x + y)
    ensures Sub(Wrap(x), y) == Wrap(x - y)
    ensures Sub(y, Wrap(x)) == Wrap(y - x)
  {
    CongruentBack(x, Wrap(x));
    CongruentSum(Wrap(x), x, y, y);
    CongruentSum(y, y, Wrap(x), x);
    WrapAgrees(Wrap(x) + y, x + y);
    WrapAgrees(Wrap(x) - y, x - y);
    WrapAgrees(y - Wrap(x), y - x);
  }

  /** The accumulation step `total += x - y`. */
  lemma WrapAccumulates(total: int, x: int, y: int)
    ensures Add(Wrap(total), Sub(x, y)) == Wrap(total + (x - y))
  {
    CongruentSum(total, Wrap(total), x - y, Wrap(x - y));
    WrapAgrees(total + (x - y), Wrap(total) + Wrap(x - y));
  }
}
