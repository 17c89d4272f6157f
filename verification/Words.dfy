/** 64-bit words as Go has them. */
module Words {

  const WORD := 0x1_0000_0000_0000_0000
  const HALF := 0x8000_0000_0000_0000

  /** Arithmetic of uint64. */
  function Wrap(n: int): (w: nat)
    ensures w < WORD && exists k: int :: n == w + k * WORD
  {
    assert n == n % WORD + (n / WORD) * WORD;
    n % WORD
  }

  /** Conversion of a uint64 to an int64. */
  function ToInt64(w: nat): int
    requires w < WORD
  {
    if w < HALF then w else w - WORD
  }

  lemma WrapCongruent(n: int, m: int, k: int)
    requires n == m + k * WORD
    ensures Wrap(n) == Wrap(m)
  {
  }

  /** Arithmetic of int64: the true result, wrapped. */
  function Signed64(n: int): (i: int)
    ensures -HALF <= i < HALF
    ensures i == n <==> -HALF <= n < HALF
  {
    ToInt64(Wrap(n))
  }

  /** A running int64 sum is the true sum, wrapped once. */
  lemma SumWraps(sum: int, n: int)
    ensures Signed64(Signed64(sum) + n) == Signed64(sum + n)
  {
    var k: int :| sum == Wrap(sum) + k * WORD;
    WrapCongruent(sum + n, Signed64(sum) + n, if Wrap(sum) < HALF then k else k + 1);
  }
}
