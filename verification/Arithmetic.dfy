/** Sums and C arithmetic shared by the models. */
module Arithmetic {

  const MODULUS := 0x1_0000_0000

  /** 32 bits, read as an unsigned number. */
  type Word = w: int | 0 <= w < MODULUS

  function Add(a: Word, b: Word): Word {
    (a + b) % MODULUS
  }

  /** The additive checksum of unsigned words. */
  function Checksum(ws: seq<Word>): Word {
    if ws == [] then 0 else Add(Checksum(ws[..|ws| - 1]), ws[|ws| - 1])
  }

  /** C's division, which rounds toward zero. */
  function TruncDiv(a: int, b: int): int
    requires b > 0
  {
    if a >= 0 then a / b else -((-a) / b)
  }

  lemma Remainder(x: int, q: int, r: int, m: int)
    requires m > 0 && x == q * m + r && 0 <= r < m
    ensures x % m == r && x / m == q
  {
    var d := q - x / m;
    assert x == x / m * m + x % m;
    assert d * m == x % m - r;
    Multiple(d, m);
  }

  lemma Multiple(d: int, m: int)
    requires m > 0
    ensures (d >= 1 ==> d * m >= m) && (d <= -1 ==> d * m <= -m)
  {
  }

  lemma Scale(p: int, a: int, b: int)
    requires p > 0 && a <= b
    ensures p * a <= p * b
  {
  }

  function SumOf(vs: seq<int>): int {
    if vs == [] then 0 else SumOf(vs[..|vs| - 1]) + vs[|vs| - 1]
  }

  lemma {:induction false} SumUpdate(a: seq<int>, i: nat, v: int)
    requires i < |a|
    ensures SumOf(a[i := v]) == SumOf(a) - a[i] + v
    decreases |a|
  {
    var n := |a| - 1;
    if i < n {
      SumUpdate(a[..n], i, v);
      assert a[i := v][..n] == a[..n][i := v];
    } else {
      assert a[i := v][..n] == a[..n];
    }
  }

  lemma {:induction false} SumZero(n: nat)
    ensures SumOf(seq(n, _ => 0)) == 0
  {
    if n > 0 {
      SumZero(n - 1);
      assert seq(n, _ => 0)[..n - 1] == seq(n - 1, _ => 0);
    }
  }

  lemma {:induction false} SumConcat(a: seq<int>, b: seq<int>)
    ensures SumOf(a + b) == SumOf(a) + SumOf(b)
  {
    if b == [] {
      assert a + b == a;
    } else {
      var n := |b| - 1;
      SumConcat(a, b[..n]);
      assert (a + b)[..|a| + n] == a + b[..n] && (a + b)[|a| + n] == b[n];
    }
  }

  lemma {:induction false} SumOfNats(a: seq<nat>)
    ensures SumOf(a) >= 0
  {
    if a != [] { SumOfNats(a[..|a| - 1]); }
  }
}
