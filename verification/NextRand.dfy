/** params.h, next_rand: Schrage's form of the multiplicative generator of Park and Miller (Communications of the ACM,
    volume 31, number 10, 1988, pages 1192-1201), and the integer randu built on it. */
module NextRand {
  import opened Arithmetic

  const A := 16807
  const M := 2147483647   // 2^31 - 1
  const Q := 127773
  const R := 2836

  /** The seeds the generator moves among. */
  type Seed = x: int | 1 <= x < M witness 1

  predicate Fits32(x: int) {
    -0x8000_0000 <= x < 0x8000_0000
  }

  /** The plain definition, whose product needs 46 bits. */
  function Minimal(x: int): int {
    A * x % M
  }

  /** R has the inverse 5790 modulo A, so A divides R * k only if it divides k. */
  lemma DividesFactor(k: int, x: int)
    ensures A * x == R * k ==> k == A * (5790 * x - 977 * k)
  {
  }

  lemma QuotientRange(seed: Seed, k: int)
    ensures A * seed == k * M ==> 0 < k < A
  {
  }

  /** No seed is mapped to 0. */
  lemma NeverZero(seed: Seed, k: int)
    ensures A * seed != k * M
  {
    QuotientRange(seed, k);
    DividesFactor(k, seed - k * Q);
  }

  /** Schrage's decomposition: the same value up to one modulus, from products that stay small. */
  lemma Schrage(seed: Seed)
    ensures var hi := seed / Q; var lo := seed - hi * Q; var t := A * lo - R * hi;
      && Fits32(hi * Q) && Fits32(lo) && Fits32(A * lo) && Fits32(R * hi) && Fits32(t) && (t <= 0 ==> Fits32(t + M))
      && (if t <= 0 then t + M else t) == Minimal(seed)
      && 1 <= Minimal(seed) < M
  {
    var hi := seed / Q;
    var lo := seed - hi * Q;
    var t := A * lo - R * hi;
    assert 0 <= hi <= A && 0 <= lo < Q;
    assert A * seed == hi * M + t;
    NeverZero(seed, hi);
    if t > 0 { Remainder(A * seed, hi, t, M); } else { Remainder(A * seed, hi - 1, t + M, M); }
  }

  method Next(seed: Seed) returns (rand: Seed)
    ensures rand == Minimal(seed)
  {
    Schrage(seed);
    var hi := seed / Q;
    var lo: int := seed - hi * Q;
    var t := A * lo - R * hi;
    if t <= 0 {
      t := t + M;
    }
    rand := t;
  }

  // ---- Runs ----

  function Power(k: nat): int {
    if k == 0 then 1 else A * Power(k - 1)
  }

  /** The seed after k steps. */
  function After(seed: Seed, k: nat): Seed {
    if k == 0 then seed
    else
      var before := After(seed, k - 1);
      Schrage(before);
      Minimal(before)
  }

  lemma MinimalOfRemainder(x: int)
    ensures Minimal(x % M) == A * x % M
  {
    var q, r := x / M, x % M;
    var k, s := (A * r) / M, (A * r) % M;
    assert A * x == (A * q + k) * M + s;
    Remainder(A * x, A * q + k, s, M);
  }

  /** The map is a permutation of the seeds: multiplying by the inverse of A modulo M undoes a step. */
  lemma StepInverse(x: Seed)
    ensures 1407677000 * Minimal(x) % M == x
  {
    var k := A * x / M;
    assert 1407677000 * Minimal(x) == (11017 * x - 1407677000 * k) * M + x;
    Remainder(1407677000 * Minimal(x), 11017 * x - 1407677000 * k, x, M);
  }

  /** Along any run the seed is the initial one times a power of A, modulo M. */
  lemma {:induction false} RunIsPower(seed: Seed, k: nat)
    ensures After(seed, k) == Power(k) * seed % M
  {
    if k == 0 {
      Remainder(seed, 0, seed, M);
    } else {
      RunIsPower(seed, k - 1);
      MinimalOfRemainder(Power(k - 1) * seed);
      assert A * (Power(k - 1) * seed) == Power(k) * seed;
    }
  }

  /** randu with its static seed. */
  class Generator {
    var seed: Seed

    constructor ()
      ensures seed == 783637
    {
      seed := 783637;
    }

    /** rtai_imuldiv(seed, range, M) computes the product in full. */
    method Randu(range: nat) returns (r: int)
      modifies this
      ensures seed == After(old(seed), 1) && r == seed * range / M
      ensures 0 <= r && (range > 0 ==> r < range)
    {
      ghost var before := seed;
      seed := Next(seed);
      assert After(before, 1) == Minimal(After(before, 0));
      r := seed * range / M;
      Below(seed, range);
    }
  }

  lemma Below(seed: Seed, range: nat)
    ensures 0 <= seed * range / M && (range > 0 ==> seed * range / M < range)
  {
    Product(seed, range);
    Quotient(seed * range, range);
  }

  lemma Product(seed: Seed, range: nat)
    ensures 0 <= seed * range && (range > 0 ==> seed * range < M * range)
  {
  }

  lemma Quotient(x: nat, range: nat)
    ensures 0 <= x / M && (x < M * range ==> x / M < range)
  {
  }
}
