/** The seeded generator shared by the simulator, the release ramp and the bootstrap (packages/attribution/src/rng.ts). */
module Mulberry {

  /** States are unsigned 32-bit words. */
  const WORD := 0x1_0000_0000

  const STRIDE := 0x6d2b79f5

  function NextState(a: int): (r: int)
    ensures 0 <= r < WORD
  {
    (a + STRIDE) % WORD
  }

  /** The mixing rounds: exclusive-or, unsigned shift and multiplication on words, with wrap-around. */
  function Mix(a: bv32): bv32 {
    var t := (a ^ (a >> 15)) * (1 | a);
    var u := (t + (t ^ (t >> 7)) * (61 | t)) ^ t;
    u ^ (u >> 14)
  }

  function Output(a: int): (r: real)
    requires 0 <= a < WORD
    ensures 0.0 <= r < 1.0
  {
    (Mix(a as bv32) as int) as real / 4294967296.0
  }

  /** The generator's closure: a word of state, replaced on every draw. */
  class Generator {
    var a: int

    constructor (seed: int)
      ensures a == StateAfter(seed, 0)
    {
      a := seed % WORD;
    }

    method Draw() returns (r: real)
      modifies this
      ensures a == NextState(old(a)) && r == Output(a)
    {
      a := (a + STRIDE) % WORD;
      r := Output(a);
    }
  }

  /** The state after `k` draws. */
  function StateAfter(seed: int, k: nat): (r: int)
    ensures 0 <= r < WORD
  {
    if k == 0 then seed % WORD else NextState(StateAfter(seed, k - 1))
  }

  lemma ModUnique(x: int, y: int, q: int)
    requires x == y + WORD * q
    ensures x % WORD == y % WORD
  {
  }

  lemma {:induction false} StateClosedForm(seed: int, k: nat)
    ensures StateAfter(seed, k) == (seed + k * STRIDE) % WORD
  {
    if k > 0 {
      StateClosedForm(seed, k - 1);
      var before := seed + (k - 1) * STRIDE;
      ModUnique(seed + k * STRIDE, before % WORD + STRIDE, before / WORD);
    }
  }

  /** STRIDE is odd, so it has an inverse modulo WORD. */
  const INVERSE := 0xdc58aa5d

  const QUOTIENT := 1576479847

  lemma Inverse()
    ensures STRIDE * INVERSE == 1 + QUOTIENT * WORD
  {
  }

  /** Solving seed + k * s == a modulo w, for an s with an inverse. */
  lemma Solve(d: int, s: int, i: int, q: int, w: int, k: int, t: int)
    requires s * i == 1 + q * w && d * i == w * t + k
    ensures k * s == d + w * (d * q - t * s)
  {
  }

  /** Cancelling s from a multiple of w, for an s with an inverse. */
  lemma Cancel(n: int, s: int, i: int, q: int, w: int, m: int)
    requires s * i == 1 + q * w && n * s == w * m
    ensures n == w * (m * i - n * q)
  {
  }

  /** Every word is a state, at one place in the cycle. */
  lemma EveryStateIsVisited(seed: int, a: int)
    requires 0 <= a < WORD
    ensures exists k: nat :: k < WORD && StateAfter(seed, k) == a
  {
    var d := a - seed;
    var k := d * INVERSE % WORD;
    var t := d * INVERSE / WORD;
    StateClosedForm(seed, k);
    Inverse();
    Solve(d, STRIDE, INVERSE, QUOTIENT, WORD, k, t);
    ModUnique(seed + k * STRIDE, a, d * QUOTIENT - t * STRIDE);
    assert StateAfter(seed, k) == a;
  }

  lemma SameRemainder(x: int, y: int)
    requires x % WORD == y % WORD
    ensures x - y == WORD * (x / WORD - y / WORD)
  {
  }

  /** And the cycle is as long as it can be: the state repeats after WORD draws and not before. */
  lemma PeriodIsFull(seed: int, j: nat, k: nat)
    ensures StateAfter(seed, j) == StateAfter(seed, k) <==> j % WORD == k % WORD
  {
    StateClosedForm(seed, j);
    StateClosedForm(seed, k);
    var x, y := seed + j * STRIDE, seed + k * STRIDE;
    Distribute(j, k, STRIDE);
    if x % WORD == y % WORD {
      SameRemainder(x, y);
      Inverse();
      Cancel(j - k, STRIDE, INVERSE, QUOTIENT, WORD, x / WORD - y / WORD);
      ModUnique(j, k, (x / WORD - y / WORD) * INVERSE - (j - k) * QUOTIENT);
    }
    if j % WORD == k % WORD {
      SameRemainder(j, k);
      ScaleMultiple(j - k, WORD, j / WORD - k / WORD, STRIDE);
      ModUnique(x, y, (j / WORD - k / WORD) * STRIDE);
    }
  }

  lemma Distribute(j: int, k: int, s: int)
    ensures (j - k) * s == j * s - k * s
  {
  }

  lemma ScaleMultiple(n: int, w: int, m: int, s: int)
    requires n == w * m
    ensures n * s == w * (m * s)
  {
  }

  // ---- Known draws ----

  /** The mixing rounds, word by word: the first two draws from seeds 0 and 1, and the first from the default seed. */
  lemma KnownWords()
    ensures Mix(0x6d2b79f5) == 1144304738 && Mix(0xda56f3ea) == 1416247
    ensures Mix(0x6d2b79f6) == 2693262067 && Mix(0xda56f3eb) == 11749833
    ensures Mix(0x6e60a21b) == 1163543604
  {
  }

  lemma KnownDraws()
    ensures 4294967296.0 * Output(NextState(0)) == 1144304738.0
    ensures 4294967296.0 * Output(NextState(20260902)) == 1163543604.0
  {
    hide Mix;
    KnownWords();
    assert NextState(0) == 0x6d2b79f5 && NextState(20260902) == 0x6e60a21b;
    assert 0x6d2b79f5 as bv32 == 0x6d2b79f5 && 0x6e60a21b as bv32 == 0x6e60a21b;
  }
}
