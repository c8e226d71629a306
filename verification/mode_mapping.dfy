/**
 * Quantisation of a dominant frequency into the Chladni mode pair (m, n).
 *
 * A frequency in Hz is cut into bands of width `div` (a slider value), the
 * band number is reduced modulo 6, and 1 is added, giving a mode number in
 * 1..6.  This is done twice, with the "m" and the "n" divisor; when the two
 * mode numbers collide, n is advanced one step round the cycle 1..6.
 */
module ModeMapping {

  /** The mode pair handed to the pattern synthesis. */
  datatype Modes = Modes(m: int, n: int)

  /** True when `k` is one of the 6 mode numbers the mapping can produce. */
  predicate IsMode(k: int) {
    1 <= k <= 6
  }

  /** True when a mode pair is in range and free of collisions. */
  predicate ValidModes(r: Modes) {
    IsMode(r.m) && IsMode(r.n) && r.m != r.n
  }

  /**
   * The band index of `freq` for bands of width `div`.  `analyze_frequency` converts
   * `freq / div` with `int()`, which truncates toward zero; for a
   * non-negative quotient that is the floor.
   */
  function Band(freq: real, div: int): (b: int)
    requires freq >= 0.0 && div > 0
    ensures b >= 0
    ensures b as real <= freq / div as real < b as real + 1.0
  {
    (freq / div as real).Floor
  }

  /** One raw quantisation: the band index modulo 6, plus one. */
  function Quantize(freq: real, div: int): (q: int)
    requires freq >= 0.0 && div > 0
    ensures IsMode(q)
    ensures (q - 1) % 6 == Band(freq, div) % 6
  {
    Band(freq, div) % 6 + 1
  }

  /** One step round the cycle 1 -> 2 -> ... -> 6 -> 1. */
  function Advance(k: int): (r: int)
    requires IsMode(k)
    ensures IsMode(r) && r != k
    ensures k < 6 ==> r == k + 1
    ensures k == 6 ==> r == 1
  {
    k % 6 + 1
  }

  /**
   * The mode pair of a frequency: both raw quantisations, and on a collision
   * n is advanced cyclically while m is kept.
   */
  function MapToModes(freq: real, mDiv: int, nDiv: int): (r: Modes)
    requires freq >= 0.0 && mDiv > 0 && nDiv > 0
    ensures ValidModes(r)
    ensures r.m == Quantize(freq, mDiv)
    ensures Quantize(freq, mDiv) != Quantize(freq, nDiv) ==> r.n == Quantize(freq, nDiv)
    ensures Quantize(freq, mDiv) == Quantize(freq, nDiv) ==> r.n == Advance(Quantize(freq, nDiv))
  {
    var m := Quantize(freq, mDiv);
    var n := Quantize(freq, nDiv);
    if m == n then Modes(m, Advance(n)) else Modes(m, n)
  }

  /** Shifting a real by a whole number shifts its floor by the same number. */
  lemma FloorShift(x: real, k: int)
    ensures (x + k as real).Floor == x.Floor + k
  {
    var f := x.Floor;
    assert f as real <= x < f as real + 1.0;
    assert (f + k) as real <= x + k as real < (f + k) as real + 1.0;
  }

  /** A proper fraction of a positive denominator lies in [0, 1). */
  lemma FractionBelowOne(a: real, d: real)
    requires 0.0 <= a < d
    ensures 0.0 <= a / d < 1.0
  {
    assert (a / d) * d == a;
  }

  /** For a whole number of Hz the band index is plain integer division. */
  lemma {:induction false} BandOfWholeFrequency(f: nat, div: int)
    requires div > 0
    ensures Band(f as real, div) == f / div
  {
    var q, r := f / div, f % div;
    assert f == q * div + r && 0 <= r < div;
    var d := div as real;
    assert f as real == q as real * d + r as real;
    assert f as real / d == q as real + r as real / d;
    FractionBelowOne(r as real, d);
    FloorShift(r as real / d, q);
    assert (r as real / d).Floor == 0;
  }

  /**
   * Quantisation agrees with its integer reference: for a whole number of Hz,
   * the mode number is `(f / div) % 6 + 1` in integer arithmetic.
   */
  lemma QuantizeOfWholeFrequency(f: nat, div: int)
    requires div > 0
    ensures Quantize(f as real, div) == (f / div) % 6 + 1
  {
    BandOfWholeFrequency(f, div);
  }

  /** The width in Hz of k full cycles of 6 bands of width `div`. */
  function Cycles(k: nat, div: int): (hz: real)
    requires div > 0
    ensures hz >= 0.0
  {
    (6 * k) as real * div as real
  }

  /**
   * The period of the whole mapping, 6 * mDiv * nDiv Hz: a whole number of
   * cycles for both divisors.
   */
  function PairPeriod(mDiv: int, nDiv: int): (hz: real)
    requires mDiv > 0 && nDiv > 0
    ensures hz > 0.0
    ensures hz == Cycles(nDiv, mDiv) && hz == Cycles(mDiv, nDiv)
  {
    6.0 * mDiv as real * nDiv as real
  }

  /** Raising a frequency by whole cycles of 6 bands leaves its mode number unchanged. */
  lemma {:induction false} QuantizePeriodic(freq: real, div: int, k: nat)
    requires freq >= 0.0 && div > 0
    ensures Quantize(freq + Cycles(k, div), div) == Quantize(freq, div)
  {
    var b, c := Band(freq, div), Cycles(k, div);
    assert Band(freq + c, div) == b + 6 * k by {
      BandShift(freq, div, 6 * k, freq + c);
    }
    assert Band(freq + c, div) % 6 == b % 6 by {
      ModShift(b, k);
    }
  }

  /** Raising a frequency by j band widths raises its band index by j. */
  lemma BandShift(freq: real, div: int, j: nat, shifted: real)
    requires freq >= 0.0 && div > 0
    requires shifted == freq + j as real * div as real && shifted >= 0.0
    ensures Band(shifted, div) == Band(freq, div) + j
  {
    var d, x := div as real, freq / div as real;
    DivAddMultiple(freq, j as real, d);
    assert shifted / d == x + j as real;
    FloorShift(x, j);
    assert Band(shifted, div) == (x + j as real).Floor;
    assert Band(freq, div) == x.Floor;
  }

  /** Dividing a sum with a multiple of the divisor. */
  lemma DivAddMultiple(a: real, x: real, d: real)
    requires d > 0.0
    ensures (a + x * d) / d == a / d + x
  {
  }

  /** Adding a multiple of 6 keeps the residue modulo 6. */
  lemma ModShift(b: int, k: nat)
    ensures (b + 6 * k) % 6 == b % 6
  {
  }

  /**
   * The whole mapping repeats with period 6 * mDiv * nDiv Hz: frequencies that
   * far apart draw the same pattern.
   */
  lemma {:induction false} MapToModesPeriodic(freq: real, mDiv: int, nDiv: int)
    requires freq >= 0.0 && mDiv > 0 && nDiv > 0
    ensures MapToModes(freq + PairPeriod(mDiv, nDiv), mDiv, nDiv) == MapToModes(freq, mDiv, nDiv)
  {
    QuantizePeriodic(freq, mDiv, nDiv);
    QuantizePeriodic(freq, nDiv, mDiv);
  }

  /** Every mode number 1..6 is produced, e.g. by the lower edge of its band. */
  lemma {:induction false} QuantizeReachesEveryMode(k: int, div: int)
    requires IsMode(k) && div > 0
    ensures Quantize(((k - 1) * div) as real, div) == k
  {
    var d := div as real;
    assert ((k - 1) * div) as real == (k - 1) as real * d;
    assert ((k - 1) * div) as real / d == (k - 1) as real;
    assert Band(((k - 1) * div) as real, div) == k - 1;
  }

  /** With the default dividers 150 and 100, a reported frequency of 440 Hz maps to (3, 5). */
  lemma DefaultDividersAt440Hz()
    ensures MapToModes(440.0, 150, 100) == Modes(3, 5)
  {
    QuantizeOfWholeFrequency(440, 150);
    QuantizeOfWholeFrequency(440, 100);
  }

  /** A collision at mode 6 wraps n round to 1: 500 Hz with both dividers 100. */
  lemma CollisionWrapsAtSix()
    ensures Quantize(500.0, 100) == 6
    ensures MapToModes(500.0, 100, 100) == Modes(6, 1)
  {
    QuantizeOfWholeFrequency(500, 100);
  }
}
