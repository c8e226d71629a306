/**
 * Dominant-frequency analysis of a recorded sound.
 *
 * The short-time Fourier transform itself is not modelled: its magnitude
 * matrix S (one row per frequency bin, one column per time frame) is the
 * input.  The analysis sums every row over time, picks the first bin with
 * the largest sum, converts that bin to Hz through the default-length FFT
 * frequency table, and maps the frequency to a mode pair.
 */
module FrequencyAnalysis {
  import opened ModeMapping

  /** Why the analysis produced no result. */
  datatype AnalysisError =
    | EmptySpectrum             // the magnitude matrix has no bins: argmax of an empty array
    | BinOutsideTable(bin: nat) // the winning bin has no entry in the frequency table

  datatype Result<T> = Ok(value: T) | Err(error: AnalysisError)

  /** What one analysis returns: the dominant frequency and its mode pair. */
  datatype Analysis = Analysis(freq: real, m: int, n: int)

  /** A magnitude spectrogram: rows are frequency bins, columns time frames. */
  type Spectrogram = seq<seq<real>>

  /**
   * The silence-trimming fallback: the trimmed signal when it kept any
   * samples, otherwise the untrimmed one.
   */
  function ChooseSignal(trimmed: seq<real>, original: seq<real>): (y: seq<real>)
    ensures y == trimmed || y == original
    ensures |trimmed| > 0 ==> y == trimmed
    ensures |y| == 0 <==> |trimmed| == 0 && |original| == 0
  {
    if |trimmed| > 0 then trimmed else original
  }

  /** The sum of a row of magnitudes. */
  function Sum(xs: seq<real>): real
    decreases |xs|
  {
    if |xs| == 0 then 0.0 else Sum(xs[..|xs| - 1]) + xs[|xs| - 1]
  }

  /** The per-bin sums over all time frames. */
  function SpectralSum(S: Spectrogram): (sums: seq<real>)
    ensures |sums| == |S|
    ensures forall i :: 0 <= i < |S| ==> sums[i] == Sum(S[i])
  {
    seq(|S|, i requires 0 <= i < |S| => Sum(S[i]))
  }

  /**
   * The index of the first largest element: no element exceeds it and every
   * element before it is strictly smaller.
   */
  function ArgMax(xs: seq<real>): (k: nat)
    requires |xs| > 0
    ensures k < |xs|
    ensures forall j :: 0 <= j < |xs| ==> xs[j] <= xs[k]
    ensures forall j :: 0 <= j < k ==> xs[j] < xs[k]
    decreases |xs|
  {
    if |xs| == 1 then 0
    else
      var k := ArgMax(xs[..|xs| - 1]);
      if xs[|xs| - 1] > xs[k] then |xs| - 1 else k
  }

  /**
   * The dominant bin: a row whose time-summed magnitude is at least every
   * other row's, and strictly greater than that of every earlier row.
   */
  function DominantBin(S: Spectrogram): (idx: nat)
    requires |S| > 0
    ensures idx < |S|
    ensures forall j :: 0 <= j < |S| ==> Sum(S[j]) <= Sum(S[idx])
    ensures forall j :: 0 <= j < idx ==> Sum(S[j]) < Sum(S[idx])
  {
    ArgMax(SpectralSum(S))
  }

  /** The FFT length the frequency table is built for when none is passed. */
  const DefaultFftLength: nat := 2048

  /** The standard centre frequency of bin `k` of an `nFft`-point transform. */
  function BinCentre(k: nat, sr: nat, nFft: nat): real
    requires nFft > 0
  {
    k as real * sr as real / nFft as real
  }

  /**
   * The FFT frequency table for sample rate `sr` and the default FFT length:
   * 1025 evenly spaced frequencies from 0 Hz up to the Nyquist frequency.
   */
  function FftFrequencies(sr: nat): (t: seq<real>)
    ensures |t| == DefaultFftLength / 2 + 1
    ensures t[0] == 0.0 && t[|t| - 1] == sr as real / 2.0
    ensures forall k :: 0 <= k < |t| - 1 ==> t[k + 1] - t[k] == sr as real / DefaultFftLength as real
    ensures forall k :: 0 <= k < |t| ==> t[k] == BinCentre(k, sr, DefaultFftLength)
  {
    seq(DefaultFftLength / 2 + 1, k requires k >= 0 => BinCentre(k, sr, DefaultFftLength))
  }

  /**
   * The analysis of a magnitude spectrogram.  It fails when the spectrogram
   * has no bins, and when the winning bin lies past the end of the
   * default-length frequency table (possible when the transform used more
   * than 2048 points); otherwise it reports the table's frequency for the
   * dominant bin and the mode pair of that frequency.
   */
  function AnalyzeSpectrum(S: Spectrogram, sr: nat, mDiv: int, nDiv: int): (r: Result<Analysis>)
    requires mDiv > 0 && nDiv > 0
    ensures |S| == 0 ==> r == Err(EmptySpectrum)
    ensures |S| > 0 && DominantBin(S) > DefaultFftLength / 2 ==> r == Err(BinOutsideTable(DominantBin(S)))
    ensures r.Ok? <==> |S| > 0 && DominantBin(S) <= DefaultFftLength / 2
    ensures r.Ok? ==> r.value.freq == DominantBin(S) as real * sr as real / 2048.0
    ensures r.Ok? ==> r.value.freq >= 0.0
    ensures r.Ok? ==> Modes(r.value.m, r.value.n) == MapToModes(r.value.freq, mDiv, nDiv)
    ensures r.Ok? ==> ValidModes(Modes(r.value.m, r.value.n))
  {
    if |S| == 0 then Err(EmptySpectrum)
    else
      var idx := DominantBin(S);
      var table := FftFrequencies(sr);
      if idx >= |table| then Err(BinOutsideTable(idx))
      else
        var freq := table[idx];
        var modes := MapToModes(freq, mDiv, nDiv);
        Ok(Analysis(freq, modes.m, modes.n))
  }

  /**
   * The reported frequency of a non-zero bin is that bin's true centre
   * exactly when the transform had the default 2048 points; for any other
   * FFT length it is off by the factor nFft / 2048.
   */
  lemma {:induction false} ReportedFrequencyIsCentreIffDefaultLength(idx: nat, sr: nat, nFft: nat)
    requires 0 < idx <= DefaultFftLength / 2 && sr > 0 && nFft > 0
    ensures FftFrequencies(sr)[idx] == BinCentre(idx, sr, nFft) <==> nFft == DefaultFftLength
    ensures FftFrequencies(sr)[idx] * DefaultFftLength as real == BinCentre(idx, sr, nFft) * nFft as real
  {
    assert FftFrequencies(sr)[idx] == BinCentre(idx, sr, DefaultFftLength);
    CentresEqualIff(idx, sr, nFft);
  }

  /** Two FFT lengths give a non-zero bin the same centre only if they are equal. */
  lemma CentresEqualIff(idx: nat, sr: nat, nFft: nat)
    requires idx > 0 && sr > 0 && nFft > 0
    ensures BinCentre(idx, sr, DefaultFftLength) == BinCentre(idx, sr, nFft) <==> nFft == DefaultFftLength
    ensures BinCentre(idx, sr, DefaultFftLength) * DefaultFftLength as real == BinCentre(idx, sr, nFft) * nFft as real
  {
    var p := idx as real * sr as real;
    MulPositive(idx as real, sr as real);
    QuotientsEqualIff(p, DefaultFftLength as real, nFft as real);
  }

  lemma MulPositive(a: real, b: real)
    requires a > 0.0 && b > 0.0
    ensures a * b > 0.0
  {
  }

  /** For a positive numerator, equal quotients mean equal denominators. */
  lemma QuotientsEqualIff(p: real, x: real, y: real)
    requires p > 0.0 && x > 0.0 && y > 0.0
    ensures p / x == p / y <==> x == y
    ensures (p / x) * x == (p / y) * y
  {
    var a, b := p / x, p / y;
    assert a * x == p && b * y == p && a > 0.0;
    if a == b && x < y {
      MulStrictMonotone(a, x, y);
      assert false;
    } else if a == b && y < x {
      MulStrictMonotone(a, y, x);
      assert false;
    }
  }

  /** Sums of rows of zeros are zero. */
  lemma {:induction false} SumOfZeros(xs: seq<real>)
    requires forall j :: 0 <= j < |xs| ==> xs[j] == 0.0
    ensures Sum(xs) == 0.0
    decreases |xs|
  {
    if |xs| > 0 {
      SumOfZeros(xs[..|xs| - 1]);
    }
  }

  /**
   * A silent recording (all magnitudes zero) has no preferred bin: the
   * analysis picks bin 0 and reports 0 Hz, which maps to modes (1, 2).
   */
  lemma {:induction false} SilentSpectrumIsZeroHz(S: Spectrogram, sr: nat, mDiv: int, nDiv: int)
    requires |S| > 0 && mDiv > 0 && nDiv > 0
    requires forall i, j :: 0 <= i < |S| && 0 <= j < |S[i]| ==> S[i][j] == 0.0
    ensures DominantBin(S) == 0
    ensures AnalyzeSpectrum(S, sr, mDiv, nDiv) == Ok(Analysis(0.0, 1, 2))
  {
    var idx := DominantBin(S);
    SumOfZeros(S[0]);
    SumOfZeros(S[idx]);
    assert Band(0.0, mDiv) == 0 && Band(0.0, nDiv) == 0;
  }

  /** Every magnitude of S multiplied by the gain `c`. */
  function Scale(S: Spectrogram, c: real): (T: Spectrogram)
    ensures |T| == |S|
    ensures forall i :: 0 <= i < |S| ==> |T[i]| == |S[i]|
    ensures forall i, j :: 0 <= i < |S| && 0 <= j < |S[i]| ==> T[i][j] == c * S[i][j]
  {
    seq(|S|, i requires 0 <= i < |S| => seq(|S[i]|, j requires 0 <= j < |S[i]| => c * S[i][j]))
  }

  /** Summing commutes with a gain. */
  lemma {:induction false} SumScaled(xs: seq<real>, ys: seq<real>, c: real)
    requires |ys| == |xs|
    requires forall j :: 0 <= j < |xs| ==> ys[j] == c * xs[j]
    ensures Sum(ys) == c * Sum(xs)
    decreases |xs|
  {
    if |xs| > 0 {
      SumScaled(xs[..|xs| - 1], ys[..|ys| - 1], c);
    }
  }

  /** One row of a scaled spectrogram sums to the gain times the row's sum. */
  lemma ScaledRowSum(S: Spectrogram, c: real, i: nat)
    requires i < |S|
    ensures Sum(Scale(S, c)[i]) == c * Sum(S[i])
  {
    var T := Scale(S, c);
    SumScaled(S[i], T[i], c);
  }

  lemma MulMonotone(c: real, a: real, b: real)
    requires c > 0.0 && a <= b
    ensures c * a <= c * b
  {
  }

  lemma MulStrictMonotone(c: real, a: real, b: real)
    requires c > 0.0 && a < b
    ensures c * a < c * b
  {
  }

  /** The first-maximum properties single out one index. */
  lemma ArgMaxUnique(xs: seq<real>, k: nat)
    requires k < |xs|
    requires forall j :: 0 <= j < |xs| ==> xs[j] <= xs[k]
    requires forall j :: 0 <= j < k ==> xs[j] < xs[k]
    ensures ArgMax(xs) == k
  {
  }

  /** Two sequences ordered alike have their first maximum at the same index. */
  lemma ArgMaxOrderInvariant(xs: seq<real>, ys: seq<real>)
    requires |xs| > 0 && |ys| == |xs|
    requires forall i, j :: 0 <= i < |xs| && 0 <= j < |xs| ==> (xs[i] <= xs[j] <==> ys[i] <= ys[j])
    ensures ArgMax(ys) == ArgMax(xs)
  {
    var k := ArgMax(xs);
    forall j | 0 <= j < |ys|
      ensures ys[j] <= ys[k] && (j < k ==> ys[j] < ys[k])
    {
      assert xs[j] <= xs[k] <==> ys[j] <= ys[k];
      assert xs[k] <= xs[j] <==> ys[k] <= ys[j];
    }
    ArgMaxUnique(ys, k);
  }

  /** A positive gain preserves the order of two magnitudes. */
  lemma ScaledOrder(c: real, a: real, b: real, ya: real, yb: real)
    requires c > 0.0 && ya == c * a && yb == c * b
    ensures a <= b <==> ya <= yb
  {
    if a <= b { MulMonotone(c, a, b); }
    if b < a { MulStrictMonotone(c, b, a); }
  }

  /**
   * The dominant bin does not depend on the recording's loudness: scaling
   * every magnitude by a positive gain selects the same bin.
   */
  lemma {:induction false} DominantBinGainInvariant(S: Spectrogram, c: real)
    requires |S| > 0 && c > 0.0
    ensures DominantBin(Scale(S, c)) == DominantBin(S)
  {
    var T := Scale(S, c);
    var sums, scaled := SpectralSum(S), SpectralSum(T);
    forall i, j | 0 <= i < |S| && 0 <= j < |S|
      ensures sums[i] <= sums[j] <==> scaled[i] <= scaled[j]
    {
      ScaledRowSum(S, c, i);
      ScaledRowSum(S, c, j);
      ScaledOrder(c, sums[i], sums[j], scaled[i], scaled[j]);
    }
    ArgMaxOrderInvariant(sums, scaled);
  }

  /**
   * The whole analysis does not depend on the recording's loudness: scaling
   * every magnitude by a positive gain gives the same outcome, error or
   * frequency and mode pair alike.
   */
  lemma {:induction false} AnalysisGainInvariant(S: Spectrogram, c: real, sr: nat, mDiv: int, nDiv: int)
    requires c > 0.0 && mDiv > 0 && nDiv > 0
    ensures AnalyzeSpectrum(Scale(S, c), sr, mDiv, nDiv) == AnalyzeSpectrum(S, sr, mDiv, nDiv)
  {
    if |S| > 0 {
      DominantBinGainInvariant(S, c);
    }
  }
}
