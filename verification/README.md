# ChladniSketch core, modelled in Dafny

ChladniSketch turns a short sound into a Chladni figure: the nodal lines of a
vibrating square plate. The pipeline has three stages.

1. **Frequency analysis** (`analyze_frequency`). The magnitude spectrogram of
   the recording is summed over time for each frequency bin. The first bin
   with the largest sum wins. It is turned into Hz through librosa's FFT
   frequency table.
2. **Mode mapping** (also `analyze_frequency`). The frequency is cut into
   bands of width `m_div` and `n_div`. Each band number modulo 6, plus one,
   gives the mode numbers m and n in 1..6. When they collide, n is advanced
   one step round the cycle 1..6.
3. **Pattern field** (`draw_cladogram`). On a 300 × 300 grid over the square
   [0, L]², the field is sin(mπx/L)·sin(nπy/L) ± sin(nπx/L)·sin(mπy/L). The
   sign is + when m + n is even and − when it is odd. Its zero contour is the
   figure.

The model has three modules, one per stage:

- `mode_mapping.dfy` (`ModeMapping`) holds the quantisation and the collision
  rule. It proves that m and n always lie in 1..6 and differ, and that each
  collision step does what the code says. It also proves that the mapping
  agrees with integer division for whole frequencies and that it repeats with
  period 6·m_div·n_div Hz.
- `frequency_analysis.dfy` (`FrequencyAnalysis`) takes the spectrogram as a
  matrix of reals. It covers row sums, the first-maximum argmax, the
  2048-point frequency table and the whole analysis, with its two error
  outcomes. It proves what happens on silence, that neither the dominant bin
  nor the whole analysis depends on loudness, and when the reported frequency
  is a bin's true centre.
- `chladni_pattern.dfy` (`ChladniPattern`) holds the grid, the two products,
  the parity rule and the sampled field. The sine is a parameter
  (`sinPi(t)` stands for sin(πt)), so every law is proved algebraically:
  swapping m and n, reflection in the diagonal, the zero diagonal for odd
  m + n, and (for a sine that vanishes at whole numbers) a zero border.

The code has no silence fallback and a single reduction policy, and its
frequency table and error paths behave as follows:

- There is no fixed fallback frequency for silence. A silent spectrogram
  picks bin 0, so it reports 0 Hz and modes (1, 2). `SilentSpectrumIsZeroHz`
  proves this.
- The spectrogram is reduced in one way only: rows are summed over time and
  the argmax of the sums is taken.
- Bin-to-Hz does not use the transform's `n_fft`. `fft_frequencies` is called
  without `n_fft`, so it uses the 2048-point table whatever `n_fft` the
  transform used. `ReportedFrequencyIsCentreIffDefaultLength` states the
  consequence.
- A bin beyond the table's 1025 entries (possible when `n_fft > 2048`) makes
  `analyze_frequency` raise an index error. `np.argmax` of an empty array raises as
  well. `AnalyzeSpectrum` returns `Err(BinOutsideTable(idx))` or
  `Err(EmptySpectrum)` for these cases instead of requiring them away.
  `FftFrequencies` itself, like the table, only has entries 0..1024.

## Model

| member | source | states |
|---|---|---|
| `ModeMapping.Band` | chladnisketch/streamlit_app.py:20-21 | the band index is the non-negative whole number b with b ≤ freq/div < b + 1 (what `int()` gives for freq ≥ 0) |
| `ModeMapping.Quantize` | chladnisketch/streamlit_app.py:20-21 | a raw mode number lies in 1..6 and is one more than the band index modulo 6 |
| `ModeMapping.Advance` | chladnisketch/streamlit_app.py:23 | the collision step `n % 6 + 1` stays in 1..6, always differs from n, gives n + 1 below 6 and wraps 6 to 1 |
| `ModeMapping.MapToModes` | chladnisketch/streamlit_app.py:20-23 | m and n both lie in 1..6 and m ≠ n; m is the raw quantisation; with no collision n is its raw quantisation; on a collision n is the raw value advanced cyclically |
| `ModeMapping.BandOfWholeFrequency` | chladnisketch/streamlit_app.py:20-21 | for a whole number of Hz the real-valued band index equals integer division f / div |
| `ModeMapping.QuantizeOfWholeFrequency` | chladnisketch/streamlit_app.py:20-21 | for a whole number of Hz the mode number equals the integer formula (f / div) % 6 + 1 |
| `ModeMapping.QuantizePeriodic` | chladnisketch/streamlit_app.py:20-21 | adding any whole number of 6-band cycles (6·k·div Hz) to the frequency leaves its mode number unchanged |
| `ModeMapping.PairPeriod` | chladnisketch/streamlit_app.py:20-21 | 6·m_div·n_div Hz is positive and is a whole number of 6-band cycles for each of the two dividers |
| `ModeMapping.MapToModesPeriodic` | chladnisketch/streamlit_app.py:20-23 | frequencies 6·m_div·n_div Hz apart map to the same mode pair |
| `ModeMapping.QuantizeReachesEveryMode` | chladnisketch/streamlit_app.py:20-21 | every mode number 1..6 is produced, by the lower edge of its band |
| `ModeMapping.DefaultDividersAt440Hz` | chladnisketch/streamlit_app.py:20-23 | with the slider defaults 150 and 100, a reported frequency of 440 Hz maps to (3, 5) with no collision |
| `ModeMapping.CollisionWrapsAtSix` | chladnisketch/streamlit_app.py:22-23 | at 500 Hz with both dividers 100 both raw values are 6, and the collision rule gives (6, 1) |
| `FrequencyAnalysis.ChooseSignal` | chladnisketch/streamlit_app.py:15 | the analysed signal is the trimmed one when that is non-empty, otherwise the original; it is empty only when both are |
| `FrequencyAnalysis.SpectralSum` | chladnisketch/streamlit_app.py:17 | one sum per frequency bin, each the total of that bin's row over all frames |
| `FrequencyAnalysis.ArgMax` | chladnisketch/streamlit_app.py:18 | a valid index whose element is at least every element and strictly greater than every earlier one (first maximum on ties) |
| `FrequencyAnalysis.ArgMaxUnique` | chladnisketch/streamlit_app.py:18 | the first-maximum properties determine the argmax uniquely |
| `FrequencyAnalysis.DominantBin` | chladnisketch/streamlit_app.py:16-18 | the selected bin is a valid row; its time-summed magnitude is at least every row's and strictly greater than every earlier row's |
| `FrequencyAnalysis.FftFrequencies` | chladnisketch/streamlit_app.py:19 | the default table has 1025 entries; it runs from 0 Hz to the Nyquist frequency sr/2 in steps of sr/2048; entry k is the bin centre k·sr/2048 |
| `FrequencyAnalysis.AnalyzeSpectrum` | chladnisketch/streamlit_app.py:13-24 | it fails exactly when the spectrogram is empty or the dominant bin exceeds 1024, naming which; otherwise freq = idx·sr/2048 ≥ 0 and (m, n) is the mode mapping of freq, in range and distinct |
| `FrequencyAnalysis.ReportedFrequencyIsCentreIffDefaultLength` | chladnisketch/streamlit_app.py:16-19 | for a non-zero bin, the reported Hz equals that bin's true centre idx·sr/n_fft exactly when n_fft = 2048; otherwise it is off by the factor n_fft/2048 |
| `FrequencyAnalysis.SumOfZeros` | chladnisketch/streamlit_app.py:17 | a row of zero magnitudes sums to zero |
| `FrequencyAnalysis.SilentSpectrumIsZeroHz` | chladnisketch/streamlit_app.py:16-24 | an all-zero spectrogram selects bin 0, so the analysis reports 0 Hz and modes (1, 2) |
| `FrequencyAnalysis.DominantBinGainInvariant` | chladnisketch/streamlit_app.py:16-18 | multiplying every magnitude by a positive gain selects the same dominant bin |
| `FrequencyAnalysis.AnalysisGainInvariant` | chladnisketch/streamlit_app.py:13-24 | multiplying every magnitude by a positive gain leaves the whole analysis unchanged: the same error, or the same frequency and mode pair |
| `ChladniPattern.Linspace` | chladnisketch/streamlit_app.py:28 | 300 coordinates, the first 0 and the last L, evenly spaced L/299 apart |
| `ChladniPattern.FieldAt` | chladnisketch/streamlit_app.py:29-39 | the field is term1 + term2 when m + n is even and term1 − term2 when it is odd |
| `ChladniPattern.FieldGrid` | chladnisketch/streamlit_app.py:28-39 | a 300 × 300 sampling whose row r, column c is the field at x = xs[c], y = xs[r] (the meshgrid layout) |
| `ChladniPattern.TermsSwap` | chladnisketch/streamlit_app.py:29-31 | swapping m and n turns term1 into term2 and term2 into term1 |
| `ChladniPattern.FieldSwap` | chladnisketch/streamlit_app.py:29-39 | swapping m and n keeps the field when m + n is even and negates it when odd |
| `ChladniPattern.FieldDiagonalReflection` | chladnisketch/streamlit_app.py:29-39 | exchanging x and y keeps the field for even m + n and negates it for odd; for odd m + n the diagonal is a zero line |
| `ChladniPattern.EqualModesDegenerate` | chladnisketch/streamlit_app.py:29-34 | with m = n the field is twice a single product of sines |
| `ChladniPattern.GridSwap` | chladnisketch/streamlit_app.py:28-39 | on the sampled grid, swapping m and n gives the same grid for even m + n and the sample-wise negation for odd |
| `ChladniPattern.GridDiagonal` | chladnisketch/streamlit_app.py:28-39 | for odd m + n every diagonal sample is 0; for even m + n the grid equals its transpose |
| `ChladniPattern.FieldVanishesOnEdges` | chladnisketch/streamlit_app.py:29-39 | for a sine that vanishes at whole numbers, the field is 0 on all four edges x = 0, x = L, y = 0, y = L |
| `ChladniPattern.GridBorderIsZero` | chladnisketch/streamlit_app.py:28-39 | for such a sine, the first and last row and column of the sampled grid are 0 |

## Left out

- Signal processing: `librosa.load`, `librosa.effects.trim` and `librosa.stft`
  are floating-point DSP in a foreign library. The spectrogram is an input,
  and the trimming fallback is modelled only as the choice between two given
  signals (`ChooseSignal`).
- The parameters `n_fft` and `hop_length` of `analyze_frequency` only reach
  `librosa.stft`, where they shape the input spectrogram. `hop_length` appears
  nowhere in the model; `n_fft` appears only in `BinCentre` and
  `ReportedFrequencyIsCentreIffDefaultLength`, which compare the 2048-point
  table with the transform's true bin centres.
- Floating point: all quantities are exact reals. Rounding in the division
  `freq / div`, in the row sums and in `linspace` is not modelled. Neither is
  the summation order numpy uses.
- The sine: `np.sin` is the parameter `sinPi`. Only `FieldVanishesOnEdges` and
  `GridBorderIsZero` assume anything about it, namely that it vanishes at
  whole numbers.
- ChladniPattern.FieldAt: requires L ≠ 0. `draw_cladogram` divides by L, and at
  L = 0 numpy would produce NaN rather than a field. The app always uses the
  default L = 1.0.
- Contour extraction and rendering (`ax.contour` at level 0, `axis("off")`,
  `savefig`): these belong to matplotlib and image export. The model stops at
  the sampled field, whose zero samples the lemmas describe.
- The Streamlit UI in `main`: sliders, input-mode radio, file upload,
  microphone recording, the run button, the no-audio error message, the
  stored last result and the download button.
