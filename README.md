# Signal-processing core of two mbed motion programs, in Dafny

This project models the decision and signal-processing logic of two bare-metal
programs that read an LSM6DSL inertial sensor:

- `main.cpp`, a **dominant-frequency demo**. Each pass of its main loop joins two
  register bytes into a signed reading. It keeps a 10-sample moving average in a
  ring (`ma_buffer`, `ma_idx`, `ma_sum`), and it collects centred samples into a
  256-entry transform window (`fft_input`, `fft_idx`). When the window is full,
  it searches the magnitude spectrum for its strongest non-DC bin and reports
  that bin's frequency (0.40625 Hz per bin), or 0 Hz below a noise threshold.
- `src/main.cpp`, a **Parkinson symptom detector**. A 52 Hz tick stores
  acceleration and angular-rate magnitudes in two 156-entry rings that share one
  cursor. Every three seconds each ring is analysed: its mean is removed, it is
  zero-padded to 256 points and transformed, and its spectrum is reduced to band
  energies (walk and freeze-jitter from acceleration, tremor and dyskinesia from
  angular rate; 0.203125 Hz per bin). A priority rule engine then turns the four
  energies into the freeze, tremor and dyskinesia LEDs. `print_float` formats
  the diagnostic values.

Modules:
- `Int16Bytes` holds the byte combine both programs share, `(int16_t)((hi << 8) | lo)`,
  and its inverse.
- `Rings` holds running sums and the reading of a ring buffer whose cursor wraps.
- `DominantFrequency` models `main.cpp`. The class `DspLoop` holds the program's
  globals.
- `Bands`, `Classifier` and `Detector` model `src/main.cpp`. The class `Detector`
  holds the rings and the transform input buffer.

Single-precision `float` is modelled as `real`. The constants that decide band
membership and the reported frequency are exact in single precision: 104/256,
52/256, every bin frequency k·52/256, and the band edges 0.5, 3, 5, 7 and 8 Hz.
So the bin-to-band assignment and the reported frequencies are exactly those of
the model. Other constants are not exact in single precision (see "## Left out"). Each class keeps a ghost history of every sample
taken, and its invariant ties the rings to that history. "The ring holds the
most recent samples" is therefore proved, not just assumed.

## Model

| member | source | states |
|---|---|---|
| Int16Bytes.Combine | main.cpp:80 | `(int16_t)((hi << 8) \| lo)` is hi·256+lo when hi < 128 and hi·256+lo−65536 otherwise, always in [−32768, 32767] |
| Int16Bytes.CombineSplit | main.cpp:73-81 | combining the stored bytes of any 16-bit reading gives that reading back |
| Int16Bytes.SplitCombine | src/main.cpp:44-49 | every byte pair is the stored form of the value it combines to, so the combine loses no information |
| DominantFrequency.ReadInt16 | main.cpp:73-81 | `read_int16` yields a value in [−32768, 32767]. It is negative exactly when the high byte's top bit is set, and its two's-complement bytes are (lo, hi) |
| DominantFrequency.ScanPeakIsFirstPeak | main.cpp:174-183 | the scan yields max_bin = 0 and max_val = 0 iff no bin in [1,128) is positive. Otherwise max_bin is in [1,128), max_val = mag[max_bin] ≥ every bin in [1,128), and every earlier bin is strictly smaller (the first index reaching the maximum) |
| DominantFrequency.FindPeak | main.cpp:174-183 | the peak-search loop returns exactly the scan's result, and so the first strictly positive maximum over bins 1..127 |
| DominantFrequency.DominantHz | main.cpp:185-191 | the reported frequency is 0 exactly when max_val ≤ 1.0 (1.0 itself included) or max_bin = 0. Otherwise it is max_bin·104/256, and it always lies in [0, 52) |
| DominantFrequency.ReportedHzMeaning | main.cpp:166-191 | a full window reports 0 Hz iff no bin in [1,128) exceeds 1.0. Otherwise it reports b·104/256 for the first bin b holding the window's maximum, and that maximum exceeds 1.0 |
| DominantFrequency.DspLoop.constructor | main.cpp:37-46 | the globals start zeroed and satisfy the invariant: the sum equals the ring's total, and both indices are in range and track the sample count |
| DominantFrequency.DspLoop.UpdateAverage | main.cpp:147-156 | writes only `ma_buffer[old ma_idx]` (to `acc_z`), and advances `ma_idx` by one modulo 10. `ma_sum` stays the ring's total, and the returned average is the mean of the last 10 samples, with zeros counted during warm-up |
| DominantFrequency.DspLoop.CollectSample | main.cpp:159-195 | stores `acc_z − 1` in `fft_input[old fft_idx]`. The transform runs exactly when that was slot 255; the window then holds the last 256 centred samples, the reported frequency is that window's, and `fft_idx` resets to 0. Otherwise `fft_idx` advances, the frequency is unchanged, and no other slot of `fft_input` changes |
| DominantFrequency.DspLoop.Step | main.cpp:130-195 | one main-loop pass: the moving-average update followed by the window fill, keeping the invariant (`ma_idx` in [0,10), `fft_idx` in [0,256), sum equals ring total) |
| Rings.SumUpdate | main.cpp:150-152 | subtracting the overwritten entry and adding the new one keeps a running total equal to the ring's sum |
| Rings.PushKeepsRecent | main.cpp:149-153 | writing the oldest slot and moving the cursor on by one modulo the capacity keeps the ring holding the most recent samples, read oldest first from the cursor |
| Rings.RecentWhenWarmingUp | main.cpp:38 | before the ring is full, its window is the zeros it was initialised with followed by every sample taken |
| Rings.RecentWhenPrimed | src/main.cpp:133-136 | once at least capacity samples were taken, the ring's window is exactly the last capacity samples |
| Bands.ChannelEnergies | src/main.cpp:158-163 | the band loop over bins 1..127 yields each band's energy, that is, the sum of the magnitudes of the bins whose frequency k·52/256 lies in the band |
| Bands.DcBinIgnored | src/main.cpp:159 | the DC bin never contributes: changing bin 0 changes no band energy |
| Bands.EnergyNonNegative | src/main.cpp:158-163 | if all magnitudes are ≥ 0, every band energy is ≥ 0 |
| Bands.BandBins | src/main.cpp:156-163 | bin k falls in walk iff 3 ≤ k ≤ 14, in fog iff 15 ≤ k ≤ 39, in tremor iff 15 ≤ k ≤ 24, and in dysk iff 25 ≤ k ≤ 34 |
| Bands.BandEnergiesAsBinSums | src/main.cpp:178-183 | walk, fog, tremor and dysk are the plain sums of bins 3..14, 15..39, 15..24 and 25..34 |
| Bands.AdjacentBandsDisjoint | src/main.cpp:161-162 | no frequency is in both walk and fog, or in both tremor and dysk. 3.0 Hz belongs to walk (not fog) and to tremor, and 5.0 Hz to tremor (not dysk) |
| Bands.ImpulseEnergy | src/main.cpp:179-183 | unit magnitude in one bin adds 1 to a band exactly when the bin is not DC and the band holds its frequency |
| Bands.ImpulseLandsInOneBand | src/main.cpp:159-163 | unit magnitude in a single bin is counted exactly once per channel inside 0.5–8 Hz (acceleration) or 3–7 Hz (angular rate), and not at all outside: there is no double counting at shared edges |
| Classifier.FogRatio | src/main.cpp:185 | `fog_ratio` is non-negative and finite (at most fog/0.0001), and multiplying it by walk + 0.0001 gives fog back |
| Classifier.Classify | src/main.cpp:187-210 | freeze and dysk LEDs are never both lit, nor tremor and dysk. Walk ≥ 5 clears all three. Dysk > 5 rules out freezing. The thresholds are strict (an energy of exactly 5.0 never lights its LED). While freezing, the tremor LED equals tremor presence. Outside freezing, tremor = dysk lights neither |
| Classifier.FreezeCondition | src/main.cpp:192-194 | freezing is reported iff fog > 3·(walk + 0.0001), walk < 5 and dysk ≤ 5 |
| Detector.ReadAxis | src/main.cpp:44-49 | `read_axis` yields a value in [−32768, 32767]. It is negative exactly when the high byte's top bit is set, and its two's-complement bytes are (lo, hi) |
| Detector.Prepared | src/main.cpp:144-151 | the prepared window has length 256. Its first 156 entries (the samples less their mean) sum to 0, and entries 156..255 are 0 |
| Detector.SumShifted | src/main.cpp:148-149 | subtracting m from each of n samples lowers their sum by n·m |
| Detector.WindowEnergies | src/main.cpp:156-183 | the four energies of a window are non-negative, and they are the sums of acceleration bins 3..14 and 15..39 and of angular-rate bins 15..24 and 25..34 |
| Detector.Detector.constructor | src/main.cpp:68-75 | rings and cursor start zeroed and satisfy the invariant |
| Detector.Detector.Sample | src/main.cpp:133-136 | writes only `accel_buf[buf_idx]` and `gyro_buf[buf_idx]`. `buf_idx` stays in [0,156) and wraps to 0 exactly when it would reach 156. Both rings keep holding their channel's 156 most recent magnitudes |
| Detector.Detector.PrepareWindow | src/main.cpp:166-173 | computes the window's mean by the accumulating loop and leaves `fft_in` equal to the prepared window: samples less their mean, then zeros |
| Detector.Detector.ProcessWindow | src/main.cpp:143-210 | the analysis pass yields the band energies of both rings' prepared windows and the classifier's LEDs for them. The analysed ring is in time order when the cursor is at 0 |
| Detector.TruncateToInt | src/main.cpp:85 | `(int)x` truncates toward zero: the result lies within 1 of x, on zero's side |
| Detector.PrintFloat | src/main.cpp:84-89 | `ip` is v truncated toward zero, and `fp` in [0, 999] is the first three decimals of the fractional part's magnitude |
| Detector.PrintFloatAccurate | src/main.cpp:84-89 | for v ≥ 0 or v ≤ −1 the printed text is within 0.001 of v and has v's sign |
| Detector.PrintFloatDropsSign | src/main.cpp:85-88 | for v = −0.5 the program prints "0.500", a positive number |
| Detector.PrintFloatSigned | src/main.cpp:84-89 | with a minus sign added when v < 0 and ip = 0, the printed text is always within 0.001 of v and never has the opposite sign |

## Left out

- I2C register access (`write_reg`, `read_reg`), `init_sensor` and the WHO_AM_I halt loops are left out as hardware I/O. The byte combines take the two register bytes as inputs. When `read_reg` fails, the program combines uninitialised bytes; the model does not represent that case.
- `arm_rfft_fast_init_f32`, `arm_rfft_fast_f32` and `arm_cmplx_mag_f32` are foreign library calls. They appear as the parameter `spectrum`, from a 256-entry window to 128 magnitudes. The detector also requires these magnitudes to be non-negative, as square roots are.
- `Ticker`, `tick_isr`, `sample_flag` and the three-second `Timer` (src/main.cpp:79-81, 103-107, 140-141) are interrupt and timer timing. `tick_isr` only sets `sample_flag`, and the main loop runs the sampling body (src/main.cpp:112-137) and the analysis body (src/main.cpp:140-221) one after the other, as `Detector.Sample` and `Detector.ProcessWindow` do. What the model leaves out is timing: ticks that arrive while an analysis pass runs merge into the single boolean flag, so those samples are lost and the ring then covers more than three seconds. It also does not model drift between the two timing sources.
- DspLoop.CollectSample, DspLoop.Step, Detector.ProcessWindow: `arm_rfft_fast_f32` uses its input buffer as scratch space and overwrites it. The model does not say what `fft_input` / `fft_in` hold after a transform has run; no output depends on it, because every slot is rewritten before the next transform.
- The LEDs (`DigitalOut`), `printf`, the diagnostic "Is tremor?/Is dysk?" lines (src/main.cpp:218-220) and `ThisThread::sleep_for` are output and delay only.
- IEEE single-precision rounding is not modelled: `float` is `real`. In particular, `ma_sum` does not drift in the model. Some constants are not exact in single precision and the model uses their decimal values: `EPSILON` 0.0001 and `DOMINANCE_RATIO` 1.2 (src/main.cpp:185, 205, 208; `1.2f` is 1.2000000477), and the scale factors 0.244, 0.000061 and 0.00875 (main.cpp:138, src/main.cpp:119-130). A comparison that is decided within a rounding error of these values may come out differently in the program. The unit scaling of raw readings (main.cpp:138, src/main.cpp:119-121, 128-130) and the `sqrtf` vector magnitudes (src/main.cpp:122, 131) are not modelled; their results are the real inputs of `DspLoop.Step` and `Detector.Sample`.
- Detector.PrintFloat: requires v to lie in (−2³¹−1, 2³¹), because C++ defines the `float`-to-`int` conversion only when the truncated value fits. The model does not say what happens outside that range.
- Two behaviours of the code worth noting, both modelled as written:
  - Freezing requires dyskinesia to be absent (src/main.cpp:193), so elevated dyskinesia rules out freezing rather than being vetoed by it (`Classifier.Classify`, `Classifier.FreezeCondition`).
  - The ring's wrap is not aligned with the three-second trigger. `Detector.ProcessWindow` shows that the ring is analysed in time order only when the cursor is at 0; otherwise the window is a rotation of it.

## Findings

| source | as written | input that shows it | evidently intended | confidence | as-written member | corrected member |
|---|---|---|---|---|---|---|
| src/main.cpp:85-88 | `ip = (int)v; fp = \|(int)((v - ip) * 1000)\|;` printed as `"%d.%03d"`. The sign is carried only by `ip` | v = −0.5: `ip` = 0 and `fp` = 500, so the text is "0.500" | "-0.500": a value between −1 and 0 keeps its minus sign | medium, not executed (the values the program prints are non-negative in practice) | Detector.PrintFloatDropsSign | Detector.PrintFloatSigned |
