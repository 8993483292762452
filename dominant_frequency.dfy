/** The dominant-frequency demo: each pass of the main loop takes one vertical
    acceleration sample, keeps a 10-sample moving average of it, collects it (with
    gravity removed) into a 256-sample transform window, and when the window is full
    reports the frequency of the strongest spectral bin. Sensor reads, the transform
    and the serial output are outside the model: the sample arrives already scaled
    to g, and the magnitude spectrum is supplied by the caller as `spectrum`. */
module DominantFrequency {
  import opened Rings
  import Int16Bytes

  const MA_WINDOW: nat := 10
  const FFT_SIZE: nat := 256
  /** Number of magnitude bins the transform yields (0 Hz up to just below Nyquist). */
  const BINS: nat := FFT_SIZE / 2
  const SAMPLE_RATE: real := 104.0
  /** 104 / 256 = 0.40625 Hz per bin, exact in single precision. */
  const FREQ_BIN_SIZE: real := SAMPLE_RATE / FFT_SIZE as real
  /** A peak must exceed this magnitude to be reported. */
  const NOISE_THRESHOLD: real := 1.0
  /** The 1 g offset removed from each sample before the transform. */
  const GRAVITY: real := 1.0

  /** `read_int16`: the two register bytes (low, then high) as a signed reading. */
  function ReadInt16(lo: bv8, hi: bv8): (r: int)
    ensures -0x8000 <= r < 0x8000
    ensures r < 0 <==> hi >= 0x80
    ensures Int16Bytes.Split(r) == (lo as int, hi as int)
  {
    Int16Bytes.SplitCombine(lo, hi);
    Int16Bytes.Combine(lo, hi)
  }

  /** The peak the scan over bins 1 .. n-1 leaves in (max_val, max_bin): it starts
      at (0.0, 0) and a bin takes over only when strictly greater. */
  function ScanPeak(mag: seq<real>, n: nat): (peak: (real, nat))
    requires 1 <= n <= |mag|
    ensures peak.1 < n
    decreases n
  {
    if n == 1 then (0.0, 0)
    else
      var (v, b) := ScanPeak(mag, n - 1);
      if mag[n - 1] > v then (mag[n - 1], n - 1) else (v, b)
  }

  /** `(v, b)` is the first strictly positive maximum of bins 1 .. n-1, or `(0.0, 0)`
      when no such bin is positive. */
  ghost predicate IsFirstPeak(mag: seq<real>, n: nat, v: real, b: nat)
    requires n <= |mag|
  {
    && (b == 0 <==> forall i :: 1 <= i < n ==> mag[i] <= 0.0)
    && (b == 0 ==> v == 0.0)
    && (b != 0 ==> && b < n && v == mag[b]
                   && (forall i :: 1 <= i < n ==> mag[i] <= v)
                   && (forall i :: 1 <= i < b ==> mag[i] < v))
  }

  lemma {:induction false} ScanPeakIsFirstPeak(mag: seq<real>, n: nat)
    requires 1 <= n <= |mag|
    ensures IsFirstPeak(mag, n, ScanPeak(mag, n).0, ScanPeak(mag, n).1)
  {
    if n > 1 {
      ScanPeakIsFirstPeak(mag, n - 1);
    }
  }

  /** The peak search over the magnitude spectrum, skipping the DC bin. */
  method FindPeak(mag: seq<real>) returns (maxVal: real, maxBin: nat)
    requires |mag| == BINS
    ensures (maxVal, maxBin) == ScanPeak(mag, BINS)
    ensures IsFirstPeak(mag, BINS, maxVal, maxBin)
  {
    maxVal, maxBin := 0.0, 0;
    for i := 1 to BINS
      invariant (maxVal, maxBin) == ScanPeak(mag, i)
    {
      if mag[i] > maxVal {
        maxVal := mag[i];
        maxBin := i;
      }
    }
    ScanPeakIsFirstPeak(mag, BINS);
  }

  /** The frequency reported for a peak: the bin's centre frequency when the peak
      clears the noise threshold, otherwise 0 Hz. */
  function DominantHz(maxVal: real, maxBin: nat): (f: real)
    requires maxBin < BINS
    ensures 0.0 <= f < SAMPLE_RATE / 2.0
    ensures f == 0.0 <==> maxVal <= NOISE_THRESHOLD || maxBin == 0
    ensures maxVal > NOISE_THRESHOLD ==> f / FREQ_BIN_SIZE == maxBin as real
  {
    if maxVal > NOISE_THRESHOLD then maxBin as real * FREQ_BIN_SIZE else 0.0
  }

  /** The frequency one full window reports, given its magnitude spectrum. */
  function ReportedHz(mag: seq<real>): real
    requires |mag| == BINS
  {
    var (v, b) := ScanPeak(mag, BINS);
    DominantHz(v, b)
  }

  /** A window reports 0 Hz exactly when no bin other than DC rises above the noise
      threshold; otherwise it reports the frequency of the first strongest such bin. */
  lemma ReportedHzMeaning(mag: seq<real>)
    requires |mag| == BINS
    ensures ReportedHz(mag) == 0.0 <==> forall i :: 1 <= i < BINS ==> mag[i] <= NOISE_THRESHOLD
    ensures ReportedHz(mag) != 0.0 ==>
      exists b :: && 1 <= b < BINS && ReportedHz(mag) == b as real * FREQ_BIN_SIZE
                  && mag[b] > NOISE_THRESHOLD
                  && (forall i :: 1 <= i < BINS ==> mag[i] <= mag[b])
                  && (forall i :: 1 <= i < b ==> mag[i] < mag[b])
  {
    ScanPeakIsFirstPeak(mag, BINS);
    var (v, b) := ScanPeak(mag, BINS);
    if ReportedHz(mag) != 0.0 {
      assert 1 <= b < BINS && ReportedHz(mag) == b as real * FREQ_BIN_SIZE;
    }
  }

  /** Entries `s[i] - 1 g`: the samples with gravity removed. */
  function Centered(s: seq<real>): (c: seq<real>)
    ensures |c| == |s|
    ensures forall i :: 0 <= i < |s| ==> c[i] == s[i] - GRAVITY
  {
    seq(|s|, i requires 0 <= i < |s| => s[i] - GRAVITY)
  }

  /** The program's globals: the moving-average ring, the transform input buffer
      with its fill index, and the last reported frequency. */
  class DspLoop {
    var maBuffer: array<real>
    var maIdx: nat
    var maSum: real
    var fftInput: array<real>
    var fftIdx: nat
    var currentDominantFreq: real
    /** Every sample taken so far, oldest first. */
    ghost var samples: seq<real>

    /** The moving-average ring holds the last MA_WINDOW entries of `history`, its
        cursor on the oldest, and `maSum` is its total. */
    ghost predicate AverageHolds(history: seq<real>)
      reads this, maBuffer
    {
      && maBuffer.Length == MA_WINDOW
      && maIdx == |history| % MA_WINDOW
      && maSum == Sum(maBuffer[..])
      && Unrolled(maBuffer[..], maIdx) == Recent(history, MA_WINDOW)
    }

    /** The transform buffer holds, centred, the entries of `history` since the last
        full window. */
    ghost predicate WindowHolds(history: seq<real>)
      reads this, fftInput
    {
      && fftInput.Length == FFT_SIZE
      && fftIdx == |history| % FFT_SIZE
      && fftInput[..fftIdx] == Centered(history[|history| - fftIdx..])
    }

    ghost predicate Valid()
      reads this, maBuffer, fftInput
    {
      AverageHolds(samples) && WindowHolds(samples) && maBuffer != fftInput
    }

    /** The zero-initialised globals at start-up. */
    constructor ()
      ensures Valid() && fresh(maBuffer) && fresh(fftInput)
      ensures samples == [] && currentDominantFreq == 0.0
    {
      maBuffer := new real[MA_WINDOW](_ => 0.0);
      fftInput := new real[FFT_SIZE](_ => 0.0);
      maIdx, maSum, fftIdx, currentDominantFreq := 0, 0.0, 0, 0.0;
      samples := [];
      new;
      assert maBuffer[..] == Zeros(MA_WINDOW);
      SumZeros(MA_WINDOW);
    }

    /** One pass of the main loop for the acceleration sample `accZ` (in g).
        `spectrum` stands for the transform followed by the magnitude step. */
    method Step(accZ: real, spectrum: seq<real> -> seq<real>) returns (filtered: real, analysed: bool)
      requires Valid()
      requires forall s: seq<real> :: |s| == FFT_SIZE ==> |spectrum(s)| == BINS
      modifies this, maBuffer, fftInput
      ensures Valid()
      ensures maBuffer == old(maBuffer) && fftInput == old(fftInput)
      ensures samples == old(samples) + [accZ]
      ensures maBuffer[..] == old(maBuffer[..])[old(maIdx) := accZ]
      ensures maIdx == (old(maIdx) + 1) % MA_WINDOW
      ensures filtered == maSum / MA_WINDOW as real
      ensures filtered == Sum(Recent(samples, MA_WINDOW)) / MA_WINDOW as real
      // The transform uses its input as scratch space, so the window's slots are
      // promised only on passes that do not run it.
      ensures !analysed ==> fftInput[..] == old(fftInput[..])[old(fftIdx) := accZ - GRAVITY]
      ensures analysed <==> old(fftIdx) == FFT_SIZE - 1
      ensures analysed ==> && fftIdx == 0
                           && currentDominantFreq
                              == ReportedHz(spectrum(Centered(samples[|samples| - FFT_SIZE..])))
      ensures !analysed ==> fftIdx == old(fftIdx) + 1 && currentDominantFreq == old(currentDominantFreq)
    {
      filtered := UpdateAverage(accZ);
      analysed := CollectSample(accZ, spectrum);
      samples := samples + [accZ];
    }

    /** Step C: replace the oldest ring entry by `accZ` and return the new mean. */
    method UpdateAverage(accZ: real) returns (filtered: real)
      requires AverageHolds(samples)
      modifies this`maIdx, this`maSum, maBuffer
      ensures AverageHolds(samples + [accZ])
      ensures maBuffer[..] == old(maBuffer[..])[old(maIdx) := accZ]
      ensures maIdx == (old(maIdx) + 1) % MA_WINDOW
      ensures filtered == maSum / MA_WINDOW as real
      ensures filtered == Sum(Recent(samples + [accZ], MA_WINDOW)) / MA_WINDOW as real
    {
      ghost var ring := maBuffer[..];
      SumUpdate(ring, maIdx, accZ);
      PushKeepsRecent(ring, maIdx, samples, accZ);

      maSum := maSum - maBuffer[maIdx];
      maBuffer[maIdx] := accZ;
      maSum := maSum + maBuffer[maIdx];
      maIdx := (maIdx + 1) % MA_WINDOW;
      filtered := maSum / MA_WINDOW as real;

      SumUnrolled(maBuffer[..], maIdx);
    }

    /** Step D: append the centred sample to the transform window; when the window
        is full, report its dominant frequency and start a new window. */
    method CollectSample(accZ: real, spectrum: seq<real> -> seq<real>) returns (analysed: bool)
      requires WindowHolds(samples)
      requires forall s: seq<real> :: |s| == FFT_SIZE ==> |spectrum(s)| == BINS
      modifies this`fftIdx, this`currentDominantFreq, fftInput
      ensures WindowHolds(samples + [accZ])
      // The transform uses its input as scratch space, so the window's slots are
      // promised only on passes that do not run it.
      ensures !analysed ==> fftInput[..] == old(fftInput[..])[old(fftIdx) := accZ - GRAVITY]
      ensures analysed <==> old(fftIdx) == FFT_SIZE - 1
      ensures analysed ==> && fftIdx == 0
                           && currentDominantFreq
                              == ReportedHz(spectrum(Centered((samples + [accZ])[|samples| + 1 - FFT_SIZE..])))
      ensures !analysed ==> fftIdx == old(fftIdx) + 1 && currentDominantFreq == old(currentDominantFreq)
    {
      ghost var history := samples + [accZ];
      ghost var window := samples[|samples| - fftIdx..];
      assert history[|history| - (fftIdx + 1)..] == window + [accZ];

      fftInput[fftIdx] := accZ - GRAVITY;
      fftIdx := fftIdx + 1;
      assert fftInput[..fftIdx] == Centered(window + [accZ]);

      analysed := fftIdx >= FFT_SIZE;
      if analysed {
        assert fftInput[..] == fftInput[..fftIdx];
        var mag := spectrum(fftInput[..]);
        var maxVal, maxBin := FindPeak(mag);
        currentDominantFreq := DominantHz(maxVal, maxBin);
        fftIdx := 0;
      }
    }
  }
}
