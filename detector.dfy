/** The Parkinson detector: a 52 Hz tick stores the magnitudes of one acceleration
    and one angular-rate vector in two 156-entry rings (three seconds each); every
    three seconds each ring is detrended, zero-padded to 256 points, transformed,
    and reduced to two band energies, which the classifier turns into three LEDs.
    Sensor reads, vector magnitudes, the transform, the timers and the serial
    output are outside the model: magnitudes arrive as reals and the magnitude
    spectrum is supplied by the caller as `spectrum`. */
module Detector {
  import opened Rings
  import opened Bands
  import opened Classifier
  import Int16Bytes

  /** Samples per analysis window: 52 Hz for 3 s. */
  const RAW_SAMPLES: nat := 156

  /** `read_axis`: the two register bytes (low, then high) as a signed reading. */
  function ReadAxis(lo: bv8, hi: bv8): (r: int)
    ensures -0x8000 <= r < 0x8000
    ensures r < 0 <==> hi >= 0x80
    ensures Int16Bytes.Split(r) == (lo as int, hi as int)
  {
    Int16Bytes.SplitCombine(lo, hi);
    Int16Bytes.Combine(lo, hi)
  }

  // ---------------------------------------------------------------------------
  // Window preparation

  function Mean(s: seq<real>): real
    requires |s| > 0
  {
    Sum(s) / |s| as real
  }

  /** `s` with `m` subtracted from every entry. */
  function Shifted(s: seq<real>, m: real): (d: seq<real>)
    ensures |d| == |s|
    ensures forall i :: 0 <= i < |s| ==> d[i] == s[i] - m
  {
    seq(|s|, i requires 0 <= i < |s| => s[i] - m)
  }

  lemma {:induction false} SumShifted(s: seq<real>, m: real)
    ensures Sum(Shifted(s, m)) == Sum(s) - |s| as real * m
  {
    if s != [] {
      assert Shifted(s, m)[..|s| - 1] == Shifted(s[..|s| - 1], m);
      SumShifted(s[..|s| - 1], m);
    }
  }

  /** The transform input for one window: the samples less their mean, then zeros
      up to the transform length. */
  function Prepared(s: seq<real>): (w: seq<real>)
    requires 0 < |s| <= FFT_SIZE
    ensures |w| == FFT_SIZE
    ensures Sum(w[..|s|]) == 0.0
    ensures forall i :: |s| <= i < FFT_SIZE ==> w[i] == 0.0
  {
    var d := Shifted(s, Mean(s));
    SumShifted(s, Mean(s));
    var w := d + Zeros(FFT_SIZE - |s|);
    assert w[..|s|] == d;
    w
  }

  /** The magnitude spectra the transform collaborator yields: BINS entries, none negative. */
  ghost predicate IsMagnitudeSpectrum(spectrum: seq<real> -> seq<real>)
  {
    forall s: seq<real> :: |s| == FFT_SIZE ==>
      |spectrum(s)| == BINS && forall k :: 0 <= k < BINS ==> spectrum(s)[k] >= 0.0
  }

  /** The four band energies of a window, from its two magnitude spectra. */
  function WindowEnergies(accelMag: seq<real>, gyroMag: seq<real>): (e: BandEnergySet)
    requires |accelMag| == BINS && |gyroMag| == BINS
    requires forall k :: 0 <= k < BINS ==> accelMag[k] >= 0.0
    requires forall k :: 0 <= k < BINS ==> gyroMag[k] >= 0.0
    ensures e.walk == Sum(accelMag[3..15]) && e.fog == Sum(accelMag[15..40])
    ensures e.tremor == Sum(gyroMag[15..25]) && e.dysk == Sum(gyroMag[25..35])
  {
    EnergyNonNegative(accelMag, WALK, BINS);
    EnergyNonNegative(accelMag, FOG, BINS);
    EnergyNonNegative(gyroMag, TREMOR, BINS);
    EnergyNonNegative(gyroMag, DYSK, BINS);
    BandEnergiesAsBinSums(accelMag);
    BandEnergiesAsBinSums(gyroMag);
    BandEnergySet(BandEnergy(accelMag, WALK, BINS), BandEnergy(accelMag, FOG, BINS),
                  BandEnergy(gyroMag, TREMOR, BINS), BandEnergy(gyroMag, DYSK, BINS))
  }

  // ---------------------------------------------------------------------------
  // The program's buffers

  class Detector {
    var accelBuf: array<real>
    var gyroBuf: array<real>
    /** The write cursor both rings share. */
    var bufIdx: nat
    var fftIn: array<real>
    /** Every magnitude stored so far, oldest first. */
    ghost var accelHistory: seq<real>
    ghost var gyroHistory: seq<real>

    /** Both rings hold their channel's RAW_SAMPLES most recent magnitudes, read
        oldest first from the shared cursor. */
    ghost predicate Valid()
      reads this, accelBuf, gyroBuf
    {
      && accelBuf.Length == RAW_SAMPLES && gyroBuf.Length == RAW_SAMPLES
      && fftIn.Length == FFT_SIZE
      && accelBuf != gyroBuf && accelBuf != fftIn && gyroBuf != fftIn
      && |accelHistory| == |gyroHistory|
      && bufIdx == |accelHistory| % RAW_SAMPLES
      && Unrolled(accelBuf[..], bufIdx) == Recent(accelHistory, RAW_SAMPLES)
      && Unrolled(gyroBuf[..], bufIdx) == Recent(gyroHistory, RAW_SAMPLES)
    }

    /** The zero-initialised buffers at start-up. */
    constructor ()
      ensures Valid() && fresh(accelBuf) && fresh(gyroBuf) && fresh(fftIn)
      ensures accelHistory == [] && gyroHistory == []
    {
      accelBuf := new real[RAW_SAMPLES](_ => 0.0);
      gyroBuf := new real[RAW_SAMPLES](_ => 0.0);
      fftIn := new real[FFT_SIZE](_ => 0.0);
      bufIdx := 0;
      accelHistory, gyroHistory := [], [];
      new;
      assert accelBuf[..] == Zeros(RAW_SAMPLES) == gyroBuf[..];
    }

    /** One tick: store both magnitudes at the shared cursor and advance it, wrapping
        to 0 when it reaches RAW_SAMPLES. */
    method Sample(amag: real, gmag: real)
      requires Valid()
      modifies this`bufIdx, this`accelHistory, this`gyroHistory, accelBuf, gyroBuf
      ensures Valid()
      ensures accelHistory == old(accelHistory) + [amag]
      ensures gyroHistory == old(gyroHistory) + [gmag]
      ensures accelBuf[..] == old(accelBuf[..])[old(bufIdx) := amag]
      ensures gyroBuf[..] == old(gyroBuf[..])[old(bufIdx) := gmag]
      ensures bufIdx == if old(bufIdx) + 1 == RAW_SAMPLES then 0 else old(bufIdx) + 1
    {
      PushKeepsRecent(accelBuf[..], bufIdx, accelHistory, amag);
      PushKeepsRecent(gyroBuf[..], bufIdx, gyroHistory, gmag);
      accelBuf[bufIdx] := amag;
      gyroBuf[bufIdx] := gmag;
      bufIdx := bufIdx + 1;
      if bufIdx >= RAW_SAMPLES {
        bufIdx := 0;
      }
      accelHistory := accelHistory + [amag];
      gyroHistory := gyroHistory + [gmag];
    }

    /** Mean, DC removal and zero padding of one ring into the transform input. */
    method PrepareWindow(window: array<real>) returns (mean: real)
      requires Valid() && (window == accelBuf || window == gyroBuf)
      modifies fftIn
      ensures mean == Mean(window[..])
      ensures fftIn[..] == Prepared(window[..])
    {
      mean := 0.0;
      for i := 0 to RAW_SAMPLES
        invariant mean == Sum(window[..i])
      {
        assert window[..i + 1][..i] == window[..i];
        mean := mean + window[i];
      }
      assert window[..RAW_SAMPLES] == window[..];
      mean := mean / RAW_SAMPLES as real;

      for i := 0 to RAW_SAMPLES
        invariant forall j :: 0 <= j < i ==> fftIn[j] == window[j] - mean
      {
        fftIn[i] := window[i] - mean;
      }
      for i := RAW_SAMPLES to FFT_SIZE
        invariant forall j :: 0 <= j < RAW_SAMPLES ==> fftIn[j] == window[j] - mean
        invariant forall j :: RAW_SAMPLES <= j < i ==> fftIn[j] == 0.0
      {
        fftIn[i] := 0.0;
      }
      assert fftIn[..] == Prepared(window[..]);
    }

    /** The three-second analysis pass: both channels' energies, then the LEDs. */
    method ProcessWindow(spectrum: seq<real> -> seq<real>) returns (energies: BandEnergySet, leds: Leds)
      requires Valid()
      requires IsMagnitudeSpectrum(spectrum)
      modifies fftIn
      ensures energies == WindowEnergies(spectrum(Prepared(accelBuf[..])), spectrum(Prepared(gyroBuf[..])))
      ensures leds == Classify(energies)
      // Only when the trigger meets the cursor at 0 is each window in time order.
      ensures bufIdx == 0 ==> accelBuf[..] == Recent(accelHistory, RAW_SAMPLES)
                              && gyroBuf[..] == Recent(gyroHistory, RAW_SAMPLES)
    {
      assert Unrolled(accelBuf[..], 0) == accelBuf[..];
      assert Unrolled(gyroBuf[..], 0) == gyroBuf[..];

      var _ := PrepareWindow(accelBuf);
      var accelMag := spectrum(fftIn[..]);
      var walk, fog := ChannelEnergies(accelMag, WALK, FOG);

      var _ := PrepareWindow(gyroBuf);
      var gyroMag := spectrum(fftIn[..]);
      var tremor, dysk := ChannelEnergies(gyroMag, TREMOR, DYSK);

      energies := WindowEnergies(accelMag, gyroMag);
      assert energies == BandEnergySet(walk, fog, tremor, dysk);
      leds := Classify(energies);
    }
  }

  // ---------------------------------------------------------------------------
  // Telemetry formatting

  /** `(int)x`: conversion toward zero. */
  function TruncateToInt(x: real): (n: int)
    ensures 0.0 <= x ==> n as real <= x < n as real + 1.0
    ensures x < 0.0 ==> n as real - 1.0 < x <= n as real
  {
    if x >= 0.0 then x.Floor else -((-x).Floor)
  }

  function Abs(x: real): real
  {
    if x < 0.0 then -x else x
  }

  /** `print_float` as written: the integer part `ip` and three decimals `fp` that
      `"%d.%03d"` prints. The conversion to `int` is defined only for values whose
      truncation fits in 32 bits. */
  function PrintFloat(v: real): (parts: (int, int))
    requires -2147483649.0 < v < 2147483648.0
    ensures v >= 0.0 ==> parts.0 as real <= v < parts.0 as real + 1.0
    ensures v < 0.0 ==> parts.0 as real - 1.0 < v <= parts.0 as real
    ensures 0 <= parts.1 <= 999
    ensures parts.1 as real <= Abs(v - parts.0 as real) * 1000.0 < parts.1 as real + 1.0
  {
    var ip := TruncateToInt(v);
    var fp := TruncateToInt((v - ip as real) * 1000.0);
    (ip, if fp < 0 then -fp else fp)
  }

  /** The number the text `"%d.%03d"` of (ip, fp) reads as, given a leading minus
      sign printed before it when `minus` holds. */
  function Shown(minus: bool, ip: int, fp: int): real
  {
    var magnitude := Abs(ip as real) + fp as real / 1000.0;
    if minus || ip < 0 then -magnitude else magnitude
  }

  /** As written, the printed text is within 0.001 of `v` and carries its sign,
      except between -1 and 0, where `ip` is 0 and the minus sign is lost. */
  lemma PrintFloatAccurate(v: real)
    requires -2147483649.0 < v < 2147483648.0
    requires v >= 0.0 || v <= -1.0
    ensures var (ip, fp) := PrintFloat(v);
            && Abs(Shown(false, ip, fp) - v) < 0.001
            && (v < 0.0 ==> Shown(false, ip, fp) < 0.0)
  {
  }

  /** For v = -0.5 the program prints "0.500": a positive number. */
  lemma PrintFloatDropsSign()
    ensures PrintFloat(-0.5) == (0, 500)
    ensures Shown(false, 0, 500) == 0.5
  {
    assert TruncateToInt(-0.5) == 0;
    assert TruncateToInt(-0.5 * 1000.0) == -500;
  }

  /** `print_float` with the sign restored: a minus sign is printed ahead of the
      digits when `v` is negative but its integer part is 0. */
  function PrintFloatSigned(v: real): (text: (bool, int, int))
    requires -2147483649.0 < v < 2147483648.0
    ensures Abs(Shown(text.0, text.1, text.2) - v) < 0.001
    ensures v < 0.0 ==> Shown(text.0, text.1, text.2) <= 0.0
    ensures v >= 0.0 ==> Shown(text.0, text.1, text.2) >= 0.0
  {
    var (ip, fp) := PrintFloat(v);
    (v < 0.0 && ip == 0, ip, fp)
  }
}
