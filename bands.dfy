/** Band-energy extraction of the Parkinson detector: with 52 Hz sampling and a
    256-point transform, bin k stands for k * 52/256 Hz, and each non-DC bin below
    Nyquist adds its magnitude to every band of its channel whose range holds that
    frequency. */
module Bands {
  import opened Rings

  const SAMPLE_RATE: nat := 52
  const FFT_SIZE: nat := 256
  /** Number of magnitude bins the transform yields. */
  const BINS: nat := FFT_SIZE / 2
  /** 52 / 256 = 0.203125 Hz per bin, exact in single precision, as is every k * HZ_PER_BIN. */
  const HZ_PER_BIN: real := SAMPLE_RATE as real / FFT_SIZE as real

  /** A frequency range closed at `high` and, when `lowClosed`, also at `low`. */
  datatype Band = Band(low: real, lowClosed: bool, high: real)
  {
    predicate Contains(f: real)
    {
      (if lowClosed then low <= f else low < f) && f <= high
    }
  }

  /** Acceleration bands: gait 0.5 .. 3 Hz and freeze-of-gait jitter above 3 up to 8 Hz. */
  const WALK := Band(0.5, true, 3.0)
  const FOG := Band(3.0, false, 8.0)
  /** Angular-rate bands: tremor 3 .. 5 Hz and dyskinesia above 5 up to 7 Hz. */
  const TREMOR := Band(3.0, true, 5.0)
  const DYSK := Band(5.0, false, 7.0)

  function BinHz(k: int): real
  {
    k as real * HZ_PER_BIN
  }

  /** Energy of `band` over bins 1 .. n-1: what the accumulating loop holds after
      visiting them in order. */
  function BandEnergy(mag: seq<real>, band: Band, n: nat): real
    requires n <= |mag|
  {
    if n <= 1 then 0.0
    else BandEnergy(mag, band, n - 1) + (if band.Contains(BinHz(n - 1)) then mag[n - 1] else 0.0)
  }

  /** One channel's band loop: both bands of the channel accumulated in a single
      pass over bins 1 .. BINS-1. */
  method ChannelEnergies(mag: seq<real>, lower: Band, upper: Band) returns (eLower: real, eUpper: real)
    requires |mag| == BINS
    ensures eLower == BandEnergy(mag, lower, BINS)
    ensures eUpper == BandEnergy(mag, upper, BINS)
  {
    eLower, eUpper := 0.0, 0.0;
    for k := 1 to BINS
      invariant eLower == BandEnergy(mag, lower, k)
      invariant eUpper == BandEnergy(mag, upper, k)
    {
      var f := BinHz(k);
      if lower.Contains(f) {
        eLower := eLower + mag[k];
      }
      if upper.Contains(f) {
        eUpper := eUpper + mag[k];
      }
    }
  }

  /** The DC bin never contributes: whatever it holds, every band's energy is the same. */
  lemma {:induction false} DcBinIgnored(mag: seq<real>, band: Band, n: nat, dc: real)
    requires 1 <= n <= |mag|
    ensures BandEnergy(mag[0 := dc], band, n) == BandEnergy(mag, band, n)
  {
    if n > 1 {
      DcBinIgnored(mag, band, n - 1, dc);
    }
  }

  /** Energies of non-negative magnitudes are non-negative. */
  lemma {:induction false} EnergyNonNegative(mag: seq<real>, band: Band, n: nat)
    requires n <= |mag|
    requires forall k :: 0 <= k < |mag| ==> mag[k] >= 0.0
    ensures BandEnergy(mag, band, n) >= 0.0
  {
    if n > 1 {
      EnergyNonNegative(mag, band, n - 1);
    }
  }

  /** A band whose bins are exactly lo .. hi-1 has as energy the plain sum of those
      bins' magnitudes. */
  lemma {:induction false} EnergyOfBinRange(mag: seq<real>, band: Band, lo: nat, hi: nat, n: nat)
    requires 1 <= lo <= hi <= |mag| && n <= |mag|
    requires forall k :: 1 <= k < |mag| ==> (band.Contains(BinHz(k)) <==> lo <= k < hi)
    ensures BandEnergy(mag, band, n) == Sum(mag[lo..if n < lo then lo else if n > hi then hi else n])
  {
    if n > 1 {
      EnergyOfBinRange(mag, band, lo, hi, n - 1);
      if lo <= n - 1 < hi {
        assert mag[lo..n][..n - lo - 1] == mag[lo..n - 1];
      }
    }
  }

  /** Which bins fall in each band: walk 3..14, fog 15..39, tremor 15..24, dysk 25..34. */
  lemma BandBins(k: int)
    requires 1 <= k < BINS
    ensures WALK.Contains(BinHz(k)) <==> 3 <= k < 15
    ensures FOG.Contains(BinHz(k)) <==> 15 <= k < 40
    ensures TREMOR.Contains(BinHz(k)) <==> 15 <= k < 25
    ensures DYSK.Contains(BinHz(k)) <==> 25 <= k < 35
  {
    var f := BinHz(k);
    assert f == k as real * 0.203125;
    if k <= 2 {
      assert f <= 0.40625;
    } else if k <= 14 {
      assert 0.609375 <= f <= 2.84375;
    } else if k <= 24 {
      assert 3.046875 <= f <= 4.875;
    } else if k <= 34 {
      assert 5.078125 <= f <= 6.90625;
    } else if k <= 39 {
      assert 7.109375 <= f <= 7.921875;
    } else {
      assert 8.125 <= f;
    }
  }

  /** The four band energies as sums over fixed bin ranges. */
  lemma BandEnergiesAsBinSums(mag: seq<real>)
    requires |mag| == BINS
    ensures BandEnergy(mag, WALK, BINS) == Sum(mag[3..15])
    ensures BandEnergy(mag, FOG, BINS) == Sum(mag[15..40])
    ensures BandEnergy(mag, TREMOR, BINS) == Sum(mag[15..25])
    ensures BandEnergy(mag, DYSK, BINS) == Sum(mag[25..35])
  {
    forall k | 1 <= k < BINS
      ensures WALK.Contains(BinHz(k)) <==> 3 <= k < 15
      ensures FOG.Contains(BinHz(k)) <==> 15 <= k < 40
      ensures TREMOR.Contains(BinHz(k)) <==> 15 <= k < 25
      ensures DYSK.Contains(BinHz(k)) <==> 25 <= k < 35
    {
      BandBins(k);
    }
    EnergyOfBinRange(mag, WALK, 3, 15, BINS);
    EnergyOfBinRange(mag, FOG, 15, 40, BINS);
    EnergyOfBinRange(mag, TREMOR, 15, 25, BINS);
    EnergyOfBinRange(mag, DYSK, 25, 35, BINS);
  }

  /** Adjacent bands of a channel share no frequency; a shared edge belongs to the
      lower band (3 Hz to walk, 5 Hz to tremor). */
  lemma AdjacentBandsDisjoint(f: real)
    ensures !(WALK.Contains(f) && FOG.Contains(f))
    ensures !(TREMOR.Contains(f) && DYSK.Contains(f))
    ensures WALK.Contains(3.0) && !FOG.Contains(3.0)
    ensures TREMOR.Contains(5.0) && !DYSK.Contains(5.0)
  {
  }

  /** A spectrum with unit magnitude in bin j and zero elsewhere. */
  function Impulse(j: nat): (mag: seq<real>)
    ensures |mag| == BINS
  {
    seq(BINS, k => if k == j then 1.0 else 0.0)
  }

  /** Unit energy in one bin reaches a band exactly when the band holds that bin's
      frequency, and never from the DC bin. */
  lemma {:induction false} ImpulseEnergy(j: nat, band: Band, n: nat)
    requires n <= BINS
    ensures BandEnergy(Impulse(j), band, n)
            == if 1 <= j < n && band.Contains(BinHz(j)) then 1.0 else 0.0
  {
    if n > 1 {
      ImpulseEnergy(j, band, n - 1);
    }
  }

  /** Unit energy in any single bin is counted at most once per channel: in exactly
      one of walk and fog when its frequency lies in 0.5 .. 8 Hz, in exactly one of
      tremor and dysk when it lies in 3 .. 7 Hz, and nowhere otherwise. */
  lemma ImpulseLandsInOneBand(j: nat)
    requires 1 <= j < BINS
    ensures BandEnergy(Impulse(j), WALK, BINS) + BandEnergy(Impulse(j), FOG, BINS)
            == if 0.5 <= BinHz(j) <= 8.0 then 1.0 else 0.0
    ensures BandEnergy(Impulse(j), TREMOR, BINS) + BandEnergy(Impulse(j), DYSK, BINS)
            == if 3.0 <= BinHz(j) <= 7.0 then 1.0 else 0.0
  {
    ImpulseEnergy(j, WALK, BINS);
    ImpulseEnergy(j, FOG, BINS);
    ImpulseEnergy(j, TREMOR, BINS);
    ImpulseEnergy(j, DYSK, BINS);
  }
}
