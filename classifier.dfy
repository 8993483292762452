/** The detector's per-window decision: four band energies in, three indicator
    flags out, with freezing of gait taking priority and vetoing dyskinesia. No
    state is carried from one window to the next. */
module Classifier {

  /** A band energy: a sum of spectral magnitudes, hence never negative. */
  type Energy = r: real | 0.0 <= r

  datatype BandEnergySet = BandEnergySet(walk: Energy, fog: Energy, tremor: Energy, dysk: Energy)

  /** The three indicators, cleared at the start of each window and then set. */
  datatype Leds = Leds(tremor: bool, dysk: bool, freeze: bool)

  /** Guard added to the walk energy so the fog ratio never divides by zero. */
  const EPSILON: real := 0.0001
  const FOG_RATIO_THRESH: real := 3.0
  const WALK_THRESH: real := 5.0
  const TREMOR_THRESH: real := 5.0
  const DYSK_THRESH: real := 5.0
  /** Margin by which one angular-rate band must exceed the other to govern. */
  const DOMINANCE_RATIO: real := 1.2

  /** Freeze-associated jitter energy relative to gait energy. */
  function FogRatio(walk: Energy, fog: Energy): (r: Energy)
    ensures r * (walk + EPSILON) == fog
    ensures r <= fog / EPSILON
  {
    fog / (walk + EPSILON)
  }

  predicate TremorPresent(e: BandEnergySet) { e.tremor > TREMOR_THRESH }
  predicate DyskPresent(e: BandEnergySet) { e.dysk > DYSK_THRESH }
  predicate LowWalk(e: BandEnergySet) { e.walk < WALK_THRESH }

  predicate Freezing(e: BandEnergySet)
  {
    FogRatio(e.walk, e.fog) > FOG_RATIO_THRESH && LowWalk(e) && !DyskPresent(e)
  }

  /** The LED decision for one window. */
  function Classify(e: BandEnergySet): (leds: Leds)
    // Freezing and dyskinesia are never reported together, nor tremor and dyskinesia.
    ensures !(leds.freeze && leds.dysk)
    ensures !(leds.tremor && leds.dysk)
    // While walking (walk energy at or above its threshold) nothing is reported.
    ensures e.walk >= WALK_THRESH ==> leds == Leds(false, false, false)
    // Elevated dyskinesia energy rules out freezing.
    ensures e.dysk > DYSK_THRESH ==> !leds.freeze
    // Thresholds are strict: an energy equal to its threshold never lights its LED.
    ensures leds.tremor ==> e.tremor > TREMOR_THRESH
    ensures leds.dysk ==> e.dysk > DYSK_THRESH
    // During freezing the tremor LED follows tremor presence alone.
    ensures leds.freeze ==> leds.tremor == (e.tremor > TREMOR_THRESH)
    // Outside freezing, equal tremor and dyskinesia energies light neither LED.
    ensures e.tremor == e.dysk && !leds.freeze ==> !leds.tremor && !leds.dysk
  {
    if Freezing(e) then
      Leds(tremor := TremorPresent(e), dysk := false, freeze := true)
    else
      Leds(tremor := LowWalk(e) && TremorPresent(e) && e.tremor > e.dysk * DOMINANCE_RATIO,
           dysk := LowWalk(e) && DyskPresent(e) && e.dysk > e.tremor * DOMINANCE_RATIO,
           freeze := false)
  }

  /** Freezing is reported exactly when the jitter-to-gait ratio exceeds its
      threshold while walk energy is low and dyskinesia is absent. */
  lemma FreezeCondition(e: BandEnergySet)
    ensures Classify(e).freeze <==>
              && e.fog > FOG_RATIO_THRESH * (e.walk + EPSILON)
              && e.walk < WALK_THRESH
              && e.dysk <= DYSK_THRESH
  {
    var r, d := FogRatio(e.walk, e.fog), e.walk + EPSILON;
    assert r * d == e.fog;
    MulStrict(r, FOG_RATIO_THRESH, d);
  }

  /** Multiplying both sides by a positive factor keeps a strict comparison. */
  lemma MulStrict(a: real, b: real, d: real)
    requires d > 0.0
    ensures a > b <==> a * d > b * d
  {
    if a > b {
      assert (a - b) * d > 0.0;
    } else {
      assert (b - a) * d >= 0.0;
    }
  }
}
