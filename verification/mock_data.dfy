/**
 * The mock candidate classifier and the synthetic light-curve generators of
 * frontend/src/utils/mockData.ts.
 *
 * Randomness and the sine are not modelled as numbers: the generators take the
 * `Math.random()` draws as a sequence (one draw per sample) and the sine as a
 * function `sinPi(t) = sin(pi * t)`, whose bounds are premises of the lemmas.
 * Arithmetic is exact (`real`), so `toFixed` rounding is not modelled.
 */
module MockData {
  import opened Wrappers

  // ---------------------------------------------------------------------
  // Candidate registry and classifier
  // ---------------------------------------------------------------------

  datatype Mission = Kepler | TESS

  datatype StarCandidate = StarCandidate(id: string, name: string, mission: Mission, confidence: real)

  /** What `predictPlanet` returns. */
  datatype PlanetPrediction = PlanetPrediction(confidence: real, isPlanet: bool)

  /** Confidence strictly above this is classified as a planet. */
  const PlanetThreshold: real := 0.6

  /** Confidence used for an id that is not in the registry. */
  const UnknownConfidence: real := 0.5

  /** The fixed registry `mockStarCandidates`. */
  const MockStarCandidates: seq<StarCandidate> := [
    StarCandidate("KIC-11904151", "KIC-11904151", Kepler, 0.96),
    StarCandidate("TIC-307210830", "TIC-307210830", TESS, 0.89),
    StarCandidate("KIC-8462852", "KIC-8462852 (Tabby's Star)", Kepler, 0.42),
    StarCandidate("TIC-168789840", "TIC-168789840", TESS, 0.78),
    StarCandidate("KIC-12557548", "KIC-12557548", Kepler, 0.91),
    StarCandidate("TIC-400799224", "TIC-400799224", TESS, 0.15)
  ]

  /** Index of the first candidate at or after `from` whose id is `id` (`Array.prototype.find`). */
  function FindFrom(reg: seq<StarCandidate>, id: string, from: nat): (r: Option<nat>)
    requires from <= |reg|
    ensures r.Some? ==> from <= r.value < |reg| && reg[r.value].id == id
    ensures forall j :: from <= j < (if r.Some? then r.value else |reg|) ==> reg[j].id != id
    decreases |reg| - from
  {
    if from == |reg| then None
    else if reg[from].id == id then Some(from)
    else FindFrom(reg, id, from + 1)
  }

  /** The decision rule of `predictPlanet`: a strict threshold. */
  predicate IsPlanetConfidence(confidence: real) {
    confidence > PlanetThreshold
  }

  /**
   * `predictPlanet`: the confidence of the first registry entry with that id,
   * or 0.5 when there is none; a planet exactly when the confidence is above 0.6.
   */
  function PredictPlanet(starId: string): (p: PlanetPrediction)
    ensures p.isPlanet <==> p.confidence > 0.6
    ensures (forall k :: 0 <= k < |MockStarCandidates| ==> MockStarCandidates[k].id != starId) ==>
              p.confidence == 0.5
    ensures forall k :: 0 <= k < |MockStarCandidates| && MockStarCandidates[k].id == starId &&
                        (forall j :: 0 <= j < k ==> MockStarCandidates[j].id != starId) ==>
              p.confidence == MockStarCandidates[k].confidence
  {
    var confidence := match FindFrom(MockStarCandidates, starId, 0)
      case Some(k) => MockStarCandidates[k].confidence
      case None => UnknownConfidence;
    PlanetPrediction(confidence, IsPlanetConfidence(confidence))
  }

  /** No two registry entries share an id. */
  lemma RegistryIdsDistinct()
    ensures forall i, j :: 0 <= i < j < |MockStarCandidates| ==> MockStarCandidates[i].id != MockStarCandidates[j].id
  {
  }

  /** Every registry confidence is a probability. */
  lemma RegistryConfidencesInUnitInterval()
    ensures forall k :: 0 <= k < |MockStarCandidates| ==> 0.0 <= MockStarCandidates[k].confidence <= 1.0
  {
  }

  /** Looking up any registered id gives back that entry's own confidence. */
  lemma PredictRegistered(k: nat)
    requires k < |MockStarCandidates|
    ensures PredictPlanet(MockStarCandidates[k].id).confidence == MockStarCandidates[k].confidence
    ensures PredictPlanet(MockStarCandidates[k].id).isPlanet <==> MockStarCandidates[k].confidence > 0.6
  {
    RegistryIdsDistinct();
  }

  /** The verdicts the registry produces for four of its candidates. */
  lemma RegistryVerdicts()
    ensures PredictPlanet("KIC-11904151") == PlanetPrediction(0.96, true)
    ensures PredictPlanet("KIC-12557548") == PlanetPrediction(0.91, true)
    ensures PredictPlanet("KIC-8462852") == PlanetPrediction(0.42, false)
    ensures PredictPlanet("TIC-400799224") == PlanetPrediction(0.15, false)
  {
    PredictRegistered(0);
    PredictRegistered(4);
    PredictRegistered(2);
    PredictRegistered(5);
  }

  /** An unknown id is not an error: it falls back to 0.5, which is not a planet. */
  lemma UnknownIdIsNotPlanet(starId: string)
    requires forall k :: 0 <= k < |MockStarCandidates| ==> MockStarCandidates[k].id != starId
    ensures PredictPlanet(starId) == PlanetPrediction(0.5, false)
  {
  }

  /** The threshold is strict, and a higher confidence never loses the planet verdict. */
  lemma ThresholdIsStrict(c: real, d: real)
    ensures !IsPlanetConfidence(PlanetThreshold)
    ensures c <= d && IsPlanetConfidence(c) ==> IsPlanetConfidence(d)
  {
  }

  // ---------------------------------------------------------------------
  // Raw light curve (`generateLightCurve`)
  // ---------------------------------------------------------------------

  datatype FluxSample = FluxSample(time: real, flux: real, detrended: real)

  datatype PhaseSample = PhaseSample(phase: real, flux: real)

  const LightCurveLength: nat := 100
  const FoldedCurveLength: nat := 200

  /** The random draws are values of `Math.random()`. */
  predicate RandomDraws(random: seq<real>) {
    forall i :: 0 <= i < |random| ==> 0.0 <= random[i] < 1.0
  }

  /** `sinPi(t)` stands for `Math.sin(Math.PI * t)`; on [0, 1] it lies in [0, 1]. */
  ghost predicate SineBounded(sinPi: real -> real) {
    forall t :: 0.0 <= t <= 1.0 ==> 0.0 <= sinPi(t) <= 1.0
  }

  /**
   * JavaScript's `x % m` for `x >= 0` and `m > 0`: `x` minus the largest whole
   * multiple of `m` not above it. Its value at the times the generator uses is
   * pinned down by `RawPhase`.
   */
  function RealMod(x: real, m: real): real
    requires 0.0 <= x && 0.0 < m
  {
    x - (x / m).Floor as real * m
  }

  /** Sample `i` lies inside a raw transit window: with time i * 0.1 and period 3.5, i mod 35 < 2. */
  predicate InRawTransit(i: nat) {
    i % 35 < 2
  }

  /**
   * The intended sample `i` of the raw curve, written on integers: time i/10,
   * noise from draw `r`, and a dip of 0.02 * sin(pi * (i mod 35) / 2) inside
   * the transit window when a planet is present.
   */
  function LightSample(hasPlanet: bool, i: nat, r: real, sinPi: real -> real): FluxSample {
    var time := i as real / 10.0;
    var base := 1.0 + (r - 0.5) * 0.01;
    var dip := if hasPlanet && InRawTransit(i) then 0.02 * sinPi((i % 35) as real / 2.0) else 0.0;
    var flux := base - dip;
    FluxSample(time, flux, flux - time / 10000.0)
  }

  /** The amount the transit subtracts from sample `i`'s noisy base flux. */
  function RawDip(hasPlanet: bool, i: nat, r: real, sinPi: real -> real): real {
    1.0 + (r - 0.5) * 0.01 - LightSample(hasPlanet, i, r, sinPi).flux
  }

  /** The time of sample i modulo the 3.5-day period is (i mod 35) / 10 days. */
  lemma RawPhase(i: nat)
    ensures RealMod(i as real * 0.1, 3.5) == (i % 35) as real / 10.0
  {
    var x := i as real * 0.1;
    var q, s := i / 35, i % 35;
    assert i == 35 * q + s;
    assert x / 3.5 == q as real + s as real / 35.0;
    assert (x / 3.5).Floor == q;
  }

  /** The source's real-valued transit test and sine argument reduce to integer facts. */
  lemma RawTransitWindow(i: nat)
    ensures var phase := RealMod(i as real * 0.1, 3.5) / 3.5;
            && (phase < 0.2 / 3.5 <==> InRawTransit(i))
            && phase / (0.2 / 3.5) == (i % 35) as real / 2.0
  {
    RawPhase(i);
  }

  /**
   * `generateLightCurve`: 100 samples at 0.1-day steps, each the noisy flux
   * with a transit dip applied inside the window, and its detrended value.
   */
  method GenerateLightCurve(hasPlanet: bool, random: seq<real>, sinPi: real -> real) returns (data: seq<FluxSample>)
    requires |random| == LightCurveLength
    ensures |data| == LightCurveLength
    ensures forall i :: 0 <= i < |data| ==> data[i] == LightSample(hasPlanet, i, random[i], sinPi)
    ensures forall i :: 0 <= i < |data| ==> data[i].time == i as real * 0.1
    ensures forall i, j :: 0 <= i < j < |data| ==> data[i].time < data[j].time
    ensures forall i :: 0 <= i < |data| ==> data[i].detrended == data[i].flux - 0.0001 * data[i].time
  {
    var transitDepth := 0.02;
    var transitDuration := 0.2;
    var period := 3.5;
    data := [];
    for i := 0 to 100
      invariant |data| == i
      invariant forall k :: 0 <= k < i ==> data[k] == LightSample(hasPlanet, k, random[k], sinPi)
    {
      var time := i as real * 0.1;
      var flux := 1.0 + (random[i] - 0.5) * 0.01;
      if hasPlanet {
        var phase := RealMod(time, period) / period;
        RawTransitWindow(i);
        if phase < transitDuration / period {
          var transitPhase := phase / (transitDuration / period);
          flux := flux - transitDepth * sinPi(transitPhase);
        }
      }
      var detrended := flux - 0.0001 * time;
      data := data + [FluxSample(time, flux, detrended)];
    }
  }

  /** Without a planet no dip is applied and the flux stays within 0.005 of 1. */
  lemma NoDipWithoutPlanet(i: nat, r: real, sinPi: real -> real)
    requires 0.0 <= r < 1.0
    ensures RawDip(false, i, r, sinPi) == 0.0
    ensures 0.995 <= LightSample(false, i, r, sinPi).flux < 1.005
  {
  }

  /** Over a whole curve without a planet, every sample is noise around 1. */
  lemma NoPlanetCurveIsFlat(random: seq<real>, sinPi: real -> real)
    requires RandomDraws(random)
    ensures forall i :: 0 <= i < |random| ==>
      RawDip(false, i, random[i], sinPi) == 0.0 && 0.995 <= LightSample(false, i, random[i], sinPi).flux < 1.005
  {
    forall i | 0 <= i < |random|
      ensures RawDip(false, i, random[i], sinPi) == 0.0 && 0.995 <= LightSample(false, i, random[i], sinPi).flux < 1.005
    {
      NoDipWithoutPlanet(i, random[i], sinPi);
    }
  }

  /** With a planet the dip is applied only inside the window, and is between 0 and 0.02. */
  lemma RawDipBounds(i: nat, r: real, sinPi: real -> real)
    requires SineBounded(sinPi)
    ensures !InRawTransit(i) ==> RawDip(true, i, r, sinPi) == 0.0
    ensures 0.0 <= RawDip(true, i, r, sinPi) <= 0.02
  {
    if InRawTransit(i) {
      var t := (i % 35) as real / 2.0;
      assert 0.0 <= t <= 1.0;
      assert 0.0 <= sinPi(t) <= 1.0;
    }
  }

  /** At mid-transit (i mod 35 == 1) the full 0.02 depth is subtracted when sin(pi/2) = 1. */
  lemma DipAtMidTransit(i: nat, r: real, sinPi: real -> real)
    requires i % 35 == 1 && 0.0 <= r < 1.0 && sinPi(0.5) == 1.0
    ensures RawDip(true, i, r, sinPi) == 0.02
    ensures LightSample(true, i, r, sinPi).flux < 0.9855
  {
  }

  // ---------------------------------------------------------------------
  // Folded light curve (`generateFoldedCurve`)
  // ---------------------------------------------------------------------

  function Abs(x: real): (r: real)
    ensures r >= 0.0 && (r == x || r == -x)
  {
    if x < 0.0 then -x else x
  }

  /** Sample `i` of the folded curve lies in the transit window around phase 0.5. */
  predicate InFoldedTransit(i: nat) {
    91 <= i <= 109
  }

  /**
   * The intended sample `i` of the folded curve, written on integers: phase
   * i/200, noise from draw `r`, and a dip of 0.02 * sin(pi * (i - 90) / 20)
   * inside the window.
   */
  function FoldedSample(i: nat, r: real, sinPi: real -> real): PhaseSample {
    var base := 1.0 + (r - 0.5) * 0.005;
    var dip := if InFoldedTransit(i) then 0.02 * sinPi((i - 90) as real / 20.0) else 0.0;
    PhaseSample(i as real / 200.0, base - dip)
  }

  /** The amount the transit subtracts from folded sample `i`'s noisy base flux. */
  function FoldedDip(i: nat, r: real, sinPi: real -> real): real {
    1.0 + (r - 0.5) * 0.005 - FoldedSample(i, r, sinPi).flux
  }

  /** The source's test |phase - 0.5| < 0.05 and its sine argument, reduced to integers. */
  lemma FoldedTransitWindow(i: nat)
    ensures var phase := i as real / 200.0;
            && (Abs(phase - 0.5) < 0.05 <==> InFoldedTransit(i))
            && (phase - 0.45) / 0.1 == (i as real - 90.0) / 20.0
  {
  }

  /**
   * `generateFoldedCurve`: 200 samples at phase i/200 with a single transit
   * centred at phase 0.5. The `period` argument is unused: the result does not
   * depend on it.
   */
  method GenerateFoldedCurve(period: real, random: seq<real>, sinPi: real -> real) returns (data: seq<PhaseSample>)
    requires |random| == FoldedCurveLength
    ensures |data| == FoldedCurveLength
    ensures forall i :: 0 <= i < |data| ==> data[i] == FoldedSample(i, random[i], sinPi)
    ensures forall i :: 0 <= i < |data| ==> 0.0 <= data[i].phase < 1.0
    ensures forall i, j :: 0 <= i < j < |data| ==> data[i].phase < data[j].phase
  {
    var transitDepth := 0.02;
    data := [];
    for i := 0 to 200
      invariant |data| == i
      invariant forall k :: 0 <= k < i ==> data[k] == FoldedSample(k, random[k], sinPi)
    {
      var phase := i as real / 200.0;
      var flux := 1.0 + (random[i] - 0.5) * 0.005;
      FoldedTransitWindow(i);
      if Abs(phase - 0.5) < 0.05 {
        var transitPhase := (phase - 0.45) / 0.1;
        flux := flux - transitDepth * sinPi(transitPhase);
      }
      data := data + [PhaseSample(phase, flux)];
    }
  }

  /** Outside the window the folded flux is pure noise, within 0.0025 of 1. */
  lemma FoldedNoDipOutsideWindow(i: nat, r: real, sinPi: real -> real)
    requires !InFoldedTransit(i) && 0.0 <= r < 1.0
    ensures FoldedDip(i, r, sinPi) == 0.0
    ensures 0.9975 <= FoldedSample(i, r, sinPi).flux < 1.0025
  {
  }

  /** Over a whole folded curve, every sample outside the window is noise around 1. */
  lemma FoldedCurveFlatOutsideWindow(random: seq<real>, sinPi: real -> real)
    requires RandomDraws(random)
    ensures forall i :: 0 <= i < |random| && !InFoldedTransit(i) ==>
      FoldedDip(i, random[i], sinPi) == 0.0 && 0.9975 <= FoldedSample(i, random[i], sinPi).flux < 1.0025
  {
    forall i | 0 <= i < |random| && !InFoldedTransit(i)
      ensures FoldedDip(i, random[i], sinPi) == 0.0 && 0.9975 <= FoldedSample(i, random[i], sinPi).flux < 1.0025
    {
      FoldedNoDipOutsideWindow(i, random[i], sinPi);
    }
  }

  /** Inside the window the folded dip is between 0 and 0.02. */
  lemma FoldedDipBounds(i: nat, r: real, sinPi: real -> real)
    requires SineBounded(sinPi)
    ensures 0.0 <= FoldedDip(i, r, sinPi) <= 0.02
  {
    if InFoldedTransit(i) {
      var t := (i - 90) as real / 20.0;
      assert 0.0 <= t <= 1.0;
      assert 0.0 <= sinPi(t) <= 1.0;
    }
  }
}
