/**
 * The gauge arithmetic of frontend/src/components/ConfidenceMeter.tsx: the
 * percentage shown, the needle angle and the length of the coloured arc.
 */
module ConfidenceMeter {
  import MockData

  /** Length of the gauge's semicircular arc in SVG units (the dash pattern's period). */
  const ArcLength: real := 251.0

  /** `Math.round`: the nearest integer, halves rounded up. */
  function Round(x: real): (n: int)
    ensures n as real - 0.5 <= x < n as real + 0.5
  {
    (x + 0.5).Floor
  }

  /** `percentage`: the confidence as a whole-number percentage. */
  function Percentage(confidence: real): (p: int)
    ensures p as real - 0.5 <= confidence * 100.0 < p as real + 0.5
    ensures 0.0 <= confidence <= 1.0 ==> 0 <= p <= 100
  {
    Round(confidence * 100.0)
  }

  /** `rotation`: the needle angle in degrees, -90 (empty) to 90 (full). */
  function Rotation(percentage: int): (degrees: real)
    ensures 0 <= percentage <= 100 ==> -90.0 <= degrees <= 90.0
  {
    (percentage as real / 100.0) * 180.0 - 90.0
  }

  /** The visible length of the coloured arc (first entry of `strokeDasharray`). */
  function DashLength(percentage: int): (len: real)
    ensures 0 <= percentage <= 100 ==> 0.0 <= len <= ArcLength
  {
    (percentage as real / 100.0) * ArcLength
  }

  /** The verdict text under the gauge. */
  function Label(isPlanet: bool): (s: string)
    ensures s == "Planet Detected" <==> isPlanet
    ensures s == "False Positive" <==> !isPlanet
  {
    if isPlanet then "Planet Detected" else "False Positive"
  }

  /** A larger confidence never shows a smaller percentage. */
  lemma PercentageMonotone(c: real, d: real)
    requires c <= d
    ensures Percentage(c) <= Percentage(d)
  {
    assert c * 100.0 + 0.5 <= d * 100.0 + 0.5;
  }

  /** The needle turns strictly with the percentage and hits the three landmarks. */
  lemma RotationMonotone(p: int, q: int)
    requires p < q
    ensures Rotation(p) < Rotation(q)
    ensures Rotation(0) == -90.0 && Rotation(50) == 0.0 && Rotation(100) == 90.0
  {
  }

  /** The needle points at the end of the coloured arc: its angle is the arc's filled fraction of 180 degrees. */
  lemma NeedleFollowsArc(p: int)
    ensures Rotation(p) == DashLength(p) / ArcLength * 180.0 - 90.0
  {
  }

  /**
   * Shown on this gauge, a mock prediction reads at least 60% when it is a
   * planet and at most 60% when it is not, always within 0..100.
   */
  lemma MockPredictionOnGauge(starId: string)
    ensures var p := MockData.PredictPlanet(starId);
            && 0 <= Percentage(p.confidence) <= 100
            && (p.isPlanet ==> Percentage(p.confidence) >= 60)
            && (!p.isPlanet ==> Percentage(p.confidence) <= 60)
  {
    var p := MockData.PredictPlanet(starId);
    MockData.RegistryConfidencesInUnitInterval();
    if p.isPlanet {
      PercentageMonotone(0.6, p.confidence);
    } else {
      PercentageMonotone(p.confidence, 0.6);
    }
  }
}
