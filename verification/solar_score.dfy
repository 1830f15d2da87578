/**
 * Roof scoring and qualification of the domain package: a weighted 0-100
 * score with a viability verdict (computeSolarScore) and the annual
 * production estimate that qualifyLeadRoof adds to it.
 */
module SolarScore {
  import opened Numerics

  /** Measurements of one roof, as delivered by the irradiance lookup. */
  datatype RawSolarData = RawSolarData(roofAreaM2: real, irradianceKwhM2: real, shadingPercent: real)

  datatype SolarScoreResult = SolarScoreResult(
    solarScore: int,
    shadingScore: real,
    roofViable: bool,
    viabilityReason: string)

  datatype SolarQualification = SolarQualification(
    leadId: string,
    roofViable: bool,
    solarScore: int,
    shadingScore: real,
    viabilityReason: string,
    estAnnualProductionKwh: int)

  const MinRoofAreaM2: real := 20.0
  const MinViableScore: int := 30
  const MaxViableShadingPercent: real := 50.0

  const SmallRoofReason: string := "Insufficient roof area (minimum 20 m²)"
  const ShadingReason: string := "Excessive shading (maximum 50%)"
  const LowScoreReason: string := "Solar score too low (minimum 30)"
  const AreaFallbackReason: string := "Insufficient roof area"
  const ViableReason: string := "Roof meets all viability criteria"

  /** Shading score of a roof that passed the area check: 100 - shading, kept within [0, 100]. */
  function ShadingScore(shadingPercent: real): (s: real)
    ensures 0.0 <= s <= 100.0
    ensures 0.0 <= shadingPercent <= 100.0 ==> s == 100.0 - shadingPercent
  {
    MaxR(0.0, MinR(100.0, 100.0 - shadingPercent))
  }

  /** Area and irradiance each on a 0-100 scale (saturating at 100 m² and 2000), weighted 40/40/20 with shading. */
  function WeightedScore(d: RawSolarData): real {
    var normalizedArea := MinR(100.0, (d.roofAreaM2 / 100.0) * 100.0);
    var normalizedIrradiance := MinR(100.0, (d.irradianceKwhM2 / 2000.0) * 100.0);
    normalizedArea * 0.4 + normalizedIrradiance * 0.4 + ShadingScore(d.shadingPercent) * 0.2
  }

  /** computeSolarScore */
  function ComputeSolarScore(d: RawSolarData): (r: SolarScoreResult)
    ensures 0 <= r.solarScore <= 100
    ensures d.roofAreaM2 < MinRoofAreaM2 ==>
      r.solarScore == 0 && !r.roofViable && r.viabilityReason == SmallRoofReason
      && r.shadingScore == 100.0 - d.shadingPercent
    ensures d.roofAreaM2 >= MinRoofAreaM2 ==> 0.0 <= r.shadingScore <= 100.0
    ensures r.roofViable <==>
      d.roofAreaM2 >= MinRoofAreaM2 && r.solarScore >= MinViableScore && d.shadingPercent <= MaxViableShadingPercent
    ensures r.roofViable ==> r.viabilityReason == ViableReason
    ensures !r.roofViable && d.roofAreaM2 >= MinRoofAreaM2 ==>
      r.viabilityReason == (if d.shadingPercent > MaxViableShadingPercent then ShadingReason else LowScoreReason)
  {
    if d.roofAreaM2 < MinRoofAreaM2 then
      SolarScoreResult(0, 100.0 - d.shadingPercent, false, SmallRoofReason)
    else
      var shadingScore := ShadingScore(d.shadingPercent);
      var clamped := MaxR(0.0, MinR(100.0, WeightedScore(d)));
      RoundBounds(clamped, 0, 100);
      var solarScore := Round(clamped);
      var roofViable :=
        d.roofAreaM2 >= MinRoofAreaM2 && solarScore >= MinViableScore && d.shadingPercent <= MaxViableShadingPercent;
      var viabilityReason :=
        if !roofViable then
          if d.shadingPercent > MaxViableShadingPercent then ShadingReason
          else if solarScore < MinViableScore then LowScoreReason
          else AreaFallbackReason
        else ViableReason;
      SolarScoreResult(solarScore, shadingScore, roofViable, viabilityReason)
  }

  /** The plain "Insufficient roof area" reason is never produced: small roofs leave early. */
  lemma AreaFallbackUnreachable(d: RawSolarData)
    ensures ComputeSolarScore(d).viabilityReason != AreaFallbackReason
  {
  }

  /** The early return does not clamp: shading above 100% gives a negative shading score. */
  lemma SmallRoofShadingUnclamped()
    ensures ComputeSolarScore(RawSolarData(10.0, 1500.0, 150.0)).shadingScore == -50.0
  {
  }

  /** For a roof past the area check, the score is the rounded, clamped weighted sum. */
  lemma ScoreOfLargeRoof(d: RawSolarData)
    requires d.roofAreaM2 >= MinRoofAreaM2
    ensures ComputeSolarScore(d).solarScore == Round(MaxR(0.0, MinR(100.0, WeightedScore(d))))
    ensures ComputeSolarScore(d).shadingScore == ShadingScore(d.shadingPercent)
  {
  }

  /** More area or irradiance never lowers the score; more shading never raises it. */
  lemma ScoreMonotone(d: RawSolarData, e: RawSolarData)
    requires d.roofAreaM2 <= e.roofAreaM2
    requires d.irradianceKwhM2 <= e.irradianceKwhM2
    requires d.shadingPercent >= e.shadingPercent
    ensures ComputeSolarScore(d).solarScore <= ComputeSolarScore(e).solarScore
  {
    if d.roofAreaM2 >= MinRoofAreaM2 {
      assert WeightedScore(d) <= WeightedScore(e);
      RoundMonotone(MaxR(0.0, MinR(100.0, WeightedScore(d))), MaxR(0.0, MinR(100.0, WeightedScore(e))));
    }
  }

  /** Area beyond 100 m² and irradiance beyond 2000 do not change the score. */
  lemma ScoreSaturates(d: RawSolarData, e: RawSolarData)
    requires d.shadingPercent == e.shadingPercent
    requires d.roofAreaM2 == e.roofAreaM2 || (d.roofAreaM2 >= 100.0 && e.roofAreaM2 >= 100.0)
    requires d.irradianceKwhM2 == e.irradianceKwhM2 || (d.irradianceKwhM2 >= 2000.0 && e.irradianceKwhM2 >= 2000.0)
    ensures ComputeSolarScore(d) == ComputeSolarScore(e)
  {
    assert WeightedScore(d) == WeightedScore(e);
  }

  /** A 50 m² roof at 1500 with 15% shading scores 67 and is viable. */
  lemma ExampleRoof()
    ensures ComputeSolarScore(RawSolarData(50.0, 1500.0, 15.0)) == SolarScoreResult(67, 85.0, true, ViableReason)
  {
    assert WeightedScore(RawSolarData(50.0, 1500.0, 15.0)) == 67.0;
  }

  /** The fraction of production left after shading, with shading taken within [0, 100]. */
  function ShadingMultiplier(shadingPercent: real): (m: real)
    ensures 0.0 <= m <= 1.0
    ensures shadingPercent >= 100.0 ==> m == 0.0
    ensures shadingPercent <= 0.0 ==> m == 1.0
  {
    1.0 - MinR(100.0, MaxR(0.0, shadingPercent)) / 100.0
  }

  /** Annual production: area x irradiance x 18% efficiency x shading multiplier, rounded, never negative. */
  function AnnualProductionKwh(d: RawSolarData): int {
    var productionFactor := MaxR(0.0, d.irradianceKwhM2) * 0.18;
    var m := ShadingMultiplier(d.shadingPercent);
    var p := Round(d.roofAreaM2 * productionFactor * MaxR(0.0, m));
    if 0 >= p then 0 else p
  }

  /** qualifyLeadRoof */
  function QualifyLeadRoof(leadId: string, d: RawSolarData): (q: SolarQualification)
    ensures var s := ComputeSolarScore(d);
      q.leadId == leadId && q.roofViable == s.roofViable && q.solarScore == s.solarScore
      && q.shadingScore == s.shadingScore && q.viabilityReason == s.viabilityReason
    ensures q.estAnnualProductionKwh >= 0
    ensures d.shadingPercent >= 100.0 ==> q.estAnnualProductionKwh == 0
    ensures d.irradianceKwhM2 <= 0.0 || d.roofAreaM2 <= 0.0 ==> q.estAnnualProductionKwh == 0
    ensures d.shadingPercent <= 0.0 && d.roofAreaM2 >= 0.0 && d.irradianceKwhM2 >= 0.0 ==>
      q.estAnnualProductionKwh == Round(d.roofAreaM2 * d.irradianceKwhM2 * 0.18)
  {
    var s := ComputeSolarScore(d);
    ProductionFacts(d);
    SolarQualification(leadId, s.roofViable, s.solarScore, s.shadingScore, s.viabilityReason, AnnualProductionKwh(d))
  }

  lemma ProductionFacts(d: RawSolarData)
    ensures d.irradianceKwhM2 <= 0.0 || d.roofAreaM2 <= 0.0 ==> AnnualProductionKwh(d) == 0
    ensures d.shadingPercent <= 0.0 && d.roofAreaM2 >= 0.0 && d.irradianceKwhM2 >= 0.0 ==>
      AnnualProductionKwh(d) == Round(d.roofAreaM2 * d.irradianceKwhM2 * 0.18)
  {
    var f := MaxR(0.0, d.irradianceKwhM2) * 0.18;
    var m := MaxR(0.0, ShadingMultiplier(d.shadingPercent));
    var x := d.roofAreaM2 * f * m;
    if d.irradianceKwhM2 <= 0.0 {
      assert f == 0.0;
      assert x == 0.0;
    } else if d.roofAreaM2 <= 0.0 {
      assert f * m >= 0.0;
      assert x == d.roofAreaM2 * (f * m);
      assert x <= 0.0;
      RoundMonotone(x, 0.0);
    }
    if d.shadingPercent <= 0.0 && d.roofAreaM2 >= 0.0 && d.irradianceKwhM2 >= 0.0 {
      assert m == 1.0;
      assert x == d.roofAreaM2 * d.irradianceKwhM2 * 0.18;
      assert x >= 0.0;
      RoundMonotone(0.0, x);
    }
  }
}
