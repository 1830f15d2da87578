/**
 * The pure helpers of the Google Solar integration: site suitability,
 * panel configuration choice, system size, the 0-100 score adjusted per
 * tier, and the shading and confidence figures stored with a lead.
 * A value read with `x || 0` is an Option here: a missing value counts as 0.
 */
module SolarApi {
  import opened Wrappers
  import opened Numerics

  datatype ImageryQuality = High | Medium | Low

  datatype PanelConfig = PanelConfig(panelsCount: real, yearlyEnergyDcKwh: real)

  /** The part of a building-insights response that the helpers read. */
  datatype SolarPotential = SolarPotential(
    maxArrayPanelsCount: Option<real>,
    maxArrayAreaMeters2: Option<real>,
    maxSunshineHoursPerYear: Option<real>,
    wholeRoofAreaMeters2: Option<real>,
    solarPanelConfigs: Option<seq<PanelConfig>>)

  datatype BuildingInsights = BuildingInsights(imageryQuality: ImageryQuality, solarPotential: Option<SolarPotential>)

  datatype SiteSuitability = Viable | Challenging | NotViable

  datatype Confidence = HighConfidence | MediumConfidence | LowConfidence

  const DefaultPanelCapacityW: real := 400.0
  const ViableMinPanels: real := 10.0
  const ViableMinSunshineHours: real := 1200.0
  const ChallengingMinPanels: real := 5.0
  const ChallengingMinSunshineHours: real := 800.0

  /** `x || 0` for an optional number. */
  function OrZero(x: Option<real>): real {
    x.GetOr(0.0)
  }

  function MaxPanels(insights: BuildingInsights): real {
    if insights.solarPotential.Some? then OrZero(insights.solarPotential.value.maxArrayPanelsCount) else 0.0
  }

  function SunshineHours(insights: BuildingInsights): real {
    if insights.solarPotential.Some? then OrZero(insights.solarPotential.value.maxSunshineHoursPerYear) else 0.0
  }

  /** calculateSiteSuitability */
  function CalculateSiteSuitability(insights: BuildingInsights): (s: SiteSuitability)
    ensures var panels, sun := MaxPanels(insights), SunshineHours(insights);
      && (s == Viable <==> panels >= ViableMinPanels && sun >= ViableMinSunshineHours)
      && (s == Challenging <==>
            !(panels >= ViableMinPanels && sun >= ViableMinSunshineHours)
            && panels >= ChallengingMinPanels && sun >= ChallengingMinSunshineHours)
      && (s == NotViable <==>
            !(panels >= ViableMinPanels && sun >= ViableMinSunshineHours)
            && !(panels >= ChallengingMinPanels && sun >= ChallengingMinSunshineHours))
  {
    var maxPanels := MaxPanels(insights);
    var sunshineHours := SunshineHours(insights);
    if maxPanels >= ViableMinPanels && sunshineHours >= ViableMinSunshineHours then Viable
    else if maxPanels >= ChallengingMinPanels && sunshineHours >= ChallengingMinSunshineHours then Challenging
    else NotViable
  }

  /** Without the panel count or the sunshine figure a site is not viable. */
  lemma MissingDataNotViable(insights: BuildingInsights)
    requires insights.solarPotential.None?
      || insights.solarPotential.value.maxArrayPanelsCount.None?
      || insights.solarPotential.value.maxSunshineHoursPerYear.None?
    ensures CalculateSiteSuitability(insights) == NotViable
  {
  }

  /** getBestPanelConfig: for now always the last (largest) configuration. */
  function GetBestPanelConfig(insights: BuildingInsights): (r: Option<PanelConfig>)
    ensures var configs := if insights.solarPotential.Some? then insights.solarPotential.value.solarPanelConfigs else None;
      && (r.None? <==> configs.None? || configs.value == [])
      && (r.Some? ==> r.value == configs.value[|configs.value| - 1])
  {
    if insights.solarPotential.None? then None
    else
      match insights.solarPotential.value.solarPanelConfigs
      case None => None
      case Some(configs) => if |configs| == 0 then None else Some(configs[|configs| - 1])
  }

  /** calculateSystemSizeKW: the panel capacity defaults to 400 W. */
  function CalculateSystemSizeKW(panelCount: real, panelCapacityW: Option<real>): (kw: real)
    ensures kw * 1000.0 == panelCount * panelCapacityW.GetOr(DefaultPanelCapacityW)
    ensures panelCapacityW.None? ==> kw == panelCount * 0.4
  {
    (panelCount * panelCapacityW.GetOr(DefaultPanelCapacityW)) / 1000.0
  }

  function BaseScore(s: SiteSuitability): int {
    match s
    case Viable => 85
    case Challenging => 50
    case NotViable => 20
  }

  function SunshineAdjustment(sunshineHours: real): int {
    if sunshineHours > 1500.0 then 5 else if sunshineHours < 1200.0 then -5 else 0
  }

  function QualityAdjustment(q: ImageryQuality): int {
    match q
    case High => 3
    case Medium => 0
    case Low => -10
  }

  /** The score bands of the three tiers. */
  predicate InBand(s: SiteSuitability, score: int) {
    match s
    case Viable => 70 <= score <= 93
    case Challenging => 35 <= score <= 58
    case NotViable => 5 <= score <= 28
  }

  /**
   * calculateSolarScore: the tier's base score, then the sunshine and
   * imagery adjustments, each clamped to [0, 100]. The clamps never bind,
   * so the score is the plain sum and the tiers' bands do not overlap.
   */
  method CalculateSolarScore(insights: BuildingInsights, siteSuitability: SiteSuitability) returns (score: int)
    ensures score == BaseScore(siteSuitability) + SunshineAdjustment(SunshineHours(insights))
                     + QualityAdjustment(insights.imageryQuality)
    ensures 0 <= score <= 100
    ensures InBand(siteSuitability, score)
  {
    score := BaseScore(siteSuitability);
    var sunshineHours := SunshineHours(insights);
    if sunshineHours > 1500.0 {
      score := if 100 <= score + 5 then 100 else score + 5;
    }
    if sunshineHours < 1200.0 {
      score := if 0 >= score - 5 then 0 else score - 5;
    }
    if insights.imageryQuality == High {
      score := if 100 <= score + 3 then 100 else score + 3;
    }
    if insights.imageryQuality == Low {
      score := if 0 >= score - 10 then 0 else score - 10;
    }
  }

  /** The bands are pairwise disjoint: a score determines its tier. */
  lemma BandsDisjoint(s: SiteSuitability, t: SiteSuitability, score: int)
    requires InBand(s, score) && InBand(t, score)
    ensures s == t
  {
  }

  /** Shading derived from the usable share of the roof; 100 when the roof area is unknown or not positive. */
  function DerivedShadingPercent(insights: BuildingInsights): (p: real)
    ensures var roof := if insights.solarPotential.Some? then OrZero(insights.solarPotential.value.wholeRoofAreaMeters2) else 0.0;
      var usable := if insights.solarPotential.Some? then OrZero(insights.solarPotential.value.maxArrayAreaMeters2) else 0.0;
      && (roof <= 0.0 ==> p == 100.0)
      && (roof > 0.0 ==> p * roof == (roof - usable) * 100.0)
      && (roof > 0.0 && 0.0 <= usable <= roof ==> 0.0 <= p <= 100.0)
  {
    var roofAreaSqM := if insights.solarPotential.Some? then OrZero(insights.solarPotential.value.wholeRoofAreaMeters2) else 0.0;
    var usableArea := if insights.solarPotential.Some? then OrZero(insights.solarPotential.value.maxArrayAreaMeters2) else 0.0;
    if roofAreaSqM > 0.0 then ((roofAreaSqM - usableArea) / roofAreaSqM) * 100.0 else 100.0
  }

  /** The confidence recorded with the qualification follows the imagery quality. */
  function ConfidenceOf(q: ImageryQuality): (c: Confidence)
    ensures c == HighConfidence <==> q == High
    ensures c == MediumConfidence <==> q == Medium
    ensures c == LowConfidence <==> q == Low
  {
    match q
    case High => HighConfidence
    case Medium => MediumConfidence
    case Low => LowConfidence
  }

  /** The figures the enrichment step derives from one response before storing them. */
  datatype SolarFigures = SolarFigures(
    siteSuitability: SiteSuitability,
    maxPanelsCount: real,
    maxSunshineHoursYear: real,
    annualKwhProduction: real,
    systemSizeKW: real,
    shadingPercent: real,
    roofViable: bool,
    solarScore: int,
    confidence: Confidence)

  /** `x || y` for a number: falls back on 0 as well as on a missing value. */
  function OrElse(x: Option<real>, y: real): real {
    if x.Some? && x.value != 0.0 then x.value else y
  }

  /**
   * The pure core of enrichLeadWithSolarData. A lead is viable exactly when
   * the site is VIABLE, and then its score lies in [75, 93]: a viable site has
   * at least 1200 sunshine hours, so the sunshine penalty never applies.
   */
  method AnalyseInsights(insights: BuildingInsights) returns (f: SolarFigures)
    ensures f.siteSuitability == CalculateSiteSuitability(insights)
    ensures f.roofViable <==> f.siteSuitability == Viable
    ensures f.roofViable ==> 75 <= f.solarScore <= 93
    ensures 0 <= f.solarScore <= 100
    ensures f.maxPanelsCount == MaxPanels(insights) && f.maxSunshineHoursYear == SunshineHours(insights)
    ensures f.shadingPercent == DerivedShadingPercent(insights)
    ensures f.confidence == ConfidenceOf(insights.imageryQuality)
    ensures var best := GetBestPanelConfig(insights);
      f.annualKwhProduction == (if best.Some? then best.value.yearlyEnergyDcKwh else 0.0)
    ensures var best := GetBestPanelConfig(insights);
      var panels := if best.Some? && best.value.panelsCount != 0.0 then best.value.panelsCount else MaxPanels(insights);
      f.systemSizeKW * 1000.0 == panels * DefaultPanelCapacityW
    ensures f.solarScore == BaseScore(f.siteSuitability) + SunshineAdjustment(SunshineHours(insights))
                            + QualityAdjustment(insights.imageryQuality)
  {
    var siteSuitability := CalculateSiteSuitability(insights);
    var bestConfig := GetBestPanelConfig(insights);
    var maxPanelsCount := MaxPanels(insights);
    var maxSunshineHoursYear := SunshineHours(insights);
    var annualKwhProduction := if bestConfig.Some? then bestConfig.value.yearlyEnergyDcKwh else 0.0;
    var panels := if bestConfig.Some? then OrElse(Some(bestConfig.value.panelsCount), maxPanelsCount) else maxPanelsCount;
    var systemSizeKW := CalculateSystemSizeKW(panels, None);
    var shadingPercent := DerivedShadingPercent(insights);
    var roofViable := siteSuitability == Viable;
    var solarScore := CalculateSolarScore(insights, siteSuitability);
    var confidence := ConfidenceOf(insights.imageryQuality);
    f := SolarFigures(siteSuitability, maxPanelsCount, maxSunshineHoursYear, annualKwhProduction,
                      systemSizeKW, shadingPercent, roofViable, solarScore, confidence);
  }
}
