/** The utility-rate lookup: a regional rate per zip code, or the national average. */
module UtilityRate {

  datatype UtilityRateResult = UtilityRateResult(rate: real, source: string)

  /** RATE_TABLE, $/kWh by zip code. */
  const RateTable: map<string, real> := map[
    "85001" := 0.14,
    "90210" := 0.24,
    "10001" := 0.22,
    "33101" := 0.12,
    "75001" := 0.11
  ]

  const DefaultRate: real := 0.16
  const RegionalSource: string := "Regional Table"
  const NationalSource: string := "National Average"

  /** getUtilityRate: every table rate is non-zero, so a listed zip always gets its own rate. */
  function GetUtilityRate(zipCode: string): (r: UtilityRateResult)
    ensures zipCode in RateTable ==> r.rate == RateTable[zipCode] && r.source == RegionalSource
    ensures zipCode !in RateTable ==> r.rate == DefaultRate && r.source == NationalSource
    ensures r.source == RegionalSource <==> zipCode in RateTable
    ensures 0.11 <= r.rate <= 0.24
  {
    var tableRate := if zipCode in RateTable then RateTable[zipCode] else 0.0;
    var rate := if tableRate != 0.0 then tableRate else DefaultRate;
    UtilityRateResult(rate, if tableRate != 0.0 then RegionalSource else NationalSource)
  }

  /** The national average lies strictly inside the range of the regional rates. */
  lemma DefaultWithinTable()
    ensures exists z :: z in RateTable && RateTable[z] < DefaultRate
    ensures exists z :: z in RateTable && RateTable[z] > DefaultRate
  {
    assert "75001" in RateTable;
    assert "90210" in RateTable;
  }
}
