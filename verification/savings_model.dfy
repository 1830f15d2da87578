/**
 * The domain savings model: system size from production, cost, the 30%
 * federal credit, an amortized loan payment and the monthly savings.
 */
module SavingsModel {
  import opened Numerics

  datatype PricingConfig = PricingConfig(
    systemCostPerKw: real,
    loanApr: real,
    loanTermYears: real,
    ppaRate: real,
    utilityRate: real)

  /** Every figure of the result is rounded as the source rounds it. */
  datatype Savings = Savings(
    estSystemSizeKw: real,
    grossCost: int,
    itcCredit: int,
    netCostAfterIncentives: int,
    estMonthlyPayment: int,
    estMonthlySavings: int)

  const KwhPerKwYear: real := 1500.0
  const ItcRate: real := 0.30

  /** The payment the amortization formula asks for: the payment p with pv * (1+r)^n == p * ((1+r)^n - 1) / r. */
  ghost predicate IsAmortizingPayment(rate: real, nper: nat, pv: real, p: real)
    requires rate != 0.0
  {
    pv * Pow(1.0 + rate, nper) * rate == p * (Pow(1.0 + rate, nper) - 1.0)
  }

  /** calculatePMT: `rate == 0 ? pv / nper : rate * pv / (1 - (1 + rate)^-nper)`. */
  function CalculatePMT(rate: real, nper: int, pv: real): (p: real)
    requires nper > 0 && rate > -1.0
    ensures rate == 0.0 ==> p * nper as real == pv
    ensures rate != 0.0 ==> IsAmortizingPayment(rate, nper, pv, p)
    ensures pv == 0.0 ==> p == 0.0
  {
    if rate == 0.0 then pv / nper as real
    else
      PowAwayFromOne(1.0 + rate, nper);
      var d := 1.0 - PowInt(1.0 + rate, -nper);
      assert d != 0.0;
      PmtSolvesAmortization(rate, nper, pv);
      (rate * pv) / d
  }

  lemma PmtSolvesAmortization(rate: real, nper: int, pv: real)
    requires nper > 0 && rate > -1.0 && rate != 0.0
    ensures Pow(1.0 + rate, nper) > 0.0 && Pow(1.0 + rate, nper) != 1.0
    ensures IsAmortizingPayment(rate, nper, pv, (rate * pv) / (1.0 - 1.0 / Pow(1.0 + rate, nper)))
  {
    PowAwayFromOne(1.0 + rate, nper);
    var b := Pow(1.0 + rate, nper);
    var p := (rate * pv) / (1.0 - 1.0 / b);
    assert 1.0 - 1.0 / b == (b - 1.0) / b;
    assert p == (rate * pv * b) / (b - 1.0);
    assert p * (b - 1.0) == rate * pv * b;
  }

  function SystemSizeKw(production: real): real { production / KwhPerKwYear }

  /** The cost left to finance once the 30% credit is taken off: 70% of gross. */
  function NetCost(gross: real): (n: real)
    ensures n == 0.7 * gross
    ensures 0.0 <= gross ==> 0.0 <= n <= gross
  {
    gross - gross * ItcRate
  }

  /** A positive loan term in years that spans a whole number of months (7.5 years is 90 months). */
  predicate WholeMonthTerm(years: real) {
    years > 0.0 && (years * 12.0).Floor as real == years * 12.0
  }

  /** `years * 12`: the number of monthly payments of a whole-month term. */
  function TermMonths(years: real): (n: int)
    requires WholeMonthTerm(years)
    ensures n >= 1 && n as real == years * 12.0
  {
    (years * 12.0).Floor
  }

  /** Half-year terms are whole-month terms; 7.3 years (87.6 months) is not. */
  lemma TermExamples()
    ensures WholeMonthTerm(7.5) && TermMonths(7.5) == 90
    ensures WholeMonthTerm(25.0) && TermMonths(25.0) == 300
    ensures !WholeMonthTerm(7.3)
  {
  }

  /** The loan payment on the financed amount at the configured APR and term, rounded. */
  function MonthlyPayment(loanApr: real, loanTermYears: real, financed: real): int
    requires WholeMonthTerm(loanTermYears) && loanApr > -12.0
  {
    var monthlyRate := loanApr / 12.0;
    var totalMonths := TermMonths(loanTermYears);
    Round(CalculatePMT(monthlyRate, totalMonths, financed))
  }

  /** Utility value of a month's production (30 days at 4 kWh per kW) less the rounded payment, rounded. */
  function MonthlySavings(utilityRate: real, systemSizeKw: real, monthlyPayment: int): int {
    var monthlyProduction := systemSizeKw * 30.0 * 4.0;
    var utilitySavings := utilityRate * monthlyProduction;
    Round(utilitySavings - monthlyPayment as real)
  }

  /**
   * The figures of calculateSavingsModel from the four configuration values
   * it reads: size from production, gross cost, the 30% credit, the loan
   * payment on the unrounded net cost and the monthly savings.
   */
  function ComputeSavings(production: real, systemCostPerKw: real, loanApr: real, loanTermYears: real, utilityRate: real)
    : (s: Savings)
    requires WholeMonthTerm(loanTermYears) && loanApr > -12.0
    ensures var size := SystemSizeKw(production);
      var gross := size * systemCostPerKw;
      && s.estSystemSizeKw == Round(size * 10.0) as real / 10.0
      && s.grossCost == Round(gross)
      && s.itcCredit == Round(0.3 * gross)
      && s.netCostAfterIncentives == Round(0.7 * gross)
  {
    var estSystemSizeKw := SystemSizeKw(production);
    var grossCost := estSystemSizeKw * systemCostPerKw;
    var itcCredit := grossCost * ItcRate;
    assert itcCredit == 0.3 * grossCost;
    var netCostAfterIncentives := NetCost(grossCost);
    var estMonthlyPayment := MonthlyPayment(loanApr, loanTermYears, netCostAfterIncentives);
    var estMonthlySavings := MonthlySavings(utilityRate, estSystemSizeKw, estMonthlyPayment);
    Savings(
      Round(estSystemSizeKw * 10.0) as real / 10.0,
      Round(grossCost),
      Round(itcCredit),
      Round(netCostAfterIncentives),
      estMonthlyPayment,
      estMonthlySavings)
  }

  /** The payment finances the unrounded net cost, and the savings subtract the rounded payment. */
  lemma SavingsFinancing(production: real, systemCostPerKw: real, loanApr: real, loanTermYears: real, utilityRate: real)
    requires WholeMonthTerm(loanTermYears) && loanApr > -12.0
    ensures var s := ComputeSavings(production, systemCostPerKw, loanApr, loanTermYears, utilityRate);
      var size := SystemSizeKw(production);
      && s.estMonthlyPayment == MonthlyPayment(loanApr, loanTermYears, NetCost(size * systemCostPerKw))
      && s.estMonthlySavings == MonthlySavings(utilityRate, size, s.estMonthlyPayment)
  {
  }

  /** calculateSavingsModel */
  function CalculateSavingsModel(production: real, config: PricingConfig): Savings
    requires WholeMonthTerm(config.loanTermYears) && config.loanApr > -12.0
  {
    ComputeSavings(production, config.systemCostPerKw, config.loanApr, config.loanTermYears, config.utilityRate)
  }

  /** No production: no system, no cost, no payment, no savings. */
  lemma ZeroProduction(config: PricingConfig)
    requires WholeMonthTerm(config.loanTermYears) && config.loanApr > -12.0
    ensures CalculateSavingsModel(0.0, config) == Savings(0.0, 0, 0, 0, 0, 0)
  {
  }

  /** The PPA rate of the configuration plays no part in the model. */
  lemma PpaRateIgnored(production: real, config: PricingConfig, ppaRate: real)
    requires WholeMonthTerm(config.loanTermYears) && config.loanApr > -12.0
    ensures CalculateSavingsModel(production, config.(ppaRate := ppaRate)) == CalculateSavingsModel(production, config)
  {
    var other := config.(ppaRate := ppaRate);
    assert other.systemCostPerKw == config.systemCostPerKw && other.loanApr == config.loanApr;
    assert other.loanTermYears == config.loanTermYears && other.utilityRate == config.utilityRate;
  }

  /** Each figure is rounded on its own, so the reported net cost stays within 1 of gross minus credit. */
  lemma RoundedNetNearGrossMinusCredit(production: real, config: PricingConfig)
    requires WholeMonthTerm(config.loanTermYears) && config.loanApr > -12.0
    ensures var s := CalculateSavingsModel(production, config);
      -1 <= s.netCostAfterIncentives - (s.grossCost - s.itcCredit) <= 1
  {
    var gross := production / 1500.0 * config.systemCostPerKw;
    RoundIsNearest(gross);
    RoundIsNearest(0.3 * gross);
    RoundIsNearest(0.7 * gross);
  }

  /** ... and it can differ: a gross cost of 10.5 reports 11 - 3 but a net of 7. */
  lemma RoundedNetCanDiffer()
    ensures var s := CalculateSavingsModel(1500.0, PricingConfig(10.5, 0.0, 1.0, 0.0, 0.0));
      s.grossCost == 11 && s.itcCredit == 3 && s.netCostAfterIncentives == 7
  {
    var s := CalculateSavingsModel(1500.0, PricingConfig(10.5, 0.0, 1.0, 0.0, 0.0));
    assert Round(10.5) == 11;
    assert Round(0.3 * 10.5) == 3;
    assert Round(0.7 * 10.5) == 7;
  }
}

/** generateProposal of the domain package: savings plus a capped break-even estimate. */
module DomainProposal {
  import opened Numerics
  import opened SavingsModel
  import SolarScore

  datatype Proposal = Proposal(
    leadId: string,
    savings: Savings,
    systemSizeKw: real,
    grossCost: int,
    netCostAfterIncentives: int,
    breakEvenYears: int,
    estimatedAnnualSavings: int)

  const MaxBreakEvenYears: int := 25
  const NoBreakEven: int := 99

  /** Years for the net cost to be recovered from 80% of the yearly bill, or 99 when there are no savings. */
  function BreakEvenYears(netCost: int, annualSavings: int, currentMonthlyBill: real): (years: int)
    requires annualSavings > 0 ==> currentMonthlyBill > 0.0
    ensures annualSavings <= 0 ==> years == NoBreakEven
    ensures annualSavings > 0 ==>
      var yearly := currentMonthlyBill * 12.0 * 0.8;
      (years as real - 1.0) * yearly < netCost as real <= years as real * yearly
    ensures annualSavings > 0 && netCost > 0 ==> years >= 1
  {
    if annualSavings > 0 then
      CeilFacts(netCost as real, currentMonthlyBill * 12.0 * 0.8);
      Ceil(netCost as real / (currentMonthlyBill * 12.0 * 0.8))
    else NoBreakEven
  }

  /** generateProposal */
  function GenerateProposal(
    leadId: string, qualification: SolarScore.SolarQualification, config: PricingConfig, currentMonthlyBill: real
  ): (p: Proposal)
    requires WholeMonthTerm(config.loanTermYears) && config.loanApr > -12.0
    requires currentMonthlyBill > 0.0
      || CalculateSavingsModel(qualification.estAnnualProductionKwh as real, config).estMonthlySavings <= 0
    ensures p.leadId == leadId
    ensures p.savings == CalculateSavingsModel(qualification.estAnnualProductionKwh as real, config)
    ensures p.systemSizeKw == p.savings.estSystemSizeKw && p.grossCost == p.savings.grossCost
    ensures p.netCostAfterIncentives == p.savings.netCostAfterIncentives
    ensures p.estimatedAnnualSavings == 12 * p.savings.estMonthlySavings
    ensures p.breakEvenYears <= MaxBreakEvenYears
    ensures p.estimatedAnnualSavings <= 0 ==> p.breakEvenYears == MaxBreakEvenYears
    ensures var years := BreakEvenYears(p.netCostAfterIncentives, p.estimatedAnnualSavings, currentMonthlyBill);
      p.breakEvenYears == if years <= MaxBreakEvenYears then years else MaxBreakEvenYears
    ensures p.estimatedAnnualSavings > 0 && p.netCostAfterIncentives > 0 ==> p.breakEvenYears >= 1
  {
    var savings := CalculateSavingsModel(qualification.estAnnualProductionKwh as real, config);
    var estimatedAnnualSavings := savings.estMonthlySavings * 12;
    var breakEvenYears := BreakEvenYears(savings.netCostAfterIncentives, estimatedAnnualSavings, currentMonthlyBill);
    RoundOfInt(estimatedAnnualSavings);
    Proposal(
      leadId,
      savings,
      savings.estSystemSizeKw,
      savings.grossCost,
      savings.netCostAfterIncentives,
      if breakEvenYears <= MaxBreakEvenYears then breakEvenYears else MaxBreakEvenYears,
      Round(estimatedAnnualSavings as real))
  }

  /** A zero bill is accepted when there are no savings: nothing is divided and break-even shows 25. */
  lemma ZeroBillWithoutSavings(leadId: string, qualification: SolarScore.SolarQualification, config: PricingConfig)
    requires WholeMonthTerm(config.loanTermYears) && config.loanApr > -12.0
    ensures BreakEvenYears(0, 0, 0.0) == NoBreakEven
    ensures CalculateSavingsModel(qualification.estAnnualProductionKwh as real, config).estMonthlySavings <= 0 ==>
      GenerateProposal(leadId, qualification, config, 0.0).breakEvenYears == MaxBreakEvenYears
  {
  }

  /** ceil(a / y) is the least whole number of periods of length y that cover a. */
  lemma CeilFacts(a: real, y: real)
    requires y > 0.0
    ensures var n := Ceil(a / y);
      (n as real - 1.0) * y < a <= n as real * y && (a > 0.0 ==> n >= 1)
  {
    var n := Ceil(a / y);
    var q := a / y;
    CeilIsLeastAbove(q);
    assert a == q * y;
    MulMonotone(q, n as real, y);
    assert (n as real - 1.0) < q;
    MulStrictMonotone(n as real - 1.0, q, y);
  }

  lemma MulMonotone(x: real, z: real, y: real)
    requires x <= z && y > 0.0
    ensures x * y <= z * y
  {
  }

  lemma MulStrictMonotone(x: real, z: real, y: real)
    requires x < z && y > 0.0
    ensures x * y < z * y
  {
  }

  /** Only the production figure of the qualification reaches the proposal. */
  lemma OnlyProductionMatters(
    leadId: string, q1: SolarScore.SolarQualification, q2: SolarScore.SolarQualification,
    config: PricingConfig, currentMonthlyBill: real)
    requires WholeMonthTerm(config.loanTermYears) && config.loanApr > -12.0
    requires q1.estAnnualProductionKwh == q2.estAnnualProductionKwh
    requires currentMonthlyBill > 0.0 || CalculateSavingsModel(q1.estAnnualProductionKwh as real, config).estMonthlySavings <= 0
    ensures GenerateProposal(leadId, q1, config, currentMonthlyBill) == GenerateProposal(leadId, q2, config, currentMonthlyBill)
  {
  }
}
