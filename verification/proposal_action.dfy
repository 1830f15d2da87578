/**
 * The generateProposal server action of the web app: size a system from the
 * stored roof qualification, cost it, take the 30% federal credit, price the
 * monthly payment for loan, cash or PPA, and mark the lead as proposed.
 */
module ProposalAction {
  import opened Wrappers
  import opened Numerics
  import opened Crm
  import SavingsModel

  datatype PricingMode = Loan | Cash | Ppa

  /** The summary the action returns for the stored proposal. */
  datatype ProposalSummary = ProposalSummary(
    id: string,
    leadId: string,
    totalSystemCost: real,
    netCostAfterIncentives: real,
    estMonthlyPayment: real,
    estMonthlySavings: real,
    pricingMode: string,
    createdAt: Timestamp)

  /** Every figure the action derives from a qualification before storing the proposal. */
  datatype ProposalFigures = ProposalFigures(
    systemSizeWatts: real,
    systemSizeKW: real,
    annualProductionKWh: real,
    totalSystemCost: real,
    federalItc: real,
    netCostAfterIncentives: real,
    estMonthlySavings: real,
    estMonthlyPayment: real,
    pricingMode: PricingMode)

  const CostPerWatt: real := 2.85
  const FederalItcRate: real := 0.30
  const LoanRate10Yr: real := 0.055
  const LoanYears: real := 10.0
  const AvgUtilityRate: real := 0.15
  const SqFtPerSqM: real := 10.764
  const WattsPerSqFt: real := 20.0
  const MaxSystemWatts: real := 15000.0
  const EfficiencyFactor: real := 0.80
  const PpaShareOfUtilityRate: real := 0.80

  const UnauthorizedError: string := "Unauthorized"
  const AgentNotFoundError: string := "Agent not found"
  const LeadNotFoundError: string := "Lead not found"
  const LeadAccessError: string := "Unauthorized access to lead"
  const QualificationRequiredError: string :=
    "Solar qualification required before generating proposal. Please qualify the lead first."
  const NotViableError: string :=
    "This property is not suitable for solar installation based on the roof analysis."

  /** The name stored with the proposal. */
  function ModeName(m: PricingMode): (s: string)
    ensures s in {"loan", "cash", "ppa"}
  {
    match m
    case Loan => "loan"
    case Cash => "cash"
    case Ppa => "ppa"
  }

  /** `input.pricingMode || 'loan'` */
  function EffectiveMode(m: Option<PricingMode>): (r: PricingMode)
    ensures m.Some? ==> r == m.value
    ensures m.None? ==> r == Loan
  {
    m.GetOr(Loan)
  }

  /**
   * calculateMonthlyPayment: `principal * r * B / (B - 1)` with r the monthly
   * rate and B = (1 + r)^(12 * years), or principal spread evenly when r is 0.
   */
  function CalculateMonthlyPayment(principal: real, annualRate: real, years: real): (p: real)
    requires SavingsModel.WholeMonthTerm(years) && annualRate > -12.0
    ensures annualRate == 0.0 ==> p * (years * 12.0) == principal
    ensures annualRate != 0.0 ==>
      SavingsModel.IsAmortizingPayment(annualRate / 12.0, SavingsModel.TermMonths(years), principal, p)
    ensures principal == 0.0 ==> p == 0.0
  {
    var monthlyRate := annualRate / 12.0;
    var numPayments := SavingsModel.TermMonths(years);
    if monthlyRate == 0.0 then principal / numPayments as real
    else
      PowAwayFromOne(1.0 + monthlyRate, numPayments);
      var b := Pow(1.0 + monthlyRate, numPayments);
      assert b - 1.0 != 0.0;
      (principal * monthlyRate * b) / (b - 1.0)
  }

  lemma CancelFactor(x: real, y: real, d: real, xd: real, yd: real)
    requires d != 0.0 && xd == x * d && yd == y * d && xd == yd
    ensures x == y
  {
    assert (x - y) * d == xd - yd;
  }

  /** The action's loan formula and the domain package's calculatePMT give the same payment. */
  lemma MonthlyPaymentMatchesPmt(principal: real, annualRate: real, years: real)
    requires SavingsModel.WholeMonthTerm(years) && annualRate > -12.0
    ensures CalculateMonthlyPayment(principal, annualRate, years)
         == SavingsModel.CalculatePMT(annualRate / 12.0, SavingsModel.TermMonths(years), principal)
  {
    var r := annualRate / 12.0;
    var n := SavingsModel.TermMonths(years);
    if r != 0.0 {
      PowAwayFromOne(1.0 + r, n);
      var b := Pow(1.0 + r, n);
      var m := CalculateMonthlyPayment(principal, annualRate, years);
      var p := SavingsModel.CalculatePMT(r, n, principal);
      var lhs := principal * b * r;
      assert lhs == m * (b - 1.0);
      assert lhs == p * (b - 1.0);
      CancelFactor(m, p, b - 1.0, lhs, lhs);
    }
  }

  /** Watts the roof can host: 20 W per usable square foot, capped at 15 kW. */
  function SystemSizeWatts(q: StoredQualification): (w: real)
    ensures var raw := q.roofAreaSqM * SqFtPerSqM * WattsPerSqFt * ((100.0 - q.shadingPercent) / 100.0);
      && w <= MaxSystemWatts && w <= raw
      && (raw <= MaxSystemWatts ==> w == raw)
      && (raw > MaxSystemWatts ==> w == MaxSystemWatts)
  {
    var roofAreaSqFt := q.roofAreaSqM * SqFtPerSqM;
    var usableRoofPct := (100.0 - q.shadingPercent) / 100.0;
    MinR(roofAreaSqFt * WattsPerSqFt * usableRoofPct, MaxSystemWatts)
  }

  /** The monthly payment for the chosen pricing mode. */
  function PaymentFor(mode: PricingMode, annualProductionKWh: real, netCost: real): real {
    match mode
    case Cash => 0.0
    case Ppa => (annualProductionKWh / 12.0) * (AvgUtilityRate * PpaShareOfUtilityRate)
    case Loan => CalculateMonthlyPayment(netCost, LoanRate10Yr, LoanYears)
  }

  /** The figures of a proposal for a qualification and an optional pricing mode. */
  function ProposalFiguresFor(q: StoredQualification, mode: Option<PricingMode>): (f: ProposalFigures)
    ensures f.systemSizeWatts == SystemSizeWatts(q) && f.systemSizeKW * 1000.0 == f.systemSizeWatts
    ensures f.annualProductionKWh == f.systemSizeKW * q.sunshineHoursYear * EfficiencyFactor
    ensures f.totalSystemCost == f.systemSizeWatts * CostPerWatt
    ensures f.federalItc == FederalItcRate * f.totalSystemCost
    ensures f.netCostAfterIncentives + f.federalItc == f.totalSystemCost
    ensures f.estMonthlySavings * 12.0 == f.annualProductionKWh * AvgUtilityRate
    ensures f.pricingMode == EffectiveMode(mode)
    ensures f.pricingMode == Cash ==> f.estMonthlyPayment == 0.0
    ensures f.pricingMode == Ppa ==> f.estMonthlyPayment == PpaShareOfUtilityRate * f.estMonthlySavings
    ensures f.pricingMode == Loan ==>
      f.estMonthlyPayment == SavingsModel.CalculatePMT(LoanRate10Yr / 12.0, 120, f.netCostAfterIncentives)
  {
    var systemSizeWatts := SystemSizeWatts(q);
    var systemSizeKW := systemSizeWatts / 1000.0;
    var annualProductionKWh := systemSizeKW * q.sunshineHoursYear * EfficiencyFactor;
    var totalSystemCost := systemSizeWatts * CostPerWatt;
    var federalItc := totalSystemCost * FederalItcRate;
    var netCostAfterIncentives := totalSystemCost - federalItc;
    var annualSavings := annualProductionKWh * AvgUtilityRate;
    var estMonthlySavings := annualSavings / 12.0;
    var pricingMode := EffectiveMode(mode);
    MonthlyPaymentMatchesPmt(netCostAfterIncentives, LoanRate10Yr, LoanYears);
    var estMonthlyPayment := PaymentFor(pricingMode, annualProductionKWh, netCostAfterIncentives);
    ProposalFigures(systemSizeWatts, systemSizeKW, annualProductionKWh, totalSystemCost, federalItc,
                    netCostAfterIncentives, estMonthlySavings, estMonthlyPayment, pricingMode)
  }

  /** The 15 kW cap bounds every proposal's cost: at most 42,750 gross and 29,925 after the credit. */
  lemma CostCapped(q: StoredQualification, mode: Option<PricingMode>)
    ensures var f := ProposalFiguresFor(q, mode);
      f.totalSystemCost <= 42750.0 && f.netCostAfterIncentives <= 29925.0
  {
  }

  /** A fully shaded roof gets no system, costs nothing and produces nothing. */
  lemma FullyShadedRoof(q: StoredQualification, mode: Option<PricingMode>)
    requires q.shadingPercent == 100.0
    ensures var f := ProposalFiguresFor(q, mode);
      f.systemSizeWatts == 0.0 && f.totalSystemCost == 0.0 && f.netCostAfterIncentives == 0.0
      && f.annualProductionKWh == 0.0 && f.estMonthlySavings == 0.0 && f.estMonthlyPayment == 0.0
  {
    var w := SystemSizeWatts(q);
    assert w == 0.0;
    var f := ProposalFiguresFor(q, mode);
    assert f.netCostAfterIncentives == 0.0;
    assert f.annualProductionKWh == 0.0;
  }

  lemma MulLeMono(x: real, z: real, y: real)
    requires x <= z && y >= 0.0
    ensures x * y <= z * y
  {
  }

  /** A larger roof never gets a smaller system, as long as shading is at most 100%. */
  lemma SystemGrowsWithRoof(q: StoredQualification, q2: StoredQualification)
    requires q.shadingPercent == q2.shadingPercent <= 100.0
    requires q.roofAreaSqM <= q2.roofAreaSqM
    ensures SystemSizeWatts(q) <= SystemSizeWatts(q2)
  {
    var u := (100.0 - q.shadingPercent) / 100.0;
    MulLeMono(q.roofAreaSqM, q2.roofAreaSqM, SqFtPerSqM);
    MulLeMono(q.roofAreaSqM * SqFtPerSqM, q2.roofAreaSqM * SqFtPerSqM, WattsPerSqFt);
    MulLeMono(q.roofAreaSqM * SqFtPerSqM * WattsPerSqFt, q2.roofAreaSqM * SqFtPerSqM * WattsPerSqFt, u);
    var raw := q.roofAreaSqM * SqFtPerSqM * WattsPerSqFt * ((100.0 - q.shadingPercent) / 100.0);
    var raw2 := q2.roofAreaSqM * SqFtPerSqM * WattsPerSqFt * ((100.0 - q2.shadingPercent) / 100.0);
    assert raw <= raw2;
  }

  /** Whether the action gets past every check for this caller and lead. */
  predicate Eligible(caller: Caller, lead: LeadRecord?)
    reads lead
  {
    && caller.AgentCaller?
    && lead != null
    && lead.agentId == Some(caller.agentId)
    && lead.solarQualification.Some?
    && lead.solarQualification.value.roofViable
  }

  /**
   * generateProposal. `lead` is the row found for the requested id (null when
   * there is none); the proposal id and creation time come from the database.
   */
  method GenerateProposal(
    caller: Caller, lead: LeadRecord?, mode: Option<PricingMode>, proposalId: string, createdAt: Timestamp
  ) returns (r: ActionResponse<ProposalSummary>)
    modifies lead
    ensures caller.SignedOut? ==> r == Failure(UnauthorizedError)
    ensures caller.NoAgent? ==> r == Failure(AgentNotFoundError)
    ensures caller.AgentCaller? && lead == null ==> r == Failure(LeadNotFoundError)
    ensures caller.AgentCaller? && lead != null && lead.agentId != Some(caller.agentId) ==>
      r == Failure(LeadAccessError)
    ensures caller.AgentCaller? && lead != null && lead.agentId == Some(caller.agentId) ==>
      (lead.solarQualification.None? ==> r == Failure(QualificationRequiredError))
      && (lead.solarQualification.Some? && !lead.solarQualification.value.roofViable ==> r == Failure(NotViableError))
    ensures r.Success? <==> Eligible(caller, lead)
    ensures r.Success? ==>
      var f := ProposalFiguresFor(lead.solarQualification.value, mode);
      r.data == ProposalSummary(proposalId, lead.id, f.totalSystemCost, f.netCostAfterIncentives,
                                f.estMonthlyPayment, f.estMonthlySavings, ModeName(f.pricingMode), createdAt)
    ensures lead != null && r.Failure? ==> lead.status == old(lead.status)
    ensures lead != null && r.Success? ==>
      lead.status == if old(lead.status) == StatusSold then StatusSold else StatusProposed
    ensures lead != null ==>
      lead.agentId == old(lead.agentId) && lead.name == old(lead.name) && lead.email == old(lead.email)
      && lead.solarQualification == old(lead.solarQualification) && lead.projectId == old(lead.projectId)
  {
    if caller.SignedOut? {
      return Failure(UnauthorizedError);
    }
    if caller.NoAgent? {
      return Failure(AgentNotFoundError);
    }
    if lead == null {
      return Failure(LeadNotFoundError);
    }
    if lead.agentId != Some(caller.agentId) {
      return Failure(LeadAccessError);
    }
    if lead.solarQualification.None? {
      return Failure(QualificationRequiredError);
    }
    var qual := lead.solarQualification.value;
    if !qual.roofViable {
      return Failure(NotViableError);
    }
    var f := ProposalFiguresFor(qual, mode);
    lead.MarkProposedUnlessSold();
    r := Success(ProposalSummary(proposalId, lead.id, f.totalSystemCost, f.netCostAfterIncentives,
                                 f.estMonthlyPayment, f.estMonthlySavings, ModeName(f.pricingMode), createdAt));
  }
}
