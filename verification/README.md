# PrimusHomePro Solar: a verified model of the decision and arithmetic core

PrimusHomePro Solar is a CRM for solar sales teams. A lead is captured from a
form. Its roof is scored and qualified from solar measurements. A proposal is
priced for it: system size, cost, the 30% federal tax credit, and a loan,
cash or PPA payment. When the customer accepts online, the lead is sold. A
sold lead gets an installation project with a fixed 14-step milestone
checklist, and agents earn commissions per milestone. Around this sit
subscription plans with limits, a forbidden-marketing-claims filter,
role-based permission checks with page guards, and a utility-rate table.

This project models that logic in Dafny and proves what the code promises.

- Numbers are exact `real`s, loan terms in years included.
  - `Math.round(x)` is `Floor(x + 0.5)`.
  - `Math.ceil(x)` is `-Floor(-x)`.
  - `Math.pow` with an integer exponent is a recursive power function.
- A JavaScript `x || d` on a nullable value is an `Option` plus an
  emptiness test: an empty string or a zero falls back as well.
- Database rows, the signed-in caller, the clock and environment settings
  are parameters. The caller is `Crm.Caller`: signed out, signed in without
  an agent row, or a signed-in agent.
- The lead row that server actions change in place is the class
  `Crm.LeadRecord`.
- An installation project is the class `Projects.Project`, holding its
  checklist in an array.

Modules, in dependency order:

| file | module | what it holds |
|---|---|---|
| common.dfy | `Wrappers`, `Numerics`, `Text` | Option/result types; rounding and powers; `trim`, `toLowerCase`, `includes`, `split(',')[0]` |
| solar_score.dfy | `SolarScore` | `computeSolarScore` and `qualifyLeadRoof` |
| solar_api.dfy | `SolarApi` | the pure helpers of the Google Solar integration |
| savings_model.dfy | `SavingsModel`, `DomainProposal` | `calculatePMT`, `calculateSavingsModel` and the domain `generateProposal` |
| crm.dfy | `Crm` | the lead row and the caller |
| proposal_action.dfy | `ProposalAction` | the `generateProposal` server action |
| commission.dfy | `Commissions` | `createCommissionUnlock` |
| lead_form.dfy | `LeadForm` | `createLeadFromForm` |
| project.dfy | `Projects` | the milestone checklist, project creation, milestone updates, progress |
| accept_proposal.dfy | `AcceptProposal` | email check, client address, `acceptProposal`, share link |
| plans.dfy | `Plans` | `PLANS`, `getPlanConfig`, `checkLimits` |
| compliance.dfy | `Compliance` | forbidden-claim detection |
| auth.dfy | `Auth` | role ranks and permission checks |
| route_guards.dfy | `RouteGuards` | page guards, `enforceGuard`, `getDefaultDashboard` |
| utility_rate.dfy | `UtilityRate` | the zip-code utility-rate lookup |

### What the code does not do

- **Milestones.** The code has no milestone dependency ordering and no
  rejection of a second completion.
  - `updateMilestoneStatus` rewrites the milestone record whatever its
    current state.
  - The domain `completeMilestone` is a stub that only logs.
  - `Projects.Project.UpdateMilestoneStatus` therefore accepts any
    milestone of the caller's project, in any order, as often as asked.
- **Commission linearity.** Commissions are not linear in the project
  value, because each amount is rounded on its own.
  - `Commissions.DoubledValueNotDoubleAmount` shows this: half of 1 rounds
    to 1, and half of 2 is also 1.
  - `Commissions.DoubledValueNearDoubleAmount` proves how far apart the two
    can be.
- **Break-even years.** They are not always at least 1.
  - When the rounded net cost is 0 or less and savings are positive,
    `Math.ceil` gives 0 or less.
  - `DomainProposal.GenerateProposal` proves at least 1 only when the net
    cost is positive.
- **Shading score.** Small roofs get an unclamped shading score: the early
  return computes `100 - shadingPercent` without the clamp, as
  `SolarScore.SmallRoofShadingUnclamped` shows.
- **Rounded net cost.** The reported net cost need not equal the reported
  gross cost minus the reported credit. See
  `SavingsModel.RoundedNetCanDiffer`.

## Model

| member | source | states |
|---|---|---|
| Text.Trim | frontend/lib/actions/accept-proposal.ts:47 | `trim()`: the result is a contiguous slice of the input with only whitespace outside it, has no whitespace at either end, and holds only characters of the input |
| Text.Utf16Length | frontend/lib/actions/accept-proposal.ts:148 | `length` counts UTF-16 code units: between one and two per character, and exactly one per character iff no character lies beyond the Basic Multilingual Plane |
| Text.Utf16LengthAppend | frontend/lib/actions/accept-proposal.ts:148 | the code-unit length of a concatenation is the sum of the lengths |
| Text.Includes | packages/config/compliance/rules.ts:32 | `includes(p)` holds exactly when p occurs as a contiguous block of the text |
| Text.FirstField | frontend/lib/actions/accept-proposal.ts:47 | `split(',')[0]`: a prefix of the text without a comma, followed by a comma or the end of the text |
| SolarScore.ShadingScore | packages/domain/solar/compute-solar-score.ts:33 | the shading score lies in [0, 100], and is 100 − shading whenever shading is itself in [0, 100] |
| SolarScore.ComputeSolarScore | packages/domain/solar/compute-solar-score.ts:21-62 | score is a whole number in [0, 100]. A roof under 20 m² scores 0, is not viable, and gets the minimum-area reason. Viable iff area ≥ 20, score ≥ 30 and shading ≤ 50. A viable roof gets "Roof meets all viability criteria". Otherwise excessive shading is reported before a low score |
| SolarScore.AreaFallbackUnreachable | packages/domain/solar/compute-solar-score.ts:53-59 | the plain "Insufficient roof area" reason is never produced |
| SolarScore.SmallRoofShadingUnclamped | packages/domain/solar/compute-solar-score.ts:23-30 | the small-roof early return does not clamp the shading score (150% shading gives −50) |
| SolarScore.ScoreOfLargeRoof | packages/domain/solar/compute-solar-score.ts:33-45 | past the area check, the score is the rounded, clamped 40/40/20 weighted sum, and the shading score is the clamped one |
| SolarScore.ScoreMonotone | packages/domain/solar/compute-solar-score.ts:37-45 | more area or irradiance never lowers the score, and more shading never raises it |
| SolarScore.ScoreSaturates | packages/domain/solar/compute-solar-score.ts:37-38 | area beyond 100 m² and irradiance beyond 2000 do not change the result |
| SolarScore.ExampleRoof | packages/domain/solar/compute-solar-score.ts:21-62 | a 50 m² roof at 1500 kWh/m² with 15% shading scores 67 and is viable |
| SolarScore.ShadingMultiplier | packages/domain/solar/qualify-lead-roof.ts:24 | the multiplier lies in [0, 1]; it is 0 at shading ≥ 100 and 1 at shading ≤ 0 |
| SolarScore.QualifyLeadRoof | packages/domain/solar/qualify-lead-roof.ts:19-39 | verdict, score, shading score and reason are those of computeSolarScore, and the lead id is kept. Production is never negative. It is 0 at shading ≥ 100, and 0 for non-positive irradiance or area. At shading ≤ 0 it is round(area × irradiance × 0.18) |
| SolarScore.ProductionFacts | packages/domain/solar/qualify-lead-roof.ts:24-29 | the zero-production and unshaded-production cases of the production formula |
| SolarApi.CalculateSiteSuitability | frontend/lib/solar/solar-api-service.ts:269-284 | VIABLE iff panels ≥ 10 and sunshine ≥ 1200. CHALLENGING iff not VIABLE and panels ≥ 5 and sunshine ≥ 800. NOT_VIABLE otherwise. Missing values count as 0 |
| SolarApi.MissingDataNotViable | frontend/lib/solar/solar-api-service.ts:272-273 | a response without the panel count or the sunshine figure is NOT_VIABLE |
| SolarApi.GetBestPanelConfig | frontend/lib/solar/solar-api-service.ts:289-299 | null for a missing or empty configuration list, otherwise its last entry |
| SolarApi.CalculateSystemSizeKW | frontend/lib/solar/solar-api-service.ts:304-309 | kW × 1000 = panels × capacity, with a capacity of 400 W when none is given |
| SolarApi.CalculateSolarScore | frontend/lib/solar/solar-api-service.ts:444-466 | score is the tier's base plus the sunshine and imagery adjustments. The clamps never bind. Always in [0, 100], inside the tier's band: VIABLE [70, 93], CHALLENGING [35, 58], NOT_VIABLE [5, 28] |
| SolarApi.BandsDisjoint | frontend/lib/solar/solar-api-service.ts:444-466 | the three score bands do not overlap, so a score determines its tier |
| SolarApi.DerivedShadingPercent | frontend/lib/solar/solar-api-service.ts:352 | shading × roof = (roof − usable) × 100; 100 when the roof area is not positive; within [0, 100] when usable ≤ roof |
| SolarApi.ConfidenceOf | frontend/lib/solar/solar-api-service.ts:359-360 | high, medium and low confidence correspond one-to-one to the imagery quality |
| SolarApi.AnalyseInsights | frontend/lib/solar/solar-api-service.ts:340-360 | the figures stored for a lead. Viable iff the site is VIABLE, and then the score lies in [75, 93]. The score is exactly the tier's base plus the sunshine and imagery adjustments. The system size × 1000 is 400 W times the best configuration's panel count, or the maximum panel count when that count is missing or 0. Shading, confidence, panel and sunshine figures and annual production come from the helpers above |
| SavingsModel.CalculatePMT | packages/domain/proposals/calculate-savings-model.ts:29-32 | rate 0 spreads pv evenly over nper. Any other rate gives the payment p that solves pv·(1+r)^n·r = p·((1+r)^n − 1). A zero principal gives 0 |
| SavingsModel.PmtSolvesAmortization | packages/domain/proposals/calculate-savings-model.ts:31 | `rate·pv / (1 − (1+rate)^−nper)` solves the amortization equation |
| SavingsModel.ComputeSavings | packages/domain/proposals/calculate-savings-model.ts:38-75 | size = production / 1500, reported to one decimal. Gross, credit = 0.3 × gross and net = 0.7 × gross are each rounded as the service reports them. CalculateSavingsModel passes it the four configured fields it reads |
| SavingsModel.NetCost | packages/domain/proposals/calculate-savings-model.ts:48-52 | gross less the 30% credit is 70% of gross, between 0 and gross when gross is not negative |
| SavingsModel.TermMonths | packages/domain/proposals/calculate-savings-model.ts:56 | `loanTermYears * 12` for a term in years that spans whole months: at least one month, and months = 12 × years exactly |
| SavingsModel.TermExamples | packages/domain/proposals/calculate-savings-model.ts:56 | 7.5 years is 90 months and 25 years is 300, while 7.3 years is not a whole number of months |
| SavingsModel.SavingsFinancing | packages/domain/proposals/calculate-savings-model.ts:54-65 | payment = round(PMT(apr/12, 12·years, unrounded net)); savings = round(rate × size × 120 − rounded payment) |
| SavingsModel.ZeroProduction | packages/domain/proposals/calculate-savings-model.ts:43-65 | zero production gives size, gross, credit, net, payment and savings all 0 |
| SavingsModel.PpaRateIgnored | packages/domain/proposals/calculate-savings-model.ts:38-75 | the result does not depend on the configured PPA rate |
| SavingsModel.RoundedNetNearGrossMinusCredit | packages/domain/proposals/calculate-savings-model.ts:69-71 | the rounded net cost is within 1 of rounded gross minus rounded credit |
| SavingsModel.RoundedNetCanDiffer | packages/domain/proposals/calculate-savings-model.ts:69-71 | a gross cost of 10.5 reports gross 11 and credit 3 but a net of 7 |
| DomainProposal.BreakEvenYears | packages/domain/proposals/generate-proposal.ts:41-43 | non-positive savings give 99 whatever the bill, a zero bill included. Otherwise it is the least whole number of years, at 80% of the yearly bill, covering the net cost |
| DomainProposal.GenerateProposal | packages/domain/proposals/generate-proposal.ts:28-54 | lead id kept. Size, gross and net copied from the savings model. Annual savings are 12 × monthly savings. Break-even is min(years, 25), so always ≤ 25, and 25 when savings are not positive (a zero bill included). At least 1 when savings and net cost are positive |
| DomainProposal.CeilFacts | packages/domain/proposals/generate-proposal.ts:42 | ceil(a / y) is the least count of periods y that covers a |
| DomainProposal.ZeroBillWithoutSavings | packages/domain/proposals/generate-proposal.ts:41-51 | with no savings a zero monthly bill is accepted: break-even is 99 before the cap and 25 in the proposal |
| DomainProposal.OnlyProductionMatters | packages/domain/proposals/generate-proposal.ts:32-35 | two qualifications with the same production give the same proposal |
| Crm.OrElse | frontend/lib/actions/accept-proposal.ts:173-174 | `x \|\| fallback`: x when it is present and non-empty, otherwise the fallback |
| Crm.LeadRecord.MarkProposedUnlessSold | frontend/lib/actions/generate-proposal.ts:176-182 | the lead becomes 'proposed' unless it is already 'sold', which stays |
| Crm.LeadRecord.RecordAcceptance | frontend/lib/actions/accept-proposal.ts:169-176 | the lead becomes 'sold'; an existing non-empty name or email is kept, otherwise the given one is filled in |
| ProposalAction.EffectiveMode | frontend/lib/actions/generate-proposal.ts:128 | a missing pricing mode means loan |
| ProposalAction.CalculateMonthlyPayment | frontend/lib/actions/generate-proposal.ts:41-47 | rate 0 spreads the principal over 12·years months (years may be fractional when the months are whole). Any other rate gives the amortizing payment at rate/12 over 12·years months. A zero principal gives 0 |
| ProposalAction.MonthlyPaymentMatchesPmt | frontend/lib/actions/generate-proposal.ts:41-47 | the action's payment formula equals the domain package's calculatePMT for every principal, rate and term |
| ProposalAction.SystemSizeWatts | frontend/lib/actions/generate-proposal.ts:108-113 | watts are 20 W per usable square foot when that is at most 15000, and 15000 otherwise |
| ProposalAction.ProposalFiguresFor | frontend/lib/actions/generate-proposal.ts:108-144 | kW × 1000 = watts. Production = kW × sunshine × 0.8. Cost = watts × 2.85, credit = 30%, and net + credit = cost. Savings × 12 = production × 0.15. The mode defaults to loan. Cash pays 0, PPA pays 80% of the savings, and a loan pays calculatePMT(0.055/12, 120, net) |
| ProposalAction.CostCapped | frontend/lib/actions/generate-proposal.ts:112-121 | the 15 kW cap bounds the cost at 42750 and the net cost at 29925 |
| ProposalAction.FullyShadedRoof | frontend/lib/actions/generate-proposal.ts:108-144 | a fully shaded roof gets no system, no cost, no production, no savings and no payment |
| ProposalAction.SystemGrowsWithRoof | frontend/lib/actions/generate-proposal.ts:110-112 | at the same shading (≤ 100%), a larger roof never gets a smaller system |
| ProposalAction.GenerateProposal | frontend/lib/actions/generate-proposal.ts:62-201 | errors in order: signed out, no agent, lead missing, lead of another agent, no qualification, roof not viable. Succeeds exactly when all checks pass. The summary carries the figures above. The lead becomes 'proposed' unless sold, and is unchanged on failure. Its other fields are never touched |
| Commissions.CreateCommissionUnlock | packages/domain/commissions/create-commission-unlock.ts:32-46 | project, agent and milestone key copied. Status pending. The amount is the whole number nearest gross × share, with halves rounded up |
| Commissions.AmountSign | packages/domain/commissions/create-commission-unlock.ts:37 | non-negative value and share give a non-negative amount; a zero share gives 0 |
| Commissions.AmountMonotone | packages/domain/commissions/create-commission-unlock.ts:37 | at a non-negative share, a larger project never earns less |
| Commissions.DoubledValueNearDoubleAmount | packages/domain/commissions/create-commission-unlock.ts:37 | doubling the value gives between 2a − 1 and 2a + 1 |
| Commissions.DoubledValueNotDoubleAmount | packages/domain/commissions/create-commission-unlock.ts:37 | doubling the value need not double the amount |
| LeadForm.CreateLeadFromForm | packages/domain/leads/create-lead-from-form.ts:32-48 | new, unassigned, with name, email and phone copied and the one-line address |
| LeadForm.AddressStartsWithLine1 | packages/domain/leads/create-lead-from-form.ts:36 | the address starts with the first address line and a comma, and has the parts' total length plus 5 |
| LeadForm.AddressLine1Recoverable | packages/domain/leads/create-lead-from-form.ts:36 | for a line without a comma, the address's first comma-separated field gives the line back |
| Projects.UnlockKeysDistinct | frontend/lib/actions/create-project.ts:12-30 | 14 milestones with pairwise distinct unlock keys |
| Projects.StandardChecklist | frontend/lib/actions/create-project.ts:84-95 | one milestone per standard step, in order: its title and key, sortOrder = index, pending, not completed by anyone |
| Projects.SetCompletion | frontend/lib/actions/create-project.ts:202-209 | completing sets status, time and agent; reopening sets pending and clears both; name, key and order stay |
| Projects.CompletedCount | frontend/lib/actions/create-project.ts:297-299 | at most the total; equal to it iff all are completed; 0 iff all are pending |
| Projects.Percent | frontend/lib/actions/create-project.ts:300-302 | percent × total = 100 × completed, within [0, 100] |
| Projects.PercentAwayFromEnds | frontend/lib/actions/create-project.ts:300-302 | with fewer than 200 steps, an unfinished checklist is below 99.5%, and one completed step reaches 0.5% |
| Projects.ProgressOf | frontend/lib/actions/create-project.ts:296-302 | progress is in [0, 100], within 0.5 of the exact percentage, and 0 for an empty checklist |
| Projects.ProgressExtremes | frontend/lib/actions/create-project.ts:296-302 | shows 100 exactly when every milestone is completed, and 0 exactly when none is |
| Projects.RoundedPercentExtremes | frontend/lib/actions/create-project.ts:300-302 | a rounded percentage is 100 iff all are done and 0 iff none is |
| Projects.NewChecklistProgress | frontend/lib/actions/create-project.ts:84-95 | a new project has nothing completed and shows 0 |
| Projects.Project.constructor | frontend/lib/actions/create-project.ts:84-95 | a new project is active and holds the standard checklist in a fresh array |
| Projects.Project.AllMilestonesCompleted | frontend/lib/actions/create-project.ts:216 | the scan answers whether every milestone is completed |
| Projects.Project.Progress | frontend/lib/actions/create-project.ts:296-302 | the project's progress lies in [0, 100] |
| Projects.Project.UpdateMilestoneStatus | frontend/lib/actions/create-project.ts:164-267 | errors: signed out, no agent, then milestone not found. Succeeds exactly when the caller owns the lead and the milestone exists. Only that milestone is rewritten, whatever its current state. The project completes once all are completed and never returns to active. Nothing changes on failure |
| Projects.CreateProjectFromLead | frontend/lib/actions/create-project.ts:42-128 | errors: signed out, no agent, lead not found. An existing project's id is returned with nothing created. A lead not 'sold' is refused. Otherwise exactly one fresh active project is created with the standard checklist, and the lead points to it |
| Projects.CreateTwice | frontend/lib/actions/create-project.ts:71-73 | asking twice for the same lead's project returns the same id once the first call succeeds, and the second call then creates no project |
| AcceptProposal.IndexOf | frontend/lib/actions/accept-proposal.ts:35 | the position of the first occurrence of a character, or the length when there is none |
| AcceptProposal.ValidateEmail | frontend/lib/actions/accept-proposal.ts:34-37 | accepts exactly the strings the pattern `^[^\s@]+@[^\s@]+\.[^\s@]+$` matches, as three non-empty whitespace- and '@'-free runs |
| AcceptProposal.NormalisedEmail | frontend/lib/actions/accept-proposal.ts:173 | never longer than the input; a valid address just loses its upper case and stays valid |
| AcceptProposal.ToLowerTrimCommute | frontend/lib/actions/accept-proposal.ts:173 | lower-casing then trimming equals trimming then lower-casing |
| AcceptProposal.StoredEmailIsValid | frontend/lib/actions/accept-proposal.ts:152-173 | an address that passed the check has nothing to trim and is still valid once stored |
| AcceptProposal.EmailExamples | frontend/lib/actions/accept-proposal.ts:34-37 | "jo@example.com" passes and "@example.com" does not |
| AcceptProposal.ClientIp | frontend/lib/actions/accept-proposal.ts:42-56 | the trimmed first entry of x-forwarded-for when set, else x-real-ip, else "unknown". The entry has no comma and no whitespace at its ends |
| AcceptProposal.SingleForwardedAddress | frontend/lib/actions/accept-proposal.ts:45-48 | a single clean forwarded address comes back unchanged |
| AcceptProposal.AcceptInputCheckOrder | frontend/lib/actions/accept-proposal.ts:144-154 | empty proposal id, then a trimmed name shorter than 2 UTF-16 code units, then an invalid email; the input passes exactly when none applies |
| AcceptProposal.NameLengthCountsCodeUnits | frontend/lib/actions/accept-proposal.ts:148 | with a valid id and email, a one-character name passes exactly when the character lies beyond the Basic Multilingual Plane (two code units) |
| AcceptProposal.AcceptProposal | frontend/lib/actions/accept-proposal.ts:138-211 | a failed check or a missing proposal is reported and leaves the lead alone. On success the lead is sold and keeps a non-empty name and email. Otherwise it gets the trimmed name and the lower-cased, trimmed email. The result names the proposal, its lead and the time |
| AcceptProposal.ProposalShareLink | frontend/lib/actions/accept-proposal.ts:220-245 | a missing proposal is an error; otherwise the link is the app URL (default http://localhost:3000) followed by /proposals/ and the id |
| Plans.PlanIdsDistinct | frontend/lib/billing/plans.ts:18-52 | three plans with distinct ids |
| Plans.PlansOrdered | frontend/lib/billing/plans.ts:18-52 | from starter to pro to agency, the price and seats rise and the success fee falls |
| Plans.Find | frontend/lib/billing/plans.ts:58 | `find`: the first plan with the id, or nothing when no plan has it |
| Plans.GetPlanConfig | frontend/lib/billing/plans.ts:57-59 | the plan with the requested id, or the starter plan for an unknown or missing id |
| Plans.GetPlanConfigExamples | frontend/lib/billing/plans.ts:57-59 | "pro" costs 498; an unknown or missing id gives starter |
| Plans.CheckLimit | frontend/lib/billing/plans.ts:73-82 | no limit: always allowed, no remaining count. With a limit: allowed iff current < limit, and remaining = max(0, limit − current), positive exactly when allowed |
| Plans.CheckLimits | frontend/lib/billing/plans.ts:64-90 | the lead figures are the lead limit's check, the automation figures the automation limit's |
| Plans.LimitsIndependent | frontend/lib/billing/plans.ts:73-82 | the lead figures do not depend on the automation count, nor the reverse |
| Plans.LimitExamples | frontend/lib/billing/plans.ts:41-51 | the agency plan is never limited; a starter account with 500 leads cannot add one |
| Compliance.AnyOccurs | packages/config/compliance/rules.ts:32 | `some`: holds iff one of the phrases occurs in the text |
| Compliance.FilterOccurring | packages/config/compliance/rules.ts:42 | `filter`: the phrases occurring in the text, in list order, as a subsequence of the list |
| Compliance.ContainsForbiddenClaim | packages/config/compliance/rules.ts:30-33 | holds iff some forbidden claim occurs in the lower-cased text |
| Compliance.ExtractForbiddenClaims | packages/config/compliance/rules.ts:40-43 | exactly the forbidden claims occurring in the lower-cased text, in list order, at most 8 |
| Compliance.ContainsIffExtracted | packages/config/compliance/rules.ts:30-43 | a text contains a forbidden claim iff some claim is extracted from it |
| Compliance.ClaimsDistinct | packages/config/compliance/rules.ts:10-19 | the eight claims are distinct |
| Compliance.ExtractedDistinct | packages/config/compliance/rules.ts:40-43 | no claim is reported twice |
| Compliance.CaseInsensitive | packages/config/compliance/rules.ts:31-41 | a text and its lower-cased form give the same result |
| Compliance.EmptyTextClean | packages/config/compliance/rules.ts:10-19 | an empty text holds no claim |
| Compliance.ExtensionKeepsClaims | packages/config/compliance/rules.ts:40-43 | adding text before or after never removes a detected claim |
| Compliance.ExampleDetection | packages/config/compliance/rules.ts:40-43 | "Get FREE SOLAR today" is flagged with "free solar" |
| UtilityRate.GetUtilityRate | packages/services/utility/lookup.ts:24-34 | a listed zip gets its table rate from "Regional Table"; any other gets 0.16 from "National Average"; the source is regional iff the zip is listed; the rate lies in [0.11, 0.24] |
| UtilityRate.DefaultWithinTable | packages/services/utility/lookup.ts:10-18 | the national average lies strictly between the lowest and highest regional rates |
| Auth.Position | frontend/lib/auth/auth-service.ts:31-36 | each role's place in the ascending list of roles |
| Auth.RanksStrictlyOrdered | frontend/lib/auth/auth-service.ts:31-36 | ADMIN > SCHEDULER > SALES > INSTALLER in rank |
| Auth.GetAuthContext | frontend/lib/auth/auth-service.ts:46-70 | no context without a session or a user row; otherwise the user's ids, email and name, no company, and role ADMIN |
| Auth.UserRole | frontend/lib/auth/auth-service.ts:83-86 | the context's role, ADMIN without a context |
| Auth.MeetsMinimum | frontend/lib/auth/auth-service.ts:105 | a role meets a minimum iff it is at or above it in the role order |
| Auth.HasMinimumRole | frontend/lib/auth/auth-service.ts:103-106 | the caller's role is at or above the minimum |
| Auth.MinimumRoleFacts | frontend/lib/auth/auth-service.ts:31-36 | ADMIN meets every minimum, INSTALLER only INSTALLER; the relation is reflexive, transitive, total and antisymmetric |
| Auth.IsAdmin | frontend/lib/auth/auth-service.ts:111-114 | holds iff the caller meets the ADMIN minimum |
| Auth.AdminOnly | frontend/lib/auth/auth-service.ts:119-130 | allowed iff the role is ADMIN; a reason only on denial |
| Auth.CanAccessBilling | frontend/lib/auth/auth-service.ts:119-130 | allowed iff admin; the billing reason exactly on denial |
| Auth.CanAccessAutomations | frontend/lib/auth/auth-service.ts:135-146 | allowed iff admin; the automations reason exactly on denial |
| Auth.CanManageTeam | frontend/lib/auth/auth-service.ts:151-162 | allowed iff admin; the team reason exactly on denial |
| Auth.CanViewLead | frontend/lib/auth/auth-service.ts:168-186 | allowed iff signed in and the lead exists and belongs to the caller; "Not authenticated" or "Lead not found or access denied" otherwise |
| Auth.CanEditLead | frontend/lib/auth/auth-service.ts:191-193 | the same answer as canViewLead |
| Auth.CanViewProject | frontend/lib/auth/auth-service.ts:198-215 | allowed iff signed in and the project exists and its lead belongs to the caller; "Not authenticated" or "Project not found or access denied" otherwise |
| Auth.CanUpdateMilestone | frontend/lib/auth/auth-service.ts:220-222 | the same answer as canViewProject |
| Auth.EveryoneIsAdminForNow | frontend/lib/auth/auth-service.ts:61-66 | while the role is hard-coded, every context getAuthContext builds (or none) passes every administrator and minimum-role check |
| Auth.LeadAccessIsOwnership | frontend/lib/auth/auth-service.ts:175-185 | two different users can never both view the same lead |
| RouteGuards.FromPermission | frontend/lib/auth/route-guards.ts:36-44 | a denied permission sends to /dashboard with its reason; a granted one allows |
| RouteGuards.GuardBillingPage | frontend/lib/auth/route-guards.ts:27-45 | no context goes to /sign-in; allowed iff ADMIN; others go to /dashboard with the billing reason |
| RouteGuards.GuardAutomationsPage | frontend/lib/auth/route-guards.ts:50-68 | no context goes to /sign-in; allowed iff ADMIN; others go to /dashboard with the automations reason |
| RouteGuards.GuardTeamPage | frontend/lib/auth/route-guards.ts:73-91 | no context goes to /sign-in; allowed iff ADMIN; others go to /dashboard with the team reason |
| RouteGuards.GuardLeadsPage | frontend/lib/auth/route-guards.ts:96-113 | no context goes to /sign-in; INSTALLER goes to /dashboard/projects; every other role is allowed |
| RouteGuards.GuardProjectsPage | frontend/lib/auth/route-guards.ts:119-127 | allowed iff signed in; otherwise to /sign-in |
| RouteGuards.GuardMinimumRole | frontend/lib/auth/route-guards.ts:132-150 | no context goes to /sign-in; allowed iff hasMinimumRole; otherwise to /dashboard with "This page requires <ROLE> access or higher" |
| RouteGuards.EnforceGuard | frontend/lib/auth/route-guards.ts:156-162 | redirects only when the result is denied and names a non-empty target, and then to that target |
| RouteGuards.EnforcedGuardsRedirectIffDenied | frontend/lib/auth/route-guards.ts:27-162 | every guard names a target when it denies, so enforcing it redirects exactly when it denies |
| RouteGuards.AdminPagesAreMinimumAdmin | frontend/lib/auth/route-guards.ts:27-150 | the billing, automations and team guards allow exactly what a minimum role of ADMIN allows |
| RouteGuards.GetDefaultDashboard | frontend/lib/auth/route-guards.ts:168-186 | ADMIN and SCHEDULER go to /dashboard, SALES to /dashboard/leads, INSTALLER to /dashboard/projects; no context to /sign-in |
| RouteGuards.DefaultDashboardIsReachable | frontend/lib/auth/route-guards.ts:96-186 | a signed-in user's default dashboard is never the sign-in page, and its guard lets them in |

## Left out

- Database reads and writes are not modelled.
  - Every `prisma` call, `revalidatePath` and the AutomationEvent log are out.
  - The rows that decide a branch are parameters.
  - The ids and timestamps the database or the clock assign are parameters too.
- The auth provider is not modelled. `auth()` and the agent lookup collapse into `Crm.Caller` (server actions) or `Auth.GetAuthContext`'s two parameters.
- External services are out: the Google geocode and Solar requests, Stripe, Twilio, Resend and the PDF renderer.
- `SolarApi.AnalyseInsights`: only the pure derivation inside `enrichLeadWithSolarData` is modelled. The fetch and the upsert of the qualification are not.
- Floating point is not modelled. Numbers are exact reals, so IEEE round-off, `Infinity` and `NaN` do not arise. Four members restrict their inputs:
  - `SavingsModel.CalculatePMT` requires at least one period, because zero periods divide by zero (`Infinity` or `NaN` in JavaScript). It also requires a rate above −100% per period. JavaScript gives finite values below that (0 at exactly −100%, −pv at −200% over one period), but no loan carries such a rate, and the amortization proof needs the positive base 1 + rate.
  - `ProposalAction.CalculateMonthlyPayment` requires a positive term spanning whole months, for the same division by zero and for the whole-month reason given below. It also requires an annual rate above −1200% (a monthly rate above −100%), for the same reason as `CalculatePMT`.
  - `DomainProposal.BreakEvenYears` requires a positive monthly bill only when the annual savings are positive. Only then does the code divide by the bill, and a zero bill there gives `Infinity` or `NaN`. With no savings any bill is accepted, and the result is 99.
  - `DomainProposal.GenerateProposal` requires the same, with the savings taken from the savings model. With no savings a zero bill gives a break-even of 25.
- `SavingsModel.SavingsFinancing`, `SavingsModel.ComputeSavings` and `ProposalAction.CalculateMonthlyPayment`: the loan term is a real number of years (`SavingsModel.WholeMonthTerm`), required to span a whole number of months (7.5 years is 90 months). Terms such as 7.3 years (87.6 months) would need `Math.pow` with a non-integer exponent, which is not modelled.
- `Text.ToLower`: lower-cases the ASCII letters only; Unicode case mapping is not modelled.
- `UtilityRate.GetUtilityRate`: models the table as a plain map. A zip such as "constructor" would find an inherited object property in JavaScript, and that is not modelled.
- `Plans.PlanConfig`: the Stripe price id is the built-in default. The environment override is not modelled.
- `Projects.Project.UpdateMilestoneStatus`: addresses a milestone by its index in the project's checklist, not by its database id. A milestone of another project is therefore "not found" by construction.
- `Projects.ProgressExtremes`: is stated for checklists of fewer than 200 milestones (the standard one has 14). Above that, rounding can show 100% before the last milestone is done.
- `Projects.CreateProjectFromLead`: returns the created `Project` object. The database's nested creation of the milestone rows is the constructor.
- `AcceptProposal.NormalisedEmail`: states its result only for addresses that passed the email check, the only ones it is applied to.
- `RouteGuards.GuardBillingPage`, `GuardAutomationsPage` and `GuardTeamPage` read the context once. The source reads it a second time inside the permission check, and a change between the two reads is not modelled.
- The permission checks are modelled as they stand, with the role hard-coded to ADMIN. Because the role defaults to ADMIN, `Auth.CanAccessBilling(None)` is allowed: the guards, which check the context first, are what keep signed-out callers away.
- The following do no computation and are not modelled:
  - `getCurrentUserCompanyId`, `getCurrentUserId`, `getLeadWhereClause` and `getProjectWhereClause`;
  - the team-management stubs in auth-service.ts;
  - the domain stubs `completeMilestone`, `initializeProjectForLead`, `updateLeadStatus` and `getAgentCommissionSummary`.
- Commission aggregation is not modelled, and neither are milestone dependency or double-completion rules: the code has none.
- `getPublicProposalDetails`, `getLeadProposals`, `getProposalDetails` and the listing part of `getUserProjects` only read and reshape rows. Only the progress computation of `getUserProjects` is modelled.
- Formatting (`toFixed`, `toLocaleString`), the UI, the automation engine and the seed scripts are not part of this model.
