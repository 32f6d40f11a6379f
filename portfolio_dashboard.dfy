/**
 * The portfolio dashboard (src/pages/dashboard/PortfolioDashboard.tsx): the
 * KPI figures over every project, the name search with region and stage
 * filters over the project cards, and the thresholds that colour a card.
 */
module PortfolioDashboard {
  import opened Common
  import opened Types

  // ---------------------------------------------------------------------
  // Search and filters
  // ---------------------------------------------------------------------

  /** `regionFilter` is free text from a select; the empty string means any region. */
  function MatchesCard(p: Project, query: string, region: string, stage: Option<ProjectStage>): bool
  {
    SearchMatches(p.name, query) && (region == "" || p.region == region) && (stage.None? || p.stage == stage.value)
  }

  function FilteredProjects(ps: seq<Project>, query: string, region: string, stage: Option<ProjectStage>): (r: seq<Project>)
    ensures Subsequence(r, ps)
    ensures forall i | 0 <= i < |r| :: SearchMatches(r[i].name, query)
    ensures region != "" ==> forall i | 0 <= i < |r| :: r[i].region == region
    ensures stage.Some? ==> forall i | 0 <= i < |r| :: r[i].stage == stage.value
  {
    KeepIfSatisfies(ps, (p: Project) => MatchesCard(p, query, region, stage));
    KeepIf(ps, (p: Project) => MatchesCard(p, query, region, stage))
  }

  lemma NoFilterKeepsAll(ps: seq<Project>)
    ensures FilteredProjects(ps, "", "", None) == ps
  {
    forall i | 0 <= i < |ps| ensures MatchesCard(ps[i], "", "", None) {
      EmptyQueryMatches(ps[i].name);
    }
  }

  lemma FilteredKeepsMatches(ps: seq<Project>, query: string, region: string, stage: Option<ProjectStage>)
    ensures forall p | p in ps && MatchesCard(p, query, region, stage) :: p in FilteredProjects(ps, query, region, stage)
  {
    KeepIfMembers(ps, (p: Project) => MatchesCard(p, query, region, stage));
  }

  // ---------------------------------------------------------------------
  // KPI figures: always over every project, whatever the filters
  // ---------------------------------------------------------------------

  function BudgetOf(p: Project): int { p.budget }
  function ActualOf(p: Project): int { p.actualCost }
  function PercentOf(p: Project): int { p.percentComplete }
  function RisksOf(p: Project): int { p.openRisks }

  datatype PortfolioKpis = PortfolioKpis(
    activeProjects: nat, onTrack: nat, avgCompletion: Option<int>,
    totalBudget: int, totalActual: int, totalRisks: int, highRiskProjects: nat)

  function IsActiveProject(p: Project): bool { p.status == ProjectStatus.Active }
  function IsGreen(p: Project): bool { p.ragStatus == Green }
  function IsHighRisk(p: Project): bool { p.openRisks > 5 }

  /** `Math.round(sum / length)`; an empty list makes it `NaN`, here `None`. */
  function AvgCompletion(ps: seq<Project>): (r: Option<int>)
    ensures r.None? <==> |ps| == 0
    ensures r.Some? ==> 2 * |ps| * r.value <= 2 * SumOf(ps, PercentOf) + |ps| < 2 * |ps| * (r.value + 1)
  {
    if |ps| == 0 then None else Some(RoundedMean(SumOf(ps, PercentOf), |ps|))
  }

  /** With every project between 0 and 100 percent complete, so is the average. */
  lemma AvgCompletionIsAPercentage(ps: seq<Project>)
    requires |ps| > 0
    requires forall i | 0 <= i < |ps| :: 0 <= ps[i].percentComplete <= 100
    ensures 0 <= AvgCompletion(ps).value <= 100
  {
    PercentSumBounded(ps);
    var n, r := |ps|, AvgCompletion(ps).value;
    if r < 0 {
      MulMonotone(2 * n, r + 1, 0);
    }
    if r > 100 {
      MulMonotone(2 * n, 101, r);
    }
  }

  lemma {:induction false} PercentSumBounded(ps: seq<Project>)
    requires forall i | 0 <= i < |ps| :: 0 <= ps[i].percentComplete <= 100
    ensures 0 <= SumOf(ps, PercentOf) <= 100 * |ps|
    decreases |ps|
  {
    if |ps| > 0 {
      PercentSumBounded(ps[1..]);
    }
  }

  /** The four cards. The filters take no part: the figures depend on the list only. */
  function Kpis(ps: seq<Project>): (r: PortfolioKpis)
    ensures r.onTrack <= |ps| && r.activeProjects <= |ps| && r.highRiskProjects <= |ps|
    ensures r.avgCompletion == AvgCompletion(ps)
  {
    PortfolioKpis(
      CountIf(ps, IsActiveProject), CountIf(ps, IsGreen), AvgCompletion(ps),
      SumOf(ps, BudgetOf), SumOf(ps, ActualOf), SumOf(ps, RisksOf), CountIf(ps, IsHighRisk))
  }

  /** The sums add up over the parts of a list. */
  lemma KpiSumsAppend(a: seq<Project>, b: seq<Project>)
    ensures Kpis(a + b).totalBudget == Kpis(a).totalBudget + Kpis(b).totalBudget
    ensures Kpis(a + b).totalActual == Kpis(a).totalActual + Kpis(b).totalActual
    ensures Kpis(a + b).totalRisks == Kpis(a).totalRisks + Kpis(b).totalRisks
    ensures Kpis(a + b).highRiskProjects == Kpis(a).highRiskProjects + Kpis(b).highRiskProjects
  {
    SumOfAppend(a, b, BudgetOf);
    SumOfAppend(a, b, ActualOf);
    SumOfAppend(a, b, RisksOf);
    CountIfAppend(a, b, IsHighRisk);
  }

  // ---------------------------------------------------------------------
  // The colours of a project card
  // ---------------------------------------------------------------------

  datatype CellTone = SuccessText | DangerText | WarningText | PlainText

  /** `actualCost > budget * 0.9 ? 'danger' : 'primary'`, in exact arithmetic. */
  function BudgetBarIsDanger(p: Project): (r: bool)
    ensures r <==> 10 * p.actualCost > 9 * p.budget
  {
    10 * p.actualCost > 9 * p.budget
  }

  /** A project over its (non-negative) budget always has a red bar, and one at most
      90% spent never does. */
  lemma BudgetBarBounds(p: Project)
    ensures p.budget >= 0 && p.actualCost > p.budget ==> BudgetBarIsDanger(p)
    ensures 10 * p.actualCost <= 9 * p.budget ==> !BudgetBarIsDanger(p)
  {
  }

  /** SPI and CPI: green from 1 upward. */
  function IndexTone(v: real): (r: CellTone)
    ensures r == SuccessText <==> v >= 1.0
    ensures r != SuccessText ==> r == DangerText
  {
    if v >= 1.0 then SuccessText else DangerText
  }

  /** The "Risks" figure: red above 5. */
  function RisksTone(p: Project): (r: CellTone)
    ensures r == DangerText <==> p.openRisks > 5
    ensures r != DangerText ==> r == PlainText
  {
    if p.openRisks > 5 then DangerText else PlainText
  }

  /** The "Issues" figure: amber above 3. */
  function IssuesTone(p: Project): (r: CellTone)
    ensures r == WarningText <==> p.openIssues > 3
    ensures r != WarningText ==> r == PlainText
  {
    if p.openIssues > 3 then WarningText else PlainText
  }

  /** "{n} projects high risk" counts exactly the cards whose risk figure is red. */
  lemma {:induction false} HighRiskCountsRedCells(ps: seq<Project>)
    ensures Kpis(ps).highRiskProjects == CountIf(ps, (p: Project) => RisksTone(p) == DangerText)
    decreases |ps|
  {
    var red := (p: Project) => RisksTone(p) == DangerText;
    if |ps| > 0 {
      HighRiskCountsRedCells(ps[1..]);
      CountIfFirst(ps, IsHighRisk);
      CountIfFirst(ps, red);
    }
  }
}
