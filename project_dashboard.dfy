/**
 * The dashboard of one project (src/pages/dashboard/ProjectDashboard.tsx):
 * the status of the four KPI cards, the share of the budget spent, the
 * forecast colour and the line comparing spending with progress.
 * `daysRemaining` is `differenceInDays(plannedEndDate, now)`, taken as an input.
 */
module ProjectDashboard {
  import opened Common
  import opened Types

  datatype KpiStatus = Good | Warning | CriticalStatus

  function StatusRank(s: KpiStatus): nat
  {
    match s
    case CriticalStatus => 0
    case Warning => 1
    case Good => 2
  }

  /** "Progress": good from half way. */
  function ProgressStatus(percentComplete: int): (r: KpiStatus)
    ensures r == Good <==> percentComplete >= 50
    ensures r != Good ==> r == Warning
  {
    if percentComplete >= 50 then Good else Warning
  }

  /** SPI and CPI: good from 1, a warning from 0.9, critical below. */
  function IndexStatus(v: real): (r: KpiStatus)
    ensures r == Good <==> v >= 1.0
    ensures r == Warning <==> 0.9 <= v < 1.0
    ensures r == CriticalStatus <==> v < 0.9
  {
    if v >= 1.0 then Good else if v >= 0.9 then Warning else CriticalStatus
  }

  /** "Ahead of schedule" / "Under budget" exactly when the card is good. */
  function IndexIsFavourable(v: real): (r: bool)
    ensures r <==> IndexStatus(v) == Good
  {
    v >= 1.0
  }

  /** "Days Remaining": good beyond 60 days, a warning beyond 30, else critical. */
  function DaysStatus(daysRemaining: int): (r: KpiStatus)
    ensures r == Good <==> daysRemaining > 60
    ensures r == Warning <==> 30 < daysRemaining <= 60
    ensures r == CriticalStatus <==> daysRemaining <= 30
  {
    if daysRemaining > 60 then Good else if daysRemaining > 30 then Warning else CriticalStatus
  }

  /** A better index or more days left never gives a worse card. */
  lemma StatusesMonotone(v1: real, v2: real, d1: int, d2: int)
    requires v1 <= v2 && d1 <= d2
    ensures StatusRank(IndexStatus(v1)) <= StatusRank(IndexStatus(v2))
    ensures StatusRank(DaysStatus(d1)) <= StatusRank(DaysStatus(d2))
  {
  }

  /** `Math.round(actualCost / budget * 100)`; a zero budget divides by zero, here `None`. */
  function BudgetUsedPercent(p: Project): (r: Option<int>)
    ensures r.None? <==> p.budget == 0
    ensures p.budget > 0 ==> r.Some? && 2 * p.budget * r.value <= 200 * p.actualCost + p.budget < 2 * p.budget * (r.value + 1)
  {
    if p.budget == 0 then None
    else if p.budget > 0 then Some(RoundedPercent(p.actualCost, p.budget))
    else Some(RoundedPercent(-p.actualCost, -p.budget))
  }

  /** Spending the whole budget reads 100%, and spending more reads at least that. */
  lemma BudgetUsedPercentAtFullSpend(p: Project)
    requires p.budget > 0 && p.actualCost >= p.budget
    ensures BudgetUsedPercent(p).value >= 100
  {
    var b := p.budget;
    RoundedPercentMonotone(b, p.actualCost, b);
    var r := RoundedPercent(b, b);
    if r < 100 {
      MulMonotone(2 * b, r + 1, 100);
    }
  }

  /** The line under "Budget vs Progress". */
  datatype SpendingNote = SpendingAhead(points: nat) | OnTrackNote

  function SpendingNoteFor(budgetUsed: int, percentComplete: int): (r: SpendingNote)
    ensures r.SpendingAhead? <==> budgetUsed > percentComplete
    ensures r.SpendingAhead? ==> r.points > 0 && r.points == budgetUsed - percentComplete
  {
    if budgetUsed > percentComplete then SpendingAhead(budgetUsed - percentComplete) else OnTrackNote
  }

  /** The forecast figure is red when it exceeds the budget. */
  function ForecastIsRed(p: Project): (r: bool)
    ensures r <==> p.forecast > p.budget
  {
    p.forecast > p.budget
  }

  datatype BadgeTone = DangerBadge | WarningBadge | SuccessBadge

  /** The RAG badge of the header. */
  function RagBadge(s: RagStatus): (r: BadgeTone)
    ensures r == DangerBadge <==> s == Red
    ensures r == WarningBadge <==> s == Amber
    ensures r == SuccessBadge <==> s == Green
  {
    match s
    case Red => DangerBadge
    case Amber => WarningBadge
    case Green => SuccessBadge
  }
}
