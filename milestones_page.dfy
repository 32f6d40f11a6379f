/**
 * The milestones page (src/pages/milestones/MilestonesPage.tsx): the search
 * and filters, the "Dates" cell (completed, forecast, or a countdown to the
 * planned date), and the counters with the payment total. `daysUntil` is
 * `differenceInDays(plannedDate, now)`, taken as an input.
 */
module MilestonesPage {
  import opened Common
  import opened Types

  // ---------------------------------------------------------------------
  // The countdown caption, shared with the deliverables page
  // ---------------------------------------------------------------------

  /** "{|d|}d overdue" or "{d}d remaining". */
  datatype Countdown = OverdueBy(days: nat) | Remaining(days: nat)

  function CountdownFor(daysUntil: int): (r: Countdown)
    ensures r.OverdueBy? <==> daysUntil < 0
    ensures r.OverdueBy? ==> r.days == -daysUntil
    ensures r.Remaining? ==> r.days == daysUntil
  {
    if daysUntil < 0 then OverdueBy(-daysUntil) else Remaining(daysUntil)
  }

  datatype Tone = DangerTone | WarningTone | GrayTone

  /** `daysUntil < 0 ? danger : daysUntil < 7 ? warning : gray`. */
  function CountdownTone(daysUntil: int): (r: Tone)
    ensures r == DangerTone <==> daysUntil < 0
    ensures r == WarningTone <==> 0 <= daysUntil < 7
    ensures r == GrayTone <==> daysUntil >= 7
  {
    if daysUntil < 0 then DangerTone else if daysUntil < 7 then WarningTone else GrayTone
  }

  /** The tone and the wording agree: red exactly for an overdue caption. */
  lemma ToneMatchesCountdown(daysUntil: int)
    ensures CountdownTone(daysUntil) == DangerTone <==> CountdownFor(daysUntil).OverdueBy?
    ensures CountdownTone(daysUntil) == WarningTone ==> CountdownFor(daysUntil).days < 7
  {
  }

  // ---------------------------------------------------------------------
  // The "Dates" cell
  // ---------------------------------------------------------------------

  datatype DateNote = CompletedOn(date: int) | ForecastOn(date: int) | Counting(countdown: Countdown, tone: Tone)

  /** The line under the planned date: an actual date wins, then a forecast, and
      only then the countdown. */
  function DateNoteFor(ms: Milestone, daysUntil: int): (r: DateNote)
    ensures ms.actualDate.Some? ==> r == CompletedOn(ms.actualDate.value)
    ensures ms.actualDate.None? && ms.forecastDate.Some? ==> r == ForecastOn(ms.forecastDate.value)
    ensures r.Counting? <==> ms.actualDate.None? && ms.forecastDate.None?
    ensures r.Counting? ==> r.countdown == CountdownFor(daysUntil) && r.tone == CountdownTone(daysUntil)
  {
    if ms.actualDate.Some? then CompletedOn(ms.actualDate.value)
    else if ms.forecastDate.Some? then ForecastOn(ms.forecastDate.value)
    else Counting(CountdownFor(daysUntil), CountdownTone(daysUntil))
  }

  /** A milestone with an actual date reads "Completed" however late it is. */
  lemma CompletedIgnoresCountdown(ms: Milestone, d1: int, d2: int)
    requires ms.actualDate.Some?
    ensures DateNoteFor(ms, d1) == DateNoteFor(ms, d2) && DateNoteFor(ms, d1).CompletedOn?
  {
  }

  // ---------------------------------------------------------------------
  // Search and filters
  // ---------------------------------------------------------------------

  function MatchesMilestone(ms: Milestone, query: string, status: Option<MilestoneStatus>, msType: Option<MilestoneType>): bool
  {
    SearchMatches(ms.name, query) &&
    (status.None? || ms.status == status.value) &&
    (msType.None? || ms.milestoneType == msType.value)
  }

  /** `filteredMilestones`; `None` is the empty select. */
  function FilteredMilestones(ms: seq<Milestone>, query: string, status: Option<MilestoneStatus>, msType: Option<MilestoneType>): (r: seq<Milestone>)
    ensures Subsequence(r, ms)
    ensures forall i | 0 <= i < |r| :: SearchMatches(r[i].name, query)
    ensures status.Some? ==> forall i | 0 <= i < |r| :: r[i].status == status.value
    ensures msType.Some? ==> forall i | 0 <= i < |r| :: r[i].milestoneType == msType.value
  {
    KeepIfSatisfies(ms, (m: Milestone) => MatchesMilestone(m, query, status, msType));
    KeepIf(ms, (m: Milestone) => MatchesMilestone(m, query, status, msType))
  }

  /** An empty search with no filter set lists every milestone. */
  lemma NoFilterKeepsAll(ms: seq<Milestone>)
    ensures FilteredMilestones(ms, "", None, None) == ms
  {
    forall i | 0 <= i < |ms| ensures MatchesMilestone(ms[i], "", None, None) {
      EmptyQueryMatches(ms[i].name);
    }
  }

  /** Every milestone that matches is listed. */
  lemma FilteredKeepsMatches(ms: seq<Milestone>, query: string, status: Option<MilestoneStatus>, msType: Option<MilestoneType>)
    ensures forall m | m in ms && MatchesMilestone(m, query, status, msType) :: m in FilteredMilestones(ms, query, status, msType)
  {
    KeepIfMembers(ms, (m: Milestone) => MatchesMilestone(m, query, status, msType));
  }

  // ---------------------------------------------------------------------
  // Counters
  // ---------------------------------------------------------------------

  function IsAchieved(m: Milestone): bool { m.status == Achieved }
  function IsAtRisk(m: Milestone): bool { m.status == AtRisk }
  function IsPaymentMilestone(m: Milestone): bool { m.isPaymentMilestone }
  /** `m.paymentAmount || 0`. */
  function PaymentOf(m: Milestone): int { m.paymentAmount.GetOr(0) }

  datatype MilestoneStats = MilestoneStats(total: nat, achieved: nat, atRisk: nat, paymentValue: int)

  /** "Payment Value": the amounts of payment milestones, a missing amount as 0. */
  function PaymentValue(ms: seq<Milestone>): int
  {
    SumOf(KeepIf(ms, IsPaymentMilestone), PaymentOf)
  }

  function Stats(ms: seq<Milestone>): (r: MilestoneStats)
    ensures r.total == |ms| && r.achieved + r.atRisk <= r.total
  {
    CountIfDisjoint(ms, IsAchieved, IsAtRisk);
    MilestoneStats(|ms|, CountIf(ms, IsAchieved), CountIf(ms, IsAtRisk), PaymentValue(ms))
  }

  /** The payment total of two lists is the sum of their totals ... */
  lemma PaymentValueAppend(a: seq<Milestone>, b: seq<Milestone>)
    ensures PaymentValue(a + b) == PaymentValue(a) + PaymentValue(b)
  {
    KeepIfAppend(a, b, IsPaymentMilestone);
    SumOfAppend(KeepIf(a, IsPaymentMilestone), KeepIf(b, IsPaymentMilestone), PaymentOf);
  }

  /** ... so a milestone adds its amount when it is a payment milestone, and nothing otherwise. */
  lemma PaymentValueOfOne(ms: seq<Milestone>, m: Milestone)
    ensures PaymentValue(ms + [m]) == PaymentValue(ms) + (if m.isPaymentMilestone then m.paymentAmount.GetOr(0) else 0)
  {
    PaymentValueAppend(ms, [m]);
    assert [m][1..] == [];
    assert KeepIf([m], IsPaymentMilestone) == if m.isPaymentMilestone then [m] else [];
    assert SumOf([m], PaymentOf) == PaymentOf(m) + SumOf([m][1..], PaymentOf);
  }

  /** With no negative amounts the total is never negative. */
  lemma PaymentValueNonNegative(ms: seq<Milestone>)
    requires forall i | 0 <= i < |ms| :: ms[i].paymentAmount.GetOr(0) >= 0
    ensures PaymentValue(ms) >= 0
  {
    var p := KeepIf(ms, IsPaymentMilestone);
    KeepIfMembers(ms, IsPaymentMilestone);
    forall i | 0 <= i < |p| ensures PaymentOf(p[i]) >= 0 {
      assert p[i] in ms;
    }
    SumOfNonNegative(p, PaymentOf);
  }
}
