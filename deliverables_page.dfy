/**
 * The deliverables page (src/pages/milestones/DeliverablesPage.tsx): the
 * overdue flag and countdown of the "Due Date" cell, the actions the detail
 * dialog offers for each status, the search and status filter, and the
 * counters. `daysUntil` is `differenceInDays(dueDate, now)`, taken as an input.
 */
module DeliverablesPage {
  import opened Common
  import opened Types
  import opened MilestonesPage

  /** `daysUntil < 0 && del.status !== 'accepted'`. */
  function IsOverdue(d: Deliverable, daysUntil: int): (r: bool)
    ensures r <==> daysUntil < 0 && d.status != Accepted
  {
    daysUntil < 0 && d.status != Accepted
  }

  /** The countdown line and its tone: absent for an accepted deliverable. */
  function DueNote(d: Deliverable, daysUntil: int): (r: Option<(Countdown, Tone)>)
    ensures r.None? <==> d.status == Accepted
    ensures r.Some? ==> (r.value.0.OverdueBy? <==> IsOverdue(d, daysUntil))
    ensures r.Some? ==> (r.value.1 == DangerTone <==> IsOverdue(d, daysUntil))
    ensures r.Some? ==> (r.value.1 == WarningTone <==> 0 <= daysUntil < 7)
  {
    if d.status == Accepted then None
    else
      var overdue := IsOverdue(d, daysUntil);
      var caption := if overdue then OverdueBy(-daysUntil) else Remaining(daysUntil);
      var tone := if overdue then DangerTone else if daysUntil < 7 then WarningTone else GrayTone;
      Some((caption, tone))
  }

  /** An accepted deliverable is never overdue and shows no countdown. */
  lemma AcceptedNeverOverdue(d: Deliverable, daysUntil: int)
    requires d.status == Accepted
    ensures !IsOverdue(d, daysUntil) && DueNote(d, daysUntil).None?
  {
  }

  /** For any other status the line is the milestones page's countdown. */
  lemma DueNoteIsMilestoneCountdown(d: Deliverable, daysUntil: int)
    requires d.status != Accepted
    ensures DueNote(d, daysUntil) == Some((CountdownFor(daysUntil), CountdownTone(daysUntil)))
  {
  }

  // ---------------------------------------------------------------------
  // The detail dialog's buttons
  // ---------------------------------------------------------------------

  datatype DialogAction = Cancel | SubmitForReview | Reject | Accept | AddDeliverable

  /** The footer of the dialog for the selected deliverable (`None` when creating). */
  function DialogActions(selected: Option<Deliverable>): (r: seq<DialogAction>)
    ensures |r| > 0 && r[0] == Cancel
    ensures SubmitForReview in r <==> selected.Some? && selected.value.status == DeliverableInProgress
    ensures Accept in r <==> selected.Some? && selected.value.status == DeliverableSubmitted
    ensures Reject in r <==> Accept in r
    ensures AddDeliverable in r <==> selected.None?
  {
    [Cancel] +
    (if selected.Some? && selected.value.status == DeliverableInProgress then [SubmitForReview] else []) +
    (if selected.Some? && selected.value.status == DeliverableSubmitted then [Reject, Accept] else []) +
    (if selected.None? then [AddDeliverable] else [])
  }

  /** At most one kind of decision is ever offered. */
  lemma DialogOffersOneKindOfDecision(selected: Option<Deliverable>)
    ensures !(SubmitForReview in DialogActions(selected) && Accept in DialogActions(selected))
    ensures !(AddDeliverable in DialogActions(selected) && (SubmitForReview in DialogActions(selected) || Accept in DialogActions(selected)))
  {
  }

  // ---------------------------------------------------------------------
  // Search, filter and counters
  // ---------------------------------------------------------------------

  function MatchesDeliverable(d: Deliverable, query: string, status: Option<DeliverableStatus>): bool
  {
    SearchMatches(d.name, query) && (status.None? || d.status == status.value)
  }

  function FilteredDeliverables(ds: seq<Deliverable>, query: string, status: Option<DeliverableStatus>): (r: seq<Deliverable>)
    ensures Subsequence(r, ds)
    ensures forall i | 0 <= i < |r| :: SearchMatches(r[i].name, query)
    ensures status.Some? ==> forall i | 0 <= i < |r| :: r[i].status == status.value
  {
    KeepIfSatisfies(ds, (d: Deliverable) => MatchesDeliverable(d, query, status));
    KeepIf(ds, (d: Deliverable) => MatchesDeliverable(d, query, status))
  }

  lemma NoFilterKeepsAll(ds: seq<Deliverable>)
    ensures FilteredDeliverables(ds, "", None) == ds
  {
    forall i | 0 <= i < |ds| ensures MatchesDeliverable(ds[i], "", None) {
      EmptyQueryMatches(ds[i].name);
    }
  }

  lemma FilteredKeepsMatches(ds: seq<Deliverable>, query: string, status: Option<DeliverableStatus>)
    ensures forall d | d in ds && MatchesDeliverable(d, query, status) :: d in FilteredDeliverables(ds, query, status)
  {
    KeepIfMembers(ds, (d: Deliverable) => MatchesDeliverable(d, query, status));
  }

  function HasStatus(s: DeliverableStatus): Deliverable -> bool
  {
    (d: Deliverable) => d.status == s
  }

  datatype DeliverableStats = DeliverableStats(total: nat, inProgress: nat, submitted: nat, accepted: nat)

  /** "Total", "In Progress", "Submitted" and "Accepted": each the number of
      deliverables in that status, and together no more than the total. */
  function Stats(ds: seq<Deliverable>): (r: DeliverableStats)
    ensures r.total == |ds|
    ensures r.inProgress + r.submitted + r.accepted <= r.total
  {
    var inProgress := CountIf(ds, HasStatus(DeliverableInProgress));
    var submitted := CountIf(ds, HasStatus(DeliverableSubmitted));
    var accepted := CountIf(ds, HasStatus(Accepted));
    ThreeStatusesFit(ds);
    DeliverableStats(|ds|, inProgress, submitted, accepted)
  }

  lemma {:induction false} ThreeStatusesFit(ds: seq<Deliverable>)
    ensures CountIf(ds, HasStatus(DeliverableInProgress)) + CountIf(ds, HasStatus(DeliverableSubmitted)) +
            CountIf(ds, HasStatus(Accepted)) <= |ds|
    decreases |ds|
  {
    if |ds| > 0 {
      ThreeStatusesFit(ds[1..]);
      CountIfFirst(ds, HasStatus(DeliverableInProgress));
      CountIfFirst(ds, HasStatus(DeliverableSubmitted));
      CountIfFirst(ds, HasStatus(Accepted));
    }
  }
}
