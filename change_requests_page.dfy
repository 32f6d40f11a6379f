/**
 * The change-request log (src/pages/risks/ChangeRequestsPage.tsx): the search
 * and status filter, the schedule and cost totals over the approved and
 * implemented requests, the "Pending Review" counter, the sign and colour of
 * an impact, and the buttons the detail dialog offers for each status.
 */
module ChangeRequestsPage {
  import opened Common
  import opened Types

  // ---------------------------------------------------------------------
  // Search and status filter
  // ---------------------------------------------------------------------

  function MatchesChange(c: ChangeRequest, query: string, status: Option<ChangeRequestStatus>): bool
  {
    SearchMatches(c.title, query) && (status.None? || c.status == status.value)
  }

  function FilteredChanges(cs: seq<ChangeRequest>, query: string, status: Option<ChangeRequestStatus>): (r: seq<ChangeRequest>)
    ensures Subsequence(r, cs)
    ensures forall k | 0 <= k < |r| :: SearchMatches(r[k].title, query)
    ensures status.Some? ==> forall k | 0 <= k < |r| :: r[k].status == status.value
  {
    KeepIfSatisfies(cs, (x: ChangeRequest) => MatchesChange(x, query, status));
    KeepIf(cs, (x: ChangeRequest) => MatchesChange(x, query, status))
  }

  lemma NoFilterKeepsAll(cs: seq<ChangeRequest>)
    ensures FilteredChanges(cs, "", None) == cs
  {
    forall k | 0 <= k < |cs| ensures MatchesChange(cs[k], "", None) {
      EmptyQueryMatches(cs[k].title);
    }
  }

  lemma FilteredKeepsMatches(cs: seq<ChangeRequest>, query: string, status: Option<ChangeRequestStatus>)
    ensures forall x | x in cs && MatchesChange(x, query, status) :: x in FilteredChanges(cs, query, status)
  {
    KeepIfMembers(cs, (x: ChangeRequest) => MatchesChange(x, query, status));
  }

  // ---------------------------------------------------------------------
  // Impact totals
  // ---------------------------------------------------------------------

  /** Only approved and implemented requests change the baseline. */
  function CountsTowardImpact(c: ChangeRequest): bool
  {
    c.status == Approved || c.status == Implemented
  }

  function CostOf(c: ChangeRequest): int { c.costImpact }
  function DaysOf(c: ChangeRequest): int { c.timeImpactDays }

  /** `totalCostImpact`. */
  function TotalCostImpact(cs: seq<ChangeRequest>): int
  {
    SumOf(KeepIf(cs, CountsTowardImpact), CostOf)
  }

  /** `totalTimeImpact`. */
  function TotalTimeImpact(cs: seq<ChangeRequest>): int
  {
    SumOf(KeepIf(cs, CountsTowardImpact), DaysOf)
  }

  /** Both totals add up over the parts of a list. */
  lemma TotalsAppend(a: seq<ChangeRequest>, b: seq<ChangeRequest>)
    ensures TotalCostImpact(a + b) == TotalCostImpact(a) + TotalCostImpact(b)
    ensures TotalTimeImpact(a + b) == TotalTimeImpact(a) + TotalTimeImpact(b)
  {
    KeepIfAppend(a, b, CountsTowardImpact);
    SumOfAppend(KeepIf(a, CountsTowardImpact), KeepIf(b, CountsTowardImpact), CostOf);
    SumOfAppend(KeepIf(a, CountsTowardImpact), KeepIf(b, CountsTowardImpact), DaysOf);
  }

  /** One request adds its impacts when approved or implemented, and nothing in any
      other status. */
  lemma TotalsOfOne(c: ChangeRequest)
    ensures TotalCostImpact([c]) == (if CountsTowardImpact(c) then c.costImpact else 0)
    ensures TotalTimeImpact([c]) == (if CountsTowardImpact(c) then c.timeImpactDays else 0)
  {
    assert [c][1..] == [];
    assert KeepIf([c], CountsTowardImpact) == if CountsTowardImpact(c) then [c] else [];
    assert SumOf([c], CostOf) == CostOf(c) + SumOf([c][1..], CostOf);
    assert SumOf([c], DaysOf) == DaysOf(c) + SumOf([c][1..], DaysOf);
  }

  /** Drafts, pending and rejected requests never move the totals. */
  lemma PendingChangesDoNotCount(cs: seq<ChangeRequest>, c: ChangeRequest)
    requires !CountsTowardImpact(c)
    ensures TotalCostImpact(cs + [c]) == TotalCostImpact(cs)
    ensures TotalTimeImpact(cs + [c]) == TotalTimeImpact(cs)
  {
    TotalsAppend(cs, [c]);
    TotalsOfOne(c);
  }

  // ---------------------------------------------------------------------
  // Pending review
  // ---------------------------------------------------------------------

  function IsPending(c: ChangeRequest): bool { c.status == Submitted || c.status == UnderReview }
  function IsSubmitted(c: ChangeRequest): bool { c.status == Submitted }
  function IsUnderReview(c: ChangeRequest): bool { c.status == UnderReview }

  /** "Pending Review": the submitted requests plus those under review. */
  lemma {:induction false} PendingIsSubmittedPlusUnderReview(cs: seq<ChangeRequest>)
    ensures CountIf(cs, IsPending) == CountIf(cs, IsSubmitted) + CountIf(cs, IsUnderReview)
    decreases |cs|
  {
    if |cs| > 0 {
      PendingIsSubmittedPlusUnderReview(cs[1..]);
      CountIfFirst(cs, IsPending);
      CountIfFirst(cs, IsSubmitted);
      CountIfFirst(cs, IsUnderReview);
    }
  }

  /** A pending request never counts toward the impact totals. */
  lemma PendingAndCountedDisjoint(cs: seq<ChangeRequest>)
    ensures CountIf(cs, IsPending) + CountIf(cs, CountsTowardImpact) <= |cs|
  {
    CountIfDisjoint(cs, IsPending, CountsTowardImpact);
  }

  // ---------------------------------------------------------------------
  // Sign and colour of an impact
  // ---------------------------------------------------------------------

  datatype ImpactTone = DangerImpact | SuccessImpact

  datatype ImpactLook = ImpactLook(plusSign: bool, tone: ImpactTone)

  /** `v > 0 ? '+' : ''` and `v > 0 ? danger : success`, for a row and for the totals. */
  function ImpactLookOf(v: int): (r: ImpactLook)
    ensures r.plusSign <==> v > 0
    ensures r.tone == DangerImpact <==> v > 0
  {
    if v > 0 then ImpactLook(true, DangerImpact) else ImpactLook(false, SuccessImpact)
  }

  /** A saving and no change at all look the same: neither is signed nor red. */
  lemma NoIncreaseLooksAlike(v1: int, v2: int)
    requires v1 <= 0 && v2 <= 0
    ensures ImpactLookOf(v1) == ImpactLookOf(v2)
  {
  }

  // ---------------------------------------------------------------------
  // The detail dialog's buttons
  // ---------------------------------------------------------------------

  datatype ChangeAction = CancelDialog | RejectChange | ApproveChange | SubmitForApproval | CreateRequest

  /** The footer for the selected request (`None` for a new one). */
  function DialogActions(selected: Option<ChangeRequest>): (r: seq<ChangeAction>)
    ensures |r| > 0 && r[0] == CancelDialog
    ensures ApproveChange in r <==> selected.Some? && selected.value.status == UnderReview
    ensures RejectChange in r <==> ApproveChange in r
    ensures SubmitForApproval in r <==> selected.Some? && selected.value.status == Draft
    ensures CreateRequest in r <==> selected.None?
  {
    [CancelDialog] +
    (if selected.Some? && selected.value.status == UnderReview then [RejectChange, ApproveChange] else []) +
    (if selected.None? || selected.value.status == Draft
     then (if selected.Some? then [SubmitForApproval] else [CreateRequest])
     else [])
  }

  /** A request that is submitted, decided or implemented offers nothing but closing the dialog. */
  lemma NonActionableRequestOnlyCloses(c: ChangeRequest)
    requires c.status in {Submitted, Approved, Rejected, Implemented}
    ensures DialogActions(Some(c)) == [CancelDialog]
  {
  }
}
