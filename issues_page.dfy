/**
 * The issues page (src/pages/risks/IssuesPage.tsx): the SLA status of an
 * issue and its caption, the escalation marker, the search and filters, and
 * the counters. `hoursRemaining` is `differenceInHours(slaDeadline, now)`,
 * taken as an input (a function of the issue where a whole list is counted).
 */
module IssuesPage {
  import opened Common
  import opened Types

  datatype SlaStatus = Met | Breached | SlaAtRisk | OnTrack

  function IsDone(issue: Issue): bool { issue.status == Resolved || issue.status == IssueClosed }

  /** `getSLAStatus`. `hoursRemaining < slaHours * 0.25` is `4 * hoursRemaining < slaHours`
      on integers. */
  function SlaStatusOf(issue: Issue, hoursRemaining: int): (r: SlaStatus)
    ensures r == Met <==> IsDone(issue)
    ensures r == Breached <==> !IsDone(issue) && hoursRemaining < 0
    ensures r == SlaAtRisk <==> !IsDone(issue) && 0 <= hoursRemaining && 4 * hoursRemaining < issue.slaHours
    ensures r == OnTrack <==> !IsDone(issue) && 0 <= hoursRemaining && 4 * hoursRemaining >= issue.slaHours
  {
    if IsDone(issue) then Met
    else if hoursRemaining < 0 then Breached
    else if 4 * hoursRemaining < issue.slaHours then SlaAtRisk
    else OnTrack
  }

  /** Less time left never gives a better status. */
  function SlaRank(s: SlaStatus): nat
  {
    match s
    case Breached => 0
    case SlaAtRisk => 1
    case OnTrack => 2
    case Met => 3
  }

  lemma SlaStatusMonotone(issue: Issue, h1: int, h2: int)
    requires h1 <= h2
    ensures SlaRank(SlaStatusOf(issue, h1)) <= SlaRank(SlaStatusOf(issue, h2))
  {
  }

  /** Resolved and closed issues are met whatever their deadline. */
  lemma DoneIsMet(issue: Issue, h1: int, h2: int)
    requires IsDone(issue)
    ensures SlaStatusOf(issue, h1) == SlaStatusOf(issue, h2) == Met
  {
  }

  /** "Met", "{|h|}h overdue" or "{h}h left". */
  datatype SlaCaption = MetCaption | HoursOverdue(hours: nat) | HoursLeft(hours: nat)

  function SlaCaptionOf(issue: Issue, hoursRemaining: int): (r: SlaCaption)
    ensures r == MetCaption <==> SlaStatusOf(issue, hoursRemaining) == Met
    ensures r.HoursOverdue? <==> SlaStatusOf(issue, hoursRemaining) == Breached
    ensures r.HoursOverdue? ==> r.hours == -hoursRemaining
    ensures r.HoursLeft? ==> r.hours == hoursRemaining
  {
    match SlaStatusOf(issue, hoursRemaining)
    case Met => MetCaption
    case Breached => HoursOverdue(-hoursRemaining)
    case _ => HoursLeft(hoursRemaining)
  }

  /** The arrow next to the status: the issue has been escalated at least once. */
  function ShowsEscalationArrow(issue: Issue): bool
  {
    issue.currentEscalationLevel > 0
  }

  // ---------------------------------------------------------------------
  // Search and filters
  // ---------------------------------------------------------------------

  function MatchesIssue(issue: Issue, query: string, status: Option<IssueStatus>, priority: Option<Priority>): bool
  {
    SearchMatches(issue.title, query) &&
    (status.None? || issue.status == status.value) &&
    (priority.None? || issue.priority == priority.value)
  }

  function FilteredIssues(issues: seq<Issue>, query: string, status: Option<IssueStatus>, priority: Option<Priority>): (r: seq<Issue>)
    ensures Subsequence(r, issues)
    ensures forall i | 0 <= i < |r| :: SearchMatches(r[i].title, query)
    ensures status.Some? ==> forall i | 0 <= i < |r| :: r[i].status == status.value
    ensures priority.Some? ==> forall i | 0 <= i < |r| :: r[i].priority == priority.value
  {
    KeepIfSatisfies(issues, (x: Issue) => MatchesIssue(x, query, status, priority));
    KeepIf(issues, (x: Issue) => MatchesIssue(x, query, status, priority))
  }

  lemma NoFilterKeepsAll(issues: seq<Issue>)
    ensures FilteredIssues(issues, "", None, None) == issues
  {
    forall i | 0 <= i < |issues| ensures MatchesIssue(issues[i], "", None, None) {
      EmptyQueryMatches(issues[i].title);
    }
  }

  lemma FilteredKeepsMatches(issues: seq<Issue>, query: string, status: Option<IssueStatus>, priority: Option<Priority>)
    ensures forall x | x in issues && MatchesIssue(x, query, status, priority) :: x in FilteredIssues(issues, query, status, priority)
  {
    KeepIfMembers(issues, (x: Issue) => MatchesIssue(x, query, status, priority));
  }

  // ---------------------------------------------------------------------
  // Counters
  // ---------------------------------------------------------------------

  function IsOpen(issue: Issue): bool { issue.status == Open || issue.status == IssueInProgress }
  function IsEscalated(issue: Issue): bool { issue.status == Escalated }

  datatype IssueStats = IssueStats(open: nat, escalated: nat, breached: nat, resolved: nat)

  function IsBreached(hoursRemaining: Issue -> int): Issue -> bool
  {
    (x: Issue) => SlaStatusOf(x, hoursRemaining(x)) == Breached
  }

  /** "Open Issues", "Escalated", "SLA Breached" and "Resolved". */
  function Stats(issues: seq<Issue>, hoursRemaining: Issue -> int): (r: IssueStats)
    ensures r.open + r.escalated + r.resolved <= |issues|
    ensures r.breached + r.resolved <= |issues|
  {
    StatusCountersFit(issues);
    BreachedNotResolved(issues, hoursRemaining);
    IssueStats(
      CountIf(issues, IsOpen), CountIf(issues, IsEscalated),
      CountIf(issues, IsBreached(hoursRemaining)), CountIf(issues, IsDone))
  }

  /** The open, escalated and resolved counters never count an issue twice. */
  lemma {:induction false} StatusCountersFit(issues: seq<Issue>)
    ensures CountIf(issues, IsOpen) + CountIf(issues, IsEscalated) + CountIf(issues, IsDone) <= |issues|
    decreases |issues|
  {
    if |issues| > 0 {
      StatusCountersFit(issues[1..]);
      CountIfFirst(issues, IsOpen);
      CountIfFirst(issues, IsEscalated);
      CountIfFirst(issues, IsDone);
    }
  }

  /** An issue counted as breached is never also counted as resolved. */
  lemma BreachedNotResolved(issues: seq<Issue>, hoursRemaining: Issue -> int)
    ensures CountIf(issues, IsBreached(hoursRemaining)) + CountIf(issues, IsDone) <= |issues|
  {
    CountIfDisjoint(issues, IsBreached(hoursRemaining), IsDone);
  }
}
