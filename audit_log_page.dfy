/**
 * The audit trail (src/pages/users/AuditLogPage.tsx): the search over user
 * and entity names with module and action filters, and the table of changes
 * in the detail dialog.
 */
module AuditLogPage {
  import opened Common
  import opened Types

  /** The query is a case-insensitive substring of the user's or the entity's name. */
  function MatchesSearch(log: AuditLog, query: string): bool
  {
    SearchMatches(log.userName, query) || SearchMatches(log.entityName, query)
  }

  /** Module and action are free text from selects; the empty string means any. */
  function MatchesLog(log: AuditLog, query: string, moduleFilter: string, actionFilter: string): bool
  {
    MatchesSearch(log, query) &&
    (moduleFilter == "" || log.moduleName == moduleFilter) &&
    (actionFilter == "" || log.action == actionFilter)
  }

  function FilteredLogs(logs: seq<AuditLog>, query: string, moduleFilter: string, actionFilter: string): (r: seq<AuditLog>)
    ensures Subsequence(r, logs)
    ensures forall i | 0 <= i < |r| :: MatchesSearch(r[i], query)
    ensures moduleFilter != "" ==> forall i | 0 <= i < |r| :: r[i].moduleName == moduleFilter
    ensures actionFilter != "" ==> forall i | 0 <= i < |r| :: r[i].action == actionFilter
  {
    KeepIfSatisfies(logs, (l: AuditLog) => MatchesLog(l, query, moduleFilter, actionFilter));
    KeepIf(logs, (l: AuditLog) => MatchesLog(l, query, moduleFilter, actionFilter))
  }

  lemma NoFilterKeepsAll(logs: seq<AuditLog>)
    ensures FilteredLogs(logs, "", "", "") == logs
  {
    forall i | 0 <= i < |logs| ensures MatchesLog(logs[i], "", "", "") {
      EmptyQueryMatches(logs[i].userName);
    }
  }

  lemma FilteredKeepsMatches(logs: seq<AuditLog>, query: string, moduleFilter: string, actionFilter: string)
    ensures forall l | l in logs && MatchesLog(l, query, moduleFilter, actionFilter) ::
              l in FilteredLogs(logs, query, moduleFilter, actionFilter)
  {
    KeepIfMembers(logs, (l: AuditLog) => MatchesLog(l, query, moduleFilter, actionFilter));
  }

  /** A row of "Changes Made": the field name, then the old value and the new one. */
  datatype ChangeRow = ChangeRow(field: string, oldText: string, newText: string)

  /** The section appears when the entry records changes (even none), with one row
      per changed field, in the order the entry lists them. */
  function ChangesTable(log: AuditLog): (r: Option<seq<ChangeRow>>)
    ensures r.None? <==> log.changes.None?
    ensures r.Some? ==> |r.value| == |log.changes.value|
    ensures r.Some? ==> forall i | 0 <= i < |r.value| ::
              r.value[i].field == log.changes.value[i].field &&
              r.value[i].oldText == log.changes.value[i].oldValue &&
              r.value[i].newText == log.changes.value[i].newValue
  {
    match log.changes
    case None => None
    case Some(cs) =>
      Some(seq(|cs|, i requires 0 <= i < |cs| => ChangeRow(cs[i].field, cs[i].oldValue, cs[i].newValue)))
  }
}
