/**
 * The project list (src/pages/projects/ProjectsPage.tsx): the search over
 * name, code and customer with the stage and status filters, and the row
 * actions menu.
 */
module ProjectsPage {
  import opened Common
  import opened Types

  /** The query is a case-insensitive substring of the name, the code or the customer. */
  function MatchesSearch(p: Project, query: string): bool
  {
    SearchMatches(p.name, query) || SearchMatches(p.code, query) || SearchMatches(p.customer, query)
  }

  function MatchesProject(p: Project, query: string, stage: Option<ProjectStage>, status: Option<ProjectStatus>): bool
  {
    MatchesSearch(p, query) && (stage.None? || p.stage == stage.value) && (status.None? || p.status == status.value)
  }

  /** `filteredProjects`; `None` is the empty select. */
  function FilteredProjects(ps: seq<Project>, query: string, stage: Option<ProjectStage>, status: Option<ProjectStatus>): (r: seq<Project>)
    ensures Subsequence(r, ps)
    ensures forall i | 0 <= i < |r| :: MatchesSearch(r[i], query)
    ensures stage.Some? ==> forall i | 0 <= i < |r| :: r[i].stage == stage.value
    ensures status.Some? ==> forall i | 0 <= i < |r| :: r[i].status == status.value
  {
    KeepIfSatisfies(ps, (p: Project) => MatchesProject(p, query, stage, status));
    KeepIf(ps, (p: Project) => MatchesProject(p, query, stage, status))
  }

  lemma NoFilterKeepsAll(ps: seq<Project>)
    ensures FilteredProjects(ps, "", None, None) == ps
  {
    forall i | 0 <= i < |ps| ensures MatchesProject(ps[i], "", None, None) {
      EmptyQueryMatches(ps[i].name);
    }
  }

  lemma FilteredKeepsMatches(ps: seq<Project>, query: string, stage: Option<ProjectStage>, status: Option<ProjectStatus>)
    ensures forall p | p in ps && MatchesProject(p, query, stage, status) :: p in FilteredProjects(ps, query, stage, status)
  {
    KeepIfMembers(ps, (p: Project) => MatchesProject(p, query, stage, status));
  }

  /** Typing a project's code, in any letter case, finds it whatever its name. */
  lemma SearchByCodeFindsProject(ps: seq<Project>, k: nat)
    requires k < |ps|
    ensures ps[k] in FilteredProjects(ps, ps[k].code, None, None)
  {
    FieldMatchesItself(ps[k].code, ps[k].code);
    FilteredKeepsMatches(ps, ps[k].code, None, None);
  }

  /** Narrowing the search never lists a project the wider search missed. */
  lemma FiltersOnlyNarrow(ps: seq<Project>, query: string, stage: ProjectStage, status: Option<ProjectStatus>)
    ensures Subsequence(FilteredProjects(ps, query, Some(stage), status), FilteredProjects(ps, query, None, status))
    ensures forall p | p in FilteredProjects(ps, query, Some(stage), status) :: p in FilteredProjects(ps, query, None, status)
  {
    var narrow := (p: Project) => MatchesProject(p, query, Some(stage), status);
    var wide := (p: Project) => MatchesProject(p, query, None, status);
    KeepIfNarrower(ps, narrow, wide);
    KeepIfMembers(ps, narrow);
    KeepIfMembers(ps, wide);
  }

  class ProjectsPageState {
    var showActionsMenu: Option<string>

    constructor ()
      ensures showActionsMenu == None
    {
      showActionsMenu := None;
    }

    /** The "more" button of a row: open its menu, or close it when already open. */
    method ToggleActions(id: string)
      modifies this
      ensures showActionsMenu == ToggleMenu(old(showActionsMenu), id)
      ensures showActionsMenu == Some(id) <==> old(showActionsMenu) != Some(id)
    {
      showActionsMenu := ToggleMenu(showActionsMenu, id);
    }
  }
}
