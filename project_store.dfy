/**
 * The project store (src/stores/projectStore.ts): the portfolio's
 * projects, the selected project, the per-project collections (tasks,
 * risks, issues, change requests, milestones, deliverables) and the
 * portfolio filters. Every action replaces one or two fields with a new
 * list; the class below frames each method to exactly those fields.
 *
 * A `Partial<T>` update `{ ...x, ...updates }` is the function `patch`
 * that applies it to a record.
 */
module ProjectStore {
  import opened Common
  import opened Types

  // ---------------------------------------------------------------------
  // Portfolio filters
  // ---------------------------------------------------------------------

  datatype ProjectFilters = ProjectFilters(
    region: string, customer: string, pm: string, projectType: string, stage: string, status: string)

  /** A `Partial<ProjectFilters>`: the keys present are `Some`. */
  datatype FiltersPatch = FiltersPatch(
    region: Option<string>, customer: Option<string>, pm: Option<string>,
    projectType: Option<string>, stage: Option<string>, status: Option<string>)

  const DefaultFilters := ProjectFilters("", "", "", "", "", "")
  const NoChanges := FiltersPatch(None, None, None, None, None, None)

  /** `{ ...filters, ...patch }`: the keys the patch supplies are overwritten; the
      others keep their value. */
  function MergeFilters(f: ProjectFilters, patch: FiltersPatch): (r: ProjectFilters)
    ensures r.region == patch.region.GetOr(f.region)
    ensures r.customer == patch.customer.GetOr(f.customer)
    ensures r.pm == patch.pm.GetOr(f.pm)
    ensures r.projectType == patch.projectType.GetOr(f.projectType)
    ensures r.stage == patch.stage.GetOr(f.stage)
    ensures r.status == patch.status.GetOr(f.status)
  {
    ProjectFilters(
      patch.region.GetOr(f.region), patch.customer.GetOr(f.customer), patch.pm.GetOr(f.pm),
      patch.projectType.GetOr(f.projectType), patch.stage.GetOr(f.stage), patch.status.GetOr(f.status))
  }

  /** The later of two partial updates wins key by key. */
  function Then(first: FiltersPatch, second: FiltersPatch): FiltersPatch
  {
    FiltersPatch(
      if second.region.Some? then second.region else first.region,
      if second.customer.Some? then second.customer else first.customer,
      if second.pm.Some? then second.pm else first.pm,
      if second.projectType.Some? then second.projectType else first.projectType,
      if second.stage.Some? then second.stage else first.stage,
      if second.status.Some? then second.status else first.status)
  }

  /** An empty update changes nothing; applying an update again changes nothing more;
      two updates in a row are their key-by-key combination. */
  lemma MergeFiltersLaws(f: ProjectFilters, p: FiltersPatch, q: FiltersPatch)
    ensures MergeFilters(f, NoChanges) == f
    ensures MergeFilters(MergeFilters(f, p), p) == MergeFilters(f, p)
    ensures MergeFilters(MergeFilters(f, p), q) == MergeFilters(f, Then(p, q))
  {
  }

  // ---------------------------------------------------------------------
  // The selected project follows updates and deletions
  // ---------------------------------------------------------------------

  /** `currentProject?.id === id ? { ...currentProject, ...updates } : currentProject`. */
  function UpdateCurrent(cur: Option<Project>, id: string, patch: Project -> Project): (r: Option<Project>)
    ensures r.Some? <==> cur.Some?
    ensures cur.Some? && cur.value.id == id ==> r == Some(patch(cur.value))
    ensures cur.Some? && cur.value.id != id ==> r == cur
  {
    if cur.Some? && cur.value.id == id then Some(patch(cur.value)) else cur
  }

  /** `currentProject?.id === id ? null : currentProject`. */
  function DeleteCurrent(cur: Option<Project>, id: string): (r: Option<Project>)
    ensures r.Some? ==> r == cur && r.value.id != id
    ensures r.None? <==> cur.None? || cur.value.id == id
  {
    if cur.Some? && cur.value.id == id then None else cur
  }

  /** A selected project that is an entry of the list is still that entry after
      `updateProject`: both receive the same update, or neither does. */
  lemma UpdateKeepsCurrentInSync(ps: seq<Project>, k: nat, cur: Option<Project>, id: string, patch: Project -> Project)
    requires k < |ps| && cur == Some(ps[k])
    ensures UpdateCurrent(cur, id, patch) == Some(UpdateById(ps, ProjectId, id, patch)[k])
  {
  }

  /** After `deleteProject(id)` no listed project and no selected project has that id;
      a selected project that was listed and survives is still listed. */
  lemma DeleteKeepsCurrentInSync(ps: seq<Project>, cur: Option<Project>, id: string)
    ensures forall p | p in RemoveById(ps, ProjectId, id) :: p.id != id
    ensures DeleteCurrent(cur, id).Some? ==> DeleteCurrent(cur, id).value.id != id
    ensures cur.Some? && cur.value in ps && DeleteCurrent(cur, id).Some? ==>
              DeleteCurrent(cur, id).value in RemoveById(ps, ProjectId, id)
  {
    RemoveByIdMembers(ps, ProjectId, id);
  }

  // ---------------------------------------------------------------------
  // Moving a task between status columns
  // ---------------------------------------------------------------------

  /** `tasks.map(t => t.id === id ? { ...t, status: newStatus } : t)`. */
  function MoveTask(ts: seq<Task>, id: string, newStatus: TaskStatus): (r: seq<Task>)
    ensures |r| == |ts|
    ensures forall i | 0 <= i < |ts| ::
              r[i].id == ts[i].id &&
              r[i].status == (if ts[i].id == id then newStatus else ts[i].status) &&
              r[i].(status := ts[i].status) == ts[i]
  {
    UpdateById(ts, TaskId, id, (t: Task) => t.(status := newStatus))
  }

  /** Moving to a column and then to another is moving to the second; moving twice to
      the same column is moving once. */
  lemma MoveTaskLastWins(ts: seq<Task>, id: string, s1: TaskStatus, s2: TaskStatus)
    ensures MoveTask(MoveTask(ts, id, s1), id, s2) == MoveTask(ts, id, s2)
  {
    var a, b := MoveTask(MoveTask(ts, id, s1), id, s2), MoveTask(ts, id, s2);
    forall i | 0 <= i < |ts| ensures a[i] == b[i] {
    }
  }

  /** A task moved back to its old column is what it was: with one task per id,
      moving a task and moving it back restores the list. */
  lemma MoveTaskBack(ts: seq<Task>, k: nat, elsewhere: TaskStatus)
    requires k < |ts| && UniqueIds(ts, TaskId)
    ensures MoveTask(MoveTask(ts, ts[k].id, elsewhere), ts[k].id, ts[k].status) == ts
  {
    var r := MoveTask(MoveTask(ts, ts[k].id, elsewhere), ts[k].id, ts[k].status);
    forall i | 0 <= i < |ts| && i != k ensures TaskId(ts[i]) != TaskId(ts[k]) {
      if i < k {
        assert TaskId(ts[i]) != TaskId(ts[k]);
      } else {
        assert TaskId(ts[k]) != TaskId(ts[i]);
      }
    }
    forall i | 0 <= i < |ts| ensures r[i] == ts[i] {
    }
  }

  // ---------------------------------------------------------------------
  // The store
  // ---------------------------------------------------------------------

  class ProjectState {
    var projects: seq<Project>
    var currentProject: Option<Project>
    var tasks: seq<Task>
    var risks: seq<Risk>
    var issues: seq<Issue>
    var changeRequests: seq<ChangeRequest>
    var milestones: seq<Milestone>
    var deliverables: seq<Deliverable>
    var projectFilters: ProjectFilters

    constructor ()
      ensures projects == [] && currentProject == None && tasks == [] && risks == [] && issues == []
      ensures changeRequests == [] && milestones == [] && deliverables == []
      ensures projectFilters == DefaultFilters
    {
      projects, currentProject, tasks, risks, issues := [], None, [], [], [];
      changeRequests, milestones, deliverables := [], [], [];
      projectFilters := DefaultFilters;
    }

    method SetCurrentProject(p: Option<Project>)
      modifies this`currentProject
      ensures currentProject == p
    {
      currentProject := p;
    }

    method SetProjects(ps: seq<Project>)
      modifies this`projects
      ensures projects == ps
    {
      projects := ps;
    }

    method AddProject(p: Project)
      modifies this`projects
      ensures projects == old(projects) + [p]
    {
      projects := projects + [p];
    }

    method UpdateProject(id: string, patch: Project -> Project)
      modifies this`projects, this`currentProject
      ensures projects == UpdateById(old(projects), ProjectId, id, patch)
      ensures currentProject == UpdateCurrent(old(currentProject), id, patch)
    {
      projects := UpdateById(projects, ProjectId, id, patch);
      currentProject := UpdateCurrent(currentProject, id, patch);
    }

    method DeleteProject(id: string)
      modifies this`projects, this`currentProject
      ensures projects == RemoveById(old(projects), ProjectId, id)
      ensures currentProject == DeleteCurrent(old(currentProject), id)
    {
      projects := RemoveById(projects, ProjectId, id);
      currentProject := DeleteCurrent(currentProject, id);
    }

    method SetTasks(ts: seq<Task>)
      modifies this`tasks
      ensures tasks == ts
    {
      tasks := ts;
    }

    method AddTask(t: Task)
      modifies this`tasks
      ensures tasks == old(tasks) + [t]
    {
      tasks := tasks + [t];
    }

    method UpdateTask(id: string, patch: Task -> Task)
      modifies this`tasks
      ensures tasks == UpdateById(old(tasks), TaskId, id, patch)
    {
      tasks := UpdateById(tasks, TaskId, id, patch);
    }

    method DeleteTask(id: string)
      modifies this`tasks
      ensures tasks == RemoveById(old(tasks), TaskId, id)
    {
      tasks := RemoveById(tasks, TaskId, id);
    }

    method MoveTaskTo(id: string, newStatus: TaskStatus)
      modifies this`tasks
      ensures tasks == MoveTask(old(tasks), id, newStatus)
    {
      tasks := MoveTask(tasks, id, newStatus);
    }

    method SetRisks(rs: seq<Risk>)
      modifies this`risks
      ensures risks == rs
    {
      risks := rs;
    }

    method AddRisk(r: Risk)
      modifies this`risks
      ensures risks == old(risks) + [r]
    {
      risks := risks + [r];
    }

    method UpdateRisk(id: string, patch: Risk -> Risk)
      modifies this`risks
      ensures risks == UpdateById(old(risks), RiskId, id, patch)
    {
      risks := UpdateById(risks, RiskId, id, patch);
    }

    method SetIssues(list: seq<Issue>)
      modifies this`issues
      ensures issues == list
    {
      issues := list;
    }

    method AddIssue(i: Issue)
      modifies this`issues
      ensures issues == old(issues) + [i]
    {
      issues := issues + [i];
    }

    method UpdateIssue(id: string, patch: Issue -> Issue)
      modifies this`issues
      ensures issues == UpdateById(old(issues), IssueId, id, patch)
    {
      issues := UpdateById(issues, IssueId, id, patch);
    }

    method SetChangeRequests(cs: seq<ChangeRequest>)
      modifies this`changeRequests
      ensures changeRequests == cs
    {
      changeRequests := cs;
    }

    method AddChangeRequest(c: ChangeRequest)
      modifies this`changeRequests
      ensures changeRequests == old(changeRequests) + [c]
    {
      changeRequests := changeRequests + [c];
    }

    method UpdateChangeRequest(id: string, patch: ChangeRequest -> ChangeRequest)
      modifies this`changeRequests
      ensures changeRequests == UpdateById(old(changeRequests), ChangeRequestId, id, patch)
    {
      changeRequests := UpdateById(changeRequests, ChangeRequestId, id, patch);
    }

    method SetMilestones(ms: seq<Milestone>)
      modifies this`milestones
      ensures milestones == ms
    {
      milestones := ms;
    }

    method AddMilestone(m: Milestone)
      modifies this`milestones
      ensures milestones == old(milestones) + [m]
    {
      milestones := milestones + [m];
    }

    method UpdateMilestone(id: string, patch: Milestone -> Milestone)
      modifies this`milestones
      ensures milestones == UpdateById(old(milestones), MilestoneId, id, patch)
    {
      milestones := UpdateById(milestones, MilestoneId, id, patch);
    }

    method SetDeliverables(ds: seq<Deliverable>)
      modifies this`deliverables
      ensures deliverables == ds
    {
      deliverables := ds;
    }

    method AddDeliverable(d: Deliverable)
      modifies this`deliverables
      ensures deliverables == old(deliverables) + [d]
    {
      deliverables := deliverables + [d];
    }

    method UpdateDeliverable(id: string, patch: Deliverable -> Deliverable)
      modifies this`deliverables
      ensures deliverables == UpdateById(old(deliverables), DeliverableId, id, patch)
    {
      deliverables := UpdateById(deliverables, DeliverableId, id, patch);
    }

    method SetProjectFilters(patch: FiltersPatch)
      modifies this`projectFilters
      ensures projectFilters == MergeFilters(old(projectFilters), patch)
    {
      projectFilters := MergeFilters(projectFilters, patch);
    }

    method ResetFilters()
      modifies this`projectFilters
      ensures projectFilters == DefaultFilters
    {
      projectFilters := DefaultFilters;
    }
  }
}
