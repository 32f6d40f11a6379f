/**
 * The records of src/types/index.ts that the stores and pages read and
 * write. String-literal unions become enumerations; `Date` fields become
 * integers (a day number, or a millisecond timestamp for `readAt`);
 * monetary amounts and hours are integers; the two performance indices
 * are reals. Optional fields (`x?: T`) are `Option<T>`. Fields nothing
 * in the modelled code reads (attachments, comments, audit timestamps,
 * baselines) are omitted.
 */
module Types {
  import opened Common

  // ----- users and security -----

  datatype UserRole = Admin | Pm | Pmo | Finance | Procurement | SiteEngineer | Vendor | Customer
  datatype UserStatus = Active | Locked | Pending

  datatype User = User(
    id: string,
    email: string,
    firstName: string,
    lastName: string,
    department: string,
    status: UserStatus,
    role: UserRole,
    isVendor: bool,
    isCustomer: bool,
    projects: seq<string>,
    costCenters: seq<string>,
    poLimit: int,
    changeOrderLimit: int,
    lastLogin: Option<int>)

  datatype PermModule = ProjectsModule | FinancialsModule | MaterialsModule | ReportsModule | AdminModule
  datatype PermAction = View | Create | Edit | Delete | Approve

  datatype Permission = Permission(permModule: PermModule, actions: seq<PermAction>)

  datatype Role = Role(id: string, name: string, description: string, permissions: seq<Permission>, isSystem: bool)

  /** One entry of `changes: Record<string, {old, new}>`, in insertion order. */
  datatype FieldChange = FieldChange(field: string, oldValue: string, newValue: string)

  datatype AuditLog = AuditLog(
    id: string,
    userId: string,
    userName: string,
    action: string,
    moduleName: string,
    entityType: string,
    entityId: string,
    entityName: string,
    changes: Option<seq<FieldChange>>,
    ipAddress: string,
    timestamp: int)

  // ----- projects -----

  datatype RagStatus = Red | Amber | Green
  datatype ProjectStage = Initiation | Planning | Execution | Monitoring | Closing
  datatype ProjectStatus = Active | OnHold | Completed | Cancelled

  datatype Project = Project(
    id: string,
    code: string,
    name: string,
    customer: string,
    region: string,
    projectType: string,
    stage: ProjectStage,
    status: ProjectStatus,
    ragStatus: RagStatus,
    projectManager: string,
    plannedStartDate: int,
    plannedEndDate: int,
    budget: int,
    actualCost: int,
    committed: int,
    forecast: int,
    margin: int,
    percentComplete: int,
    spiValue: real,
    cpiValue: real,
    openRisks: int,
    openIssues: int,
    pendingChanges: int)

  datatype WbsType = Phase | DeliverableItem | WorkPackage | TaskItem

  /** A work-breakdown item; `children?` absent or empty is an empty sequence. */
  datatype WbsItem = WbsItem(
    id: string,
    code: string,
    name: string,
    wbsType: WbsType,
    owner: string,
    currentBudget: int,
    percentComplete: int,
    children: seq<WbsItem>)

  // ----- tasks -----

  datatype TaskStatus = Backlog | Todo | InProgress | Blocked | Review | Done
  /** TaskPriority and IssuePriority are the same union. */
  datatype Priority = Low | Medium | High | Critical

  datatype Task = Task(
    id: string,
    projectId: string,
    title: string,
    status: TaskStatus,
    priority: Priority,
    assigneeName: string,
    plannedEnd: int,
    estimatedHours: int,
    actualHours: int,
    dependencies: seq<string>,
    blockedBy: Option<string>,
    tags: seq<string>,
    isCriticalPath: bool)

  // ----- risks, issues and changes -----

  datatype RiskProbability = VeryLow | LowProbability | MediumProbability | HighProbability | VeryHigh
  datatype RiskImpact = Negligible | Minor | Moderate | Major | Severe
  datatype RiskStatus = Identified | Analyzing | Mitigating | MonitoringRisk | Closed

  datatype Risk = Risk(
    id: string,
    projectId: string,
    code: string,
    title: string,
    category: string,
    probability: RiskProbability,
    impact: RiskImpact,
    riskScore: int,
    status: RiskStatus,
    owner: string)

  datatype IssueStatus = Open | IssueInProgress | Escalated | Resolved | IssueClosed

  datatype Issue = Issue(
    id: string,
    projectId: string,
    code: string,
    title: string,
    category: string,
    priority: Priority,
    status: IssueStatus,
    assignee: string,
    slaHours: int,
    slaDeadline: int,
    escalationPath: seq<string>,
    currentEscalationLevel: int)

  datatype ChangeRequestStatus = Draft | Submitted | UnderReview | Approved | Rejected | Implemented

  datatype ChangeRequest = ChangeRequest(
    id: string,
    projectId: string,
    code: string,
    title: string,
    timeImpactDays: int,
    costImpact: int,
    status: ChangeRequestStatus,
    requestedBy: string,
    baselineUpdated: bool)

  // ----- milestones and deliverables -----

  datatype MilestoneType = Contractual | Internal | Payment | CustomerAcceptance
  datatype MilestoneStatus = Upcoming | AtRisk | Achieved | Missed | Deferred

  datatype Milestone = Milestone(
    id: string,
    projectId: string,
    code: string,
    name: string,
    milestoneType: MilestoneType,
    status: MilestoneStatus,
    plannedDate: int,
    forecastDate: Option<int>,
    actualDate: Option<int>,
    owner: string,
    isPaymentMilestone: bool,
    paymentAmount: Option<int>)

  datatype DeliverableStatus = NotStarted | DeliverableInProgress | DeliverableSubmitted | Accepted | DeliverableRejected

  datatype Deliverable = Deliverable(
    id: string,
    projectId: string,
    code: string,
    name: string,
    status: DeliverableStatus,
    dueDate: int,
    owner: string,
    reviewer: Option<string>)

  // ----- notifications and reminder rules -----

  datatype NotificationType =
    | MilestoneUpcoming | MilestoneOverdue | DeliverableDue | PoDeliveryDate | InvoiceDue
    | TaskAssigned | TaskOverdue | IssueEscalated | ChangeRequestApproval | RiskReview | General

  datatype Notification = Notification(
    id: string,
    userId: string,
    notificationType: NotificationType,
    title: string,
    message: string,
    entityId: Option<string>,
    isRead: bool,
    isArchived: bool,
    actionUrl: Option<string>,
    createdAt: int,
    readAt: Option<int>)

  datatype ReminderEntity = MilestoneEntity | DeliverableEntity | PoEntity | InvoiceEntity | TaskEntity | IssueEntity
  datatype ReminderTrigger = DaysBefore | DaysAfter | OnDate | Recurring
  datatype ProjectRole = PmProjectRole | OwnerProjectRole | AssigneeProjectRole
  datatype Channel = InApp | Email | Slack | Teams

  datatype Recipients = Recipients(roles: seq<UserRole>, specificUsers: seq<string>, projectRoles: seq<ProjectRole>)
  datatype Escalation = Escalation(afterDays: int, escalateTo: seq<UserRole>)

  datatype ReminderRule = ReminderRule(
    id: string,
    name: string,
    description: string,
    isActive: bool,
    entityType: ReminderEntity,
    trigger: ReminderTrigger,
    triggerDays: int,
    recipients: Recipients,
    channels: seq<Channel>,
    escalation: Option<Escalation>,
    messageTemplate: string)

  // ----- id selectors, for the id-keyed helpers of Common -----

  function ProjectId(p: Project): string { p.id }
  function TaskId(t: Task): string { t.id }
  function RiskId(r: Risk): string { r.id }
  function IssueId(i: Issue): string { i.id }
  function ChangeRequestId(c: ChangeRequest): string { c.id }
  function MilestoneId(m: Milestone): string { m.id }
  function DeliverableId(d: Deliverable): string { d.id }
  function NotificationId(n: Notification): string { n.id }
  function RuleId(r: ReminderRule): string { r.id }
}
