/**
 * The reminder-rules page (src/pages/notifications/ReminderRulesPage.tsx):
 * a page-local list of rules, seeded with six demonstration rules, that can
 * be switched on and off or deleted; four counters over the list; the
 * trigger caption of each rule; and the values the edit form starts from.
 * The rules are data only: nothing here evaluates or sends a reminder.
 */
module ReminderRulesPage {
  import opened Common
  import opened Types
  import opened NotificationStore

  const DemoRules: seq<ReminderRule> := [
    ReminderRule("rule1", "Milestone Due Reminder", "Notify PM and Finance before milestone due date",
      true, MilestoneEntity, DaysBefore, 10,
      Recipients([Pm, Finance], [], [PmProjectRole, OwnerProjectRole]), [InApp, Email],
      Some(Escalation(7, [Pmo])), "Milestone \"{entity.name}\" is due in {days} days"),
    ReminderRule("rule2", "Deliverable Overdue Alert", "Escalate overdue deliverables to Director",
      true, DeliverableEntity, DaysAfter, 3,
      Recipients([], [], [OwnerProjectRole, AssigneeProjectRole]), [InApp, Email, Slack],
      Some(Escalation(7, [Admin])), "Deliverable \"{entity.name}\" is {days} days overdue"),
    ReminderRule("rule3", "PO Delivery Warning", "Alert before PO expected delivery date",
      true, PoEntity, DaysBefore, 5,
      Recipients([Procurement], [], [PmProjectRole]), [InApp, Email],
      None, "PO \"{entity.code}\" delivery expected in {days} days"),
    ReminderRule("rule4", "Invoice Due Reminder", "Remind about upcoming invoice due dates",
      true, InvoiceEntity, DaysBefore, 7,
      Recipients([Finance], [], []), [InApp, Email],
      Some(Escalation(0, [Admin])), "Invoice \"{entity.code}\" for ${entity.amount} is due in {days} days"),
    ReminderRule("rule5", "Task Overdue Notification", "Notify assignee and PM when tasks are overdue",
      false, TaskEntity, DaysAfter, 1,
      Recipients([], [], [AssigneeProjectRole, PmProjectRole]), [InApp],
      None, "Task \"{entity.title}\" is {days} day(s) overdue"),
    ReminderRule("rule6", "Issue SLA Warning", "Alert when issue SLA is at risk",
      true, IssueEntity, DaysBefore, 1,
      Recipients([], [], [OwnerProjectRole, AssigneeProjectRole]), [InApp, Email, Teams],
      Some(Escalation(0, [Pm])), "Issue \"{entity.code}\" SLA deadline is in {days} day(s)")
  ]

  /** Every demonstration rule has a channel, a non-negative trigger offset and
      a non-negative escalation delay, and no two share an id. */
  lemma DemoRulesWellFormed()
    ensures |DemoRules| == 6 && UniqueIds(DemoRules, RuleId)
    ensures forall i | 0 <= i < |DemoRules| ::
              |DemoRules[i].channels| > 0 && DemoRules[i].triggerDays >= 0 &&
              (DemoRules[i].escalation.Some? ==> DemoRules[i].escalation.value.afterDays >= 0)
  {
  }

  // ---------------------------------------------------------------------
  // The four counters
  // ---------------------------------------------------------------------

  function IsActive(r: ReminderRule): bool { r.isActive }
  function IsInactive(r: ReminderRule): bool { !r.isActive }
  function HasEscalation(r: ReminderRule): bool { r.escalation.Some? }

  datatype RuleStats = RuleStats(total: nat, active: nat, withEscalation: nat, inactive: nat)

  /** "Total Rules", "Active", "With Escalation" and "Inactive". */
  function Stats(rs: seq<ReminderRule>): (r: RuleStats)
    ensures r.active + r.inactive == r.total == |rs|
    ensures r.withEscalation <= r.total
  {
    CountIfComplement(rs, IsActive, IsInactive);
    RuleStats(|rs|, CountIf(rs, IsActive), CountIf(rs, HasEscalation), CountIf(rs, IsInactive))
  }

  /** "With Escalation" counts escalating rules whether they are switched on or not:
      switching a rule off moves it from "Active" to "Inactive" and leaves that counter. */
  lemma {:induction false} ToggleKeepsEscalationCount(rs: seq<ReminderRule>, id: string)
    ensures Stats(ToggleRule(rs, id)).withEscalation == Stats(rs).withEscalation
    ensures Stats(ToggleRule(rs, id)).total == Stats(rs).total
    decreases |rs|
  {
    if |rs| > 0 {
      var r := ToggleRule(rs, id);
      assert r[1..] == ToggleRule(rs[1..], id);
      ToggleKeepsEscalationCount(rs[1..], id);
      CountIfFirst(r, HasEscalation);
      CountIfFirst(rs, HasEscalation);
    }
  }

  // ---------------------------------------------------------------------
  // Captions and the edit form
  // ---------------------------------------------------------------------

  datatype TriggerWord = Before | After

  /** `rule.trigger === 'days_before' ? 'before' : 'after'`: an on-date or recurring
      rule is captioned "after" as well. */
  function TriggerLabel(t: ReminderTrigger): (r: TriggerWord)
    ensures r == Before <==> t == DaysBefore
  {
    if t == DaysBefore then Before else After
  }

  const FormDefaultDays := 7

  /** As written: `selectedRule?.escalation?.afterDays || 7`, where `||` also
      replaces a stored 0. */
  function FormAfterDaysAsWritten(selected: Option<ReminderRule>): int
  {
    if selected.Some? && selected.value.escalation.Some? && selected.value.escalation.value.afterDays != 0
    then selected.value.escalation.value.afterDays
    else FormDefaultDays
  }

  /** Editing "Invoice Due Reminder", which escalates after 0 days, offers 7. */
  lemma EditingImmediateEscalationShowsSeven()
    ensures DemoRules[3].escalation == Some(Escalation(0, [Admin]))
    ensures FormAfterDaysAsWritten(Some(DemoRules[3])) == 7
  {
  }

  /** The starting value of "Escalate After (days)": the rule's own delay when it
      escalates, else 7. */
  function FormAfterDays(selected: Option<ReminderRule>): (r: int)
    ensures selected.Some? && selected.value.escalation.Some? ==> r == selected.value.escalation.value.afterDays
    ensures !(selected.Some? && selected.value.escalation.Some?) ==> r == FormDefaultDays
  {
    match selected
    case Some(rule) => if rule.escalation.Some? then rule.escalation.value.afterDays else FormDefaultDays
    case None => FormDefaultDays
  }

  /** As written: `selectedRule?.triggerDays || 7`. */
  function FormTriggerDaysAsWritten(selected: Option<ReminderRule>): int
  {
    if selected.Some? && selected.value.triggerDays != 0 then selected.value.triggerDays else FormDefaultDays
  }

  /** A rule that fires on the due date itself (offset 0) is edited as "7 days". */
  lemma EditingZeroOffsetShowsSeven(rule: ReminderRule)
    requires rule.triggerDays == 0
    ensures FormTriggerDaysAsWritten(Some(rule)) == 7 != rule.triggerDays
  {
  }

  /** The starting value of "Trigger Days": the rule's own offset, or 7 for a new rule. */
  function FormTriggerDays(selected: Option<ReminderRule>): (r: int)
    ensures selected.Some? ==> r == selected.value.triggerDays
    ensures selected.None? ==> r == FormDefaultDays
  {
    match selected
    case Some(rule) => rule.triggerDays
    case None => FormDefaultDays
  }

  /** Both form values agree with the written ones whenever the stored value is not 0. */
  lemma FormValuesAgreeAwayFromZero(selected: Option<ReminderRule>)
    ensures selected.Some? && selected.value.triggerDays != 0 ==>
              FormTriggerDays(selected) == FormTriggerDaysAsWritten(selected)
    ensures selected.Some? && selected.value.escalation.Some? && selected.value.escalation.value.afterDays != 0 ==>
              FormAfterDays(selected) == FormAfterDaysAsWritten(selected)
  {
  }

  // ---------------------------------------------------------------------
  // The page's list
  // ---------------------------------------------------------------------

  class RulesPageState {
    var rules: seq<ReminderRule>

    constructor ()
      ensures rules == DemoRules
    {
      rules := DemoRules;
    }

    function PageStats(): RuleStats
      reads this
    {
      Stats(rules)
    }

    /** `toggleRule(id)`. */
    method Toggle(id: string)
      modifies this
      ensures rules == ToggleRule(old(rules), id)
      ensures PageStats().total == old(PageStats()).total
      ensures PageStats().withEscalation == old(PageStats()).withEscalation
    {
      ToggleKeepsEscalationCount(rules, id);
      rules := ToggleRule(rules, id);
    }

    /** `deleteRule(id)`. */
    method Delete(id: string)
      modifies this
      ensures rules == RemoveRule(old(rules), id)
      ensures forall x | x in rules :: x.id != id
    {
      rules := RemoveRule(rules, id);
    }
  }
}
