/**
 * The add/edit project modal (components/ProjectModal.tsx and its twin
 * components/projects/ProjectModal.tsx, whose logic is the same line for line):
 * resetting the form from the project being edited, the four field rules,
 * and the submit step around the parent's save callback.
 */
module ProjectForm {
  import opened Options
  import opened Types
  import Text

  /** The four checks `validate` makes; `status` is not among them. */
  datatype Rule = NameRequired | DeadlineRequired | MemberRequired | BudgetPositive

  const FieldKeys: set<string> := {"name", "deadline", "assigned_team_member", "budget"}
  const SubmitKey := "submit"
  const SubmitFailedMessage := "Failed to save project. Please try again."

  /** The error-map key each rule reports under. */
  function Key(rule: Rule): string {
    match rule
    case NameRequired => "name"
    case DeadlineRequired => "deadline"
    case MemberRequired => "assigned_team_member"
    case BudgetPositive => "budget"
  }

  function Message(rule: Rule): string {
    match rule
    case NameRequired => "Project name is required"
    case DeadlineRequired => "Deadline is required"
    case MemberRequired => "Team member is required"
    case BudgetPositive => "Budget must be greater than 0"
  }

  /** Whether the form satisfies one rule (JavaScript truthiness of the trimmed or raw string). */
  predicate Passes(rule: Rule, f: ProjectFormData) {
    match rule
    case NameRequired => Text.Trim(f.name) != ""
    case DeadlineRequired => f.deadline != ""
    case MemberRequired => Text.Trim(f.assignedTeamMember) != ""
    case BudgetPositive => f.budget > 0.0
  }

  /** The four conditions under which the form may be submitted. */
  predicate Accepts(f: ProjectFormData) {
    && !Text.AllWhiteSpace(f.name)
    && f.deadline != ""
    && !Text.AllWhiteSpace(f.assignedTeamMember)
    && f.budget > 0.0
  }

  /** One step of `validate`: a failed rule adds its message under its key. */
  function Check(passed: bool, rule: Rule, errs: map<string, string>): map<string, string> {
    if passed then errs else errs[Key(rule) := Message(rule)]
  }

  function Collect(name: bool, deadline: bool, member: bool, budget: bool): map<string, string> {
    Check(budget, BudgetPositive, Check(member, MemberRequired, Check(deadline, DeadlineRequired, Check(name, NameRequired, map[]))))
  }

  lemma CollectKeys(name: bool, deadline: bool, member: bool, budget: bool, rule: Rule)
    ensures var errs := Collect(name, deadline, member, budget);
      && errs.Keys <= FieldKeys
      && (Key(rule) in errs <==> !(match rule case NameRequired => name case DeadlineRequired => deadline case MemberRequired => member case BudgetPositive => budget))
      && (Key(rule) in errs ==> errs[Key(rule)] == Message(rule))
  {
  }

  /** The error map `validate` commits, built in the source's order of checks. */
  function ValidationErrors(f: ProjectFormData): (errs: map<string, string>)
    ensures errs.Keys <= FieldKeys
  {
    CollectKeys(Passes(NameRequired, f), Passes(DeadlineRequired, f), Passes(MemberRequired, f), Passes(BudgetPositive, f), NameRequired);
    Collect(Passes(NameRequired, f), Passes(DeadlineRequired, f), Passes(MemberRequired, f), Passes(BudgetPositive, f))
  }

  /** Each rule sets its own key, with its own message, exactly when it fails; no other key is ever set. */
  lemma {:induction false} ErrorPerFailedRule(f: ProjectFormData, rule: Rule)
    ensures Key(rule) in ValidationErrors(f) <==> !Passes(rule, f)
    ensures Key(rule) in ValidationErrors(f) ==> ValidationErrors(f)[Key(rule)] == Message(rule)
  {
    CollectKeys(Passes(NameRequired, f), Passes(DeadlineRequired, f), Passes(MemberRequired, f), Passes(BudgetPositive, f), rule);
  }

  /** `validate()` returns true exactly when the error map is empty, which is exactly when all four conditions hold. */
  lemma {:induction false} ValidateAcceptsIff(f: ProjectFormData)
    ensures ValidationErrors(f) == map[] <==> Accepts(f)
  {
    Text.TrimEmptyIff(f.name);
    Text.TrimEmptyIff(f.assignedTeamMember);
    ErrorPerFailedRule(f, NameRequired);
    ErrorPerFailedRule(f, DeadlineRequired);
    ErrorPerFailedRule(f, MemberRequired);
    ErrorPerFailedRule(f, BudgetPositive);
    var errs := ValidationErrors(f);
    if errs != map[] {
      var k :| k in errs;
      assert k in FieldKeys;
    }
  }

  /** A name or team member made only of white space is rejected, and so is a budget of 0. */
  lemma {:induction false} BlankFieldsRejected(f: ProjectFormData)
    ensures Text.AllWhiteSpace(f.name) ==> "name" in ValidationErrors(f)
    ensures Text.AllWhiteSpace(f.assignedTeamMember) ==> "assigned_team_member" in ValidationErrors(f)
    ensures f.budget <= 0.0 ==> "budget" in ValidationErrors(f)
  {
    Text.TrimEmptyIff(f.name);
    Text.TrimEmptyIff(f.assignedTeamMember);
    ErrorPerFailedRule(f, NameRequired);
    ErrorPerFailedRule(f, MemberRequired);
    ErrorPerFailedRule(f, BudgetPositive);
  }

  /** Forms that differ at most in their status validate alike: the status is never checked. */
  lemma StatusNotValidated(f: ProjectFormData, g: ProjectFormData)
    requires g.name == f.name && g.deadline == f.deadline
    requires g.assignedTeamMember == f.assignedTeamMember && g.budget == f.budget
    ensures ValidationErrors(g) == ValidationErrors(f)
  {
  }

  /** The form for a new project. */
  function EmptyForm(): ProjectFormData {
    ProjectFormData("", Active, "", "", 0.0)
  }

  /** Submitting the new-project form untouched fails on every one of the four fields. */
  lemma EmptyFormRejectedEverywhere()
    ensures ValidationErrors(EmptyForm()).Keys == FieldKeys
  {
    var f := EmptyForm();
    ErrorPerFailedRule(f, NameRequired);
    ErrorPerFailedRule(f, DeadlineRequired);
    ErrorPerFailedRule(f, MemberRequired);
    ErrorPerFailedRule(f, BudgetPositive);
  }

  /** The form for editing `p`: fields copied, deadline cut before its first 'T' (the date part of a timestamp). */
  function FormFromProject(p: Project): (f: ProjectFormData)
    ensures f.name == p.name && f.status == p.status
    ensures f.assignedTeamMember == p.assignedTeamMember && f.budget == p.budget
    ensures f.deadline <= p.deadline && 'T' !in f.deadline
    ensures 'T' !in p.deadline ==> f.deadline == p.deadline
    ensures 'T' in p.deadline ==> p.deadline[|f.deadline|] == 'T'
  {
    ProjectFormData(p.name, p.status, Text.SplitHead(p.deadline, 'T'), p.assignedTeamMember, p.budget)
  }

  /** The modal's own state: the form being edited, the in-flight flag and the error map on display. */
  class ProjectModal {
    var formData: ProjectFormData
    var isSubmitting: bool
    var errors: map<string, string>

    constructor ()
      ensures formData == EmptyForm() && !isSubmitting && errors == map[]
    {
      formData := EmptyForm();
      isSubmitting := false;
      errors := map[];
    }

    /** The effect that runs whenever the edited project or the open flag changes. */
    method Reset(project: Option<Project>)
      modifies this
      ensures formData == if project.Some? then FormFromProject(project.value) else EmptyForm()
      ensures errors == map[]
      ensures isSubmitting == old(isSubmitting)
    {
      if project.Some? {
        formData := FormFromProject(project.value);
      } else {
        formData := EmptyForm();
      }
      errors := map[];
    }

    /** `validate()`: collects the failed rules one check at a time, commits them, and reports whether none failed. */
    method Validate() returns (ok: bool)
      modifies this
      ensures errors == ValidationErrors(formData)
      ensures ok <==> Accepts(formData)
      ensures formData == old(formData) && isSubmitting == old(isSubmitting)
    {
      var f := formData;
      var newErrors: map<string, string> := map[];
      if Text.Trim(f.name) == "" {
        newErrors := newErrors["name" := "Project name is required"];
      }
      if f.deadline == "" {
        newErrors := newErrors["deadline" := "Deadline is required"];
      }
      if Text.Trim(f.assignedTeamMember) == "" {
        newErrors := newErrors["assigned_team_member" := "Team member is required"];
      }
      if f.budget <= 0.0 {
        newErrors := newErrors["budget" := "Budget must be greater than 0"];
      }
      assert newErrors == ValidationErrors(f);
      errors := newErrors;
      ok := |newErrors| == 0;
      ValidateAcceptsIff(f);
    }

    /**
     * `handleSubmit`: validate; when that fails, stop without calling `onSave`.
     * Otherwise call `onSave(formData)`; `saveSucceeds` is whether its promise
     * resolved. On success `onClose` is called; on failure the errors become a
     * single submit message and the modal stays open. Either way the in-flight
     * flag ends cleared.
     */
    method HandleSubmit(saveSucceeds: bool) returns (saved: Option<ProjectFormData>, closed: bool)
      modifies this
      ensures formData == old(formData)
      ensures !Accepts(formData) ==> saved == None && !closed
      ensures !Accepts(formData) ==> errors == ValidationErrors(formData) && isSubmitting == old(isSubmitting)
      ensures Accepts(formData) ==> saved == Some(formData) && !isSubmitting
      ensures Accepts(formData) && saveSucceeds ==> closed && errors == map[]
      ensures Accepts(formData) && !saveSucceeds ==> !closed && errors == map[SubmitKey := SubmitFailedMessage]
    {
      saved, closed := None, false;
      var ok := Validate();
      if !ok {
        return;
      }
      ValidateAcceptsIff(formData);
      isSubmitting := true;
      saved := Some(formData);
      if saveSucceeds {
        closed := true;
      } else {
        errors := map[SubmitKey := SubmitFailedMessage];
      }
      isSubmitting := false;
    }
  }
}
