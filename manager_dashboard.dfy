/** The manager's projects page (src/pages/ManagerDashboard.tsx): the project list,
    the three stat cards over it, and the "New Project" dialog whose handler sends the
    form and reloads the list. `getProjects` and `createProject` are not part of this
    model: what they return is a parameter. */
module ManagerDashboard {
  import opened Rows
  import opened Seqs
  import opened Arith
  import opened Text

  // ---------------------------------------------------------------------------
  // Number(text)

  /** `Number(text)` for the text a number input holds: the empty text is 0, a string
      of digits its decimal value, and anything else `NaN`. */
  function ToNumber(s: string): (n: JsNumber)
    ensures s == "" ==> n == Num(0)
    ensures n.Num? ==> n.value >= 0
    ensures n.NaN? <==> exists i :: 0 <= i < |s| && !IsDigit(s[i])
  {
    if AllDigits(s) then Num(DecimalValue(s)) else NaN
  }

  /** Reading back typed decimal text gives the number typed. */
  lemma DecimalRoundTrip(n: nat)
    ensures ToNumber(Decimal(n)) == Num(n)
  {
    DecimalValueOf(n);
  }

  // ---------------------------------------------------------------------------
  // Creating a project

  /** `projectForm`: the three text fields of the dialog. */
  datatype ProjectForm = ProjectForm(name: string, description: string, budget: string)

  const EmptyForm: ProjectForm := ProjectForm("", "", "")

  /** What `createProject` is called with; `budget` is `None` for `undefined`. */
  datatype NewProject = NewProject(name: string, description: string, budget: Option<JsNumber>, status: string)

  /** The project sent for a form: name and description as typed, the budget as a
      number only when its text is not empty, and the status always "active". */
  function Payload(f: ProjectForm): (p: NewProject)
    ensures p.name == f.name && p.description == f.description && p.status == "active"
    ensures p.budget.None? <==> f.budget == ""
    ensures f.budget != "" ==> p.budget == Some(ToNumber(f.budget))
  {
    NewProject(f.name, f.description, if f.budget != "" then Some(ToNumber(f.budget)) else None, "active")
  }

  /** A budget typed as the decimal text of a whole number is sent as that number. */
  lemma TypedBudgetSent(f: ProjectForm, n: nat)
    requires f.budget == Decimal(n)
    ensures Payload(f).budget == Some(Num(n))
  {
    DecimalRoundTrip(n);
  }

  // ---------------------------------------------------------------------------
  // Project stats

  predicate IsActive(p: Project)
  {
    p.status == "active"
  }

  /** `Number(p.budget) || 0`: a missing budget counts as 0. */
  function ProjectBudget(p: Project): (b: int)
    ensures p.budget.None? ==> b == 0
    ensures p.budget.Some? ==> b == p.budget.value
  {
    OrZero(p.budget)
  }

  function TotalBudget(projects: seq<Project>): int
  {
    SumBy(projects, ProjectBudget)
  }

  /** The three stat cards: total projects, active projects and total budget. */
  datatype ProjectStats = ProjectStats(total: nat, active: nat, budget: int)

  /** The cards are shown only when there are projects: the number of projects, the
      number whose status is "active", never more than the total, and the budgets
      summed. */
  function Stats(projects: seq<Project>): (st: Option<ProjectStats>)
    ensures st.None? <==> projects == []
    ensures st.Some? ==> st.value.total == |projects| && st.value.active <= st.value.total
    ensures st.Some? ==> st.value.active == |Filter(projects, IsActive)| && st.value.budget == TotalBudget(projects)
  {
    if |projects| > 0 then Some(ProjectStats(|projects|, |Filter(projects, IsActive)|, TotalBudget(projects)))
    else None
  }

  /** The active count equals the total exactly when every project is active. */
  lemma {:induction false} AllActive(projects: seq<Project>)
    ensures |Filter(projects, IsActive)| == |projects| <==> forall i :: 0 <= i < |projects| ==> IsActive(projects[i])
  {
    if projects != [] {
      var init := projects[..|projects| - 1];
      var last := projects[|projects| - 1];
      assert projects == init + [last];
      FilterAppend(init, [last], IsActive);
      AllActive(init);
      if forall i :: 0 <= i < |projects| ==> IsActive(projects[i]) {
        assert forall i :: 0 <= i < |init| ==> IsActive(init[i]) by {
          forall i | 0 <= i < |init| ensures IsActive(init[i]) { assert init[i] == projects[i]; }
        }
      } else if |Filter(projects, IsActive)| == |projects| {
        assert |Filter(init, IsActive)| <= |init|;
        assert IsActive(last);
        forall i | 0 <= i < |projects| ensures IsActive(projects[i]) {
          if i < |init| { assert projects[i] == init[i]; }
        }
      }
    }
  }

  /** A project added to the list adds its budget, or nothing without one. */
  lemma TotalBudgetSnoc(projects: seq<Project>, p: Project)
    ensures TotalBudget(projects + [p]) == TotalBudget(projects) + ProjectBudget(p)
  {
    SumByAppend(projects, [p], ProjectBudget);
  }

  /** Budgets that are missing or not negative make a total that is not negative. */
  lemma TotalBudgetNonNegative(projects: seq<Project>)
    requires forall i :: 0 <= i < |projects| ==> projects[i].budget.None? || projects[i].budget.value >= 0
    ensures TotalBudget(projects) >= 0
  {
    SumByNonNegative(projects, ProjectBudget);
  }

  // ---------------------------------------------------------------------------
  // The page

  class ProjectsPage {
    var loading: bool
    var projects: seq<Project>
    var showProjectModal: bool
    var form: ProjectForm
    var creatingProject: bool

    constructor ()
      ensures loading && projects == [] && !showProjectModal && form == EmptyForm && !creatingProject
    {
      loading := true;
      projects := [];
      showProjectModal := false;
      form := EmptyForm;
      creatingProject := false;
    }

    /** `fetchData`: without a user nothing is loaded; otherwise the list is what
        `getProjects` returned (`data || []`), and stays as it was when the call
        threw. `loading` is cleared on every path. */
    method FetchData(user: Option<User>, response: Fetched<Project>)
      modifies this
      ensures user.Some? && response.Rows? ==> projects == response.rows
      ensures user.None? || response.Failed? ==> projects == old(projects)
      ensures !loading
      ensures showProjectModal == old(showProjectModal) && form == old(form) && creatingProject == old(creatingProject)
    {
      if user.Some? {
        match response
        case Rows(data) => projects := data;
        case Failed =>
      }
      loading := false;
    }

    /** The "New Project" buttons open the dialog, keeping what the form held. */
    method OpenModal()
      modifies this
      ensures showProjectModal
      ensures loading == old(loading) && projects == old(projects) && form == old(form)
      ensures creatingProject == old(creatingProject)
    {
      showProjectModal := true;
    }

    /** "Cancel" closes the dialog without clearing the form. */
    method CancelModal()
      modifies this
      ensures !showProjectModal
      ensures loading == old(loading) && projects == old(projects) && form == old(form)
      ensures creatingProject == old(creatingProject)
    {
      showProjectModal := false;
    }

    /** The three inputs' `onChange`: one field replaced, the others kept. */
    method SetName(v: string)
      modifies this
      ensures form == old(form).(name := v)
      ensures loading == old(loading) && projects == old(projects) && showProjectModal == old(showProjectModal)
      ensures creatingProject == old(creatingProject)
    {
      form := form.(name := v);
    }

    method SetDescription(v: string)
      modifies this
      ensures form == old(form).(description := v)
      ensures loading == old(loading) && projects == old(projects) && showProjectModal == old(showProjectModal)
      ensures creatingProject == old(creatingProject)
    {
      form := form.(description := v);
    }

    method SetBudget(v: string)
      modifies this
      ensures form == old(form).(budget := v)
      ensures loading == old(loading) && projects == old(projects) && showProjectModal == old(showProjectModal)
      ensures creatingProject == old(creatingProject)
    {
      form := form.(budget := v);
    }

    /** `handleCreateProject`. With an empty name nothing is sent and nothing changes.
        Otherwise the form's payload is sent; when neither `createProject`
        (`createThrew`) nor the reload (`reload`) throws, the list becomes the
        reloaded rows, the dialog closes and the form is emptied; when either throws,
        list, dialog and form stay as they were. The creating flag ends cleared. */
    method HandleCreateProject(createThrew: bool, reload: Fetched<Project>) returns (sent: Option<NewProject>)
      modifies this
      ensures old(form.name) == "" ==> sent.None? && projects == old(projects) && showProjectModal == old(showProjectModal)
      ensures old(form.name) == "" ==> form == old(form) && creatingProject == old(creatingProject)
      ensures old(form.name) != "" ==> sent == Some(Payload(old(form))) && !creatingProject
      ensures old(form.name) != "" && !createThrew && reload.Rows? ==>
        projects == reload.rows && !showProjectModal && form == EmptyForm
      ensures old(form.name) != "" && (createThrew || reload.Failed?) ==>
        projects == old(projects) && showProjectModal == old(showProjectModal) && form == old(form)
      ensures loading == old(loading)
    {
      if form.name == "" {
        return None;
      }
      creatingProject := true;
      sent := Some(Payload(form));
      if !createThrew && reload.Rows? {
        projects := reload.rows;
        showProjectModal := false;
        form := EmptyForm;
      }
      creatingProject := false;
    }
  }
}
