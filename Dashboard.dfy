/**
 * The dashboard page controller (app/page.tsx, and app/dashboard/page.tsx,
 * which is the same controller without a logout handler of its own). Each
 * handler runs as one atomic step: the outcome of every call it awaits is an
 * input, and what it does to the outside world (navigation, dialogs, requests)
 * is appended to `effects`.
 */
module Dashboard {
  import opened Options
  import opened Types
  import Api
  import Auth
  import Text

  const LoginPath := "/login"
  const FetchFailedMessage := "Failed to load projects. Please try again."
  const DeleteFailedMessage := "Failed to delete project. Please try again."
  const ConfirmDeleteMessage := "Are you sure you want to delete this project?"

  /** What the page does outside its own state, in order. */
  datatype Effect =
    | Redirect(path: string)        // router.push
    | Confirm(message: string)      // window.confirm; the answer is an input of the handler
    | Alert(message: string)        // window.alert
    | LookupCurrentUser             // authApi.getCurrentUser()
    | Send(request: Api.Request)    // a projectApi request

  /** Every state variable of the page, as one value. */
  datatype PageState = PageState(
    user: Option<User>,
    isAuthLoading: bool,
    projects: seq<Project>,
    filteredProjects: seq<Project>,
    isLoading: bool,
    error: Option<string>,
    selectedStatus: string,
    searchTerm: string,
    isModalOpen: bool,
    editingProject: Option<Project>,
    effects: seq<Effect>)

  /** A token is present in the sense of `if (!token)`: the empty string counts as absent. */
  predicate HasToken(t: Option<string>) {
    t.Some? && t.value != ""
  }

  /** `selectedStatus !== 'all' ? selectedStatus : undefined` */
  function StatusArg(selected: string): Option<string> {
    if selected != "all" then Some(selected) else None
  }

  /** `searchTerm || undefined` */
  function SearchArg(term: string): Option<string> {
    if term != "" then Some(term) else None
  }

  /** The list request `fetchProjects` sends from the current filter and search. */
  function FetchRequest(s: PageState): Api.Request {
    Api.ListRequest(StatusArg(s.selectedStatus), SearchArg(s.searchTerm))
  }

  /** The status filter is sent only when one is chosen, the search only when something was typed. */
  lemma FetchQuery(s: PageState)
    ensures var params := FetchRequest(s).params;
      && ("status" in params <==> s.selectedStatus != "all" && s.selectedStatus != "")
      && ("status" in params ==> params["status"] == s.selectedStatus)
      && ("search" in params <==> s.searchTerm != "")
      && ("search" in params ==> params["search"] == s.searchTerm)
      && params.Keys <= {"status", "search"}
  {
  }

  /**
   * The state after `fetchProjects` settles with `reply`: the loading flag ends
   * cleared; a success replaces both lists with the same data and leaves no
   * error; a failure sets the error and keeps both lists as they were.
   */
  function Fetched(s: PageState, reply: Api.Reply<seq<Project>>): (t: PageState)
    ensures !t.isLoading && t.effects == s.effects + [Send(FetchRequest(s))]
    ensures reply.Delivered? ==> t.error == None && t.projects == Api.ListResult(reply).value && t.filteredProjects == t.projects
    ensures reply.Rejected? ==> t.error == Some(FetchFailedMessage) && t.projects == s.projects && t.filteredProjects == s.filteredProjects
    ensures t.(projects := s.projects, filteredProjects := s.filteredProjects, isLoading := s.isLoading, error := s.error, effects := s.effects) == s
  {
    var sent := s.(isLoading := false, effects := s.effects + [Send(FetchRequest(s))]);
    match Api.ListResult(reply)
    case Ok(data) => sent.(projects := data, filteredProjects := data, error := None)
    case Err(_) => sent.(error := Some(FetchFailedMessage))
  }

  /** Which call saving makes: `update` of the edited project's id while editing, `create` otherwise. */
  function SaveExchange(editing: Option<Project>, form: ProjectFormData, reply: Api.Reply<Project>): (x: Api.Exchange<Project>)
    ensures editing.Some? ==> x.request.verb == Api.PUT && x.request.path == Api.ProjectPath(editing.value.id)
    ensures editing.None? ==> x.request.verb == Api.POST && x.request.path == Api.ProjectsPath
    ensures x.request.body == Some(form)
    ensures x.result.Ok? <==> reply.Delivered? && reply.response.data.Some?
  {
    if editing.Some? then Api.Update(editing.value.id, form, reply) else Api.Create(form, reply)
  }

  /** `Showing N project(s)` */
  function CountLine(n: nat): string {
    "Showing " + Text.NatToDecimal(n) + " project" + (if n != 1 then "s" else "")
  }

  /** The count line is plural exactly when the count is not 1. */
  lemma CountLinePlural(n: nat)
    ensures var line := CountLine(n); line[|line| - 1] == 's' <==> n != 1
  {
  }

  /** What the page renders. */
  datatype PageView =
    | AuthSpinner
    | Blank
    | Main(errorBanner: Option<string>, tableProjects: seq<Project>, tableLoading: bool,
           countLine: Option<string>, modalOpen: bool, modalProject: Option<Project>)

  /** Render gating: the spinner while the session is being checked, nothing without a user, else the dashboard. */
  function Render(s: PageState): (v: PageView)
    ensures v.AuthSpinner? <==> s.isAuthLoading
    ensures v.Blank? <==> !s.isAuthLoading && s.user.None?
    ensures v.Main? ==> v.tableProjects == s.filteredProjects && v.tableLoading == s.isLoading
    ensures v.Main? ==> (v.countLine.Some? <==> !s.isLoading)
    ensures v.Main? && v.countLine.Some? ==> v.countLine.value == CountLine(|s.filteredProjects|)
    ensures v.Main? ==> (v.errorBanner.Some? <==> s.error.Some? && s.error.value != "")
    ensures v.Main? ==> v.modalOpen == s.isModalOpen && v.modalProject == s.editingProject
  {
    if s.isAuthLoading then AuthSpinner
    else if s.user.None? then Blank
    else Main(if s.error.Some? && s.error.value != "" then s.error else None,
              s.filteredProjects, s.isLoading,
              if !s.isLoading then Some(CountLine(|s.filteredProjects|)) else None,
              s.isModalOpen, s.editingProject)
  }

  class DashboardPage {
    const store: Auth.TokenStore
    var user: Option<User>
    var isAuthLoading: bool
    var projects: seq<Project>
    var filteredProjects: seq<Project>
    var isLoading: bool
    var error: Option<string>
    var selectedStatus: string
    var searchTerm: string
    var isModalOpen: bool
    var editingProject: Option<Project>
    var effects: seq<Effect>

    function State(): PageState
      reads this
    {
      PageState(user, isAuthLoading, projects, filteredProjects, isLoading, error,
                selectedStatus, searchTerm, isModalOpen, editingProject, effects)
    }

    /** The state on first render. */
    constructor (store: Auth.TokenStore)
      ensures this.store == store
      ensures State() == PageState(None, true, [], [], true, None, "all", "", false, None, [])
    {
      this.store := store;
      user := None;
      isAuthLoading := true;
      projects, filteredProjects := [], [];
      isLoading := true;
      error := None;
      selectedStatus, searchTerm := "all", "";
      isModalOpen := false;
      editingProject := None;
      effects := [];
    }

    /**
     * `checkAuth`, with `lookup` the outcome of `getCurrentUser` (None when it
     * threw). Without a token it redirects and returns before the `finally`,
     * so the auth spinner is never cleared.
     */
    method CheckAuth(lookup: Option<User>)
      modifies this, store
      ensures !HasToken(old(store.GetToken())) ==>
        State() == old(State()).(effects := old(effects) + [Redirect(LoginPath)]) && store.storage == old(store.storage)
      ensures HasToken(old(store.GetToken())) && lookup.Some? ==>
        State() == old(State()).(user := lookup, isAuthLoading := false, effects := old(effects) + [LookupCurrentUser])
        && store.storage == old(store.storage)
      ensures HasToken(old(store.GetToken())) && lookup.None? ==>
        State() == old(State()).(isAuthLoading := false, effects := old(effects) + [LookupCurrentUser, Redirect(LoginPath)])
        && store.storage == old(store.storage) - {Auth.TokenKey} && store.GetToken() == None
    {
      var token := store.GetToken();
      if token.None? || token.value == "" {
        effects := effects + [Redirect(LoginPath)];
        return;
      }
      effects := effects + [LookupCurrentUser];
      if lookup.Some? {
        user := lookup;
      } else {
        store.RemoveToken();
        effects := effects + [Redirect(LoginPath)];
      }
      isAuthLoading := false;
    }

    /** `fetchProjects`, settling with `reply`. */
    method FetchProjects(reply: Api.Reply<seq<Project>>)
      modifies this
      ensures State() == Fetched(old(State()), reply)
    {
      isLoading := true;
      error := None;
      var request, result := Api.GetAll(StatusArg(selectedStatus), SearchArg(searchTerm), reply);
      effects := effects + [Send(request)];
      if result.Ok? {
        projects := result.value;
        filteredProjects := result.value;
      } else {
        error := Some(FetchFailedMessage);
      }
      isLoading := false;
    }

    /** A new status filter re-runs the fetch; choosing the current one again changes nothing. */
    method SelectStatus(status: string, reply: Api.Reply<seq<Project>>)
      modifies this
      ensures status == old(selectedStatus) ==> State() == old(State())
      ensures status != old(selectedStatus) ==> State() == Fetched(old(State()).(selectedStatus := status), reply)
    {
      if status != selectedStatus {
        selectedStatus := status;
        FetchProjects(reply);
      }
    }

    /** A new search term re-runs the fetch; the current one again changes nothing. */
    method ChangeSearch(term: string, reply: Api.Reply<seq<Project>>)
      modifies this
      ensures term == old(searchTerm) ==> State() == old(State())
      ensures term != old(searchTerm) ==> State() == Fetched(old(State()).(searchTerm := term), reply)
    {
      if term != searchTerm {
        searchTerm := term;
        FetchProjects(reply);
      }
    }

    /** `handleAddProject`: open the modal on an empty form. */
    method HandleAddProject()
      modifies this
      ensures State() == old(State()).(editingProject := None, isModalOpen := true)
    {
      editingProject := None;
      isModalOpen := true;
    }

    /** `handleEditProject`: open the modal on the chosen project. */
    method HandleEditProject(project: Project)
      modifies this
      ensures State() == old(State()).(editingProject := Some(project), isModalOpen := true)
    {
      editingProject := Some(project);
      isModalOpen := true;
    }

    /** The modal's `onClose`: close it and forget the edited project. */
    method CloseModal()
      modifies this
      ensures State() == old(State()).(isModalOpen := false, editingProject := None)
    {
      isModalOpen := false;
      editingProject := None;
    }

    /**
     * `handleDeleteProject`: ask first; a declined confirm sends nothing. A
     * successful delete refetches; a failed one alerts and does not.
     */
    method HandleDeleteProject(id: int, confirmed: bool, reply: Api.Reply<()>, refetch: Api.Reply<seq<Project>>)
      modifies this
      ensures !confirmed ==> State() == old(State()).(effects := old(effects) + [Confirm(ConfirmDeleteMessage)])
      ensures confirmed && reply.Delivered? ==>
        State() == Fetched(old(State()).(effects := old(effects) + [Confirm(ConfirmDeleteMessage), Send(Api.Delete(id, reply).request)]), refetch)
      ensures confirmed && reply.Rejected? ==>
        State() == old(State()).(effects := old(effects) + [Confirm(ConfirmDeleteMessage), Send(Api.Delete(id, reply).request), Alert(DeleteFailedMessage)])
    {
      effects := effects + [Confirm(ConfirmDeleteMessage)];
      if !confirmed {
        return;
      }
      var x := Api.Delete(id, reply);
      effects := effects + [Send(x.request)];
      if x.result.Ok? {
        FetchProjects(refetch);
      } else {
        effects := effects + [Alert(DeleteFailedMessage)];
      }
    }

    /**
     * `handleSaveProject`: update while editing, create otherwise. On success
     * close the modal, forget the edited project and refetch. On failure
     * rethrow (`thrown`), leaving the modal as it was.
     */
    method HandleSaveProject(form: ProjectFormData, reply: Api.Reply<Project>, refetch: Api.Reply<seq<Project>>)
      returns (thrown: bool)
      modifies this
      ensures thrown <==> SaveExchange(old(editingProject), form, reply).result.Err?
      ensures thrown ==>
        State() == old(State()).(effects := old(effects) + [Send(SaveExchange(old(editingProject), form, reply).request)])
      ensures !thrown ==>
        State() == Fetched(old(State()).(isModalOpen := false, editingProject := None,
                                         effects := old(effects) + [Send(SaveExchange(old(editingProject), form, reply).request)]), refetch)
    {
      var x := SaveExchange(editingProject, form, reply);
      effects := effects + [Send(x.request)];
      if x.result.Err? {
        thrown := true;
        return;
      }
      isModalOpen := false;
      editingProject := None;
      FetchProjects(refetch);
      thrown := false;
    }

    /** `handleLogout` (app/page.tsx only): drop the token and leave; no page state is reset. */
    method HandleLogout()
      modifies this, store
      ensures State() == old(State()).(effects := old(effects) + [Redirect(LoginPath)])
      ensures store.storage == if store.hasWindow then old(store.storage) - {Auth.TokenKey} else old(store.storage)
      ensures store.GetToken() == None
    {
      store.RemoveToken();
      effects := effects + [Redirect(LoginPath)];
    }
  }
}
