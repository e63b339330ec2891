/**
 * The project list (the app's index screen): the search filter over the
 * user's projects, the list fetch, and the add-project form with its
 * validation, address object, reset and date pickers.
 */
module ProjectList {
  import opened Common
  import opened ProjectSlice

  /** The lower-cased title contains the lower-cased query. */
  predicate TitleMatches(p: Project, query: string)
  {
    Includes(ToLower(p.projectTitle), ToLower(query))
  }

  /**
   * `handleSearch`: an empty query shows every project; any other shows the
   * projects whose title matches, in their original order.
   */
  function SearchResults(projects: seq<Project>, query: string): (r: seq<Project>)
    ensures query == "" ==> r == projects
    ensures IsSubsequence(r, projects)
    ensures query != "" ==> forall p :: p in r <==> p in projects && TitleMatches(p, query)
  {
    if query == "" then
      SubsequenceReflexive(projects);
      projects
    else
      Filter(projects, p => TitleMatches(p, query))
  }

  /** A non-empty query keeps each matching project as often as it is listed, and no other. */
  lemma SearchKeepsMatchingCounts(projects: seq<Project>, query: string, p: Project)
    requires query != ""
    ensures multiset(SearchResults(projects, query))[p]
         == if TitleMatches(p, query) then multiset(projects)[p] else 0
  {
    FilterCounts(projects, q => TitleMatches(q, query), p);
  }

  /** The search is by case-insensitive substring, at any position of the title. */
  lemma SearchFindsTitleInfix(p: Project, query: string, i: int)
    requires OccursAt(ToLower(p.projectTitle), ToLower(query), i)
    ensures TitleMatches(p, query)
  {
    IncludesIffOccurs(ToLower(p.projectTitle), ToLower(query));
  }

  /** The text fields of the add-project form. */
  datatype ProjectForm = ProjectForm(
    projectName: string, quoteeName: string, quoteeMobile: string, quoteeEmail: string,
    companyName: string, projectAddress: string,
    district: string, area: string, floorUnit: string, street: string)

  const EmptyForm := ProjectForm("", "", "", "", "", "", "", "", "", "")

  /** The `project_address` object of the request. */
  datatype Address = Address(district: string, area: string, street: string, floorUnit: string)

  /** The body of the `add-project` request; dates are sent formatted, here as Dates. */
  datatype NewProject = NewProject(
    userId: Option<string>, userCompanyId: Option<string>, projectName: string,
    startDate: Date, endDate: Date,
    quoteeName: string, quoteeMobile: string, quoteeEmail: string, companyName: string,
    projectAddress: Address)

  /** One of the nine required fields is empty (`projectAddress` is not among them). */
  predicate HasMissingField(f: ProjectForm)
  {
    f.projectName == "" || f.quoteeName == "" || f.quoteeMobile == "" || f.quoteeEmail == ""
    || f.companyName == "" || f.district == "" || f.area == "" || f.floorUnit == "" || f.street == ""
  }

  /** The two checks of `addProject`, in their order; equal dates are accepted. */
  function Validate(f: ProjectForm, startDate: Date, endDate: Date): (v: Validation)
    ensures v == MissingField <==> HasMissingField(f)
    ensures v == EndBeforeStart <==> !HasMissingField(f) && Before(endDate, startDate)
    ensures v == Accepted ==> startDate.At? && endDate.At? ==> startDate.ms <= endDate.ms
  {
    if HasMissingField(f) then MissingField
    else if Before(endDate, startDate) then EndBeforeStart
    else Accepted
  }

  /** The request for an accepted form: the address from exactly the four address fields. */
  function NewProjectOf(f: ProjectForm, userId: Option<string>, companyId: Option<string>,
                        startDate: Date, endDate: Date): (r: NewProject)
    ensures r.projectAddress == Address(f.district, f.area, f.street, f.floorUnit)
    ensures r.projectName == f.projectName && r.companyName == f.companyName
    ensures r.quoteeName == f.quoteeName && r.quoteeMobile == f.quoteeMobile && r.quoteeEmail == f.quoteeEmail
    ensures r.userId == userId && r.userCompanyId == companyId
    ensures r.startDate == startDate && r.endDate == endDate
  {
    NewProject(userId, companyId, f.projectName, startDate, endDate,
               f.quoteeName, f.quoteeMobile, f.quoteeEmail, f.companyName,
               Address(f.district, f.area, f.street, f.floorUnit))
  }

  /** The state of the project list screen. */
  class ProjectListScreen {
    var searchQuery: string
    var projects: seq<Project>
    var filteredProjects: seq<Project>
    var userId: Option<string>
    var companyId: Option<string>
    var loading: bool
    var refreshing: bool
    var modalVisible: bool
    var showStartPicker: bool
    var showEndPicker: bool
    var form: ProjectForm
    var startDate: Date
    var endDate: Date

    /** The filtered list is always drawn from the full list, in its order. */
    ghost predicate Valid()
      reads this
    {
      IsSubsequence(filteredProjects, projects)
    }

    /** The screen as mounted at time `now` (both dates are `new Date()`). */
    constructor (now: int)
      ensures Valid()
      ensures searchQuery == "" && projects == [] && filteredProjects == []
      ensures userId == None && companyId == None
      ensures !loading && !refreshing && !modalVisible && !showStartPicker && !showEndPicker
      ensures form == EmptyForm && startDate == At(now) && endDate == At(now)
    {
      searchQuery, projects, filteredProjects := "", [], [];
      userId, companyId := None, None;
      loading, refreshing, modalVisible, showStartPicker, showEndPicker := false, false, false, false, false;
      form, startDate, endDate := EmptyForm, At(now), At(now);
    }

    /**
     * `fetchUserIdAndProjects`: the stored ids are kept; with a user id, a
     * `projects` array fills both lists and anything else empties both; a
     * failed request leaves them; loading and refreshing end in every case.
     */
    method FetchUserIdAndProjects(storedUserId: Option<string>, storedCompanyId: Option<string>,
                                  response: Fetch<Option<seq<Project>>>)
      requires Valid()
      modifies this`userId, this`companyId, this`projects, this`filteredProjects, this`loading, this`refreshing
      ensures Valid()
      ensures userId == storedUserId && companyId == storedCompanyId
      ensures !loading && !refreshing
      ensures if Truthy(storedUserId) && response.Received? then
                if response.data.Some? then projects == filteredProjects == response.data.value
                else projects == filteredProjects == []
              else projects == old(projects) && filteredProjects == old(filteredProjects)
    {
      userId, companyId := storedUserId, storedCompanyId;
      if Truthy(storedUserId) && response.Received? {
        var list := if response.data.Some? then response.data.value else [];
        projects, filteredProjects := list, list;
        SubsequenceReflexive(list);
      }
      loading, refreshing := false, false;
    }

    method HandleSearch(query: string)
      requires Valid()
      modifies this`searchQuery, this`filteredProjects
      ensures Valid()
      ensures searchQuery == query && filteredProjects == SearchResults(projects, query)
    {
      searchQuery := query;
      filteredProjects := SearchResults(projects, query);
    }

    /**
     * `resetModalFields`: clears the name, quotee, company and address-string
     * fields and resets both dates to `now`; district, area, floor/unit and
     * street keep what was typed.
     */
    method ResetModalFields(now: int)
      modifies this`form, this`startDate, this`endDate
      ensures form == old(form).(projectName := "", quoteeName := "", quoteeMobile := "",
                                 quoteeEmail := "", companyName := "", projectAddress := "")
      ensures startDate == At(now) && endDate == At(now)
    {
      form := form.(projectName := "", quoteeName := "", quoteeMobile := "",
                    quoteeEmail := "", companyName := "", projectAddress := "");
      startDate, endDate := At(now), At(now);
    }

    /**
     * `addProject`: nothing is sent while a required field is empty or the end
     * date is before the start date; a 200 response closes the dialog and
     * resets the form, any other outcome leaves the screen as it was.
     */
    method AddProject(succeeded: bool, now: int) returns (sent: Option<NewProject>)
      modifies this`modalVisible, this`form, this`startDate, this`endDate
      ensures sent.Some? <==> Validate(old(form), old(startDate), old(endDate)) == Accepted
      ensures sent.Some? ==> sent.value == NewProjectOf(old(form), userId, companyId, old(startDate), old(endDate))
      ensures if sent.Some? && succeeded then
                && !modalVisible
                && form == old(form).(projectName := "", quoteeName := "", quoteeMobile := "",
                                      quoteeEmail := "", companyName := "", projectAddress := "")
                && startDate == At(now) && endDate == At(now)
              else
                && modalVisible == old(modalVisible) && form == old(form)
                && startDate == old(startDate) && endDate == old(endDate)
    {
      if Validate(form, startDate, endDate) != Accepted {
        return None;
      }
      sent := Some(NewProjectOf(form, userId, companyId, startDate, endDate));
      if succeeded {
        modalVisible := false;
        ResetModalFields(now);
      }
    }

    /** `handleProjectClick`: the pressed project becomes the store's active project. */
    method HandleProjectClick(store: ProjectStore, p: Project)
      modifies store
      ensures store.project == Some(p)
    {
      store.SetProject(Some(p));
    }

    /** The start-date picker takes any date and closes. */
    method OnStartPicked(chosen: Date)
      modifies this`startDate, this`showStartPicker
      ensures startDate == chosen && !showStartPicker
    {
      startDate := chosen;
      showStartPicker := false;
    }

    /** The end-date picker keeps the previous end date when the choice is before the start date, and closes. */
    method OnEndPicked(chosen: Date)
      modifies this`endDate, this`showEndPicker
      ensures endDate == PickedEnd(startDate, old(endDate), chosen)
      ensures !showEndPicker
    {
      endDate := PickedEnd(startDate, endDate, chosen);
      showEndPicker := false;
    }
  }
}
