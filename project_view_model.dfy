/** The view model of the project tab: the categories, the project list of the selected category
    (or of the newest projects), a page cursor and the selected category id. */
module ProjectScreen {
  import opened Results
  import opened Projects
  import opened ApiClient
  import opened ViewState
  import opened Paging
  import ProjectRepository

  /** The category id that stands for "newest projects". */
  const NewestCid: int := -1

  /** The fields of a `ProjectViewModel`. */
  datatype ProjectState = ProjectState(
    uiState: UiState,
    classifyList: seq<ClassifyResponse>,
    projectList: seq<ProjectResponse>,
    currentPage: int,
    currentCid: int
  )

  /** The fields before the first load: loading, both lists empty, page 0, newest projects. */
  const Initial: ProjectState := ProjectState(Loading, [], [], 0, NewestCid)

  /** `loadProjectList(cid)`: page 1 of category `cid` replaces the project list. */
  function AfterLoadProjectList(s: ProjectState, api: ApiService, cid: int): (r: ProjectState)
    ensures r.currentCid == cid && r.currentPage == 1 && r.classifyList == s.classifyList
    ensures r.uiState == UiState.Success <==> Accepted(api.projectList(1, cid))
    ensures Accepted(api.projectList(1, cid)) ==>
              r.projectList == ProjectRepository.ProjectsOrEmpty(api.projectList(1, cid).response.data)
    ensures !Accepted(api.projectList(1, cid)) ==> r.projectList == s.projectList
    ensures ProjectRepository.GetProjectList(api, 1, cid).Failure? ==>
              r.uiState == FailureState(ProjectRepository.GetProjectList(api, 1, cid).exception)
  {
    var s := s.(uiState := Loading, currentCid := cid, currentPage := 1);
    match ProjectRepository.GetProjectList(api, s.currentPage, cid)
    case Success(projects) => s.(projectList := projects, uiState := UiState.Success)
    case Failure(e) => s.(uiState := FailureState(e))
  }

  /** `loadNewProjects()`: page 0 of the newest projects replaces the project list. */
  function AfterLoadNewProjects(s: ProjectState, api: ApiService): (r: ProjectState)
    ensures r.currentCid == NewestCid && r.currentPage == 0 && r.classifyList == s.classifyList
    ensures r.uiState == UiState.Success <==> Accepted(api.newProjectList(0))
    ensures Accepted(api.newProjectList(0)) ==>
              r.projectList == ProjectRepository.ProjectsOrEmpty(api.newProjectList(0).response.data)
    ensures !Accepted(api.newProjectList(0)) ==> r.projectList == s.projectList
    ensures ProjectRepository.GetNewProjectList(api, 0).Failure? ==>
              r.uiState == FailureState(ProjectRepository.GetNewProjectList(api, 0).exception)
  {
    var s := s.(uiState := Loading, currentCid := NewestCid, currentPage := 0);
    match ProjectRepository.GetNewProjectList(api, s.currentPage)
    case Success(projects) => s.(projectList := projects, uiState := UiState.Success)
    case Failure(e) => s.(uiState := FailureState(e))
  }

  /** `loadProjectClassify()`: the categories replace the category list and, when there is at
      least one, the first category's projects are loaded as by `loadProjectList`; with no
      category the screen goes straight to success. A failure changes nothing but the state. */
  function AfterLoadProjectClassify(s: ProjectState, api: ApiService): (r: ProjectState)
    ensures var categories := ProjectRepository.GetProjectClassify(api);
            categories.Failure? ==> r == s.(uiState := FailureState(categories.exception))
    ensures Accepted(api.projectClassify) ==> r.classifyList == api.projectClassify.response.data.GetOr([])
    ensures var categories := ProjectRepository.GetProjectClassify(api);
            categories.Success? && categories.value == [] ==>
              r == s.(classifyList := [], uiState := UiState.Success)
    ensures var categories := ProjectRepository.GetProjectClassify(api);
            categories.Success? && categories.value != [] ==>
              var first := categories.value[0].id;
              r == AfterLoadProjectList(s.(classifyList := categories.value), api, first) &&
              r.currentCid == first && r.currentPage == 1
  {
    var s := s.(uiState := Loading);
    match ProjectRepository.GetProjectClassify(api)
    case Success(categories) =>
      var s := s.(classifyList := categories);
      if |categories| > 0 then
        var s := s.(currentCid := categories[0].id);
        AfterLoadProjectList(s, api, s.currentCid)
      else
        s.(uiState := UiState.Success)
    case Failure(e) => s.(uiState := FailureState(e))
  }

  /** Where `loadMoreProjects()` fetches a page: the newest projects when the category is
      `NewestCid`, otherwise the projects of that category. */
  function MoreSource(cid: int): (fetch: (ApiService, int) -> Result<seq<ProjectResponse>>)
    ensures cid == NewestCid ==> forall api, page :: fetch(api, page) == ProjectRepository.GetNewProjectList(api, page)
    ensures cid != NewestCid ==> forall api, page :: fetch(api, page) == ProjectRepository.GetProjectList(api, page, cid)
  {
    (api: ApiService, page: int) =>
      if cid == NewestCid then ProjectRepository.GetNewProjectList(api, page)
      else ProjectRepository.GetProjectList(api, page, cid)
  }

  /** `loadMoreProjects()`: the next page from the source of the current category; on success it
      is appended and the cursor stays advanced, on failure the cursor moves back. The screen
      state, the category and the category list never change. */
  function AfterLoadMoreProjects(s: ProjectState, api: ApiService): (r: ProjectState)
    ensures var fetched := if s.currentCid == NewestCid
                           then ProjectRepository.GetNewProjectList(api, s.currentPage + 1)
                           else ProjectRepository.GetProjectList(api, s.currentPage + 1, s.currentCid);
            if fetched.Success?
            then r == s.(projectList := s.projectList + fetched.value, currentPage := s.currentPage + 1)
            else r == s
  {
    var page := s.currentPage + 1;
    var result := MoreSource(s.currentCid)(api, page);
    match result
    case Success(projects) => s.(currentPage := page, projectList := s.projectList + projects)
    case Failure(_) => s.(currentPage := page - 1)
  }

  /** `refresh()`: reloads the current category from its first page (page 0 for the newest
      projects, page 1 otherwise); the category is kept. */
  function AfterRefresh(s: ProjectState, api: ApiService): (r: ProjectState)
    ensures r.currentCid == s.currentCid && r.classifyList == s.classifyList
    ensures r.currentPage == if s.currentCid == NewestCid then 0 else 1
    ensures r.uiState != Loading
    ensures s.currentCid == NewestCid ==> r == AfterLoadNewProjects(s, api)
    ensures s.currentCid != NewestCid ==> r == AfterLoadProjectList(s, api, s.currentCid)
  {
    if s.currentCid == NewestCid then AfterLoadNewProjects(s, api)
    else AfterLoadProjectList(s, api, s.currentCid)
  }

  /** Any failed load shows the failure and keeps both lists. */
  lemma FailedLoadKeepsLists(s: ProjectState, api: ApiService, cid: int)
    ensures var r := AfterLoadProjectList(s, api, cid);
            !Accepted(api.projectList(1, cid)) ==>
              r.uiState.Error? && r.projectList == s.projectList && r.classifyList == s.classifyList
    ensures var r := AfterLoadNewProjects(s, api);
            !Accepted(api.newProjectList(0)) ==>
              r.uiState.Error? && r.projectList == s.projectList && r.classifyList == s.classifyList
    ensures var r := AfterLoadProjectClassify(s, api);
            !Accepted(api.projectClassify) ==>
              r.uiState.Error? && r.projectList == s.projectList && r.classifyList == s.classifyList
  {
  }

  /** The public operations of the view model. */
  datatype ProjectCall = LoadProjectClassify | LoadProjectList(cid: int) | LoadNewProjects | LoadMoreProjects | Refresh

  /** The fields after one operation, with the client answering as `api`. */
  function AfterCall(s: ProjectState, call: ProjectCall, api: ApiService): ProjectState {
    match call
    case LoadProjectClassify => AfterLoadProjectClassify(s, api)
    case LoadProjectList(cid) => AfterLoadProjectList(s, api, cid)
    case LoadNewProjects => AfterLoadNewProjects(s, api)
    case LoadMoreProjects => AfterLoadMoreProjects(s, api)
    case Refresh => AfterRefresh(s, api)
  }

  /** The fields after a sequence of operations, each with its own client answers. */
  function Run(s: ProjectState, steps: seq<(ProjectCall, ApiService)>): ProjectState
    decreases |steps|
  {
    if steps == [] then s else Run(AfterCall(s, steps[0].0, steps[0].1), steps[1..])
  }

  /** The cursor never falls below the first page of its source: 0 for the newest projects,
      1 for a category. */
  predicate Sane(s: ProjectState) {
    0 <= s.currentPage && (s.currentCid != NewestCid ==> 1 <= s.currentPage)
  }

  /** The initial fields are sane, and so is the state a freshly built view model reaches (its
      `init` runs `loadProjectClassify()`). */
  lemma FreshStateSane(api: ApiService)
    ensures Sane(Initial)
    ensures Sane(AfterLoadProjectClassify(Initial, api))
  {
  }

  /** Every sequence of operations keeps a sane state sane. */
  lemma {:induction false} RunKeepsSane(s: ProjectState, steps: seq<(ProjectCall, ApiService)>)
    requires Sane(s)
    ensures Sane(Run(s, steps))
    decreases |steps|
  {
    if steps != [] {
      var next := AfterCall(s, steps[0].0, steps[0].1);
      assert Sane(next);
      RunKeepsSane(next, steps[1..]);
    }
  }

  /** `loadMoreProjects()` called once per element of `apis`. */
  function LoadMoreRepeated(s: ProjectState, apis: seq<ApiService>): ProjectState
    decreases |apis|
  {
    if apis == [] then s else LoadMoreRepeated(AfterLoadMoreProjects(s, apis[0]), apis[1..])
  }

  /** After any number of load-more calls the project list is the old one followed by every page
      that loaded from the current category's source, in order, and the cursor has advanced by
      the number of those pages; nothing else changes. */
  lemma {:induction false} LoadMoreAppendsPages(s: ProjectState, apis: seq<ApiService>)
    ensures var pages := PagesLoaded(MoreSource(s.currentCid), s.currentPage, apis);
            LoadMoreRepeated(s, apis) ==
              s.(projectList := s.projectList + Flatten(pages), currentPage := s.currentPage + |pages|)
    decreases |apis|
  {
    if apis != [] {
      var next := AfterLoadMoreProjects(s, apis[0]);
      LoadMoreAppendsPages(next, apis[1..]);
      var fetched := MoreSource(s.currentCid)(apis[0], s.currentPage + 1);
      if fetched.Success? {
        var rest := Flatten(PagesLoaded(MoreSource(s.currentCid), next.currentPage, apis[1..]));
        assert s.projectList + fetched.value + rest == s.projectList + (fetched.value + rest);
      }
    }
  }

  /** `ProjectViewModel`: the fields are the values of its state flows and its two counters. */
  class ProjectViewModel {
    var uiState: UiState
    var classifyList: seq<ClassifyResponse>
    var projectList: seq<ProjectResponse>
    var currentPage: int
    var currentCid: int

    /** The fields as one value. */
    function State(): ProjectState
      reads this
    {
      ProjectState(uiState, classifyList, projectList, currentPage, currentCid)
    }

    /** Construction starts from the initial fields and loads the categories. */
    constructor (api: ApiService)
      ensures State() == AfterLoadProjectClassify(Initial, api)
    {
      uiState, classifyList, projectList := Loading, [], [];
      currentPage, currentCid := 0, NewestCid;
      new;
      LoadProjectClassify(api);
    }

    /** The category list step, then (as the nested launch does) the first category's list step. */
    method LoadProjectClassify(api: ApiService)
      modifies this
      ensures State() == AfterLoadProjectClassify(old(State()), api)
    {
      uiState := Loading;
      var result := ProjectRepository.GetProjectClassify(api);
      match result
      case Success(categories) =>
        classifyList := categories;
        if |categories| > 0 {
          currentCid := categories[0].id;
          LoadProjectList(api, currentCid);
        } else {
          uiState := UiState.Success;
        }
      case Failure(e) =>
        uiState := FailureState(e);
    }

    method LoadProjectList(api: ApiService, cid: int)
      modifies this
      ensures State() == AfterLoadProjectList(old(State()), api, cid)
    {
      uiState := Loading;
      currentCid := cid;
      currentPage := 1;
      var result := ProjectRepository.GetProjectList(api, currentPage, cid);
      match result
      case Success(projects) =>
        projectList := projects;
        uiState := UiState.Success;
      case Failure(e) =>
        uiState := FailureState(e);
    }

    method LoadNewProjects(api: ApiService)
      modifies this
      ensures State() == AfterLoadNewProjects(old(State()), api)
    {
      uiState := Loading;
      currentCid := NewestCid;
      currentPage := 0;
      var result := ProjectRepository.GetNewProjectList(api, currentPage);
      match result
      case Success(projects) =>
        projectList := projects;
        uiState := UiState.Success;
      case Failure(e) =>
        uiState := FailureState(e);
    }

    method LoadMoreProjects(api: ApiService)
      modifies this
      ensures State() == AfterLoadMoreProjects(old(State()), api)
    {
      currentPage := currentPage + 1;
      var result;
      if currentCid == NewestCid {
        result := ProjectRepository.GetNewProjectList(api, currentPage);
      } else {
        result := ProjectRepository.GetProjectList(api, currentPage, currentCid);
      }
      match result
      case Success(projects) =>
        projectList := projectList + projects;
      case Failure(_) =>
        currentPage := currentPage - 1;
    }

    method Refresh(api: ApiService)
      modifies this
      ensures State() == AfterRefresh(old(State()), api)
    {
      if currentCid == NewestCid {
        LoadNewProjects(api);
      } else {
        LoadProjectList(api, currentCid);
      }
    }
  }
}
