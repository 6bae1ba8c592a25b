/** The view model of the square tab: four lists (square, daily question, system tree,
    navigation), one page cursor shared by all of them and the mode of the visible sub-tab. */
module TreeScreen {
  import opened Results
  import opened ApiModel
  import opened Articles
  import opened TreeModels
  import opened ApiClient
  import opened ViewState
  import opened Paging
  import TreeRepository

  /** The four sub-tabs, as `currentMode` numbers them. */
  const SquareMode: int := 0
  const AskMode: int := 1
  const SystemMode: int := 2
  const NavigationMode: int := 3

  /** The fields of a `TreeViewModel`. */
  datatype TreeState = TreeState(
    uiState: UiState,
    systemList: seq<SystemResponse>,
    squareList: seq<Article>,
    navigationList: seq<NavigationResponse>,
    askList: seq<Article>,
    currentPage: int,
    currentMode: int
  )

  /** The fields before the first load: loading, every list empty, page 0, the square tab. */
  const Initial: TreeState := TreeState(Loading, [], [], [], [], 0, SquareMode)

  /** `loadSquareData()`: page 0 of the square tab replaces the square list. */
  function AfterLoadSquareData(s: TreeState, api: ApiService): (r: TreeState)
    ensures r.currentMode == SquareMode && r.currentPage == 0
    ensures r.systemList == s.systemList && r.navigationList == s.navigationList && r.askList == s.askList
    ensures r.uiState == UiState.Success <==> Accepted(api.squareData(0))
    ensures Accepted(api.squareData(0)) ==> r.squareList == DatasOrEmpty(api.squareData(0).response.data)
    ensures !Accepted(api.squareData(0)) ==> r.squareList == s.squareList
    ensures TreeRepository.GetSquareData(api, 0).Failure? ==>
              r.uiState == FailureState(TreeRepository.GetSquareData(api, 0).exception)
  {
    var s := s.(uiState := Loading, currentMode := SquareMode, currentPage := 0);
    match TreeRepository.GetSquareDataFirstPage(api)
    case Success(articles) => s.(squareList := articles, uiState := UiState.Success)
    case Failure(e) => s.(uiState := FailureState(e))
  }

  /** `loadAskData()`: page 1 of the daily questions replaces the question list. */
  function AfterLoadAskData(s: TreeState, api: ApiService): (r: TreeState)
    ensures r.currentMode == AskMode && r.currentPage == 1
    ensures r.systemList == s.systemList && r.navigationList == s.navigationList && r.squareList == s.squareList
    ensures r.uiState == UiState.Success <==> Accepted(api.askData(1))
    ensures Accepted(api.askData(1)) ==> r.askList == DatasOrEmpty(api.askData(1).response.data)
    ensures !Accepted(api.askData(1)) ==> r.askList == s.askList
    ensures TreeRepository.GetAskData(api, 1).Failure? ==>
              r.uiState == FailureState(TreeRepository.GetAskData(api, 1).exception)
  {
    var s := s.(uiState := Loading, currentMode := AskMode, currentPage := 1);
    match TreeRepository.GetAskData(api, s.currentPage)
    case Success(articles) => s.(askList := articles, uiState := UiState.Success)
    case Failure(e) => s.(uiState := FailureState(e))
  }

  /** `loadSystemData()`: the system tree replaces the system list; the page cursor is kept. */
  function AfterLoadSystemData(s: TreeState, api: ApiService): (r: TreeState)
    ensures r.currentMode == SystemMode && r.currentPage == s.currentPage
    ensures r.squareList == s.squareList && r.navigationList == s.navigationList && r.askList == s.askList
    ensures r.uiState == UiState.Success <==> Accepted(api.systemData)
    ensures Accepted(api.systemData) ==> r.systemList == api.systemData.response.data.GetOr([])
    ensures !Accepted(api.systemData) ==> r.systemList == s.systemList
    ensures TreeRepository.GetSystemData(api).Failure? ==>
              r.uiState == FailureState(TreeRepository.GetSystemData(api).exception)
  {
    var s := s.(uiState := Loading, currentMode := SystemMode);
    match TreeRepository.GetSystemData(api)
    case Success(systemList) => s.(systemList := systemList, uiState := UiState.Success)
    case Failure(e) => s.(uiState := FailureState(e))
  }

  /** `loadNavigationData()`: the navigation groups replace the navigation list; the page cursor
      is kept. */
  function AfterLoadNavigationData(s: TreeState, api: ApiService): (r: TreeState)
    ensures r.currentMode == NavigationMode && r.currentPage == s.currentPage
    ensures r.squareList == s.squareList && r.systemList == s.systemList && r.askList == s.askList
    ensures r.uiState == UiState.Success <==> Accepted(api.navigationData)
    ensures Accepted(api.navigationData) ==> r.navigationList == api.navigationData.response.data.GetOr([])
    ensures !Accepted(api.navigationData) ==> r.navigationList == s.navigationList
    ensures TreeRepository.GetNavigationData(api).Failure? ==>
              r.uiState == FailureState(TreeRepository.GetNavigationData(api).exception)
  {
    var s := s.(uiState := Loading, currentMode := NavigationMode);
    match TreeRepository.GetNavigationData(api)
    case Success(navigationList) => s.(navigationList := navigationList, uiState := UiState.Success)
    case Failure(e) => s.(uiState := FailureState(e))
  }

  /** `loadMoreSquareData()`: the cursor moves to the next page first and moves back when the
      fetch fails; a fetched page is appended. Neither the screen state nor the mode changes. */
  function AfterLoadMoreSquareData(s: TreeState, api: ApiService): (r: TreeState)
    ensures var fetched := TreeRepository.GetSquareData(api, s.currentPage + 1);
            if fetched.Success?
            then r == s.(squareList := s.squareList + fetched.value, currentPage := s.currentPage + 1)
            else r == s
  {
    var page := s.currentPage + 1;
    match TreeRepository.GetSquareData(api, page)
    case Success(articles) => s.(currentPage := page, squareList := s.squareList + articles)
    case Failure(_) => s.(currentPage := page - 1)
  }

  /** `loadMoreAskData()`: as for the square list, on the daily-question list. */
  function AfterLoadMoreAskData(s: TreeState, api: ApiService): (r: TreeState)
    ensures var fetched := TreeRepository.GetAskData(api, s.currentPage + 1);
            if fetched.Success?
            then r == s.(askList := s.askList + fetched.value, currentPage := s.currentPage + 1)
            else r == s
  {
    var page := s.currentPage + 1;
    match TreeRepository.GetAskData(api, page)
    case Success(articles) => s.(currentPage := page, askList := s.askList + articles)
    case Failure(_) => s.(currentPage := page - 1)
  }

  /** `refresh()`: reloads the sub-tab `currentMode` names, so the mode is kept; the square and
      question tabs restart at their first page, the other two keep the cursor. A mode outside
      0..3 makes it do nothing. */
  function AfterRefresh(s: TreeState, api: ApiService): (r: TreeState)
    ensures SquareMode <= s.currentMode <= NavigationMode ==> r.currentMode == s.currentMode
    ensures s.currentMode == SquareMode ==> r.currentPage == 0
    ensures s.currentMode == AskMode ==> r.currentPage == 1
    ensures s.currentMode == SystemMode || s.currentMode == NavigationMode ==> r.currentPage == s.currentPage
    ensures SquareMode <= s.currentMode <= NavigationMode ==> r.uiState != Loading
    ensures !(SquareMode <= s.currentMode <= NavigationMode) ==> r == s
    ensures s.currentMode == SquareMode ==> r == AfterLoadSquareData(s, api)
    ensures s.currentMode == AskMode ==> r == AfterLoadAskData(s, api)
    ensures s.currentMode == SystemMode ==> r == AfterLoadSystemData(s, api)
    ensures s.currentMode == NavigationMode ==> r == AfterLoadNavigationData(s, api)
  {
    if s.currentMode == SquareMode then AfterLoadSquareData(s, api)
    else if s.currentMode == AskMode then AfterLoadAskData(s, api)
    else if s.currentMode == SystemMode then AfterLoadSystemData(s, api)
    else if s.currentMode == NavigationMode then AfterLoadNavigationData(s, api)
    else s
  }

  /** A failed fetch in any of the four loads shows the failure and keeps all four lists. */
  lemma FailedLoadKeepsLists(s: TreeState, api: ApiService)
    ensures var r := AfterLoadSquareData(s, api);
            !Accepted(api.squareData(0)) ==> r.uiState.Error? && SameLists(r, s)
    ensures var r := AfterLoadAskData(s, api);
            !Accepted(api.askData(1)) ==> r.uiState.Error? && SameLists(r, s)
    ensures var r := AfterLoadSystemData(s, api);
            !Accepted(api.systemData) ==> r.uiState.Error? && SameLists(r, s)
    ensures var r := AfterLoadNavigationData(s, api);
            !Accepted(api.navigationData) ==> r.uiState.Error? && SameLists(r, s)
  {
  }

  /** The four lists of two states agree. */
  predicate SameLists(a: TreeState, b: TreeState) {
    a.systemList == b.systemList && a.squareList == b.squareList &&
    a.navigationList == b.navigationList && a.askList == b.askList
  }

  /** The public operations of the view model. */
  datatype TreeCall =
    | LoadSquareData | LoadAskData | LoadSystemData | LoadNavigationData
    | LoadMoreSquareData | LoadMoreAskData | Refresh

  /** The fields after one operation, with the client answering as `api`. */
  function AfterCall(s: TreeState, call: TreeCall, api: ApiService): TreeState {
    match call
    case LoadSquareData => AfterLoadSquareData(s, api)
    case LoadAskData => AfterLoadAskData(s, api)
    case LoadSystemData => AfterLoadSystemData(s, api)
    case LoadNavigationData => AfterLoadNavigationData(s, api)
    case LoadMoreSquareData => AfterLoadMoreSquareData(s, api)
    case LoadMoreAskData => AfterLoadMoreAskData(s, api)
    case Refresh => AfterRefresh(s, api)
  }

  /** The fields after a sequence of operations, each with its own client answers. */
  function Run(s: TreeState, steps: seq<(TreeCall, ApiService)>): TreeState
    decreases |steps|
  {
    if steps == [] then s else Run(AfterCall(s, steps[0].0, steps[0].1), steps[1..])
  }

  /** What every reachable state satisfies: a known mode, a cursor never below 0, and never below
      1 on the daily-question tab, whose pages start at 1. */
  predicate Sane(s: TreeState) {
    SquareMode <= s.currentMode <= NavigationMode && 0 <= s.currentPage &&
    (s.currentMode == AskMode ==> 1 <= s.currentPage)
  }

  /** The state a freshly built view model reaches (its `init` runs `loadSquareData()`) is sane. */
  lemma FreshStateSane(api: ApiService)
    ensures Sane(AfterLoadSquareData(Initial, api))
  {
  }

  /** Every state any sequence of operations leads to from a sane one is sane. */
  lemma {:induction false} RunKeepsSane(s: TreeState, steps: seq<(TreeCall, ApiService)>)
    requires Sane(s)
    ensures Sane(Run(s, steps))
    decreases |steps|
  {
    if steps != [] {
      var next := AfterCall(s, steps[0].0, steps[0].1);
      assert Sane(next);
      RunKeepsSane(next, steps[1..]);
    }
  }

  /** `loadMoreSquareData()` called once per element of `apis`. */
  function LoadMoreSquareRepeated(s: TreeState, apis: seq<ApiService>): TreeState
    decreases |apis|
  {
    if apis == [] then s else LoadMoreSquareRepeated(AfterLoadMoreSquareData(s, apis[0]), apis[1..])
  }

  /** `loadMoreAskData()` called once per element of `apis`. */
  function LoadMoreAskRepeated(s: TreeState, apis: seq<ApiService>): TreeState
    decreases |apis|
  {
    if apis == [] then s else LoadMoreAskRepeated(AfterLoadMoreAskData(s, apis[0]), apis[1..])
  }

  /** After any number of square load-more calls the list is the old list followed by every page
      that loaded, in order, and the cursor has advanced by the number of those pages; the screen
      state, the mode and the other lists are untouched. */
  lemma {:induction false} LoadMoreSquareAppendsPages(s: TreeState, apis: seq<ApiService>)
    ensures var pages := PagesLoaded(TreeRepository.GetSquareData, s.currentPage, apis);
            var r := LoadMoreSquareRepeated(s, apis);
            r == s.(squareList := s.squareList + Flatten(pages), currentPage := s.currentPage + |pages|)
    decreases |apis|
  {
    if apis != [] {
      var next := AfterLoadMoreSquareData(s, apis[0]);
      LoadMoreSquareAppendsPages(next, apis[1..]);
      var fetched := TreeRepository.GetSquareData(apis[0], s.currentPage + 1);
      if fetched.Success? {
        assert s.squareList + fetched.value + Flatten(PagesLoaded(TreeRepository.GetSquareData, next.currentPage, apis[1..]))
            == s.squareList + (fetched.value + Flatten(PagesLoaded(TreeRepository.GetSquareData, next.currentPage, apis[1..])));
      }
    }
  }

  /** The same for the daily-question list. */
  lemma {:induction false} LoadMoreAskAppendsPages(s: TreeState, apis: seq<ApiService>)
    ensures var pages := PagesLoaded(TreeRepository.GetAskData, s.currentPage, apis);
            var r := LoadMoreAskRepeated(s, apis);
            r == s.(askList := s.askList + Flatten(pages), currentPage := s.currentPage + |pages|)
    decreases |apis|
  {
    if apis != [] {
      var next := AfterLoadMoreAskData(s, apis[0]);
      LoadMoreAskAppendsPages(next, apis[1..]);
      var fetched := TreeRepository.GetAskData(apis[0], s.currentPage + 1);
      if fetched.Success? {
        assert s.askList + fetched.value + Flatten(PagesLoaded(TreeRepository.GetAskData, next.currentPage, apis[1..]))
            == s.askList + (fetched.value + Flatten(PagesLoaded(TreeRepository.GetAskData, next.currentPage, apis[1..])));
      }
    }
  }

  /** `TreeViewModel`: the fields are the values of its state flows and its two counters. */
  class TreeViewModel {
    var uiState: UiState
    var systemList: seq<SystemResponse>
    var squareList: seq<Article>
    var navigationList: seq<NavigationResponse>
    var askList: seq<Article>
    var currentPage: int
    var currentMode: int

    /** The fields as one value. */
    function State(): TreeState
      reads this
    {
      TreeState(uiState, systemList, squareList, navigationList, askList, currentPage, currentMode)
    }

    /** Construction starts from the initial fields and loads the square tab. */
    constructor (api: ApiService)
      ensures State() == AfterLoadSquareData(Initial, api)
    {
      uiState, systemList, squareList, navigationList, askList := Loading, [], [], [], [];
      currentPage, currentMode := 0, SquareMode;
      new;
      LoadSquareData(api);
    }

    method LoadSquareData(api: ApiService)
      modifies this
      ensures State() == AfterLoadSquareData(old(State()), api)
    {
      uiState := Loading;
      currentMode := SquareMode;
      currentPage := 0;
      var result := TreeRepository.GetSquareDataFirstPage(api);
      match result
      case Success(articles) =>
        squareList := articles;
        uiState := UiState.Success;
      case Failure(e) =>
        uiState := FailureState(e);
    }

    method LoadAskData(api: ApiService)
      modifies this
      ensures State() == AfterLoadAskData(old(State()), api)
    {
      uiState := Loading;
      currentMode := AskMode;
      currentPage := 1;
      var result := TreeRepository.GetAskData(api, currentPage);
      match result
      case Success(articles) =>
        askList := articles;
        uiState := UiState.Success;
      case Failure(e) =>
        uiState := FailureState(e);
    }

    method LoadSystemData(api: ApiService)
      modifies this
      ensures State() == AfterLoadSystemData(old(State()), api)
    {
      uiState := Loading;
      currentMode := SystemMode;
      var result := TreeRepository.GetSystemData(api);
      match result
      case Success(list) =>
        systemList := list;
        uiState := UiState.Success;
      case Failure(e) =>
        uiState := FailureState(e);
    }

    method LoadNavigationData(api: ApiService)
      modifies this
      ensures State() == AfterLoadNavigationData(old(State()), api)
    {
      uiState := Loading;
      currentMode := NavigationMode;
      var result := TreeRepository.GetNavigationData(api);
      match result
      case Success(list) =>
        navigationList := list;
        uiState := UiState.Success;
      case Failure(e) =>
        uiState := FailureState(e);
    }

    method LoadMoreSquareData(api: ApiService)
      modifies this
      ensures State() == AfterLoadMoreSquareData(old(State()), api)
    {
      currentPage := currentPage + 1;
      var result := TreeRepository.GetSquareData(api, currentPage);
      match result
      case Success(articles) =>
        squareList := squareList + articles;
      case Failure(_) =>
        currentPage := currentPage - 1;
    }

    method LoadMoreAskData(api: ApiService)
      modifies this
      ensures State() == AfterLoadMoreAskData(old(State()), api)
    {
      currentPage := currentPage + 1;
      var result := TreeRepository.GetAskData(api, currentPage);
      match result
      case Success(articles) =>
        askList := askList + articles;
      case Failure(_) =>
        currentPage := currentPage - 1;
    }

    method Refresh(api: ApiService)
      modifies this
      ensures State() == AfterRefresh(old(State()), api)
    {
      if currentMode == SquareMode {
        LoadSquareData(api);
      } else if currentMode == AskMode {
        LoadAskData(api);
      } else if currentMode == SystemMode {
        LoadSystemData(api);
      } else if currentMode == NavigationMode {
        LoadNavigationData(api);
      }
    }
  }
}
