/** The view model of the home feed: the banners, the article list and a page cursor. */
module HomeScreen {
  import opened Results
  import opened Articles
  import opened ApiClient
  import opened ViewState
  import opened Paging
  import HomeRepository

  /** The message shown when an exception with no message escapes a load. */
  const UnknownError: string := "未知错误"

  /** The fields of a `HomeViewModel`. */
  datatype HomeState = HomeState(
    uiState: UiState,
    banners: seq<BannerResponse>,
    articles: seq<Article>,
    currentPage: int
  )

  /** The fields before the first load: loading, both lists empty, page 0. */
  const Initial: HomeState := HomeState(Loading, [], [], 0)

  /** `loadHomeData()`: the banners and then page 0 of the articles are fetched one after the
      other; only when both succeed are both lists replaced and the cursor reset to 0. Otherwise
      only the screen state changes: to the banners' failure if they failed, else to the
      articles' failure. `interrupted` is an exception escaping the fetches into the `catch`. */
  function AfterLoadHomeData(s: HomeState, api: ApiService, interrupted: Option<Exception>): (r: HomeState)
    ensures r.uiState == UiState.Success <==>
              interrupted.None? && AcceptedWithData(api.banners) && AcceptedWithData(api.articleList(0))
    ensures r.uiState == UiState.Success ==>
              r.banners == api.banners.response.data.value &&
              r.articles == api.articleList(0).response.data.value.datas &&
              r.currentPage == 0
    ensures r.uiState != UiState.Success ==> r.uiState.Error? && r == s.(uiState := r.uiState)
    ensures interrupted.Some? ==> r.uiState == Error(interrupted.value.MessageOr(UnknownError))
    ensures var banners := HomeRepository.GetBanners(api);
            interrupted.None? && banners.Failure? ==> r.uiState == FailureState(banners.exception)
    ensures var articles := HomeRepository.GetArticleList(api, 0);
            interrupted.None? && HomeRepository.GetBanners(api).Success? && articles.Failure? ==>
              r.uiState == FailureState(articles.exception)
  {
    var s := s.(uiState := Loading);
    match interrupted
    case Some(e) => s.(uiState := Error(e.MessageOr(UnknownError)))
    case None =>
      var bannersResult := HomeRepository.GetBanners(api);
      var articlesResult := HomeRepository.GetArticleList(api, 0);
      if bannersResult.Success? && articlesResult.Success? then
        s.(banners := bannersResult.value, articles := articlesResult.value,
           uiState := UiState.Success, currentPage := 0)
      else
        var error := if bannersResult.Failure? then bannersResult.exception else articlesResult.exception;
        s.(uiState := FailureState(error))
  }

  /** `loadMoreArticles()`: asks for the page after the cursor; only a success appends it and
      advances the cursor. A failure, or an exception, changes nothing at all. */
  function AfterLoadMoreArticles(s: HomeState, api: ApiService, interrupted: Option<Exception>): (r: HomeState)
    ensures var fetched := HomeRepository.GetArticleList(api, s.currentPage + 1);
            interrupted.None? && fetched.Success? ==>
              r == s.(articles := s.articles + fetched.value, currentPage := s.currentPage + 1)
    ensures interrupted.Some? || HomeRepository.GetArticleList(api, s.currentPage + 1).Failure? ==> r == s
  {
    match interrupted
    case Some(_) => s
    case None =>
      var result := HomeRepository.GetArticleList(api, s.currentPage + 1);
      if result.Success? then
        s.(articles := s.articles + result.value, currentPage := s.currentPage + 1)
      else
        s
  }

  /** The public operations of the view model, each with the exception (if any) escaping it. */
  datatype HomeCall =
    | LoadHomeData(interrupted: Option<Exception>)
    | LoadMoreArticles(interrupted: Option<Exception>)
    | Refresh(interrupted: Option<Exception>)

  /** The fields after one operation; `refresh()` is `loadHomeData()`. */
  function AfterCall(s: HomeState, call: HomeCall, api: ApiService): HomeState {
    match call
    case LoadHomeData(e) => AfterLoadHomeData(s, api, e)
    case LoadMoreArticles(e) => AfterLoadMoreArticles(s, api, e)
    case Refresh(e) => AfterLoadHomeData(s, api, e)
  }

  /** The fields after a sequence of operations, each with its own client answers. */
  function Run(s: HomeState, steps: seq<(HomeCall, ApiService)>): HomeState
    decreases |steps|
  {
    if steps == [] then s else Run(AfterCall(s, steps[0].0, steps[0].1), steps[1..])
  }

  /** The cursor is set only to 0 or incremented, so it is never negative, whatever sequence of
      operations runs from a state where it is not. */
  lemma {:induction false} RunKeepsPageNonNegative(s: HomeState, steps: seq<(HomeCall, ApiService)>)
    requires 0 <= s.currentPage
    ensures 0 <= Run(s, steps).currentPage
    decreases |steps|
  {
    if steps != [] {
      var next := AfterCall(s, steps[0].0, steps[0].1);
      assert 0 <= next.currentPage;
      RunKeepsPageNonNegative(next, steps[1..]);
    }
  }

  /** `loadMoreArticles()` called once per element of `apis`, with nothing escaping. */
  function LoadMoreRepeated(s: HomeState, apis: seq<ApiService>): HomeState
    decreases |apis|
  {
    if apis == [] then s else LoadMoreRepeated(AfterLoadMoreArticles(s, apis[0], None), apis[1..])
  }

  /** After any number of load-more calls the article list is the old one followed by every page
      that loaded, in order, and the cursor counts exactly those pages; banners and the screen
      state are untouched. */
  lemma {:induction false} LoadMoreAppendsPages(s: HomeState, apis: seq<ApiService>)
    ensures var pages := PagesLoaded(HomeRepository.GetArticleList, s.currentPage, apis);
            LoadMoreRepeated(s, apis) ==
              s.(articles := s.articles + Flatten(pages), currentPage := s.currentPage + |pages|)
    decreases |apis|
  {
    if apis != [] {
      var next := AfterLoadMoreArticles(s, apis[0], None);
      LoadMoreAppendsPages(next, apis[1..]);
      var fetched := HomeRepository.GetArticleList(apis[0], s.currentPage + 1);
      if fetched.Success? {
        var rest := Flatten(PagesLoaded(HomeRepository.GetArticleList, next.currentPage, apis[1..]));
        assert s.articles + fetched.value + rest == s.articles + (fetched.value + rest);
      }
    }
  }

  /** `HomeViewModel`: the fields are the values of its state flows and its cursor. */
  class HomeViewModel {
    var uiState: UiState
    var banners: seq<BannerResponse>
    var articles: seq<Article>
    var currentPage: int

    /** The fields as one value. */
    function State(): HomeState
      reads this
    {
      HomeState(uiState, banners, articles, currentPage)
    }

    /** Construction starts from the initial fields and loads the feed. */
    constructor (api: ApiService, interrupted: Option<Exception>)
      ensures State() == AfterLoadHomeData(Initial, api, interrupted)
    {
      uiState, banners, articles, currentPage := Loading, [], [], 0;
      new;
      LoadHomeData(api, interrupted);
    }

    method LoadHomeData(api: ApiService, interrupted: Option<Exception>)
      modifies this
      ensures State() == AfterLoadHomeData(old(State()), api, interrupted)
    {
      uiState := Loading;
      if interrupted.Some? {
        uiState := Error(interrupted.value.MessageOr(UnknownError));
        return;
      }
      var bannersResult := HomeRepository.GetBanners(api);
      var articlesResult := HomeRepository.GetArticleList(api, 0);
      if bannersResult.Success? && articlesResult.Success? {
        banners := bannersResult.value;
        articles := articlesResult.value;
        uiState := UiState.Success;
        currentPage := 0;
      } else {
        var error := if bannersResult.Failure? then bannersResult.exception else articlesResult.exception;
        uiState := FailureState(error);
      }
    }

    method LoadMoreArticles(api: ApiService, interrupted: Option<Exception>)
      modifies this
      ensures State() == AfterLoadMoreArticles(old(State()), api, interrupted)
    {
      if interrupted.Some? {
        return;
      }
      var result := HomeRepository.GetArticleList(api, currentPage + 1);
      if result.Success? {
        articles := articles + result.value;
        currentPage := currentPage + 1;
      }
    }

    /** `refresh()` is exactly `loadHomeData()`. */
    method Refresh(api: ApiService, interrupted: Option<Exception>)
      modifies this
      ensures State() == AfterLoadHomeData(old(State()), api, interrupted)
    {
      LoadHomeData(api, interrupted);
    }
  }
}
