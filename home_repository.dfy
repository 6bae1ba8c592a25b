/** The repository of the home feed. Unlike the other repositories it demands a non-null `data`:
    an answer with error code 0 and null `data` is a failure carrying `errorMsg`. */
module HomeRepository {
  import opened Results
  import opened ApiModel
  import opened Articles
  import opened ApiClient

  /** `getBanners()`: the banner list exactly as the server sent it. */
  function GetBanners(api: ApiService): (r: Result<seq<BannerResponse>>)
    ensures r.Success? <==> AcceptedWithData(api.banners)
    ensures r.Success? ==> r.value == api.banners.response.data.value
    ensures api.banners.Returned? && r.Failure? ==>
              r.exception == Exception(Some(api.banners.response.errorMsg))
    ensures api.banners.Threw? ==> r == Failure(api.banners.exception)
  {
    match api.banners
    case Returned(response) =>
      if response.IsSuccess() && response.data.Some? then Success(response.data.value)
      else Failure(Exception(Some(response.errorMsg)))
    case Threw(e) => Failure(e)
  }

  /** `getArticleList(page)`: the page's `datas` exactly; the page goes to the client unchanged. */
  function GetArticleList(api: ApiService, page: int): (r: Result<seq<Article>>)
    ensures r.Success? <==> AcceptedWithData(api.articleList(page))
    ensures r.Success? ==> r.value == api.articleList(page).response.data.value.datas
    ensures api.articleList(page).Returned? && r.Failure? ==>
              r.exception == Exception(Some(api.articleList(page).response.errorMsg))
    ensures api.articleList(page).Threw? ==> r == Failure(api.articleList(page).exception)
  {
    match api.articleList(page)
    case Returned(response) =>
      if response.IsSuccess() && response.data.Some? then Success(response.data.value.datas)
      else Failure(Exception(Some(response.errorMsg)))
    case Threw(e) => Failure(e)
  }

  /** `getTopArticles()`: the pinned articles exactly as the server sent them. */
  function GetTopArticles(api: ApiService): (r: Result<seq<Article>>)
    ensures r.Success? <==> AcceptedWithData(api.topArticles)
    ensures r.Success? ==> r.value == api.topArticles.response.data.value
    ensures api.topArticles.Returned? && r.Failure? ==>
              r.exception == Exception(Some(api.topArticles.response.errorMsg))
    ensures api.topArticles.Threw? ==> r == Failure(api.topArticles.exception)
  {
    match api.topArticles
    case Returned(response) =>
      if response.IsSuccess() && response.data.Some? then Success(response.data.value)
      else Failure(Exception(Some(response.errorMsg)))
    case Threw(e) => Failure(e)
  }
}
