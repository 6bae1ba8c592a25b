/** The repository of the square, daily-question, system-tree and navigation tabs. Every function
    turns the client's answer into a `Result` and never lets an exception through; an answer with
    error code 0 is a success even when its `data` is null (the list is then empty). */
module TreeRepository {
  import opened Results
  import opened ApiModel
  import opened Articles
  import opened TreeModels
  import opened ApiClient

  /** `getSystemData()`: the system tree, or the empty list when `data` is null. */
  function GetSystemData(api: ApiService): (r: Result<seq<SystemResponse>>)
    ensures r.Success? <==> Accepted(api.systemData)
    ensures r.Success? ==> r.value == api.systemData.response.data.GetOr([])
    ensures api.systemData.Returned? && r.Failure? ==>
              r.exception == Exception(Some(api.systemData.response.errorMsg))
    ensures api.systemData.Threw? ==> r == Failure(api.systemData.exception)
  {
    match api.systemData
    case Returned(response) =>
      if response.IsSuccess() then Success(response.data.GetOr([]))
      else Failure(Exception(Some(response.errorMsg)))
    case Threw(e) => Failure(e)
  }

  /** `getSquareData(page)`: the page's articles in server order, or the empty list when `data`
      is null; the page number goes to the client unchanged. */
  function GetSquareData(api: ApiService, page: int): (r: Result<seq<Article>>)
    ensures r.Success? <==> Accepted(api.squareData(page))
    ensures r.Success? ==> r.value == DatasOrEmpty(api.squareData(page).response.data)
    ensures api.squareData(page).Returned? && r.Failure? ==>
              r.exception == Exception(Some(api.squareData(page).response.errorMsg))
    ensures api.squareData(page).Threw? ==> r == Failure(api.squareData(page).exception)
  {
    match api.squareData(page)
    case Returned(response) =>
      if response.IsSuccess() then Success(DatasOrEmpty(response.data))
      else Failure(Exception(Some(response.errorMsg)))
    case Threw(e) => Failure(e)
  }

  /** `getSquareData()`: the overload without a page asks for page 0. */
  function GetSquareDataFirstPage(api: ApiService): (r: Result<seq<Article>>)
    ensures r == GetSquareData(api, 0)
  {
    GetSquareData(api, 0)
  }

  /** `getNavigationData()`: the navigation groups, or the empty list when `data` is null. */
  function GetNavigationData(api: ApiService): (r: Result<seq<NavigationResponse>>)
    ensures r.Success? <==> Accepted(api.navigationData)
    ensures r.Success? ==> r.value == api.navigationData.response.data.GetOr([])
    ensures api.navigationData.Returned? && r.Failure? ==>
              r.exception == Exception(Some(api.navigationData.response.errorMsg))
    ensures api.navigationData.Threw? ==> r == Failure(api.navigationData.exception)
  {
    match api.navigationData
    case Returned(response) =>
      if response.IsSuccess() then Success(response.data.GetOr([]))
      else Failure(Exception(Some(response.errorMsg)))
    case Threw(e) => Failure(e)
  }

  /** `getAskData(page)`: the page's daily-question articles, or the empty list when `data` is
      null; the page number goes to the client unchanged. */
  function GetAskData(api: ApiService, page: int): (r: Result<seq<Article>>)
    ensures r.Success? <==> Accepted(api.askData(page))
    ensures r.Success? ==> r.value == DatasOrEmpty(api.askData(page).response.data)
    ensures api.askData(page).Returned? && r.Failure? ==>
              r.exception == Exception(Some(api.askData(page).response.errorMsg))
    ensures api.askData(page).Threw? ==> r == Failure(api.askData(page).exception)
  {
    match api.askData(page)
    case Returned(response) =>
      if response.IsSuccess() then Success(DatasOrEmpty(response.data))
      else Failure(Exception(Some(response.errorMsg)))
    case Threw(e) => Failure(e)
  }

  /** A square page depends only on what the client returned for the requested page: answers for
      other pages do not matter. */
  lemma SquareAnswerOnlyByRequestedPage(a: ApiService, b: ApiService, page: int)
    requires a.squareData(page) == b.squareData(page)
    ensures GetSquareData(a, page) == GetSquareData(b, page)
  {
  }

  /** The same for a daily-question page. */
  lemma AskAnswerOnlyByRequestedPage(a: ApiService, b: ApiService, page: int)
    requires a.askData(page) == b.askData(page)
    ensures GetAskData(a, page) == GetAskData(b, page)
  {
  }
}
