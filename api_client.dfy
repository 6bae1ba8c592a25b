/** What the HTTP client answers: for each endpoint, either the decoded outer envelope or the
    exception the call threw. The client itself is not modelled; this is its observable outcome. */
module ApiClient {
  import opened Results
  import opened ApiModel
  import opened Articles
  import opened Projects
  import opened TreeModels

  /** The outcome of one client call. */
  datatype Call<R> = Returned(response: R) | Threw(exception: Exception)

  /** The client's answers at the moment of one view-model call, one field per endpoint;
      endpoints with parameters map each argument to the answer for it. */
  datatype ApiService = ApiService(
    banners: Call<ApiResponse<seq<BannerResponse>>>,
    articleList: int -> Call<ApiResponse<ApiPagerResponse<seq<Article>>>>,
    topArticles: Call<ApiResponse<seq<Article>>>,
    projectClassify: Call<ApiResponse<seq<ClassifyResponse>>>,
    projectList: (int, int) -> Call<ApiResponse<ProjectListResponse>>,
    newProjectList: int -> Call<ApiResponse<ProjectListResponse>>,
    systemData: Call<ApiResponse<seq<SystemResponse>>>,
    squareData: int -> Call<ApiResponse<ApiPagerResponse<seq<Article>>>>,
    navigationData: Call<ApiResponse<seq<NavigationResponse>>>,
    askData: int -> Call<ApiResponse<ApiPagerResponse<seq<Article>>>>
  )

  /** The server answered and reported error code 0. */
  predicate Accepted<T>(c: Call<ApiResponse<T>>) {
    c.Returned? && c.response.IsSuccess()
  }

  /** The server answered, reported error code 0, and sent a non-null `data`. */
  predicate AcceptedWithData<T>(c: Call<ApiResponse<T>>) {
    Accepted(c) && c.response.data.Some?
  }
}
