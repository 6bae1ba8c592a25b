/** The repository of the project tab. Like the tree repository, error code 0 is a success even
    with a null `data`, which then yields the empty list. */
module ProjectRepository {
  import opened Results
  import opened Projects
  import opened ApiClient

  /** `getProjectClassify()`: the categories, or the empty list when `data` is null. */
  function GetProjectClassify(api: ApiService): (r: Result<seq<ClassifyResponse>>)
    ensures r.Success? <==> Accepted(api.projectClassify)
    ensures r.Success? ==> r.value == api.projectClassify.response.data.GetOr([])
    ensures api.projectClassify.Returned? && r.Failure? ==>
              r.exception == Exception(Some(api.projectClassify.response.errorMsg))
    ensures api.projectClassify.Threw? ==> r == Failure(api.projectClassify.exception)
  {
    match api.projectClassify
    case Returned(response) =>
      if response.IsSuccess() then Success(response.data.GetOr([]))
      else Failure(Exception(Some(response.errorMsg)))
    case Threw(e) => Failure(e)
  }

  /** `data?.datas ?: emptyList()` for a project page. */
  function ProjectsOrEmpty(data: Option<ProjectListResponse>): (r: seq<ProjectResponse>)
    ensures data.Some? ==> r == data.value.datas
    ensures data.None? ==> r == []
  {
    data.GetOr(DefaultProjectListResponse()).datas
  }

  /** `getProjectList(page, cid)`: the page's projects of category `cid`, or the empty list when
      `data` is null; both arguments go to the client unchanged. */
  function GetProjectList(api: ApiService, page: int, cid: int): (r: Result<seq<ProjectResponse>>)
    ensures r.Success? <==> Accepted(api.projectList(page, cid))
    ensures r.Success? ==> r.value == ProjectsOrEmpty(api.projectList(page, cid).response.data)
    ensures api.projectList(page, cid).Returned? && r.Failure? ==>
              r.exception == Exception(Some(api.projectList(page, cid).response.errorMsg))
    ensures api.projectList(page, cid).Threw? ==> r == Failure(api.projectList(page, cid).exception)
  {
    match api.projectList(page, cid)
    case Returned(response) =>
      if response.IsSuccess() then Success(ProjectsOrEmpty(response.data))
      else Failure(Exception(Some(response.errorMsg)))
    case Threw(e) => Failure(e)
  }

  /** `getNewProjectList(page)`: the page of newest projects, or the empty list when `data` is
      null; the page goes to the client unchanged. */
  function GetNewProjectList(api: ApiService, page: int): (r: Result<seq<ProjectResponse>>)
    ensures r.Success? <==> Accepted(api.newProjectList(page))
    ensures r.Success? ==> r.value == ProjectsOrEmpty(api.newProjectList(page).response.data)
    ensures api.newProjectList(page).Returned? && r.Failure? ==>
              r.exception == Exception(Some(api.newProjectList(page).response.errorMsg))
    ensures api.newProjectList(page).Threw? ==> r == Failure(api.newProjectList(page).exception)
  {
    match api.newProjectList(page)
    case Returned(response) =>
      if response.IsSuccess() then Success(ProjectsOrEmpty(response.data))
      else Failure(Exception(Some(response.errorMsg)))
    case Threw(e) => Failure(e)
  }
}
