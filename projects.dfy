/** The project records: one project, a paged list of them, and the project categories. */
module Projects {
  import opened Text
  import Articles

  /** One project of a list. */
  datatype ProjectResponse = ProjectResponse(
    id: int,
    title: string,
    desc: string,
    author: string,
    shareUser: string,
    niceDate: string,
    link: string,
    envelopePic: string,
    projectLink: string,
    collect: bool,
    chapterName: string,
    superChapterName: string
  ) {

    /** `getAuthorName()`: the author, else the sharing user, else "匿名"; never empty. */
    function AuthorName(): (r: string)
      ensures author != "" ==> r == author
      ensures author == "" && shareUser != "" ==> r == shareUser
      ensures author == "" && shareUser == "" ==> r == Articles.Anonymous
      ensures r != ""
    {
      IfEmpty(author, IfEmpty(shareUser, Articles.Anonymous))
    }
  }

  /** The paged project list `{ curPage, datas, offset, over, pageCount, size, total }`. */
  datatype ProjectListResponse = ProjectListResponse(
    curPage: int,
    datas: seq<ProjectResponse>,
    offset: int,
    over: bool,
    pageCount: int,
    size: int,
    total: int
  )

  /** `ProjectListResponse()` with every field at its declared default. */
  function DefaultProjectListResponse(): (p: ProjectListResponse)
    ensures p.datas == [] && !p.over
    ensures p.curPage == 0 && p.offset == 0 && p.pageCount == 0 && p.size == 0 && p.total == 0
  {
    ProjectListResponse(0, [], 0, false, 0, 0, 0)
  }

  /** A project category; `children` is nullable and nests categories of the same shape. */
  datatype ClassifyResponse = ClassifyResponse(
    id: int,
    name: string,
    order: int,
    visible: int,
    courseId: int,
    parentChapterId: int,
    children: ChildCategories
  )

  /** The nullable list of child categories. */
  datatype ChildCategories = NoChildren | Children(items: seq<ClassifyResponse>)
}
