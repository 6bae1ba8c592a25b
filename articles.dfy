/** The article and banner records of the home feed. */
module Articles {
  import opened Text

  /** Shown when an item has neither an author nor a sharing user. */
  const Anonymous: string := "匿名"

  /** Joins the two chapter names of a category: a space, a middle dot and a space. */
  const CategorySeparator: string := " \U{00B7} "

  /** One article of a list; `id` identifies it, the rest is display data. */
  datatype Article = Article(
    id: int,
    title: string,
    author: string,
    shareUser: string,
    superChapterName: string,
    chapterName: string,
    niceDate: string,
    isFresh: bool,  // the record's `fresh` flag (a Dafny keyword)
    link: string,
    collect: bool
  ) {

    /** `getAuthorName()`: the author, else the user who shared the article, else "匿名". */
    function AuthorName(): (r: string)
      ensures author != "" ==> r == author
      ensures author == "" && shareUser != "" ==> r == shareUser
      ensures author == "" && shareUser == "" ==> r == Anonymous
      ensures r != ""
    {
      IfEmpty(author, IfEmpty(shareUser, Anonymous))
    }

    /** `getCategoryName()`: "super · chapter" when both names are present, otherwise whichever
        one is present (the chapter name first), and empty only when both are. */
    function CategoryName(): (r: string)
      ensures superChapterName != "" && chapterName != "" ==>
                r == superChapterName + CategorySeparator + chapterName
      ensures superChapterName == "" ==> r == chapterName
      ensures chapterName == "" ==> r == superChapterName
      ensures r == "" <==> superChapterName == "" && chapterName == ""
      ensures superChapterName <= r
    {
      if superChapterName != "" && chapterName != "" then
        superChapterName + CategorySeparator + chapterName
      else
        IfEmpty(chapterName, superChapterName)
    }
  }

  /** The paged article list of the home feed, as the record declares it. */
  datatype ArticleListResponse = ArticleListResponse(
    curPage: int,
    datas: seq<Article>,
    offset: int,
    over: bool,
    pageCount: int,
    size: int,
    total: int
  )

  /** One banner of the home carousel (a field-only record). */
  datatype BannerResponse = BannerResponse(
    desc: string,
    id: int,
    imagePath: string,
    isVisible: int,
    order: int,
    title: string,
    kind: int,  // the record's `type` field (a Dafny keyword)
    url: string
  )
}
