/** The records of the system-tree and navigation tabs (field-only). */
module TreeModels {
  import opened Articles

  /** A node of the system tree, with one level of children. */
  datatype SystemResponse = SystemResponse(
    id: int,
    name: string,
    order: int,
    visible: int,
    courseId: int,
    parentChapterId: int,
    children: seq<SystemChildResponse>
  )

  /** A child category of a system-tree node. */
  datatype SystemChildResponse = SystemChildResponse(
    id: int,
    name: string,
    order: int,
    visible: int,
    courseId: int,
    parentChapterId: int
  )

  /** A group of navigation links. */
  datatype NavigationResponse = NavigationResponse(articles: seq<Article>, cid: int, name: string)
}
