/** The pagination protocol every load-more follows: ask for the page after the cursor; on
    success append that page and advance the cursor; on failure keep both. */
module Paging {
  import opened Results
  import opened ApiClient

  /** The pages of a run concatenated in order, without deduplication. */
  function Flatten<T>(pages: seq<seq<T>>): seq<T> {
    if pages == [] then [] else pages[0] + Flatten(pages[1..])
  }

  /** The pages a run of load-more calls obtains, starting with the cursor at `page`, when the
      i-th call sees the client answers `apis[i]` and pages are fetched through `fetch`. A failed
      call contributes nothing and leaves the cursor where it was. */
  function PagesLoaded<T>(fetch: (ApiService, int) -> Result<seq<T>>, page: int, apis: seq<ApiService>)
    : (r: seq<seq<T>>)
    ensures |r| <= |apis|
    decreases |apis|
  {
    if apis == [] then []
    else match fetch(apis[0], page + 1)
      case Success(items) => [items] + PagesLoaded(fetch, page + 1, apis[1..])
      case Failure(_) => PagesLoaded(fetch, page, apis[1..])
  }
}
