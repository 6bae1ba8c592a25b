/** The two wire envelopes of the WanAndroid API: the outer response and the paged payload. */
module ApiModel {
  import opened Results

  /** The outer envelope `{ data, errorCode, errorMsg }` of every call; `data` is nullable. */
  datatype ApiResponse<T> = ApiResponse(data: Option<T>, errorCode: int, errorMsg: string) {

    /** A call succeeded exactly when the server reports error code 0. */
    predicate IsSuccess() {
      errorCode == 0
    }
  }

  /** Whether a request succeeded depends on `errorCode` alone: every nonzero code, negative ones
      included, is a failure, and neither `data` nor `errorMsg` is consulted. */
  lemma IsSuccessOnlyByCode<T>(a: ApiResponse<T>, b: ApiResponse<T>)
    requires a.errorCode == b.errorCode
    ensures a.IsSuccess() == b.IsSuccess()
    ensures a.IsSuccess() <==> a.errorCode == 0
    ensures a.errorCode < 0 ==> !a.IsSuccess()
  {
  }

  /** The paged payload `{ datas, curPage, offset, over, pageCount, size, total }`. */
  datatype ApiPagerResponse<T> = ApiPagerResponse(
    datas: T,
    curPage: int,
    offset: int,
    over: bool,
    pageCount: int,
    size: int,
    total: int
  ) {

    /** The first page: the `offset` of the page is 0. */
    predicate IsRefresh() {
      offset == 0
    }

    /** More pages follow unless the server flagged this one as the last. */
    predicate HasMore() {
      !over
    }
  }

  /** A paged envelope built from `datas` alone, every other field at its declared default. */
  function PagerOf<T>(datas: T): (p: ApiPagerResponse<T>)
    ensures p.datas == datas
    ensures p.curPage == 0 && p.offset == 0 && p.pageCount == 0 && p.size == 0 && p.total == 0
    ensures !p.over
    ensures p.IsRefresh() && p.HasMore()
  {
    ApiPagerResponse(datas, 0, 0, false, 0, 0, 0)
  }

  /** What `datas` holds at run time, as seen by the cast `datas as? List<*>`: a list, or anything
      else (including null). */
  datatype Payload<E> = ListValue(items: seq<E>) | OtherValue

  /** `isEmpty()`: an empty list, or a payload that is not a list at all. */
  function IsEmpty<E>(p: ApiPagerResponse<Payload<E>>): (r: bool)
    ensures p.datas.ListValue? ==> (r <==> |p.datas.items| == 0)
    ensures p.datas.OtherValue? ==> r
  {
    match p.datas
    case ListValue(items) => |items| == 0
    case OtherValue => true
  }

  /** `hasMore()` and `isRefresh()` read only `over` and `offset`: no other field, and not the
      payload, changes them. */
  lemma PagerFlagsOnlyByOverAndOffset<T>(a: ApiPagerResponse<T>, b: ApiPagerResponse<T>)
    requires a.over == b.over && a.offset == b.offset
    ensures a.HasMore() == b.HasMore() && a.IsRefresh() == b.IsRefresh()
    ensures a.HasMore() <==> !a.over
    ensures a.IsRefresh() <==> a.offset == 0
  {
  }

  /** `data?.datas ?: emptyList()` for a nullable paged payload of a list. */
  function DatasOrEmpty<E>(data: Option<ApiPagerResponse<seq<E>>>): (r: seq<E>)
    ensures data.Some? ==> r == data.value.datas
    ensures data.None? ==> r == []
  {
    match data
    case Some(p) => p.datas
    case None => []
  }
}
