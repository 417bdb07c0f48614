/**
 The paginated listing loader of the listings bottom sheet, with the React
 hooks stripped away: four pieces of state (`data`, `currentPage`,
 `hasMoreData`, `isLoading`) and two loaders, `loadInitialItems` and
 `loadMoreData`. The HTTP fetch is not modelled; its outcome is an input.

 Each loader runs in two halves, as in the source: the part before the
 `await` (raise `isLoading`, choose the request) and the part after it
 (apply the response, lower `isLoading`). `LoadInitialItems` and
 `LoadMoreData` compose the halves into one atomic transition.
 */
module PagedLoader {
  import opened Wrappers
  import opened Listings

  /** The `limit` sent with every request, and the page length that means
      "there may be more". */
  const PageSize: nat := 20

  /** One GET of the listing endpoint: category, 1-based page, limit. */
  datatype Request = Request(category: string, page: int, limit: nat)

  /** What the awaited fetch produced. `NoResponse` is a falsy response,
      `NoFarmhouses` a response whose `farmhouses` field is missing or falsy.
      An empty array is truthy in JavaScript, so `Farmhouses([])` is a success.
      `Rejected` is a fetch promise that rejects: the `await` throws, and no
      line after it runs, `setIsLoading(false)` included. */
  datatype Response =
    | NoResponse
    | NoFarmhouses
    | Farmhouses(page: seq<Listing>)
    | Rejected

  datatype SheetState = SheetState(
    data: seq<Listing>,
    currentPage: int,
    hasMoreData: bool,
    isLoading: bool
  )

  /** The fetch a transition issued (if any) and the state it leaves. */
  datatype Step = Step(request: Option<Request>, state: SheetState)

  /** The state the component mounts with. */
  const InitialState := SheetState([], 1, true, false)

  /** The early-return guard of `loadMoreData`. */
  predicate CanLoadMore(s: SheetState) {
    !s.isLoading && s.hasMoreData
  }

  /** `loadInitialItems` up to its `await`: no guard, always asks for page 1. */
  function BeginLoadInitial(s: SheetState, category: string): (r: Step)
    ensures r.request == Some(Request(category, 1, PageSize))
    ensures r.state.isLoading
    ensures r.state.(isLoading := s.isLoading) == s
  {
    Step(Some(Request(category, 1, PageSize)), s.(isLoading := true))
  }

  /** `loadInitialItems` after its `await`: a page replaces `data` wholesale. */
  function CompleteLoadInitial(s: SheetState, response: Response): (r: SheetState)
    ensures response.Rejected? ==> r == s
    ensures !response.Rejected? ==> !r.isLoading
    ensures response.Farmhouses? ==>
      && r.data == response.page
      && r.currentPage == 1
      && (r.hasMoreData <==> |response.page| == PageSize)
    ensures !response.Farmhouses? ==>
      r.data == s.data && r.currentPage == s.currentPage && r.hasMoreData == s.hasMoreData
  {
    match response
    case Farmhouses(page) =>
      SheetState(page, 1, |page| == PageSize, false)
    case Rejected =>
      s
    case _ =>
      s.(isLoading := false)
  }

  /** `loadMoreData` up to its `await`: a no-op while loading or once paging
      has stopped; otherwise asks for the page after `currentPage`. */
  function BeginLoadMore(s: SheetState, category: string): (r: Step)
    ensures r.request.Some? <==> CanLoadMore(s)
    ensures !CanLoadMore(s) ==> r.state == s
    ensures CanLoadMore(s) ==>
      && r.request.value == Request(category, s.currentPage + 1, PageSize)
      && r.state == s.(isLoading := true)
  {
    if s.isLoading || !s.hasMoreData then Step(None, s)
    else
      var nextPage := s.currentPage + 1;
      Step(Some(Request(category, nextPage, PageSize)), s.(isLoading := true))
  }

  /** `loadMoreData` after its `await`: a page is appended after the data
      already held and `currentPage` becomes the page that was requested. */
  function CompleteLoadMore(s: SheetState, nextPage: int, response: Response): (r: SheetState)
    ensures response.Rejected? ==> r == s
    ensures !response.Rejected? ==> !r.isLoading
    ensures response.Farmhouses? ==>
      && |r.data| == |s.data| + |response.page|
      && r.data[..|s.data|] == s.data
      && r.data[|s.data|..] == response.page
      && r.currentPage == nextPage
      && (r.hasMoreData <==> |response.page| == PageSize)
    ensures !response.Farmhouses? ==>
      r.data == s.data && r.currentPage == s.currentPage && r.hasMoreData == s.hasMoreData
  {
    match response
    case Farmhouses(page) =>
      SheetState(s.data + page, nextPage, |page| == PageSize, false)
    case Rejected =>
      s
    case _ =>
      s.(isLoading := false)
  }

  /** `loadInitialItems` as one transition. */
  function LoadInitialItems(s: SheetState, category: string, response: Response): (r: Step)
    ensures r.request == Some(Request(category, 1, PageSize))
    ensures !r.state.isLoading <==> !response.Rejected?
    ensures response.Farmhouses? ==>
      && r.state.data == response.page
      && r.state.currentPage == 1
      && (r.state.hasMoreData <==> |response.page| == PageSize)
    ensures response.NoResponse? || response.NoFarmhouses? ==> r.state == s.(isLoading := false)
    ensures response.Rejected? ==> r.state == s.(isLoading := true)
  {
    var begun := BeginLoadInitial(s, category);
    Step(begun.request, CompleteLoadInitial(begun.state, response))
  }

  /** `loadMoreData` as one transition. */
  function LoadMoreData(s: SheetState, category: string, response: Response): (r: Step)
    ensures r.request.Some? <==> CanLoadMore(s)
    ensures !CanLoadMore(s) ==> r.state == s
    ensures CanLoadMore(s) ==>
      && r.request.value == Request(category, s.currentPage + 1, PageSize)
      && (!r.state.isLoading <==> !response.Rejected?)
    ensures CanLoadMore(s) && response.Farmhouses? ==>
      && r.state.data == s.data + response.page
      && |r.state.data| == |s.data| + |response.page|
      && r.state.currentPage == s.currentPage + 1
      && (r.state.hasMoreData <==> |response.page| == PageSize)
    ensures CanLoadMore(s) && (response.NoResponse? || response.NoFarmhouses?) ==> r.state == s
    ensures CanLoadMore(s) && response.Rejected? ==> r.state == s.(isLoading := true)
  {
    var begun := BeginLoadMore(s, category);
    match begun.request
    case None => begun
    case Some(q) =>
      var r := CompleteLoadMore(begun.state, q.page, response);
      assert response.Farmhouses? ==> r.data == r.data[..|s.data|] + r.data[|s.data|..];
      Step(begun.request, r)
  }

  /** While `loadInitialItems` is awaiting its page, `loadMoreData` neither
      fetches nor changes anything. */
  lemma InFlightInitialBlocksLoadMore(s: SheetState, category: string, other: string)
    ensures var pending := BeginLoadInitial(s, category).state;
      BeginLoadMore(pending, other) == Step(None, pending)
  {
  }

  /** Once `currentPage` is at least 1, `loadMoreData` never asks for page 1. */
  lemma LoadMoreNeverRequestsFirstPage(s: SheetState, category: string, response: Response)
    requires s.currentPage >= 1
    ensures var r := LoadMoreData(s, category, response);
      r.request.Some? ==> r.request.value.page >= 2 && r.request.value.limit == PageSize
  {
  }
}
