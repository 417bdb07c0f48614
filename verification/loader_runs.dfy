/**
 Runs of the loader: a sequence of loader calls, each applied atomically to
 the state the previous one left, with the fetches they issued collected in
 order. The properties here relate many calls: the page-alignment invariant,
 accumulation across pages, and the end of paging.
 */
module LoaderRuns {
  import opened Wrappers
  import opened Listings
  import opened PagedLoader

  /** One call of a loader, with the category prop at the time of the call
      and the outcome of the fetch it would issue. */
  datatype Event =
    | Initial(category: string, response: Response)
    | More(category: string, response: Response)

  /** The fetches a run issued, in order, and the state it ends in. */
  datatype Trace = Trace(requests: seq<Request>, state: SheetState)

  function Apply(s: SheetState, e: Event): Step {
    match e
    case Initial(c, response) => LoadInitialItems(s, c, response)
    case More(c, response) => LoadMoreData(s, c, response)
  }

  function Issued(o: Option<Request>): seq<Request> {
    match o
    case None => []
    case Some(q) => [q]
  }

  /** Replays the events from `s`. Every call issues at most one fetch. */
  function Run(s: SheetState, events: seq<Event>): (t: Trace)
    ensures |t.requests| <= |events|
    decreases |events|
  {
    if |events| == 0 then Trace([], s)
    else
      var step := Apply(s, events[0]);
      var rest := Run(step.state, events[1..]);
      Trace(Issued(step.request) + rest.requests, rest.state)
  }

  /** While more pages are expected, every page fetched so far was full. */
  predicate PageAligned(s: SheetState) {
    s.hasMoreData ==> |s.data| == PageSize * s.currentPage
  }

  lemma ApplyPreservesPageAligned(s: SheetState, e: Event)
    requires PageAligned(s)
    ensures PageAligned(Apply(s, e).state)
  {
    match e
    case Initial(c, response) =>
    case More(c, response) =>
      var r := LoadMoreData(s, c, response);
      if CanLoadMore(s) && response.Farmhouses? && r.state.hasMoreData {
        assert |r.state.data| == PageSize * s.currentPage + PageSize;
      }
  }

  lemma {:induction false} RunPreservesPageAligned(s: SheetState, events: seq<Event>)
    requires PageAligned(s)
    ensures PageAligned(Run(s, events).state)
    decreases |events|
  {
    if |events| > 0 {
      ApplyPreservesPageAligned(s, events[0]);
      RunPreservesPageAligned(Apply(s, events[0]).state, events[1..]);
    }
  }

  /** After a successful `loadInitialItems`, whatever calls follow and however
      their fetches turn out, `|data| == 20 * currentPage` while `hasMoreData`. */
  lemma AlignedAfterSuccessfulInitialLoad(
    s: SheetState, category: string, page: seq<Listing>, events: seq<Event>)
    ensures PageAligned(Run(LoadInitialItems(s, category, Farmhouses(page)).state, events).state)
  {
    RunPreservesPageAligned(LoadInitialItems(s, category, Farmhouses(page)).state, events);
  }

  /** `currentPage` never drops below 1 (it starts at 1). */
  lemma {:induction false} RunKeepsCurrentPagePositive(s: SheetState, events: seq<Event>)
    requires s.currentPage >= 1
    ensures Run(s, events).state.currentPage >= 1
    decreases |events|
  {
    if |events| > 0 {
      RunKeepsCurrentPagePositive(Apply(s, events[0]).state, events[1..]);
    }
  }

  /** Every fetch a run issues uses limit 20 and a page number of at least 1. */
  lemma {:induction false} RunRequestsArePositivePages(s: SheetState, events: seq<Event>)
    requires s.currentPage >= 1
    ensures forall i :: 0 <= i < |Run(s, events).requests| ==>
      Run(s, events).requests[i].page >= 1 && Run(s, events).requests[i].limit == PageSize
    decreases |events|
  {
    if |events| > 0 {
      RunRequestsArePositivePages(Apply(s, events[0]).state, events[1..]);
    }
  }

  /** A run that starts idle, and whose fetches all settle, ends idle:
      every path past the `await` clears `isLoading`. */
  lemma {:induction false} RunEndsIdle(s: SheetState, events: seq<Event>)
    requires !s.isLoading
    requires forall i :: 0 <= i < |events| ==> !events[i].response.Rejected?
    ensures !Run(s, events).state.isLoading
    decreases |events|
  {
    if |events| > 0 {
      RunEndsIdle(Apply(s, events[0]).state, events[1..]);
    }
  }

  /** Once paging has stopped, `loadMoreData` calls fetch nothing and change nothing. */
  lemma {:induction false} StoppedPagingIsInert(s: SheetState, events: seq<Event>)
    requires !CanLoadMore(s)
    requires forall i :: 0 <= i < |events| ==> events[i].More?
    ensures Run(s, events) == Trace([], s)
    decreases |events|
  {
    if |events| > 0 {
      StoppedPagingIsInert(s, events[1..]);
    }
  }

  /** A rejected fetch leaves `isLoading` raised (or, for a blocked
      `loadMoreData`, changes nothing), so no later `loadMoreData` call
      fetches or changes anything; only `loadInitialItems` can move on. */
  lemma RejectedFetchBlocksLoadMore(s: SheetState, e: Event, events: seq<Event>)
    requires e.response.Rejected?
    requires forall i :: 0 <= i < |events| ==> events[i].More?
    ensures var stuck := Apply(s, e).state;
      && stuck.(isLoading := s.isLoading) == s
      && !CanLoadMore(stuck)
      && Run(stuck, events) == Trace([], stuck)
  {
    StoppedPagingIsInert(Apply(s, e).state, events);
  }

  /** A rejected fetch does not lose `hasMoreData`: a later `loadInitialItems`
      that fails without throwing clears `isLoading`, and `loadMoreData` may
      fetch again. */
  lemma FailedInitialAfterRejectionReopensPaging(
    s: SheetState, e: Event, category: string, failure: Response)
    requires e.response.Rejected?
    requires failure.NoResponse? || failure.NoFarmhouses?
    requires s.hasMoreData
    ensures var reopened := LoadInitialItems(Apply(s, e).state, category, failure).state;
      && reopened == s.(isLoading := false)
      && CanLoadMore(reopened)
  {
  }

  /** The listings of several pages, one page after the other. */
  function Flatten(pages: seq<seq<Listing>>): seq<Listing>
    decreases |pages|
  {
    if |pages| == 0 then [] else pages[0] + Flatten(pages[1..])
  }

  /** Sum of the page lengths. */
  function TotalCount(pages: seq<seq<Listing>>): nat
    decreases |pages|
  {
    if |pages| == 0 then 0 else |pages[0]| + TotalCount(pages[1..])
  }

  lemma {:induction false} FlattenLength(pages: seq<seq<Listing>>)
    ensures |Flatten(pages)| == TotalCount(pages)
    decreases |pages|
  {
    if |pages| > 0 {
      FlattenLength(pages[1..]);
    }
  }

  /** `loadMoreData` once per page, each fetch returning that page. */
  function MoreEvents(category: string, pages: seq<seq<Listing>>): seq<Event> {
    seq(|pages|, i requires 0 <= i < |pages| => More(category, Farmhouses(pages[i])))
  }

  /** The fetches successive `loadMoreData` calls issue from page `from` on. */
  function PageRequests(category: string, from: int, n: nat): seq<Request> {
    seq(n, i => Request(category, from + i, PageSize))
  }

  /** Successive successful `loadMoreData` calls (all pages full but perhaps
      the last) fetch consecutive pages and append them in server order; the
      item count grows by the sum of the page lengths. */
  lemma {:induction false} SuccessfulPagesAccumulate(
    s: SheetState, category: string, pages: seq<seq<Listing>>)
    requires CanLoadMore(s)
    requires forall i :: 0 <= i < |pages| - 1 ==> |pages[i]| == PageSize
    ensures var t := Run(s, MoreEvents(category, pages));
      && t.state.data == s.data + Flatten(pages)
      && |t.state.data| == |s.data| + TotalCount(pages)
      && t.state.currentPage == s.currentPage + |pages|
      && t.requests == PageRequests(category, s.currentPage + 1, |pages|)
      && (|pages| > 0 ==> (t.state.hasMoreData <==> |pages[|pages| - 1]| == PageSize))
    decreases |pages|
  {
    FlattenLength(pages);
    var events := MoreEvents(category, pages);
    if |pages| > 0 {
      var step := LoadMoreData(s, category, Farmhouses(pages[0]));
      assert events[1..] == MoreEvents(category, pages[1..]);
      var t := Run(s, events);
      assert Run(s, events) == Trace([step.request.value] + Run(step.state, events[1..]).requests,
                                      Run(step.state, events[1..]).state);
      if |pages| == 1 {
        assert pages[1..] == [];
        assert t.state.data == s.data + Flatten(pages);
        assert t.requests == PageRequests(category, s.currentPage + 1, 1);
      } else {
        assert CanLoadMore(step.state);
        SuccessfulPagesAccumulate(step.state, category, pages[1..]);
        assert t.state.data == s.data + pages[0] + Flatten(pages[1..]);
        assert t.requests == [step.request.value]
          + PageRequests(category, s.currentPage + 2, |pages| - 1);
      }
    }
  }

  /** A full first page, a short second page, and then nothing: two fetches
      (pages 1 and 2, limit 20), both pages kept in order, paging stopped. */
  lemma ShortPageEndsPaging(
    category: string, first: seq<Listing>, second: seq<Listing>, third: Response)
    requires |first| == PageSize && |second| < PageSize
    ensures var t := Run(InitialState,
        [Initial(category, Farmhouses(first)), More(category, Farmhouses(second)), More(category, third)]);
      && t.requests == [Request(category, 1, PageSize), Request(category, 2, PageSize)]
      && t.state.data == first + second
      && |t.state.data| == PageSize + |second|
      && !t.state.hasMoreData
  {
    var events := [Initial(category, Farmhouses(first)), More(category, Farmhouses(second)), More(category, third)];
    var s1 := LoadInitialItems(InitialState, category, Farmhouses(first)).state;
    var s2 := LoadMoreData(s1, category, Farmhouses(second)).state;
    assert events[1..][1..] == [More(category, third)];
    assert Run(s2, [More(category, third)]) == Trace([], s2);
  }

  /** The initial state already allows `loadMoreData` (`currentPage = 1`,
      `hasMoreData = true`). So when the first `loadInitialItems` fetch fails
      without throwing, the next `loadMoreData` asks for page 2: page 1 is
      never shown, and a full page 2 leaves the count out of step with
      `currentPage`. */
  lemma FailedFirstLoadSkipsPageOne(category: string, failure: Response, page: seq<Listing>)
    requires failure.NoResponse? || failure.NoFarmhouses?
    ensures var t := Run(InitialState, [Initial(category, failure), More(category, Farmhouses(page))]);
      && t.requests == [Request(category, 1, PageSize), Request(category, 2, PageSize)]
      && t.state.data == page
      && t.state.currentPage == 2
      && (|page| == PageSize ==> !PageAligned(t.state))
  {
    var events := [Initial(category, failure), More(category, Farmhouses(page))];
    var s1 := LoadInitialItems(InitialState, category, failure).state;
    assert s1 == InitialState;
    var s2 := LoadMoreData(s1, category, Farmhouses(page)).state;
    assert s2.data == [] + page;
    assert events[1..] == [More(category, Farmhouses(page))];
    assert events[1..][1..] == [];
    assert Run(s1, events[1..]).state == s2;
  }
}
