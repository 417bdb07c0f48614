# Listing pager and property relabelling, in Dafny

This project models the two pieces of logic in an Airbnb-style rental browsing
app (a React Native client with a small Python backend and data scripts):

1. **The paginated listing loader** of the listings bottom sheet
   (`components/ListingsBottomSheet.tsx`). Without its React hooks it is a
   record of four fields: `data`, `currentPage`, `hasMoreData` and
   `isLoading`. Two loaders change it:
   - `loadInitialItems` fetches page 1 of the current category and
     *replaces* `data`.
   - `loadMoreData` is guarded by `isLoading || !hasMoreData`. It fetches
     page `currentPage + 1` and *appends* to `data`.

   Paging stops when a page does not hold exactly 20 listings. The fetch is
   not modelled: its outcome is an input `Response`. That is no response, a
   response without `farmhouses`, a page of listings, or a rejected
   promise. Each loader is modelled in two halves, before and after its
   `await`. Its atomic form is the composition of the two. The list's row key, `${item.id + item.host_id}`,
   is modelled too. It is the decimal rendering of the numeric sum.
2. **The property-type relabelling** of the data-preparation script
   (`assets/data/dataModifiyig.py`). `modifytype` maps "Home/Apt" to
   "FarmHouses" and every other type to "DJ". The script applies it to every
   listing.

Files: `wrappers.dfy` (Option), `listings.dfy` (the listing record),
`listing_key.dfy` (row keys), `paged_loader.dfy` (state and the two loaders),
`loader_runs.dfy` (sequences of loader calls and their invariants), and
`relabel.dfy` (the script).

Behaviours of the code worth noting:
- `currentPage` starts at 1, not 0.
- `hasMoreData` is `length === 20`, so an over-long page also stops paging.
  A "fewer than 20" test would not.
- `loadInitialItems` does not clear `data` first. A failed fetch leaves the
  previous category's listings in place.
- No check discards a response that belongs to an earlier category.

One consequence of the code is proved as `LoaderRuns.FailedFirstLoadSkipsPageOne`.
The initial state already lets `loadMoreData` fetch. So if the first
`loadInitialItems` fetch fails without throwing, the next `loadMoreData` requests page 2, and
page 1 is never shown.

## Model

| member | source | states |
|---|---|---|
| `PagedLoader.BeginLoadInitial` | components/ListingsBottomSheet.tsx:43-48 | `loadInitialItems` has no guard: it always raises `isLoading` and asks for page 1 of the category with limit 20, changing nothing else |
| `PagedLoader.CompleteLoadInitial` | components/ListingsBottomSheet.tsx:49-54 | a page replaces `data`, resets `currentPage` to 1 and sets `hasMoreData` iff the page has 20 items; a failed fetch keeps `data`, `currentPage`, `hasMoreData`; `isLoading` ends false unless the fetch rejected, in which case nothing after the `await` runs |
| `PagedLoader.LoadInitialItems` | components/ListingsBottomSheet.tsx:43-55 | whatever the prior state, success makes `data` exactly page 1 with `currentPage` 1; a falsy response or one without `farmhouses` leaves the old category's state except for clearing `isLoading`; a rejected fetch leaves `isLoading` raised; `isLoading` ends false iff the fetch did not reject |
| `PagedLoader.BeginLoadMore` | components/ListingsBottomSheet.tsx:58-66 | a fetch is issued iff not loading and more data is expected; otherwise nothing changes; the fetch is for page `currentPage + 1`, limit 20 |
| `PagedLoader.CompleteLoadMore` | components/ListingsBottomSheet.tsx:67-72 | a page is appended after the untouched old `data`, `currentPage` becomes the requested page, `hasMoreData` iff the page has 20 items; failure keeps the paging state; `isLoading` ends false unless the fetch rejected, in which case nothing changes |
| `PagedLoader.LoadMoreData` | components/ListingsBottomSheet.tsx:58-73 | guarded call is a complete no-op; otherwise page `currentPage + 1` is fetched, success gives `data = old data ++ page`, length grows by the page length, `currentPage` grows by 1; a falsy response or one without `farmhouses` leaves the state exactly as it was; a rejected fetch leaves `isLoading` raised |
| `PagedLoader.InFlightInitialBlocksLoadMore` | components/ListingsBottomSheet.tsx:44-59 | while `loadInitialItems` awaits its page, `loadMoreData` issues no fetch and changes nothing |
| `PagedLoader.LoadMoreNeverRequestsFirstPage` | components/ListingsBottomSheet.tsx:62-64 | with `currentPage >= 1`, `loadMoreData` only ever asks for page 2 or later, always with limit 20 |
| `LoaderRuns.Run` | components/ListingsBottomSheet.tsx:43-73 | a run issues no more fetches than it has loader calls |
| `LoaderRuns.ApplyPreservesPageAligned` | components/ListingsBottomSheet.tsx:49-72 | every loader call, successful or failed, keeps "`hasMoreData` implies `|data| = 20 * currentPage`" |
| `LoaderRuns.RunPreservesPageAligned` | components/ListingsBottomSheet.tsx:43-73 | that invariant holds after any sequence of loader calls from a state satisfying it |
| `LoaderRuns.AlignedAfterSuccessfulInitialLoad` | components/ListingsBottomSheet.tsx:49-72 | after a successful `loadInitialItems`, whatever calls follow, `|data| = 20 * currentPage` while `hasMoreData` |
| `LoaderRuns.RunKeepsCurrentPagePositive` | components/ListingsBottomSheet.tsx:29-73 | `currentPage` starts at 1 and never drops below 1 |
| `LoaderRuns.RunRequestsArePositivePages` | components/ListingsBottomSheet.tsx:45-64 | every fetch of a run asks for a page of at least 1 with limit 20 |
| `LoaderRuns.RunEndsIdle` | components/ListingsBottomSheet.tsx:54-72 | `isLoading` is cleared on both success and failure paths past the `await`, so a run that starts idle and whose fetches all settle ends idle |
| `LoaderRuns.RejectedFetchBlocksLoadMore` | components/ListingsBottomSheet.tsx:43-73 | after a rejected fetch every field but `isLoading` is unchanged and `loadMoreData` is blocked: any number of later `loadMoreData` calls fetch nothing and change nothing |
| `LoaderRuns.FailedInitialAfterRejectionReopensPaging` | components/ListingsBottomSheet.tsx:43-59 | after a rejected fetch, a `loadInitialItems` that fails without throwing restores the earlier state with `isLoading` cleared, so `loadMoreData` may fetch again while `hasMoreData` holds |
| `LoaderRuns.StoppedPagingIsInert` | components/ListingsBottomSheet.tsx:59 | once `hasMoreData` is false (or a load is in flight), any number of `loadMoreData` calls fetch nothing and change nothing |
| `LoaderRuns.SuccessfulPagesAccumulate` | components/ListingsBottomSheet.tsx:58-73 | successive successful `loadMoreData` calls fetch consecutive pages; `data` becomes the old data followed by every page in server order; the count grows by the sum of page lengths; paging continues iff the last page was full |
| `LoaderRuns.ShortPageEndsPaging` | components/ListingsBottomSheet.tsx:43-73 | a full page 1 then a short page 2 gives two fetches and both pages in order, and stops paging; a third `loadMoreData` fetches nothing |
| `LoaderRuns.FailedFirstLoadSkipsPageOne` | components/ListingsBottomSheet.tsx:27-73 | from the initial state, a `loadInitialItems` whose fetch gives a falsy response or no `farmhouses`, followed by `loadMoreData` fetches page 2, so `data` holds page 2 alone and a full page 2 breaks the page-alignment invariant |
| `ListingKey.NumberRoundTrip` | components/ListingsBottomSheet.tsx:127 | the decimal text of a number reads back as that number |
| `ListingKey.NumberToStringInjective` | components/ListingsBottomSheet.tsx:127 | two numbers render to the same text iff they are equal |
| `ListingKey.KeyOf` | components/ListingsBottomSheet.tsx:127 | the row key reads back as `id + host_id` |
| `ListingKey.KeyDependsOnlyOnSum` | components/ListingsBottomSheet.tsx:127 | two listings get the same key iff `id + host_id` agree; both fields are numbers (app/interfaces/airbnb_list.ts lines 3 and 12), so `+` adds |
| `ListingKey.DistinctListingsCanShareKey` | components/ListingsBottomSheet.tsx:127 | listings with different `(id, host_id)` pairs can share a key |
| `Relabel.ModifyType` | assets/data/dataModifiyig.py:21-25 | the result is "FarmHouses" iff the input type is exactly "Home/Apt", otherwise "DJ"; no other field changes |
| `Relabel.RelabelAll` | assets/data/dataModifiyig.py:30-31 | the loop keeps the number and order of listings, relabels each one, and leaves every type in {"FarmHouses", "DJ"} |
| `Relabel.RelabelKeepsCoordinates` | assets/data/dataModifiyig.py:12-37 | the script leaves latitude and longitude unchanged, because the coordinate helper is never called |
| `Relabel.ModifyTypeTwiceIsDJ` | assets/data/dataModifiyig.py:22-25 | a second `modifytype` turns "FarmHouses" into "DJ", so two passes give "DJ" |
| `Relabel.RelabelTwiceIsAllDJ` | assets/data/dataModifiyig.py:21-31 | running the relabelling twice labels every listing "DJ" |
| `Relabel.RelabelNotIdempotent` | assets/data/dataModifiyig.py:21-31 | any dataset with a "Home/Apt" listing changes on a second pass |

## Left out

- Rendering: the bottom sheet, the list, styles, the map button, the header count and the scroll-to-top button with its 900-offset threshold. This is presentation.
- The HTTP call `fetchData` and the URLs. `fetchData` is treated as opaque: its outcome is the `Response` input, and a rejected promise is kept as a possible outcome.
- React scheduling: batched `setState`, stale `useCallback` closures, and the interleaving of an in-flight `loadInitialItems` with a completing `loadMoreData`. Runs apply each loader call atomically. Only the in-flight guard itself is modelled, by `BeginLoadMore`.
- The `useEffect` that calls `loadInitialItems` on a category change. A category change is an `Initial` event of a run.
- `ListingKey.KeyOf`: ids are exact integers. JavaScript numbers are float64, so ids above 2^53 would round and could collide even more. Numbers of 10^21 or more would render in exponent form. Neither is modelled.
- A `farmhouses` field that is truthy but not an array is not modelled. Such a response counts as a page.
- `Relabel.ModifyType`: every record is assumed to carry a string `property_type`. A record without the key raises `KeyError` at the comparison, and the script stops before it writes the file, so the file is left unchanged. A JSON `null` is not "Home/Apt" and would become "DJ". Neither case can be expressed by the record type.
- The listing record keeps only `id`, `host_id`, `property_type` and the coordinates. The other fields pass through unchanged.
- The script's JSON file read and write, the closing message, and `modify_coordinates`. That helper is never called and uses random floating-point offsets.
- The messaging WebSocket and its Fernet encryption, the FastAPI/MongoDB setup, and the model declarations. They hold no logic of the loader or the script.
