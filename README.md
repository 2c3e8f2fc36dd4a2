# donut-fe data layer in Dafny

This project models the front end of a species-encounter game. In the
modelled core, pages and components get their data from a remote content
API through a request client and three services. The model covers:

- **The request client** (`ApiClient`). It covers the base URL, how
  `fetchApi` builds the `RequestInit`, and how it settles a response. That
  settling gives a decoded body, a formatted `API Error` for a non-OK
  status, or a rethrown failure.
- **The three services** built on the client:
  - `SpeciesService`: envelope unwrapping, image-URL derivation and the
    category table.
  - `RankingService`: the default search and the top-N prefix.
  - `ResultService`: the best-attempt aggregation and the rank and
    player-count defaults.
- **The `useApi` hook and the `ApiDataFetcher` component.** Each holds the
  `(data, loading, error)` state triple, and the component also chooses
  which view to render.
- **Three pages**:
  - the leaderboard page, with its 2-1-3 podium and the list below it;
  - the leaderboard example, which sorts the fetched array in place and
    shows up to three items;
  - the species page, with its category filter.

The network is a parameter. A `Server<T>` is a function from the `Request`
the client builds to an `HttpResponse<T>`:

- `Ok(json)`: a 2xx response, where `json` is the outcome of decoding the
  body.
- `HttpErr(status, statusText, errorBody)`: a non-OK response, whose
  re-serialised body is `None` when it is not JSON.
- `NetErr(cause)`: a network failure.

The configured `API_BASE_URL` is an `Option<string>` parameter. Two outcomes
that are decided outside the core are also given as inputs:

- The awaited call of a hook is given as its outcome, `Result<T, Thrown>`.
- The result of `JSON.parse` followed by `Object.values` on an attempt's
  `other_organism_id` text is given as an `Option<seq<string>>`, where
  `None` means the parse threw.

State that the source changes in place is modelled as classes:

- the hook's cells are `UseApi.ApiHook`;
- the component's cells are `ApiDataFetcher.Fetcher`;
- the species page's active category is `SpeciesPage.Page`;
- the leaderboard example sorts a Dafny `array`.

`ResultService.ParseUserResult` keeps the source's scan loop. Its loop
variables are the shortest attempt so far and the insertion-ordered set of
organisms.

Two behaviours of the code are easy to miss, and the model keeps both:

- `getUserRanking` declares a return type that admits `null`, but it has no
  `try`/`catch`. A failed request therefore reaches the caller as a
  rejection; it never becomes `null`.
- `fetchApi` builds the request URL from the raw `API_BASE_URL` constant,
  not from `getBaseUrl()`. An unset base therefore becomes the text
  `undefined` in front of the endpoint, not the `''` that `getBaseUrl`
  returns.

## Model

| member | source | states |
|---|---|---|
| ApiClient.BaseUrl | app/api/apiClient.ts:24-26 | the configured base URL, or `''` when it is unset |
| ApiClient.RequestUrl | app/api/apiClient.ts:49 | the URL is the raw base followed by the endpoint; an unset base renders as `undefined` |
| ApiClient.RequestUrlVersusBaseUrl | app/api/apiClient.ts:49 | the request URL equals `getBaseUrl()` + endpoint if and only if a base URL is configured |
| ApiClient.MergeHeaders | app/api/apiClient.ts:33-38 | the merged headers hold the caller's keys plus `Content-Type`; every caller value is kept; `application/json` applies only when the caller sets no `Content-Type` |
| ApiClient.CallerHeaderWins | app/api/apiClient.ts:35-38 | a caller header overrides the default of the same name |
| ApiClient.RequestOptions | app/api/apiClient.ts:30-45 | the verb is kept; headers are merged over the JSON default; credentials default to same-origin; a body is attached if and only if one is given and the verb is POST |
| ApiClient.BuildRequestOptions | app/api/apiClient.ts:33-45 | the object literal followed by the conditional body assignment builds exactly the specified `RequestInit` |
| ApiClient.ErrorBodyText | app/api/apiClient.ts:53-57 | the re-serialised error body when it is JSON, and `{}` when it is not |
| ApiClient.ErrorMessage | app/api/apiClient.ts:54-58 | the message starts with `API Error: `, then the status digits and a space, and ends with the body text |
| ApiClient.ErrorMessageExample | app/api/apiClient.ts:54-58 | a 404 `Not Found` with a non-JSON body gives `API Error: 404 Not Found - {}` |
| ApiClient.ErrorMessageDeterminesStatus | app/api/apiClient.ts:52-59 | two `API Error: {status} {statusText} - {body}` messages that are equal have equal statuses |
| ApiClient.Settle | app/api/apiClient.ts:52-66 | success happens if and only if the response is 2xx and its body decodes; a non-OK status fails with the formatted message (body `{}` when it is not JSON); a network failure is rethrown unchanged |
| ApiClient.FetchApi | app/api/apiClient.ts:29-67 | the server is asked exactly once, with the raw URL and the built `RequestInit`; the call succeeds if and only if the reply is 2xx and its body decodes, and it settles that reply |
| ApiClient.Get | app/api/apiClient.ts:70-72 | a GET of the endpoint with the merged headers, same-origin and without a body, settled as `fetchApi` settles it |
| ApiClient.Post | app/api/apiClient.ts:75-77 | a POST of the endpoint with the merged headers, same-origin and exactly the given body, settled as `fetchApi` settles it |
| ApiClient.GetRequestShape | app/api/apiClient.ts:70-72 | a GET goes to the raw URL, carries no body and is same-origin; without caller headers its only header is the JSON content type |
| ApiClient.PostRequestShape | app/api/apiClient.ts:75-77 | a POST goes to the raw URL, carries exactly the body it is given and is same-origin |
| JsRuntime.Normalize | app/api/hooks/useApi.ts:36 | an `Error` is kept as it is; any other thrown value becomes an error with the message 未知錯誤 |
| JsRuntime.NatToString | app/api/apiClient.ts:55 | the rendering of a status is a non-empty string of decimal digits |
| JsRuntime.ParseNatToString | app/api/apiClient.ts:55 | reading the rendered digits back gives the number that was rendered |
| JsRuntime.NatToStringInjective | app/api/apiClient.ts:55 | different numbers render to different texts |
| JsRuntime.IntToString | app/api/services/speciesService.ts:141 | the rendered id starts with `-` if and only if the id is negative |
| JsRuntime.SliceTo | app/api/services/rankingService.ts:45 | `slice(0, end)` gives a prefix; its length is `min(end, n)` for `end >= 0`, and a negative end counts from the back |
| SpeciesService.CategoryToOrganismType | app/api/services/speciesService.ts:51-55 | 鳥類 maps to "0", 蟲類 to "1" and 其他 to "2", each if and only if; every other label has no code |
| SpeciesService.AllIsNotACategory | app/api/services/speciesService.ts:43-55 | the 全部 label is not in the table |
| SpeciesService.GetDataFromResponse | app/api/services/speciesService.ts:67-81 | the first array among `_data`, `data` and `results`, else the bare array, else `[]`; for a `null` body, reading a key throws |
| SpeciesService.GetDataFromResponseFindsFirstArrayKey | app/api/services/speciesService.ts:67-76 | for an object body, the result is the items of the first key, in the order `_data`, `data`, `results`, whose value is an array |
| SpeciesService.NonArrayKeyIsSkipped | app/api/services/speciesService.ts:68-74 | a key holding a non-array value is passed over as if it were missing |
| SpeciesService.EarlierKeyWins | app/api/services/speciesService.ts:68-73 | an array under an earlier key wins whatever the later keys hold |
| SpeciesService.ImageUrlFor | app/api/services/speciesService.ts:86-88 | an empty `image_id` gives `/species/default.jpg`; any other gives `{base}/file/{id}/download` with the `getBaseUrl()` base |
| SpeciesService.ProcessSpeciesData | app/api/services/speciesService.ts:84-94 | `imageUrl` is set from `image_id`; every other field is left unchanged |
| SpeciesService.ProcessSpeciesDataIdempotent | app/api/services/speciesService.ts:84-94 | processing a processed record again changes nothing |
| SpeciesService.ImageUrlRoundTrip | app/api/services/speciesService.ts:86-88 | for a non-empty `image_id`, the id can be read back from the derived download URL, and that URL is never the default image |
| SpeciesService.ImageUrlExample | app/api/services/speciesService.ts:86-88 | image id 42 gives `{base}/file/42/download`; an empty id gives `/species/default.jpg` |
| SpeciesService.ProcessAll | app/api/services/speciesService.ts:101 | the mapped list has the same length and order as the unwrapped list, each element processed |
| SpeciesService.SpeciesList | app/api/services/speciesService.ts:99-105 | any failure, including a `null` body, gives `[]`; otherwise the unwrapped items are processed, keeping their length and order |
| SpeciesService.GetAllSpecies | app/api/services/speciesService.ts:97-106 | the defaults (page 1, size 20, sort `-id`) are posted to `/organism/search` and the reply is unwrapped and processed |
| SpeciesService.GetSpeciesByCategory | app/api/services/speciesService.ts:109-136 | 全部 equals the unfiltered search; an unknown label gives `[]`; a known label posts the defaults plus `organismTypes: [code]` |
| SpeciesService.UnknownCategoryIssuesNoRequest | app/api/services/speciesService.ts:117-121 | for an unknown label the answer is `[]`, whatever the server would have replied |
| SpeciesService.GetSpeciesById | app/api/services/speciesService.ts:139-151 | the result is a record if and only if the GET succeeds with an object body, and that record is the processed body; an array, a `null` body or a failure gives `null` |
| RankingService.GetUserRanking | app/api/services/rankingService.ts:31-33 | a GET of `/result/user/{id}` whose outcome, failure included, is passed on unchanged |
| RankingService.GetAllRankings | app/api/services/rankingService.ts:36-39 | exactly the defaults (page 1, size 20, sort `duration`) are posted to `/result/search` |
| RankingService.GetTopRankings | app/api/services/rankingService.ts:42-46 | a failure propagates; otherwise the result is a prefix of `getAllRankings()` of length `min(limit, n)` for `limit >= 0` |
| RankingService.TopRankingsDefaultsToThree | app/api/services/rankingService.ts:42 | without an argument the limit is 3 |
| RankingService.RankingFailuresPropagate | app/api/services/rankingService.ts:36-46 | a request that is not answered with a 2xx response makes both calls fail; no failure becomes an empty list |
| ResultService.GetUserData | app/api/services/resultService.ts:35-43 | the record from `/player/{id}?expand=result`, or `null` when the request fails |
| ResultService.ParseUserResult | app/api/services/resultService.ts:47-82 | no record, no `result` field or no attempts give `[]`; otherwise one record with the id, species and duration of the first shortest attempt (strict `<`) and the de-duplicated organisms of all attempts |
| ResultService.AddAll | app/api/services/resultService.ts:67 | adding each value to the insertion-ordered set gives the de-duplication of the extended stream |
| ResultService.FirstShortestIsUnique | app/api/services/resultService.ts:54-61 | the first shortest attempt is uniquely determined, so the winner is the earliest attempt of minimum duration |
| ResultService.ShortestIgnoresParseOutcome | app/api/services/resultService.ts:57-70 | whether an attempt's organism field parses plays no part in choosing the winner |
| ResultService.OtherOrganisms | app/api/services/resultService.ts:77 | the de-duplicated list is never longer than all the collected values |
| ResultService.OtherOrganismsIsUnion | app/api/services/resultService.ts:55-70 | the organism list is duplicate-free and holds exactly the values of every parsed attempt, winners and non-winners alike |
| Seqs.DedupFirstOccurrenceOrder | app/api/services/resultService.ts:77 | `Array.from` of the set lists the values in the order of their first occurrence |
| Seqs.Dedup | app/api/services/resultService.ts:55-77 | the set fed element by element never holds more values than were added |
| Seqs.DedupSpec | app/api/services/resultService.ts:55-67 | the set holds exactly the values added, each once |
| ResultService.FailedParseContributesNothing | app/api/services/resultService.ts:64-70 | an attempt whose field fails to parse adds no organisms; the result is that of the attempts around it |
| ResultService.AllOrganismsMembers | app/api/services/resultService.ts:57-70 | a value is collected if and only if some attempt's parsed field holds it |
| ResultService.AllOrganismsAppend | app/api/services/resultService.ts:57-70 | collecting over two runs of attempts is collecting over each run in turn |
| ResultService.ThreeAttemptsExample | app/api/services/resultService.ts:54-79 | durations 30, 10, 20 with organisms X, Y, X: the second attempt wins and the organisms are X then Y |
| ResultService.RankOrDefault | app/api/services/resultService.ts:88 | a present non-zero rank is returned, and 1 otherwise; the result is never 0 |
| ResultService.GetRanking | app/api/services/resultService.ts:85-93 | the result is `null` if and only if the request fails; otherwise it is the rank or its default |
| ResultService.CountOrZero | app/api/services/resultService.ts:109 | the present `_meta.totalCount`, otherwise 0 |
| ResultService.GetTotalPlayerCount | app/api/services/resultService.ts:96-114 | a page-size-1 search with explicit `null` fields is posted to `/result/search`; any failure gives 0, otherwise the total or 0 |
| Seqs.Find | app/rankings/page.tsx:128-130 | `find` gives `undefined` if and only if no element passes; otherwise it gives the element at the first index that passes |
| Seqs.Filter | app/rankings/page.tsx:137 | `filter` keeps an order-preserving subsequence whose elements all pass |
| Seqs.FilterCounts | app/species/page.tsx:118 | an element is kept as often as it occurs if it passes, and never otherwise |
| Seqs.FilterAppend | app/examples/RankingExample.tsx:27 | filtering a concatenation is concatenating the filtered parts |
| Seqs.FilterMembers | app/rankings/page.tsx:137 | an element is kept if and only if it occurs and passes |
| UseApi.InitialState | app/api/hooks/useApi.ts:24-26 | `data` and `error` start as `null` and `loading` starts as `initialFetch` |
| UseApi.Started | app/api/hooks/useApi.ts:30 | starting a fetch sets `loading` and keeps a previous error and the data |
| UseApi.Rethrown | app/api/hooks/useApi.ts:35-39 | there is no error if and only if the call succeeded; an `Error` is stored as it is, anything else as 未知錯誤 |
| UseApi.Settled | app/api/hooks/useApi.ts:31-42 | on success the data is the result and the error is cleared; on failure the data is kept and the normalised error stored; `loading` is false either way |
| UseApi.Returned | app/api/hooks/useApi.ts:34-39 | the call resolves with the result, or rejects with the very error stored |
| UseApi.RethrowMatchesState | app/api/hooks/useApi.ts:31-39 | the rejection the caller sees is the error left in the state, and the value it receives is the data left there |
| UseApi.FetchForgetsEarlierError | app/api/hooks/useApi.ts:28-43 | the state after a fetch depends on the earlier state only through its data, and only for a failed fetch |
| UseApi.StaleDataSurvivesFailure | app/api/hooks/useApi.ts:35-41 | a failure after a success keeps the earlier value, now next to the error |
| UseApi.ApiHook.constructor | app/api/hooks/useApi.ts:21-26 | the new hook is in the initial state for its `initialFetch` flag, which defaults to true |
| UseApi.ApiHook.FetchData | app/api/hooks/useApi.ts:28-43 | the new state is the settled state of the started old state, and the result is the resolution or rejection |
| UseApi.ApiHook.Refetch | app/api/hooks/useApi.ts:52 | `refetch` has the same effect and result as `fetchData` |
| UseApi.ApiHook.Mount | app/api/hooks/useApi.ts:45-50 | mounting fetches if and only if `initialFetch` is set, and otherwise changes nothing |
| UseApi.DefaultHookFetchesOnMount | app/api/hooks/useApi.ts:21-50 | a hook made without the flag starts loading with no data and no error, and mounting it runs the fetch and settles with the call's outcome |
| UseApi.ManualFetchScenario | app/api/hooks/useApi.ts:24-52 | a hook without an initial fetch stays idle on mount; a failed refetch then leaves no data and an error; a successful one sets the data and clears the error |
| ApiDataFetcher.Initial | app/components/ApiDataFetcher.tsx:22-24 | the component starts loading, with no data and no error |
| ApiDataFetcher.Render | app/components/ApiDataFetcher.tsx:44-56 | the loading view if and only if loading; else the error view if and only if there is an error; else the no-data view if and only if the data is missing or falsy; else the children with exactly the data |
| ApiDataFetcher.LoadingHidesEverything | app/components/ApiDataFetcher.tsx:44-46 | during a fetch only the loading view shows, whatever was there before |
| ApiDataFetcher.ErrorHidesStaleData | app/components/ApiDataFetcher.tsx:33-50 | after a failed fetch the error view shows, and stale data is not rendered |
| ApiDataFetcher.SuccessRendersFetchedValue | app/components/ApiDataFetcher.tsx:30-56 | after a success the children get exactly the fetched value when it is truthy; otherwise the no-data view shows |
| ApiDataFetcher.Fetcher.constructor | app/components/ApiDataFetcher.tsx:22-24 | the new component is in the initial state |
| ApiDataFetcher.Fetcher.GetData | app/components/ApiDataFetcher.tsx:27-39 | the state moves exactly as it does for `useApi`'s fetch, and nothing is returned or rethrown |
| ApiDataFetcher.MountThenFail | app/components/ApiDataFetcher.tsx:22-50 | a mounted component first shows the loading view, and after a failure the normalised error |
| RankingsPage.FirstOfRank | app/rankings/page.tsx:128-130 | `undefined` if and only if no item has the rank; otherwise the first item with it |
| RankingsPage.Found | app/rankings/page.tsx:133 | `filter(Boolean)` keeps exactly the found entries and never lengthens the list |
| RankingsPage.FoundIsFilter | app/rankings/page.tsx:133 | the found entries are those the generic filter on presence keeps, in their order and as often as they occur |
| RankingsPage.TopThreeOrdered | app/rankings/page.tsx:126-134 | the podium is the first item of rank 2, then of rank 1, then of rank 3, each only when it exists |
| RankingsPage.TopThreeOrderedSpec | app/rankings/page.tsx:126-134 | at most three items, each the first of its rank within 1 to 3; no gaps; the order is 2-1-3; every rank 1 to 3 that occurs is shown |
| RankingsPage.OtherRankings | app/rankings/page.tsx:137 | the list below the podium is an order-preserving subsequence of items with rank above 3 |
| RankingsPage.OtherRankingsCounts | app/rankings/page.tsx:137 | each item of rank above 3 is listed as often as it occurs, and no other item is listed |
| RankingsPage.OtherRankingsMembers | app/rankings/page.tsx:137 | an item is listed if and only if it occurs with rank above 3 |
| RankingsPage.HiddenItems | app/rankings/page.tsx:128-137 | an item of rank below 1 appears nowhere, and neither does a later distinct item of rank 1, 2 or 3 when an earlier item holds that rank |
| RankingsPage.PodiumBadge | app/rankings/page.tsx:31-48 | a crown if and only if the rank is 1; otherwise the rank number |
| RankingsPage.OneCrownAtMost | app/rankings/page.tsx:31-48 | the podium shows a crown if and only if some item has rank 1, never two crowns, and no highlighted item |
| RankingsPage.OnlyRankFiveHighlighted | app/rankings/page.tsx:74 | in the list, exactly the items of rank 5 are highlighted |
| RankingsPage.DisplayOrder | app/rankings/page.tsx:146-152 | every podium slot gets an order 1 to 3; the middle (`order-2`) slot is the second found entry, and `order-1` the first |
| RankingsPage.WinnerCentredIffRunnerUp | app/rankings/page.tsx:143-153 | the rank-1 item gets the middle (`order-2`) place if and only if a rank-2 item exists |
| RankingsPage.FirstOfRankAt | app/rankings/page.tsx:128-130 | an item with no earlier item of its rank is what `find` returns for that rank |
| RankingsPage.LayoutOfRankedList | app/rankings/page.tsx:126-137 | a list with rank `n + 1` at position `n` puts positions 1, 0 and 2 on the podium and everything from position 3 on in the list |
| RankingsPage.FilterSkipsThenKeeps | app/rankings/page.tsx:137 | a filter over a list whose first `n` items fail and whose rest pass gives that rest |
| RankingsPage.MockItem | app/rankings/page.tsx:17-27 | entry `n` has id `n`, rank `n` and the shared avatar |
| RankingsPage.MockRankings | app/rankings/page.tsx:17-27 | the initial state holds nine entries, the `i`-th being entry `i + 1` |
| RankingsPage.MockLayout | app/rankings/page.tsx:17-27 | the initial nine entries give the podium ranks 2, 1, 3 and the list ranks 4 to 9 |
| RankingExample.Swap | app/examples/RankingExample.tsx:27 | exchanges two elements of the array and keeps its multiset |
| RankingExample.AdjacentSwapKeepsOrder | app/examples/RankingExample.tsx:27 | exchanging two neighbours of different positions keeps, for every position, the order of the items that hold it |
| RankingExample.SwapNeighbours | app/examples/RankingExample.tsx:27 | exchanges two neighbours of different positions, changes no other cell, and keeps the multiset and the order within each position |
| RankingExample.InsertAt | app/examples/RankingExample.tsx:27 | moves one more item into the sorted prefix, as a permutation that keeps the order of items of equal position |
| RankingExample.SortByPosition | app/examples/RankingExample.tsx:27 | the array is rearranged in place into ascending order of position, as a permutation, and stably: items of equal position keep their order |
| RankingExample.GetTopThree | app/examples/RankingExample.tsx:23-29 | a missing list gives `[]`; otherwise the array is left sorted, permuted and stable, and the result is its first `min(3, n)` items |
| RankingExample.TopThreeAreSmallest | app/examples/RankingExample.tsx:26-28 | the shown items number `min(3, n)`; together with the rest they are the input; they are in order; none of the rest has a smaller position |
| RankingExample.AvatarSource | app/examples/RankingExample.tsx:64 | the avatar URL when it is present and non-empty, otherwise `/home/profile.jpg` |
| RankingExample.Badge | app/examples/RankingExample.tsx:50-82 | the crown branch if and only if the position is 1; otherwise the position number |
| RankingExample.CrownLeads | app/examples/RankingExample.tsx:47-82 | on a sorted board a crowned item means the first shown item is crowned or has a position below 1 |
| RankingExample.Render | app/examples/RankingExample.tsx:31-104 | the spinner while loading; then the error message; then, for missing or empty data, the empty board; otherwise the first three of the array, which is now sorted in place, stably |
| SpeciesPage.SpeciesData | app/species/page.tsx:20-53 | the page's data holds four species with ids 1 to 4, in the categories bird, bird, mammal and amphibian |
| SpeciesPage.LabelsDistinct | app/species/page.tsx:7 | the four category labels are distinct |
| SpeciesPage.Filtered | app/species/page.tsx:116-118 | 全部 gives the whole list unchanged; another category gives an order-preserving subsequence of that category |
| SpeciesPage.FilteredCounts | app/species/page.tsx:118 | outside 全部, each species of the category is shown as often as it occurs and no other species is shown |
| SpeciesPage.FilteredIsSubsequence | app/species/page.tsx:116-118 | for every category the shown list is a subsequence of the data |
| SpeciesPage.SubsequenceOfItself | app/species/page.tsx:116-117 | the unfiltered list is a subsequence of itself |
| SpeciesPage.EmptyMessageIffNoneInCategory | app/species/page.tsx:156-158 | the "no species" message shows if and only if no species of the active category exists |
| SpeciesPage.LayoutOfFour | app/species/page.tsx:116-118 | four species with categories bird, bird, mammal and amphibian split into the first two, the third and the fourth |
| SpeciesPage.SpeciesDataLayout | app/species/page.tsx:20-53 | on the page's own data each button shows its species in order, and no button shows the empty message |
| SpeciesPage.Page.constructor | app/species/page.tsx:113 | the page opens with category 全部 |
| SpeciesPage.Page.Select | app/species/page.tsx:143 | a click sets the active category to exactly the clicked one |
| SpeciesPage.OpenThenSelect | app/species/page.tsx:113-145 | the opened page shows every species; after a click exactly that button is highlighted and its category is shown |

## Left out

- Network I/O. `fetch`, `response.json()`, `response.blob()` and the whole of `fetchImages` (app/api/services/resultService.ts:117-144, with its parallel downloads and object URLs) are left out. Only the abstract outcome of a request is modelled.
- `JSON.parse`, `JSON.stringify` and `Object.values` are library encodings; their results are inputs:
  - the request body is the search value that would be serialised;
  - the error body is its serialised text, or `None` when it is not JSON;
  - an attempt's organisms are a given list, or `None` when parsing throws.
- Response shapes beyond an array, an object or `null` are left out, because the source's declared types rule them out. This covers scalar bodies, arrays that also carry envelope keys, and a `null` rankings list in `getTopRankings`.
- SpeciesService.GetSpeciesByCategory: a label equal to an inherited object key (such as `toString`) reads a non-empty inherited value in JavaScript. The model treats every label outside the table as unknown.
- Header lists given as arrays or `Headers` objects are left out, and so is case-insensitive header merging. The model keys headers by their exact text.
- `console` logging is left out, along with the `next.config.ts` configuration and the re-exports of `app/api/index.ts`. None of them changes a result.
- Number semantics are left out: `NaN`, fractions and floating-point durations and positions. Durations, ranks and positions are integers.
- UseApi.ApiHook.Mount: React's scheduling is not modelled. This covers effect timing, dependency arrays, fetches that overlap in flight, and the unhandled rejection of the un-awaited mount fetch. A fetch is one sequential start-then-settle step.
- The loading and error elements that `ApiDataFetcher` takes as props are left abstract, and so are the components' markup and styling. The render choice returns which view is shown.
- The home page's scroll-driven opacity is left out, as floating-point arithmetic over DOM events. So are the result page's `localStorage` redirect, the species modal, and the purely presentational components.
