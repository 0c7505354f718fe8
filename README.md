# Crew reputation leaderboard: a Dafny model

This project models the core of the agent leaderboard web front end. It has three parts:

- **The leaderboard page.** The page keeps a search query, a reputation floor (a 0–100 slider), a time range, a sort field and order, and a current page. From these it derives:
  - the filtered, sorted list;
  - the page count, at 25 records per page;
  - the records on the current page;
  - the top-three podium.

  Clicking a column header toggles or switches the sort and returns to page 1. Prev and Next move the page within range.
- **The data-access layer for the marketplace API.** This layer:
  - builds the query string for the agent list;
  - maps raw server records to agents, with JavaScript's `||` defaults;
  - sets the dashboard defaults;
  - holds the display helpers: avatar by specialty, tier by reputation, tier badge, reputation text and shortened address.
- **The static data module the page reads.** It has eight fixed records and a fixed dashboard aggregate. It also has its own copies of the badge lookup, a percentage formatter and an address shortener.

Modules, one concern each:

| module | file | contents |
|---|---|---|
| `Wrappers` | `wrappers.dfy` | `Option` |
| `JsSemantics` | `js_semantics.dfy` | the JavaScript built-ins the core relies on: `slice` with negative indices, ASCII `toLowerCase`, `includes`, `filter`, `x \|\| default`, integer `toString`, property lookup on an object literal (which also finds `Object.prototype` members) |
| `AgentTypes` | `agent_types.dfy` | `Agent`, `AgentStats`, `SortField`, `SortOrder`, `TimeRange` |
| `StableSort` | `stable_sort.dfy` | a stable sort over any total-preorder comparator: the specification `SortSeq` (insertion sort), its properties (ordered, permutation, stable, idempotent, reversal under the negated comparator when there are no ties), and `SortInPlace`, an in-place array sort proved equal to it |
| `AgentOrder` | `agent_order.dfy` | the page's comparator, and the proof that every field and order gives a total preorder |
| `OpenworkApi` | `openwork_api.dfy` | the data-access layer |
| `LeaderboardPage` | `leaderboard_page.dfy` | the filter → sort → paginate → podium pipeline as functions, with its properties, and `PageState`, a class whose methods update the page's state the way the React state setters do |
| `MockData` | `mock_data.dfy` | the static records and that module's helpers |
| `MockScenarios` | `mock_scenarios.dfy` | what the page shows for the static records |

The model follows the code on the reputation floor. The floor is `reputation >= minReputation * 100`. With the slider at 90 the floor is 9000, so of the records 9800, 9500, 9200 and 7800 the first three remain (`MockScenarios.SliderAtNinety`).

## Model

| member | source | states |
|---|---|---|
| `LeaderboardPage.EmptyQueryMatches` | frontend-next/app/leaderboard/LeaderboardPage.tsx:26-32 | every record matches the empty query, so skipping the search step when the query is empty loses nothing |
| `LeaderboardPage.FilterStepsKeepExactly` | frontend-next/app/leaderboard/LeaderboardPage.tsx:25-38 | the search and floor steps keep each record that matches the lower-cased query in its name or address and clears the floor (when the slider is above 0) as many times as it occurs, and drop every other record |
| `LeaderboardPage.FilteredKeepsExactly` | frontend-next/app/leaderboard/LeaderboardPage.tsx:22-61 | the pipeline's result holds exactly the kept records, each with its multiplicity in the input, and only records of the input |
| `LeaderboardPage.UnfilteredIsPermutation` | frontend-next/app/leaderboard/LeaderboardPage.tsx:22-61 | with an empty query and the slider at 0, the result is the sorted input: a permutation of it, with no record dropped |
| `LeaderboardPage.FilteredOrdered` | frontend-next/app/leaderboard/LeaderboardPage.tsx:40-58 | the result is ordered by the comparator; a numeric key is non-increasing for `desc` and non-decreasing for `asc`; sorting the result again changes nothing |
| `LeaderboardPage.FilteredStable` | frontend-next/app/leaderboard/LeaderboardPage.tsx:40-58 | records that tie on the sort key keep the relative order they had after filtering |
| `LeaderboardPage.ToggleOrderReverses` | frontend-next/app/leaderboard/LeaderboardPage.tsx:57 | when no two kept records tie, the `asc` result is exactly the reverse of the `desc` result |
| `LeaderboardPage.TotalPages` | frontend-next/app/leaderboard/LeaderboardPage.tsx:64 | the page count is the ceiling of count / 25: the pages hold every record, the last page is non-empty, and there are 0 pages exactly when there are 0 records |
| `LeaderboardPage.PageWindow` | frontend-next/app/leaderboard/LeaderboardPage.tsx:65-68 | page p (from 1) is the window of the list from (p - 1) * 25, at most 25 records, and is non-empty up to the last page |
| `LeaderboardPage.PageBeyondLastIsEmpty` | frontend-next/app/leaderboard/LeaderboardPage.tsx:64-68 | page 0 and every page past the last one are empty rather than an error, including page 1 of an empty list |
| `LeaderboardPage.PagesReassemble` | frontend-next/app/leaderboard/LeaderboardPage.tsx:64-68 | reading pages 1 to the page count in turn gives back the whole list |
| `LeaderboardPage.TopThree` | frontend-next/app/leaderboard/LeaderboardPage.tsx:71 | the podium is a prefix of the filtered, sorted list of length min(3, count) |
| `LeaderboardPage.NextSort` | frontend-next/app/leaderboard/LeaderboardPage.tsx:73-79 | after a header click the clicked field is active, and the order is ascending exactly when that field was already active in descending order |
| `LeaderboardPage.ClickTwiceRestores` | frontend-next/app/leaderboard/LeaderboardPage.tsx:73-79 | two clicks on the active header restore the field and order |
| `LeaderboardPage.NewFieldThenAscending` | frontend-next/app/leaderboard/LeaderboardPage.tsx:73-79 | a click on a new header followed by a second click on it sorts by that field ascending |
| `LeaderboardPage.PrevPage` | frontend-next/app/leaderboard/LeaderboardPage.tsx:138 | Prev goes back one page from a page above 1, and gives exactly page 1 from page 1 or below |
| `LeaderboardPage.NextPage` | frontend-next/app/leaderboard/LeaderboardPage.tsx:148 | Next goes forward one page below the page count, and gives exactly the page count from the last page or beyond |
| `LeaderboardPage.PagingStaysInRange` | frontend-next/app/leaderboard/LeaderboardPage.tsx:137-153 | from a page in [1, page count], Prev and Next stay in that range |
| `LeaderboardPage.PageState.constructor` | frontend-next/app/leaderboard/LeaderboardPage.tsx:12-17 | the initial state: empty query, slider 0, all time, reputation descending, page 1 |
| `LeaderboardPage.PageState.SetSearchQuery` | frontend-next/app/leaderboard/LeaderboardPage.tsx:12 | sets the query and leaves every other field, the current page included, unchanged |
| `LeaderboardPage.PageState.SetMinReputation` | frontend-next/app/leaderboard/LeaderboardPage.tsx:13 | sets the slider value and leaves every other field, the current page included, unchanged |
| `LeaderboardPage.PageState.SetTimeRange` | frontend-next/app/leaderboard/LeaderboardPage.tsx:14 | sets the time range and leaves every other field unchanged; no derived value reads it |
| `LeaderboardPage.PageState.HandleSort` | frontend-next/app/leaderboard/LeaderboardPage.tsx:73-81 | the sort becomes `NextSort` of the old sort and the click, the page returns to 1, and the filters are unchanged |
| `LeaderboardPage.PageState.Prev` | frontend-next/app/leaderboard/LeaderboardPage.tsx:138 | the page becomes `PrevPage` of the old page; nothing else changes |
| `LeaderboardPage.PageState.Next` | frontend-next/app/leaderboard/LeaderboardPage.tsx:148 | the page becomes `NextPage` of the old page, clamped at `TotalPages` (line 64) of the list the current filters and sort produce; nothing else changes |
| `LeaderboardPage.PageState.ComputeFilteredAgents` | frontend-next/app/leaderboard/LeaderboardPage.tsx:22-61 | copying, filtering when the query or slider is set, and sorting an array in place gives exactly `FilteredAgents` of the state |
| `LeaderboardPage.PageState.View` | frontend-next/app/leaderboard/LeaderboardPage.tsx:63-71 | the page shown, the page count and the podium are `PageOf`, `TotalPages` and `TopThree` of the filtered list; the podium does not depend on the current page |
| `AgentOrder.NameCompare` | frontend-next/app/leaderboard/LeaderboardPage.tsx:53-54 | the name comparison is -1, 0 or 1, and 0 exactly when the names are equal |
| `AgentOrder.NameCompareFlip` | frontend-next/app/leaderboard/LeaderboardPage.tsx:53-54 | swapping the names negates the comparison |
| `AgentOrder.NameCompareTrans` | frontend-next/app/leaderboard/LeaderboardPage.tsx:53-54 | the name order is transitive |
| `AgentOrder.CompareFlip` | frontend-next/app/leaderboard/LeaderboardPage.tsx:41-58 | swapping the records negates the comparator's result, for every field and order |
| `AgentOrder.CompareTrans` | frontend-next/app/leaderboard/LeaderboardPage.tsx:41-58 | the comparator is transitive for every field and order |
| `AgentOrder.ComparatorIsPreorder` | frontend-next/app/leaderboard/LeaderboardPage.tsx:41-58 | every field and order gives a total preorder, the condition for a consistent sort comparator |
| `AgentOrder.DescNegatesAsc` | frontend-next/app/leaderboard/LeaderboardPage.tsx:57 | the descending comparator is the ascending one negated |
| `AgentOrder.TieIsEqualKey` | frontend-next/app/leaderboard/LeaderboardPage.tsx:43-56 | two records tie exactly when the selected field (or name) is equal |
| `AgentOrder.SortedByKey` | frontend-next/app/leaderboard/LeaderboardPage.tsx:44-51 | a list ordered by a numeric field's comparator has non-increasing keys for `desc` and non-decreasing keys for `asc` |
| `StableSort.SortPermutation` | frontend-next/app/leaderboard/LeaderboardPage.tsx:41 | the sort keeps the length and the multiset of records |
| `StableSort.SortSorted` | frontend-next/app/leaderboard/LeaderboardPage.tsx:41 | under a total preorder the sort's result is ordered |
| `StableSort.SortStable` | frontend-next/app/leaderboard/LeaderboardPage.tsx:41 | under a total preorder, the records that tie with any given record appear in the same relative order before and after the sort |
| `StableSort.SortOfSorted` | frontend-next/app/leaderboard/LeaderboardPage.tsx:41 | sorting an already ordered list leaves it unchanged |
| `StableSort.SortIdempotent` | frontend-next/app/leaderboard/LeaderboardPage.tsx:41 | sorting twice under the same comparator is sorting once |
| `StableSort.SortedUnique` | frontend-next/app/leaderboard/LeaderboardPage.tsx:41 | two ordered lists holding the same records, none of them tying, are equal |
| `StableSort.SortNegatedReverses` | frontend-next/app/leaderboard/LeaderboardPage.tsx:57 | with no ties, sorting under the negated comparator gives exactly the reverse |
| `StableSort.InsertInto` | frontend-next/app/leaderboard/LeaderboardPage.tsx:41 | one round of the in-place sort leaves the first i + 1 cells equal to the specification's insertion of `a[i]`, and the cells after them unchanged |
| `StableSort.OpenGap` | frontend-next/app/leaderboard/LeaderboardPage.tsx:41 | the shifting loop moves exactly the greater elements one place right and leaves a gap after the last element that is not greater |
| `StableSort.SortInPlace` | frontend-next/app/leaderboard/LeaderboardPage.tsx:41 | the array sorted in place equals `SortSeq` of its old contents, so every property above holds of it |
| `JsSemantics.Slice` | frontend-next/app/leaderboard/LeaderboardPage.tsx:65-68 | for non-negative bounds, `slice` is the window between them clamped to the length, and empty when the end does not pass the start |
| `JsSemantics.IncludesAt` | frontend-next/app/leaderboard/LeaderboardPage.tsx:30-31 | `includes` holds exactly when the needle occurs at some position |
| `JsSemantics.ToLowerIdempotent` | frontend-next/app/leaderboard/LeaderboardPage.tsx:27 | lower-casing twice is lower-casing once |
| `JsSemantics.FilterCounts` | frontend-next/app/leaderboard/LeaderboardPage.tsx:28-32 | `filter` keeps every occurrence of a record its callback accepts and nothing else |
| `JsSemantics.FilterPrefix` | frontend-next/app/leaderboard/LeaderboardPage.tsx:37 | when the callback accepts a leading run and rejects the rest, `filter` returns that run |
| `JsSemantics.NumberToStringRoundTrip` | frontend-next/lib/openwork-api.ts:12 | the decimal text of an integer reads back as that integer |
| `JsSemantics.CanonicalIsNatToString` | frontend-next/lib/openwork-api.ts:104 | a digit string without leading zeros is exactly the decimal text `String(n)` writes for its value |
| `JsSemantics.CanonicalDigitsUnique` | frontend-next/lib/openwork-api.ts:104 | two digit strings without leading zeros that read back as the same number are the same text |
| `OpenworkApi.SetEntry` | frontend-next/lib/openwork-api.ts:11-13 | `set` makes the name map to the new value and leaves every other name's value as it was |
| `OpenworkApi.SearchParams.Set` | frontend-next/lib/openwork-api.ts:11-13 | after `set`, `get` of that name gives the value and `get` of every other name is unchanged |
| `OpenworkApi.AgentsQuery` | frontend-next/lib/openwork-api.ts:5-13 | the list query carries `specialty` only for a non-empty specialty, `min_reputation` (its decimal text) only for a non-zero minimum, and `available=true` only when `available` is true; no other parameter |
| `OpenworkApi.TierFromReputation` | frontend-next/lib/openwork-api.ts:84-90 | the tier is one of the five names, and its rank is min(reputation / 20, 4) for a non-negative reputation and 0 otherwise |
| `OpenworkApi.TierMonotone` | frontend-next/lib/openwork-api.ts:84-90 | a higher reputation never gives a lower tier |
| `OpenworkApi.TierBadgeAsWritten` | frontend-next/lib/openwork-api.ts:92-101 | the lookup as written always yields something, and an own value is one of the five badges |
| `OpenworkApi.TierBadgeAsWrittenConstructor` | frontend-next/lib/openwork-api.ts:100 | for the tier "constructor", the lookup as written yields the inherited `Object` constructor, not a badge |
| `OpenworkApi.TierBadge` | frontend-next/lib/openwork-api.ts:92-101 | a known tier gets its badge, and every other string gets the seedling badge |
| `OpenworkApi.TierBadgeMatchesLookup` | frontend-next/lib/openwork-api.ts:100 | the lookup as written gives the intended badge exactly for the strings that are not `Object.prototype` member names |
| `OpenworkApi.TierBadgeSeparatesTiers` | frontend-next/lib/openwork-api.ts:84-101 | two reputations get the same badge exactly when they fall in the same tier |
| `OpenworkApi.AvatarAsWritten` | frontend-next/lib/openwork-api.ts:70-82 | the avatar lookup as written always yields something |
| `OpenworkApi.AvatarAsWrittenConstructor` | frontend-next/lib/openwork-api.ts:81 | for the specialty "Constructor", the lookup as written yields the inherited `Object` constructor, not an emoji |
| `OpenworkApi.AvatarForSpecialty` | frontend-next/lib/openwork-api.ts:70-82 | the eight listed specialties get their emoji whatever their case; the robot is shown exactly when the lower-cased specialty is absent or not listed |
| `OpenworkApi.AvatarIgnoresCase` | frontend-next/lib/openwork-api.ts:81 | a specialty and its lower-case form get the same avatar |
| `OpenworkApi.AvatarMatchesLookup` | frontend-next/lib/openwork-api.ts:81 | the lookup as written gives the intended avatar exactly when the key is not an `Object.prototype` member name |
| `OpenworkApi.NormalizeAgent` | frontend-next/lib/openwork-api.ts:19-31 | id and name are copied; address falls back to the id; reputation falls back to 50 for a missing or zero value; jobs and earnings fall back to 0; tier and avatar are derived; specialties fall back to []; the result is in normal form |
| `OpenworkApi.NormalizeRoundTrip` | frontend-next/lib/openwork-api.ts:19-31 | mapping the raw form of an agent gives it back exactly when the agent is in normal form |
| `OpenworkApi.NormalizeIdempotent` | frontend-next/lib/openwork-api.ts:19-31 | mapping an already mapped record changes nothing |
| `OpenworkApi.AvatarFromFirstSpecialty` | frontend-next/lib/openwork-api.ts:26 | the avatar depends only on the first specialty |
| `OpenworkApi.NormalizeAgentDetail` | frontend-next/lib/openwork-api.ts:39-53 | the single-agent mapping is the list mapping plus the profile and description |
| `OpenworkApi.NormalizeDashboard` | frontend-next/lib/openwork-api.ts:61-66 | the counts fall back to 0; the average reputation is kept when truthy and is exactly 50 otherwise |
| `OpenworkApi.FormatReputation` | frontend-next/lib/openwork-api.ts:103-105 | the text ends in "/100"; before it comes "-" exactly for a negative score, then digits without a leading zero that read back as the score (so, by `CanonicalDigitsUnique`, the only such text) |
| `OpenworkApi.TruncateAddress` | frontend-next/lib/openwork-api.ts:111-114 | "" for the empty address; otherwise the first six characters, "..." and the last four (13 characters for an address of ten or more) |
| `MockData.MockIdsAreAddresses` | frontend-next-src/lib/data.ts:4-85 | eight records; each id equals its address; no two ids are equal |
| `MockData.MockListedBestFirst` | frontend-next-src/lib/data.ts:4-85 | the records are listed with strictly falling reputation, jobs and earnings |
| `MockData.MockTiersFollowReputation` | frontend-next-src/lib/data.ts:4-85 | each record's tier is the one the API's tier rule gives for its reputation over 100, and is a key of the badge table |
| `MockData.TierBadgeAsWritten` | frontend-next-src/lib/data.ts:94-103 | this copy of the lookup as written behaves exactly as the API module's copy, including for `Object.prototype` names |
| `MockData.TierBadgeAsWrittenConstructor` | frontend-next-src/lib/data.ts:102 | for the tier "constructor", this copy's lookup as written yields the inherited `Object` constructor, not a badge |
| `MockData.TierBadge` | frontend-next-src/lib/data.ts:94-103 | this copy, with the fallback applied to every non-tier, equals the API module's badge |
| `MockData.FormatReputation` | frontend-next-src/lib/data.ts:105-107 | the text ends in "%", starts with "-" exactly for a negative score, and its digits, without a leading zero, are the score over 100 rounded to the nearest integer, halves rounded up |
| `MockData.TruncateAddress` | frontend-next-src/lib/data.ts:113-115 | the first six characters, "..." and the last four, with "..." for the empty address |
| `MockData.TruncateAgreesExceptEmpty` | frontend-next-src/lib/data.ts:113-115 | the two address shorteners agree on every non-empty address and differ on the empty one |
| `MockData.TruncateKeepsEnds` | frontend-next-src/lib/data.ts:113-115 | an address with a six-character head and a four-character tail shortens to head, "..." and tail |
| `MockData.TruncateFirstAddress` | frontend-next-src/lib/data.ts:6 | the first record's address shortens to "0x742d...0bEb" under both shorteners |
| `MockScenarios.MockSortedByReputation` | frontend-next-src/lib/data.ts:4-85 | the static list is already in the page's initial order |
| `MockScenarios.InitialView` | frontend-next/app/leaderboard/LeaderboardPage.tsx:12-71 | in the initial state, the page shows all eight records in their listed order on one page, with the first three on the podium |
| `MockScenarios.FloorKeepsLeaders` | frontend-next/app/leaderboard/LeaderboardPage.tsx:36-38 | on a list in reputation order where exactly the first k records reach the floor, the slider leaves those k records and the podium shows the first three of them |
| `MockScenarios.SliderAtNinety` | frontend-next/app/leaderboard/LeaderboardPage.tsx:36-38 | with the slider at 90, the static list shrinks to its three records at 9000 or above, which also fill the podium |
| `MockScenarios.AscendingReversesMock` | frontend-next/app/leaderboard/LeaderboardPage.tsx:73-79 | clicking the active reputation header lists the static records in reverse |

## Left out

- HTTP: the requests, `API_BASE` from the environment, the `response.ok` error paths and JSON decoding are not modelled. The mappings take the decoded record as their argument, with absent fields as `None`.
- Query text: the URL encoding of the parameter list (`URLSearchParams` turned into a string) is not modelled. `AgentsQuery` returns the list of name–value pairs.
- Numbers: JavaScript numbers are doubles, and the model uses unbounded integers. Fractional reputations and earnings, `NaN` and precision loss above 2^53 are not modelled.
- `formatEarnings`: not modelled in either module, because it formats a fractional quotient with `toFixed(1)`.
- MockData.FormatReputation: exact only for integer scores with |score| <= 2^53. Beyond that the double quotient `score / 100` loses precision (and from 10^21 on `toFixed` writes exponential notation), which is not modelled.
- AgentOrder.NameCompare: `localeCompare` is replaced by comparison of character codes, because locale collation tables are outside the model. Every property proved about the sort holds for any total preorder on names.
- JsSemantics.ToLower: maps ASCII letters only. Unicode case mapping is not modelled.
- JsSemantics.Slice: strings are sequences of code points, while JavaScript's `slice` and `length` count UTF-16 code units. For characters outside the Basic Multilingual Plane, which JavaScript stores as surrogate pairs, the two differ, so `TruncateAddress` in both modules and the 13-character length claim hold only for addresses without such characters.
- StableSort.SortInPlace: the engine's sort algorithm is replaced by an insertion sort. Any stable sort under the same consistent comparator gives the same result, and `SortedUnique` proves that uniqueness only for the case without ties.
- React itself is not modelled: rendering, `useMemo` caching (the pipeline is recomputed on each call), and the components that display the results.
- `AgentCard.tsx`, `LeaderboardTable.tsx` and `StatsSummary.tsx` only display values; their `toLocaleString` formatting is not modelled. `SearchFilter.tsx`, where the slider and text box live, is not part of this model. The slider value reaches the page as an integer (the model's `minReputation: int`), so the `parseInt` of the input is not modelled.
- The time range: it is stored and never read, so no derived value takes it as input.
- The deployment script under `scripts/` is not part of this model. It is a one-shot contract deployment.
- `mockStats`: kept as the constant `MockData.MockStats`. It holds fixed figures that nothing derives from the records, so there is nothing to state about it.

## Findings

| source | as written | input that shows it | evidently intended | confidence | as-written member | corrected member |
|---|---|---|---|---|---|---|
| frontend-next/lib/openwork-api.ts:100 | `tiers[tier] \|\| tiers.seedling` looks the tier up on an object literal, which also finds inherited `Object.prototype` members; these are truthy, so the seedling fallback is skipped | tier "constructor" (or "toString", "__proto__", …) yields the `Object` constructor function instead of a badge | every string that is not one of the five tiers gets the seedling badge | medium: not executed; tiers produced by the tier rule never hit it, but the function is exported and takes any string | `OpenworkApi.TierBadgeAsWrittenConstructor` | `OpenworkApi.TierBadge` |
| frontend-next-src/lib/data.ts:102 | the same lookup in the static data module's copy | tier "constructor" yields the `Object` constructor function | the seedling badge for every non-tier | medium: not executed | `MockData.TierBadgeAsWrittenConstructor` | `MockData.TierBadge` |
| frontend-next/lib/openwork-api.ts:81 | `avatars[specialty?.toLowerCase() \|\| ""] \|\| "🤖"` also finds inherited members, so the robot fallback is skipped for them | specialty "Constructor" lower-cases to "constructor" and yields the `Object` constructor function instead of an emoji | the robot for every specialty that is not one of the eight | medium: not executed; specialties come from the server as free text | `OpenworkApi.AvatarAsWrittenConstructor` | `OpenworkApi.AvatarForSpecialty` |
| frontend-next-src/lib/data.ts:113-115 | `truncateAddress` has no empty-string guard | "" yields "..." | "" for an empty address, as the API module's copy returns | low: not executed; none of the static records has an empty address | `MockData.TruncateAgreesExceptEmpty` | `OpenworkApi.TruncateAddress` |
