# Fund explorer: repository rules and screen state, in Dafny

This project models the logic core of an Android mutual-fund browser. The app lists
Indian mutual funds from a public NAV API, classifies each scheme by keywords in its
name, searches by name, picks "top funds" from well-known fund houses, and shows a
fund's NAV history for a chosen time range.

Modules, one per concern of the app:

- `Model` (`model.dfy`): the domain records `MutualFund`, `MutualFundDetail` and
  `NavData`, and the enums `FundCategory` and `TimeRange` with their display names and
  month counts. It also holds the three-state `Resource` wrapper (Loading, Success,
  Error) that every repository flow emits. Kotlin's nullable fields are `Option`.
- `Text` (`text.dfy`): the string operations the rules rely on. These are `lowercase()`,
  `contains(...)` with and without `ignoreCase`, and `isBlank()`. `Contains` is a
  recursive search, proved equal to a reference "occurs at some position" definition.
- `Seqs` (`seqs.dfy`): Kotlin's `filter`, `take`, `map` and `reversed` on lists, with
  lemmas about order-preserving sublists.
- `Repository` (`repository.dfy`): `MutualFundRepositoryImpl`.
  - `CategorizeScheme` is the first-match keyword classification.
  - The DTO-to-domain mapping and the search and top-funds selections are here.
  - The shared error mapping turns HTTP, IO and other failures into three fixed messages.
  - Each of the four flows is a method. It takes the outcome of the API call as a value
    and returns the sequence of `Resource`s it emits: Loading, then one Success or Error.
  - A negative top-funds limit makes `take` throw `IllegalArgumentException`, which the
    generic catch turns into "An unexpected error occurred"; `TopFundsResult` gives that
    Error.
- `Dates` (`dates.dfy`): NAV dates as (day, month, year) triples.
  - Strict `dd-MM-yyyy` parsing, with a formatting round trip.
  - `MonthsBefore` moves a date back by whole months the way
    `Calendar.add(Calendar.MONTH, -n)` does: the year carries and the day is pinned to
    the new month's length.
- `Home` (`home_view_model.dfy`): `HomeViewModel` as a class.
  - `state` is a `HomeState` record that every event and every flow result replaces.
  - `searchJob` holds the pending debounced query.
  - `launched` records the repository flows the view model has started.
  - `Consistent` is kept by every method: `filteredFunds` is `funds` filtered by the
    selected category.
- `Detail` (`detail_view_model.dfy`): `DetailViewModel` as a class over a `DetailState`
  record.
  - `RecentNav` is `filterNavData`: keep the entries whose date parses and is strictly
    after the cutoff, then reverse them.
  - The current date is a parameter, `today`.
- `Examples` (`examples.dfy`): concrete cases of the rules. "SBI Bluechip Growth" is a
  top Equity fund, and "XYZ Bond Fund" is a Debt fund that a search for "bond" finds.

## Model

| member | source | states |
|---|---|---|
| `Model.DisplayNameInjective` | app/src/main/java/com/example/fundexplorer/data/model.kt:28-35 | two categories have the same display name exactly when they are the same category, so matching on `displayName` picks one category |
| `Model.TimeRangeMonthsIncreasing` | app/src/main/java/com/example/fundexplorer/data/model.kt:37-42 | the ranges cover strictly more months in declaration order (1, 3, 6, 12), and their labels are pairwise distinct |
| `Text.ContainsIffOccurs` | app/src/main/java/com/example/fundexplorer/Reposatory/MutualFundRepositoryImpl.kt:123-125 | the recursive substring search succeeds exactly when the pattern occurs at some position of the string |
| `Text.ContainsEmpty` | app/src/main/java/com/example/fundexplorer/Reposatory/MutualFundRepositoryImpl.kt:67-68 | every string contains the empty string, as Kotlin's `contains("")` does |
| `Text.LowerIdempotent` | app/src/main/java/com/example/fundexplorer/Reposatory/MutualFundRepositoryImpl.kt:123 | lower-casing twice equals lower-casing once, and a string equals its lower-cased form ignoring case |
| `Text.ContainsIgnoreCaseInsensitive` | app/src/main/java/com/example/fundexplorer/Reposatory/MutualFundRepositoryImpl.kt:67-68 | `contains(query, ignoreCase = true)` gives the same answer when the name or the query changes only in letter case |
| `Repository.ErrorMessageInjective` | app/src/main/java/com/example/fundexplorer/Reposatory/MutualFundRepositoryImpl.kt:31-36 | the three catch messages are distinct, so the message identifies the failure kind; none is empty or the view models' "Unknown error" |
| `Repository.CategorizeScheme` | app/src/main/java/com/example/fundexplorer/Reposatory/MutualFundRepositoryImpl.kt:122-141 | the category of a scheme name is one of "Equity", "Debt", "Hybrid", "Solution Oriented", "Other", and never "All Funds" |
| `Repository.CategorizeIsFirstMatch` | app/src/main/java/com/example/fundexplorer/Reposatory/MutualFundRepositoryImpl.kt:122-141 | the category is c exactly when c is the first group, in the order Equity, Debt, Hybrid, Solution Oriented, with a keyword in the lower-cased name; it is "Other" exactly when no group matches |
| `Repository.CategorizeIgnoresCase` | app/src/main/java/com/example/fundexplorer/Reposatory/MutualFundRepositoryImpl.kt:122-123 | names that differ only in letter case get the same category |
| `Repository.CategorizePrecedence` | app/src/main/java/com/example/fundexplorer/Reposatory/MutualFundRepositoryImpl.kt:124-131 | "growth" anywhere in the name gives "Equity" whatever else it contains; "income" without an equity keyword gives "Debt" even next to "hybrid" |
| `Repository.ToMutualFund` | app/src/main/java/com/example/fundexplorer/Reposatory/MutualFundRepositoryImpl.kt:23-29 | a list entry becomes a fund with the same code and name, typed with the name's category, so the type is always present and never "All Funds" |
| `Repository.AllFunds` | app/src/main/java/com/example/fundexplorer/Reposatory/MutualFundRepositoryImpl.kt:23-29 | the full list has one fund per DTO, in API order, with its code and name and the name's category as type |
| `Repository.ToDetail` | app/src/main/java/com/example/fundexplorer/Reposatory/MutualFundRepositoryImpl.kt:45-53 | the detail has one NAV entry per entry of the response, and its type is never null |
| `Repository.DetailSpec` | app/src/main/java/com/example/fundexplorer/Reposatory/MutualFundRepositoryImpl.kt:45-53 | the detail keeps code, name and fund house; the NAV history has the response's length and order; the type is `scheme_type` when given, otherwise the name's category, so it is never null |
| `Repository.SearchFunds` | app/src/main/java/com/example/fundexplorer/Reposatory/MutualFundRepositoryImpl.kt:67-76 | the search result is no longer than the API's list, and every fund in it contains the query ignoring case |
| `Repository.SearchSpec` | app/src/main/java/com/example/fundexplorer/Reposatory/MutualFundRepositoryImpl.kt:67-76 | the search result is exactly the full list filtered by "name contains the query ignoring case": an order-preserving sublist, with each matching fund present as many times as in the full list and no other fund |
| `Repository.SearchEmptyQuery` | app/src/main/java/com/example/fundexplorer/Reposatory/MutualFundRepositoryImpl.kt:67-70 | an empty query returns the full list |
| `Repository.SearchIgnoresCase` | app/src/main/java/com/example/fundexplorer/Reposatory/MutualFundRepositoryImpl.kt:67-70 | queries that differ only in letter case give the same result |
| `Repository.PopularFunds` | app/src/main/java/com/example/fundexplorer/Reposatory/MutualFundRepositoryImpl.kt:93-104 | the popular funds are the API entries naming one of the nine fund-house fragments, in API order (an order-preserving sublist), each such entry as many times as in the API's list and no other entry |
| `Repository.TopFunds` | app/src/main/java/com/example/fundexplorer/Reposatory/MutualFundRepositoryImpl.kt:93-110 | the top funds number at most `limit` and at most the API's list, and each names a listed fund house |
| `Repository.TopFundsSpec` | app/src/main/java/com/example/fundexplorer/Reposatory/MutualFundRepositoryImpl.kt:93-110 | the top funds are the first min(limit, matches) of the full fund list filtered by fund house, in API order with duplicates kept; they form a sublist of the full list, and each name contains one of the nine fragments |
| `Repository.FlowsSettle` | app/src/main/java/com/example/fundexplorer/Reposatory/MutualFundRepositoryImpl.kt:87-119 | a failed API call gives the same Error message on the three list flows (all funds, search, top funds); a successful call gives a Success with a list, except that the top-funds flow gives Success exactly when the limit is not negative |
| `Repository.AllFundsResult` | app/src/main/java/com/example/fundexplorer/Reposatory/MutualFundRepositoryImpl.kt:21-37 | after Loading, a failed call gives the Error with its kind's message; a successful one gives a Success with one fund per DTO |
| `Repository.DetailResult` | app/src/main/java/com/example/fundexplorer/Reposatory/MutualFundRepositoryImpl.kt:41-61 | after Loading, a failed call gives the Error with its kind's message; a successful one gives a Success whose detail has one NAV entry per response entry |
| `Repository.SearchResult` | app/src/main/java/com/example/fundexplorer/Reposatory/MutualFundRepositoryImpl.kt:65-84 | after Loading, a failed call gives the Error with its kind's message; a successful one gives a Success listing only funds that contain the query ignoring case |
| `Repository.TopFundsResult` | app/src/main/java/com/example/fundexplorer/Reposatory/MutualFundRepositoryImpl.kt:88-119 | after Loading, a failed call gives the Error with its kind's message; a negative limit gives "An unexpected error occurred"; otherwise a Success of at most `limit` funds |
| `Repository.GetAllMutualFunds` | app/src/main/java/com/example/fundexplorer/Reposatory/MutualFundRepositoryImpl.kt:20-38 | the flow emits Loading and then the all-funds result for the API outcome |
| `Repository.GetMutualFundDetails` | app/src/main/java/com/example/fundexplorer/Reposatory/MutualFundRepositoryImpl.kt:40-62 | the flow emits Loading and then the detail result for the API outcome |
| `Repository.SearchMutualFunds` | app/src/main/java/com/example/fundexplorer/Reposatory/MutualFundRepositoryImpl.kt:64-85 | the flow emits Loading and then the search result for the API outcome and query |
| `Repository.GetTopMutualFunds` | app/src/main/java/com/example/fundexplorer/Reposatory/MutualFundRepositoryImpl.kt:87-120 | the flow emits Loading and then the top-funds result; a negative limit makes `take` throw, which surfaces as "An unexpected error occurred" |
| `Dates.ParseDate` | app/src/main/java/com/example/fundexplorer/presentation/viewmodel/DetailViewModel.kt:90-97 | a date string parses exactly when it has the `dd-MM-yyyy` shape of digits and dashes; the fields then fit two, two and four digits |
| `Dates.ParseFormatRoundTrip` | app/src/main/java/com/example/fundexplorer/presentation/viewmodel/DetailViewModel.kt:90-97 | every date that `dd-MM-yyyy` can show parses back to the same day, month and year |
| `Dates.FormatParseRoundTrip` | app/src/main/java/com/example/fundexplorer/presentation/viewmodel/DetailViewModel.kt:90-97 | only zero-padded `dd-MM-yyyy` strings parse: formatting a parsed date gives the same string back |
| `Dates.MonthsBefore` | app/src/main/java/com/example/fundexplorer/presentation/viewmodel/DetailViewModel.kt:91-93 | the cutoff `Calendar.add(MONTH, -n)` gives (also used by `Detail.Cutoff`) has a month from 1 to 12 and a day no later than that month's last day and no later than today's day |
| `Dates.MonthsBeforeSpec` | app/src/main/java/com/example/fundexplorer/presentation/viewmodel/DetailViewModel.kt:91-93 | moving a valid date back n months gives a valid date exactly n months earlier that keeps the day of the month, or takes the new month's last day when the new month is shorter |
| `Dates.MonthsBeforeAntitone` | app/src/main/java/com/example/fundexplorer/presentation/viewmodel/DetailViewModel.kt:91-93 | moving back further never gives a later cutoff, and moving back at least one month gives a cutoff strictly before today |
| `Dates.AfterEarlier` | app/src/main/java/com/example/fundexplorer/presentation/viewmodel/DetailViewModel.kt:98 | a date after some cutoff is also after every earlier cutoff |
| `Home.ByCategory` | app/src/main/java/com/example/fundexplorer/presentation/viewmodel/HomeViewModel.kt:115-124 | the filtered list is no longer than the fund list; for ALL it is the fund list, otherwise each fund in it has the category's display name as type |
| `Home.AfterFundsResult` | app/src/main/java/com/example/fundexplorer/presentation/viewmodel/HomeViewModel.kt:69-87 | handling a result keeps a consistent state consistent, and leaves the query and the category alone |
| `Home.RequestFor` | app/src/main/java/com/example/fundexplorer/presentation/viewmodel/HomeViewModel.kt:52-56 | the debounced job starts the top-funds flow with limit 100 exactly when the query is blank (`isBlank`), and otherwise a search for that query |
| `Home.ByCategorySpec` | app/src/main/java/com/example/fundexplorer/presentation/viewmodel/HomeViewModel.kt:115-124 | for ALL the filtered list is the fund list; otherwise it is the order-preserving sublist whose type is the category's display name, with each such fund as many times as in the fund list and no other fund |
| `Home.ByCategoryIdempotent` | app/src/main/java/com/example/fundexplorer/presentation/viewmodel/HomeViewModel.kt:115-124 | filtering the filtered list again by the same category changes nothing |
| `Home.AfterFundsResultSpec` | app/src/main/java/com/example/fundexplorer/presentation/viewmodel/HomeViewModel.kt:69-87 | every result keeps the state consistent and leaves query and category alone; Success takes the data (empty if null) and clears the error; Error sets the error to the message or "Unknown error" and keeps both lists; Loading only raises the loading flag |
| `Home.TopFundsIntoHome` | app/src/main/java/com/example/fundexplorer/presentation/viewmodel/HomeViewModel.kt:67-89 | after the top-funds flow with limit 100 the screen is not loading, and it shows either the top 100 popular funds or one of the repository's three messages with the previous lists kept |
| `Home.HomeViewModel.constructor` | app/src/main/java/com/example/fundexplorer/presentation/viewmodel/HomeViewModel.kt:22-43 | the initial state is not loading, with empty lists, empty error, empty query and category ALL; the top-funds flow with limit 100 is started |
| `Home.HomeViewModel.OnEvent` | app/src/main/java/com/example/fundexplorer/presentation/viewmodel/HomeViewModel.kt:45-65 | a query change sets only `searchQuery` and replaces the pending search job; a category change sets only the category and the filtered list; refresh starts the top-funds flow and leaves the state alone |
| `Home.HomeViewModel.DebounceElapsed` | app/src/main/java/com/example/fundexplorer/presentation/viewmodel/HomeViewModel.kt:50-57 | when the debounce delay passes, the pending query starts the top-funds flow if it is blank and a search otherwise; the state is unchanged and no job is left pending |
| `Home.HomeViewModel.LoadTopMutualFunds` | app/src/main/java/com/example/fundexplorer/presentation/viewmodel/HomeViewModel.kt:67-68 | starts the top-funds flow with limit 100 |
| `Home.HomeViewModel.SearchMutualFunds` | app/src/main/java/com/example/fundexplorer/presentation/viewmodel/HomeViewModel.kt:91-92 | starts the search flow for the query |
| `Home.HomeViewModel.OnFundsResult` | app/src/main/java/com/example/fundexplorer/presentation/viewmodel/HomeViewModel.kt:69-87 | handling one emitted value gives the state `AfterFundsResult` describes, and keeps the state consistent |
| `Home.HomeViewModel.FilterFunds` | app/src/main/java/com/example/fundexplorer/presentation/viewmodel/HomeViewModel.kt:115-124 | only `filteredFunds` changes, to the fund list filtered by the selected category |
| `Detail.RecentNav` | app/src/main/java/com/example/fundexplorer/presentation/viewmodel/DetailViewModel.kt:95-102 | the chart data is no longer than the NAV history, and every entry in it has a parseable date after the cutoff |
| `Detail.Refiltered` | app/src/main/java/com/example/fundexplorer/presentation/viewmodel/DetailViewModel.kt:88-104 | re-filtering changes nothing but the chart data, and nothing at all without a detail; with a detail the chart data becomes the recent entries of its history for the range's cutoff |
| `Detail.AfterDetailResult` | app/src/main/java/com/example/fundexplorer/presentation/viewmodel/DetailViewModel.kt:66-84 | handling a result keeps the selected range, and leaves the screen loading exactly for Loading |
| `Detail.RecentNavSpec` | app/src/main/java/com/example/fundexplorer/presentation/viewmodel/DetailViewModel.kt:95-102 | the chart data is the history's entries whose date parses and is after the cutoff, in reverse order: reversed, it is an order-preserving sublist of the history, and each such entry occurs as many times as in the history, no other entry at all |
| `Detail.RecentNavMonotone` | app/src/main/java/com/example/fundexplorer/presentation/viewmodel/DetailViewModel.kt:95-102 | filtering with an earlier cutoff keeps every entry a later cutoff keeps |
| `Detail.WiderRangeKeepsMore` | app/src/main/java/com/example/fundexplorer/presentation/viewmodel/DetailViewModel.kt:88-102 | a time range with more months keeps every NAV entry a shorter range keeps |
| `Detail.AfterDetailResultSpec` | app/src/main/java/com/example/fundexplorer/presentation/viewmodel/DetailViewModel.kt:66-84 | the selected range is kept; Success shows the new detail and clears the error, with the chart the new detail's recent entries for that range, or the old chart when the data is null; Error keeps the detail and chart data and sets the message or "Unknown error"; only Loading leaves the screen loading |
| `Detail.DetailFlowIntoScreen` | app/src/main/java/com/example/fundexplorer/presentation/viewmodel/DetailViewModel.kt:64-86 | after the detail flow the screen is not loading, and it shows either the API's detail with its history filtered by the selected range, or one of the repository's three messages with the previous detail kept |
| `Detail.DetailViewModel.constructor` | app/src/main/java/com/example/fundexplorer/presentation/viewmodel/DetailViewModel.kt:22-50 | the initial state is one month, no detail, no chart data, not loading, empty error; the detail flow starts exactly when a scheme code was passed |
| `Detail.DetailViewModel.OnEvent` | app/src/main/java/com/example/fundexplorer/presentation/viewmodel/DetailViewModel.kt:52-62 | selecting a range stores it and re-filters the same detail; refresh reloads the shown scheme's code and does nothing without a detail |
| `Detail.DetailViewModel.LoadFundDetails` | app/src/main/java/com/example/fundexplorer/presentation/viewmodel/DetailViewModel.kt:64-65 | starts the detail flow for the scheme code |
| `Detail.DetailViewModel.OnDetailResult` | app/src/main/java/com/example/fundexplorer/presentation/viewmodel/DetailViewModel.kt:66-84 | handling one emitted value gives the state `AfterDetailResult` describes; the chart data stays the recent window of the shown detail |
| `Detail.DetailViewModel.FilterNavData` | app/src/main/java/com/example/fundexplorer/presentation/viewmodel/DetailViewModel.kt:88-105 | without a detail nothing changes; otherwise only the chart data changes, to the recent entries for the range's cutoff, oldest first |
| `Examples.SbiBluechipGrowth` | app/src/main/java/com/example/fundexplorer/Reposatory/MutualFundRepositoryImpl.kt:122-127 | "SBI Bluechip Growth" is Equity, comes from a listed fund house, and does not contain "bond" |
| `Examples.XyzBondFund` | app/src/main/java/com/example/fundexplorer/Reposatory/MutualFundRepositoryImpl.kt:129-131 | "XYZ Bond Fund" is Debt, comes from no listed fund house, and contains "bond" ignoring case |
| `Examples.TopScenario` | app/src/main/java/com/example/fundexplorer/Reposatory/MutualFundRepositoryImpl.kt:93-110 | of those two funds, the top 50 are the SBI fund alone, typed Equity |
| `Examples.SearchScenario` | app/src/main/java/com/example/fundexplorer/Reposatory/MutualFundRepositoryImpl.kt:67-76 | of those two funds, a search for "bond" finds the XYZ fund alone, typed Debt |

## Left out

- No cache: every flow calls the API afresh (`MutualFundRepositoryImpl.kt:23`, `:67`,
  `:90`).
- The interface's default top-funds limit of 50 (`MutualFundRepository.kt:13`) is not a
  separate operation: the home screen always passes 100, and `TopFundsResult` takes the
  limit as a parameter.
- `Resource` is modelled as Loading | Success(nullable data) | Error(nullable message),
  which is what the view models' `?: emptyList()` and `?: "Unknown error"` need.
- Network, Retrofit and Gson. The API call is not modelled. Its outcome is a parameter:
  the DTOs, or an HTTP, IO or other failure. Dependency injection is not modelled.
- Coroutines, `launchIn` and the 500 ms debounce.
  - Each started flow is recorded in `launched`.
  - Each value a flow emits arrives as a separate `OnFundsResult` or `OnDetailResult` call,
    in any order and at any time.
  - `DebounceElapsed` is the moment the delay passes. `searchJob?.cancel()` cancels only
    the pending debounce, which is replacing `searchJob`. Flows are started with
    `launchIn(viewModelScope)`, outside that job, so a flow is never cancelled: results
    of a superseded search or top-funds load still arrive and overwrite `funds`.
- The clock is a parameter: `today` stands for `Calendar.getInstance()`.
- `Detail.IsRecent` compares calendar dates, not instants. The cutoff carries the current
  time of day and a parsed NAV date is midnight; `Date.after` is strict, so in both the
  code and the model an entry dated on the cutoff day is dropped and one dated the day
  after is kept.
- `SimpleDateFormat` leniency and locale. Only exact `dd-MM-yyyy` strings of digits
  parse. Unpadded fields and out-of-range days or months that the lenient parser would
  roll over are treated as unparseable or compared as written. Time zones and eras are
  not modelled.
- Case folding and whitespace are ASCII only. `lowercase()` and `isBlank()` act on
  ASCII characters; Unicode case mapping and Unicode whitespace are not modelled.
- The `scheme_category` field of the detail response is carried but unused, as in the
  code.
- Compose screens, navigation, the NAV statistics and the chart are not part of this
  model: they are UI and floating-point drawing.
