/** HomeViewModel: one `HomeState` record, replaced on every user event and on every
    `Resource` a repository flow delivers. Repository flows run elsewhere; the view
    model records each flow it starts in `launched`, and each value the flow emits
    comes back as a call of `OnFundsResult`. */
module Home {
  import opened Text
  import opened Seqs
  import opened Model
  import Repository

  datatype HomeState = HomeState(
    isLoading: bool := false,
    funds: seq<MutualFund> := [],
    filteredFunds: seq<MutualFund> := [],
    error: string := "",
    searchQuery: string := "",
    selectedCategory: FundCategory := All)

  datatype HomeEvent = SearchQueryChanged(query: string) | CategorySelected(category: FundCategory) | Refresh

  /** A repository flow the view model starts. */
  datatype Request = LoadTop(limit: int) | Search(query: string)

  /** The limit the home screen asks the repository for. */
  const TopLimit := 100

  /** `filterFunds`: every fund for ALL, otherwise those whose type is the category's display name. */
  function ByCategory(funds: seq<MutualFund>, category: FundCategory): (r: seq<MutualFund>)
    ensures |r| <= |funds|
    ensures category == All ==> r == funds
    ensures category != All ==> forall i :: 0 <= i < |r| ==> r[i].schemeType == Some(category.DisplayName())
  {
    if category == All then funds
    else Filter(funds, (f: MutualFund) => f.schemeType == Some(category.DisplayName()))
  }

  /** The consistency every state of the home screen keeps. */
  predicate Consistent(s: HomeState) {
    s.filteredFunds == ByCategory(s.funds, s.selectedCategory)
  }

  /** The state after the Success, Error or Loading handler of `loadTopMutualFunds` or
      `searchMutualFunds` (both handlers are the same). */
  function AfterFundsResult(s: HomeState, r: Resource<seq<MutualFund>>): (s': HomeState)
    ensures Consistent(s) ==> Consistent(s')
    ensures s'.searchQuery == s.searchQuery && s'.selectedCategory == s.selectedCategory
  {
    match r
    case Success(data) =>
      var funds := data.GetOr([]);
      s.(funds := funds, isLoading := false, error := "", filteredFunds := ByCategory(funds, s.selectedCategory))
    case Error(message) => s.(error := message.GetOr("Unknown error"), isLoading := false)
    case Loading => s.(isLoading := true)
  }

  /** What the debounced search job starts once it fires. */
  function RequestFor(query: string): (r: Request)
    ensures r.LoadTop? <==> IsBlank(query)
    ensures r.LoadTop? ==> r.limit == TopLimit
    ensures r.Search? ==> r.query == query
  {
    if IsBlank(query) then LoadTop(TopLimit) else Search(query)
  }

  // ---------------------------------------------------------------------------
  // Properties of the reducer

  /** Outside ALL, the filtered list is the order-preserving sublist of funds of that type. */
  lemma {:induction false} ByCategorySpec(funds: seq<MutualFund>, category: FundCategory)
    ensures category == All ==> ByCategory(funds, category) == funds
    ensures IsSubsequence(ByCategory(funds, category), funds)
    ensures category != All ==>
      (forall i :: 0 <= i < |ByCategory(funds, category)| ==>
        ByCategory(funds, category)[i].schemeType == Some(category.DisplayName()))
      && (forall i :: 0 <= i < |funds| && funds[i].schemeType == Some(category.DisplayName()) ==>
        funds[i] in ByCategory(funds, category))
    ensures forall f :: multiset(ByCategory(funds, category))[f] ==
                (if category == All || f.schemeType == Some(category.DisplayName()) then multiset(funds)[f] else 0)
  {
    if category == All {
      SubsequenceOfSelf(funds);
    } else {
      var p := (f: MutualFund) => f.schemeType == Some(category.DisplayName());
      FilterIsSubsequence(funds, p);
      FilterCount(funds, p);
      forall i | 0 <= i < |ByCategory(funds, category)|
        ensures ByCategory(funds, category)[i].schemeType == Some(category.DisplayName())
      {
        assert p(Filter(funds, p)[i]);
      }
      forall i | 0 <= i < |funds| && funds[i].schemeType == Some(category.DisplayName())
        ensures funds[i] in ByCategory(funds, category)
      {
        assert p(funds[i]);
      }
    }
  }

  /** Filtering the filtered list again by the same category changes nothing. */
  lemma ByCategoryIdempotent(funds: seq<MutualFund>, category: FundCategory)
    ensures ByCategory(ByCategory(funds, category), category) == ByCategory(funds, category)
  {
    if category != All {
      FilterIdempotent(funds, (f: MutualFund) => f.schemeType == Some(category.DisplayName()));
    }
  }

  /** Every handled Resource keeps the state consistent; Error and Loading leave the lists alone. */
  lemma AfterFundsResultSpec(s: HomeState, r: Resource<seq<MutualFund>>)
    requires Consistent(s)
    ensures Consistent(AfterFundsResult(s, r))
    ensures AfterFundsResult(s, r).searchQuery == s.searchQuery
    ensures AfterFundsResult(s, r).selectedCategory == s.selectedCategory
    ensures !r.Success? ==>
      AfterFundsResult(s, r).funds == s.funds && AfterFundsResult(s, r).filteredFunds == s.filteredFunds
    ensures r.Success? ==> AfterFundsResult(s, r).funds == r.data.GetOr([]) && AfterFundsResult(s, r).error == ""
    ensures AfterFundsResult(s, r).isLoading <==> r.Loading?
    ensures r.Error? ==> AfterFundsResult(s, r).error == r.message.GetOr("Unknown error")
    ensures r.Loading? ==> AfterFundsResult(s, r) == s.(isLoading := true)
  {
  }

  /** End to end: the two values the top-funds flow emits leave the home screen not
      loading, either showing the first 100 popular funds or one of the repository's
      three messages with the previous lists kept. */
  lemma TopFundsIntoHome(s: HomeState, api: Repository.Outcome<seq<Repository.MutualFundListDto>>)
    requires Consistent(s)
    ensures var s' := AfterFundsResult(AfterFundsResult(s, Loading), Repository.TopFundsResult(api, TopLimit));
      && Consistent(s')
      && !s'.isLoading
      && (api.Done? ==> s'.funds == Repository.TopFunds(api.value, TopLimit) && s'.error == "")
      && (api.Thrown? ==>
            s'.funds == s.funds && s'.filteredFunds == s.filteredFunds
            && s'.error == Repository.ErrorMessage(api.failure) && s'.error != "Unknown error")
  {
    Repository.ErrorMessageInjective(Repository.Http, Repository.Http);
    if api.Thrown? {
      Repository.ErrorMessageInjective(api.failure, api.failure);
    }
  }

  // ---------------------------------------------------------------------------
  // The view model

  class HomeViewModel {
    var state: HomeState
    /** `searchJob`: the query of the debounced job a search-query change has scheduled
        and whose delay has not yet passed. */
    var searchJob: Option<string>
    /** Every repository flow started so far, oldest first. */
    var launched: seq<Request>

    predicate Valid()
      reads this
    {
      Consistent(state)
    }

    /** `init`: default state, and the top funds are loaded straight away. */
    constructor()
      ensures Valid()
      ensures state == HomeState()
      ensures !state.isLoading && state.funds == [] && state.filteredFunds == []
      ensures state.error == "" && state.searchQuery == "" && state.selectedCategory == All
      ensures searchJob == None
      ensures launched == [LoadTop(TopLimit)]
    {
      state := HomeState();
      searchJob := None;
      launched := [LoadTop(TopLimit)];
    }

    method OnEvent(event: HomeEvent)
      requires Valid()
      modifies this
      ensures Valid()
      ensures event.SearchQueryChanged? ==>
        && state == old(state).(searchQuery := event.query)
        && searchJob == Some(event.query)
        && launched == old(launched)
      ensures event.CategorySelected? ==>
        && state == old(state).(selectedCategory := event.category,
                                filteredFunds := ByCategory(old(state).funds, event.category))
        && searchJob == old(searchJob)
        && launched == old(launched)
      ensures event.Refresh? ==>
        state == old(state) && searchJob == old(searchJob) && launched == old(launched) + [LoadTop(TopLimit)]
    {
      match event {
        case SearchQueryChanged(query) =>
          state := state.(searchQuery := query);
          // cancels the previous job and schedules a new one
          searchJob := Some(query);
        case CategorySelected(category) =>
          state := state.(selectedCategory := category);
          FilterFunds();
        case Refresh =>
          LoadTopMutualFunds();
      }
    }

    /** The debounce delay of the scheduled search job has passed: it starts its flow. */
    method DebounceElapsed()
      requires Valid()
      modifies this
      ensures Valid() && state == old(state) && searchJob == None
      ensures launched == old(launched) + (if old(searchJob).Some? then [RequestFor(old(searchJob).value)] else [])
    {
      if searchJob.Some? {
        var query := searchJob.value;
        if IsBlank(query) {
          LoadTopMutualFunds();
        } else {
          SearchMutualFunds(query);
        }
      }
      searchJob := None;
    }

    method LoadTopMutualFunds()
      modifies this`launched
      ensures launched == old(launched) + [LoadTop(TopLimit)]
    {
      launched := launched + [LoadTop(TopLimit)];
    }

    method SearchMutualFunds(query: string)
      modifies this`launched
      ensures launched == old(launched) + [Search(query)]
    {
      launched := launched + [Search(query)];
    }

    /** One value emitted by a flow this view model started. */
    method OnFundsResult(result: Resource<seq<MutualFund>>)
      requires Valid()
      modifies this`state
      ensures Valid()
      ensures state == AfterFundsResult(old(state), result)
    {
      match result {
        case Success(data) =>
          state := state.(funds := data.GetOr([]), isLoading := false, error := "");
          FilterFunds();
        case Error(message) =>
          state := state.(error := message.GetOr("Unknown error"), isLoading := false);
        case Loading =>
          state := state.(isLoading := true);
      }
    }

    method FilterFunds()
      modifies this`state
      ensures Valid()
      ensures state == old(state).(filteredFunds := ByCategory(old(state).funds, old(state).selectedCategory))
    {
      var funds, category := state.funds, state.selectedCategory;
      var filtered := if category == All then funds
        else Filter(funds, (f: MutualFund) => f.schemeType == Some(category.DisplayName()));
      state := state.(filteredFunds := filtered);
    }
  }
}
