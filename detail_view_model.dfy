/** DetailViewModel: one `DetailState` record for the fund detail screen, replaced on
    every event and on every `Resource` the detail flow delivers. The clock is a
    parameter (`today`) of every operation that filters the NAV history. */
module Detail {
  import opened Seqs
  import opened Model
  import opened Dates
  import Repository

  datatype DetailState = DetailState(
    isLoading: bool := false,
    fundDetail: Option<MutualFundDetail> := None,
    filteredNavData: seq<NavData> := [],
    selectedTimeRange: TimeRange := OneMonth,
    error: string := "")

  datatype DetailEvent = TimeRangeSelected(timeRange: TimeRange) | Refresh

  /** The NAV entry's date parses and is strictly later than the cutoff. */
  predicate IsRecent(n: NavData, cutoff: Date) {
    var d := ParseDate(n.date);
    d.Some? && After(d.value, cutoff)
  }

  /** The entries kept for the chart: the recent ones, in reverse API order (oldest first). */
  function RecentNav(history: seq<NavData>, cutoff: Date): (r: seq<NavData>)
    ensures |r| <= |history|
    ensures forall i :: 0 <= i < |r| ==> IsRecent(r[i], cutoff)
  {
    Reverse(Filter(history, (n: NavData) => IsRecent(n, cutoff)))
  }

  /** Now minus the range's months. */
  function Cutoff(today: Date, range: TimeRange): Date {
    MonthsBefore(today, range.Months())
  }

  /** `filterNavData(range)`: nothing happens without a detail. */
  function Refiltered(s: DetailState, range: TimeRange, today: Date): (s': DetailState)
    ensures s'.(filteredNavData := s.filteredNavData) == s
    ensures s.fundDetail.None? ==> s' == s
    ensures s.fundDetail.Some? ==>
      s'.filteredNavData == RecentNav(s.fundDetail.value.navHistory, Cutoff(today, range))
  {
    match s.fundDetail
    case None => s
    case Some(detail) => s.(filteredNavData := RecentNav(detail.navHistory, Cutoff(today, range)))
  }

  /** The state after the Success, Error or Loading handler of `loadFundDetails`. */
  function AfterDetailResult(s: DetailState, r: Resource<MutualFundDetail>, today: Date): (s': DetailState)
    ensures s'.selectedTimeRange == s.selectedTimeRange
    ensures s'.isLoading <==> r.Loading?
  {
    match r
    case Success(data) => Refiltered(s.(fundDetail := data, isLoading := false, error := ""), s.selectedTimeRange, today)
    case Error(message) => s.(error := message.GetOr("Unknown error"), isLoading := false)
    case Loading => s.(isLoading := true)
  }

  // ---------------------------------------------------------------------------
  // Properties

  /** The chart data is the reverse of the order-preserving sublist of entries whose date
      parses and is after the cutoff; entries with unparseable dates are dropped. */
  lemma {:induction false} RecentNavSpec(history: seq<NavData>, cutoff: Date)
    ensures |RecentNav(history, cutoff)| <= |history|
    ensures IsSubsequence(Reverse(RecentNav(history, cutoff)), history)
    ensures forall i :: 0 <= i < |RecentNav(history, cutoff)| ==> IsRecent(RecentNav(history, cutoff)[i], cutoff)
    ensures forall i :: 0 <= i < |history| && IsRecent(history[i], cutoff) ==>
      history[i] in RecentNav(history, cutoff)
    ensures forall n :: multiset(RecentNav(history, cutoff))[n] ==
                (if IsRecent(n, cutoff) then multiset(history)[n] else 0)
  {
    ReverseFilterSpec(history, (n: NavData) => IsRecent(n, cutoff));
  }

  /** An earlier cutoff keeps every entry a later one keeps. */
  lemma RecentNavMonotone(history: seq<NavData>, near: Date, far: Date)
    requires !After(far, near)
    ensures forall i :: 0 <= i < |RecentNav(history, near)| ==> RecentNav(history, near)[i] in RecentNav(history, far)
  {
    var p := (n: NavData) => IsRecent(n, near);
    var q := (n: NavData) => IsRecent(n, far);
    forall i | 0 <= i < |history| && p(history[i])
      ensures q(history[i])
    {
      AfterEarlier(ParseDate(history[i].date).value, near, far);
    }
    ReverseFilterWeaker(history, p, q);
  }

  /** A longer time range keeps every entry a shorter one keeps. */
  lemma WiderRangeKeepsMore(history: seq<NavData>, today: Date, shorter: TimeRange, longer: TimeRange)
    requires IsValid(today) && shorter.Months() <= longer.Months()
    ensures forall i :: 0 <= i < |RecentNav(history, Cutoff(today, shorter))| ==>
      RecentNav(history, Cutoff(today, shorter))[i] in RecentNav(history, Cutoff(today, longer))
  {
    MonthsBeforeAntitone(today, shorter.Months(), longer.Months());
    RecentNavMonotone(history, Cutoff(today, shorter), Cutoff(today, longer));
  }

  /** Error keeps the previous detail and chart data; Success shows the new detail filtered
      by the selected range; Loading only raises the flag. */
  lemma AfterDetailResultSpec(s: DetailState, r: Resource<MutualFundDetail>, today: Date)
    ensures AfterDetailResult(s, r, today).selectedTimeRange == s.selectedTimeRange
    ensures AfterDetailResult(s, r, today).isLoading <==> r.Loading?
    ensures r.Error? ==>
      && AfterDetailResult(s, r, today).fundDetail == s.fundDetail
      && AfterDetailResult(s, r, today).filteredNavData == s.filteredNavData
      && AfterDetailResult(s, r, today).error == r.message.GetOr("Unknown error")
    ensures r.Success? ==>
      && AfterDetailResult(s, r, today).fundDetail == r.data
      && AfterDetailResult(s, r, today).error == ""
      && (r.data.Some? ==>
            AfterDetailResult(s, r, today).filteredNavData
              == RecentNav(r.data.value.navHistory, Cutoff(today, s.selectedTimeRange)))
    ensures r.Success? && r.data.None? ==> AfterDetailResult(s, r, today).filteredNavData == s.filteredNavData
    ensures r.Loading? ==> AfterDetailResult(s, r, today) == s.(isLoading := true)
  {
  }

  /** End to end: the detail flow's result leaves the screen showing the API's history,
      filtered by the selected range, or one of the repository's messages. */
  lemma DetailFlowIntoScreen(s: DetailState, api: Repository.Outcome<Repository.MutualFundDetailDto>, today: Date)
    ensures var s' := AfterDetailResult(AfterDetailResult(s, Loading, today), Repository.DetailResult(api), today);
      && !s'.isLoading
      && (api.Done? ==>
            && s'.fundDetail == Some(Repository.ToDetail(api.value))
            && s'.filteredNavData == RecentNav(Repository.ToDetail(api.value).navHistory, Cutoff(today, s.selectedTimeRange))
            && |s'.filteredNavData| <= |api.value.data|)
      && (api.Thrown? ==> s'.fundDetail == s.fundDetail && s'.error == Repository.ErrorMessage(api.failure))
  {
    if api.Done? {
      RecentNavSpec(Repository.ToDetail(api.value).navHistory, Cutoff(today, s.selectedTimeRange));
    }
  }

  // ---------------------------------------------------------------------------
  // The view model

  class DetailViewModel {
    var state: DetailState
    /** Scheme codes whose detail flow has been started, oldest first. */
    var launched: seq<string>
    /** The cutoff the chart data was last filtered with. */
    ghost var shownCutoff: Date

    /** Whenever a detail is shown, the chart data is its recent window for some cutoff. */
    ghost predicate Valid()
      reads this
    {
      state.fundDetail.Some? ==> state.filteredNavData == RecentNav(state.fundDetail.value.navHistory, shownCutoff)
    }

    /** `init`: the default state, and the detail of the navigation argument is loaded if there is one. */
    constructor(schemeCode: Option<string>)
      ensures Valid()
      ensures state == DetailState()
      ensures state.selectedTimeRange == OneMonth && state.fundDetail == None && state.filteredNavData == []
      ensures !state.isLoading && state.error == ""
      ensures launched == (if schemeCode.Some? then [schemeCode.value] else [])
    {
      state := DetailState();
      launched := [];
      shownCutoff := Date(1, 1, 1970);
      new;
      if schemeCode.Some? {
        LoadFundDetails(schemeCode.value);
      }
    }

    method OnEvent(event: DetailEvent, today: Date)
      requires Valid()
      modifies this
      ensures Valid()
      ensures event.TimeRangeSelected? ==>
        && state == Refiltered(old(state).(selectedTimeRange := event.timeRange), event.timeRange, today)
        && launched == old(launched)
      ensures event.Refresh? ==>
        && state == old(state)
        && launched == old(launched) + (if state.fundDetail.Some? then [state.fundDetail.value.schemeCode] else [])
    {
      match event {
        case TimeRangeSelected(range) =>
          state := state.(selectedTimeRange := range);
          FilterNavData(range, today);
        case Refresh =>
          if state.fundDetail.Some? {
            LoadFundDetails(state.fundDetail.value.schemeCode);
          }
      }
    }

    method LoadFundDetails(schemeCode: string)
      modifies this`launched
      ensures launched == old(launched) + [schemeCode]
    {
      launched := launched + [schemeCode];
    }

    /** One value emitted by a detail flow this view model started. */
    method OnDetailResult(result: Resource<MutualFundDetail>, today: Date)
      requires Valid()
      modifies this`state, this`shownCutoff
      ensures Valid()
      ensures state == AfterDetailResult(old(state), result, today)
    {
      match result {
        case Success(data) =>
          state := state.(fundDetail := data, isLoading := false, error := "");
          FilterNavData(state.selectedTimeRange, today);
        case Error(message) =>
          state := state.(error := message.GetOr("Unknown error"), isLoading := false);
        case Loading =>
          state := state.(isLoading := true);
      }
    }

    method FilterNavData(range: TimeRange, today: Date)
      modifies this`state, this`shownCutoff
      ensures Valid()
      ensures state == Refiltered(old(state), range, today)
    {
      if state.fundDetail.None? {
        return;
      }
      var history := state.fundDetail.value.navHistory;
      var cutoff := MonthsBefore(today, range.Months());
      var filtered := Reverse(Filter(history, (n: NavData) => IsRecent(n, cutoff)));
      state := state.(filteredNavData := filtered);
      shownCutoff := cutoff;
    }
  }
}
