/** MutualFundRepositoryImpl: the four repository flows, the DTO-to-domain mapping and
    the keyword classification of scheme names. There is no cache: every flow calls the
    API afresh, and the outcome of that call is a parameter of the flow. */
module Repository {
  import opened Text
  import opened Seqs
  import opened Model

  /** GET /mf list entry. */
  datatype MutualFundListDto = MutualFundListDto(schemeCode: string, schemeName: string)

  /** GET /mf/{schemeCode} response. */
  datatype NavDataDto = NavDataDto(date: string, nav: string)
  datatype MetaDto = MetaDto(
    schemeCode: string,
    schemeName: string,
    schemeCategory: Option<string>,
    schemeType: Option<string>,
    fundHouse: Option<string>)
  datatype MutualFundDetailDto = MutualFundDetailDto(meta: MetaDto, data: seq<NavDataDto>, status: string)

  /** What a flow body can throw: `HttpException`, `IOException`, or any other `Exception`. */
  datatype Failure = Http | IO | Unexpected

  /** The outcome of a computation that may throw: the API call, or a flow's whole body. */
  datatype Outcome<+T> = Done(value: T) | Thrown(failure: Failure)

  // ---------------------------------------------------------------------------
  // Error mapping (the three catch clauses shared by all flows)

  function ErrorMessage(f: Failure): string {
    match f
    case Http => "Oops, something went wrong!"
    case IO => "Couldn't reach server, check your internet connection."
    case Unexpected => "An unexpected error occurred"
  }

  /** The `Resource.Error` a catch clause emits. */
  function Caught<T>(f: Failure): Resource<T> {
    Error(Some(ErrorMessage(f)))
  }

  /** The three messages are distinct, so the message identifies the kind of failure;
      none of them is the view models' fallback "Unknown error". */
  lemma ErrorMessageInjective(f: Failure, g: Failure)
    ensures ErrorMessage(f) == ErrorMessage(g) <==> f == g
    ensures ErrorMessage(f) != "Unknown error" && ErrorMessage(f) != ""
  {
  }

  // ---------------------------------------------------------------------------
  // Classification of scheme names

  /** `categorizeScheme`: first matching keyword group on the lower-cased name. */
  function CategorizeScheme(schemeName: string): (r: string)
    ensures r in {"Equity", "Debt", "Hybrid", "Solution Oriented", "Other"}
    ensures r != FundCategory.All.DisplayName()
  {
    var name := Lower(schemeName);
    if Contains(name, "equity") || Contains(name, "growth")
      || Contains(name, "midcap") || Contains(name, "largecap")
      || Contains(name, "smallcap") || Contains(name, "multicap") then FundCategory.Equity.DisplayName()
    else if Contains(name, "debt") || Contains(name, "income")
      || Contains(name, "bond") || Contains(name, "gilt")
      || Contains(name, "liquid") || Contains(name, "money market") then FundCategory.Debt.DisplayName()
    else if Contains(name, "hybrid") || Contains(name, "balanced")
      || Contains(name, "aggressive") || Contains(name, "conservative") then FundCategory.Hybrid.DisplayName()
    else if Contains(name, "retirement") || Contains(name, "children")
      || Contains(name, "pension") then FundCategory.Solution.DisplayName()
    else FundCategory.Other.DisplayName()
  }

  /** The keyword group of each category that classification looks for. */
  function Keywords(c: FundCategory): seq<string> {
    match c
    case Equity => ["equity", "growth", "midcap", "largecap", "smallcap", "multicap"]
    case Debt => ["debt", "income", "bond", "gilt", "liquid", "money market"]
    case Hybrid => ["hybrid", "balanced", "aggressive", "conservative"]
    case Solution => ["retirement", "children", "pension"]
    case _ => []
  }

  /** Some keyword of `c`'s group occurs in `name`. */
  ghost predicate Mentions(name: string, c: FundCategory) {
    exists i :: 0 <= i < |Keywords(c)| && Contains(name, Keywords(c)[i])
  }

  /** Reference statement of first-match-wins in the order Equity, Debt, Hybrid, Solution Oriented. */
  ghost predicate FirstMatch(name: string, c: FundCategory) {
    match c
    case All => false
    case Equity => Mentions(name, Equity)
    case Debt => !Mentions(name, Equity) && Mentions(name, Debt)
    case Hybrid => !Mentions(name, Equity) && !Mentions(name, Debt) && Mentions(name, Hybrid)
    case Solution =>
      !Mentions(name, Equity) && !Mentions(name, Debt) && !Mentions(name, Hybrid) && Mentions(name, Solution)
    case Other =>
      !Mentions(name, Equity) && !Mentions(name, Debt) && !Mentions(name, Hybrid) && !Mentions(name, Solution)
  }

  lemma MentionsEquity(name: string)
    ensures Mentions(name, Equity) <==>
      Contains(name, "equity") || Contains(name, "growth") || Contains(name, "midcap")
      || Contains(name, "largecap") || Contains(name, "smallcap") || Contains(name, "multicap")
  {
    var ks := Keywords(Equity);
    if Contains(name, "equity") { assert Contains(name, ks[0]); }
    if Contains(name, "growth") { assert Contains(name, ks[1]); }
    if Contains(name, "midcap") { assert Contains(name, ks[2]); }
    if Contains(name, "largecap") { assert Contains(name, ks[3]); }
    if Contains(name, "smallcap") { assert Contains(name, ks[4]); }
    if Contains(name, "multicap") { assert Contains(name, ks[5]); }
  }

  lemma MentionsDebt(name: string)
    ensures Mentions(name, Debt) <==>
      Contains(name, "debt") || Contains(name, "income") || Contains(name, "bond")
      || Contains(name, "gilt") || Contains(name, "liquid") || Contains(name, "money market")
  {
    var ks := Keywords(Debt);
    if Contains(name, "debt") { assert Contains(name, ks[0]); }
    if Contains(name, "income") { assert Contains(name, ks[1]); }
    if Contains(name, "bond") { assert Contains(name, ks[2]); }
    if Contains(name, "gilt") { assert Contains(name, ks[3]); }
    if Contains(name, "liquid") { assert Contains(name, ks[4]); }
    if Contains(name, "money market") { assert Contains(name, ks[5]); }
  }

  lemma MentionsHybrid(name: string)
    ensures Mentions(name, Hybrid) <==>
      Contains(name, "hybrid") || Contains(name, "balanced")
      || Contains(name, "aggressive") || Contains(name, "conservative")
  {
    var ks := Keywords(Hybrid);
    if Contains(name, "hybrid") { assert Contains(name, ks[0]); }
    if Contains(name, "balanced") { assert Contains(name, ks[1]); }
    if Contains(name, "aggressive") { assert Contains(name, ks[2]); }
    if Contains(name, "conservative") { assert Contains(name, ks[3]); }
  }

  lemma MentionsSolution(name: string)
    ensures Mentions(name, Solution) <==>
      Contains(name, "retirement") || Contains(name, "children") || Contains(name, "pension")
  {
    var ks := Keywords(Solution);
    if Contains(name, "retirement") { assert Contains(name, ks[0]); }
    if Contains(name, "children") { assert Contains(name, ks[1]); }
    if Contains(name, "pension") { assert Contains(name, ks[2]); }
  }

  /** The category returned is the first group, in precedence order, whose keyword occurs
      in the lower-cased name, and "Other" when none does. */
  lemma CategorizeIsFirstMatch(schemeName: string, c: FundCategory)
    ensures CategorizeScheme(schemeName) == c.DisplayName() <==> FirstMatch(Lower(schemeName), c)
  {
    var name := Lower(schemeName);
    MentionsEquity(name);
    MentionsDebt(name);
    MentionsHybrid(name);
    MentionsSolution(name);
  }

  /** Classification depends only on the lower-cased name. */
  lemma CategorizeIgnoresCase(a: string, b: string)
    requires EqualIgnoringCase(a, b)
    ensures CategorizeScheme(a) == CategorizeScheme(b)
  {
    LowerOfEqualIgnoringCase(a, b);
  }

  /** Precedence examples: "growth" beats "bond", "income" beats "hybrid". */
  lemma CategorizePrecedence(schemeName: string)
    ensures Contains(Lower(schemeName), "growth") ==> CategorizeScheme(schemeName) == "Equity"
    ensures !Mentions(Lower(schemeName), Equity) && Contains(Lower(schemeName), "income")
      ==> CategorizeScheme(schemeName) == "Debt"
  {
    MentionsEquity(Lower(schemeName));
  }

  // ---------------------------------------------------------------------------
  // DTO-to-domain mapping and list selection

  function ToMutualFund(dto: MutualFundListDto): (f: MutualFund)
    ensures f.schemeCode == dto.schemeCode && f.schemeName == dto.schemeName
    ensures f.schemeType.Some? && f.schemeType.value != FundCategory.All.DisplayName()
    ensures f.schemeType == Some(CategorizeScheme(dto.schemeName))
  {
    MutualFund(dto.schemeCode, dto.schemeName, Some(CategorizeScheme(dto.schemeName)))
  }

  /** Every fund of the API's list, mapped and classified, in API order. */
  function AllFunds(dtos: seq<MutualFundListDto>): (r: seq<MutualFund>)
    ensures |r| == |dtos|
    ensures forall i :: 0 <= i < |dtos| ==>
      && r[i].schemeCode == dtos[i].schemeCode
      && r[i].schemeName == dtos[i].schemeName
      && r[i].schemeType == Some(CategorizeScheme(dtos[i].schemeName))
  {
    Map(dtos, ToMutualFund)
  }

  predicate NameMatches(dto: MutualFundListDto, query: string) {
    ContainsIgnoreCase(dto.schemeName, query)
  }

  /** The Success payload of `searchMutualFunds`. */
  function SearchFunds(dtos: seq<MutualFundListDto>, query: string): (r: seq<MutualFund>)
    ensures |r| <= |dtos|
    ensures forall i :: 0 <= i < |r| ==> ContainsIgnoreCase(r[i].schemeName, query)
  {
    Map(Filter(dtos, d => NameMatches(d, query)), ToMutualFund)
  }

  /** The nine fund-house fragments of "top funds", matched on the lower-cased name. */
  predicate IsPopularHouse(schemeName: string) {
    var name := Lower(schemeName);
    Contains(name, "sbi") || Contains(name, "hdfc") || Contains(name, "icici")
    || Contains(name, "axis") || Contains(name, "kotak") || Contains(name, "birla")
    || Contains(name, "reliance") || Contains(name, "nippon") || Contains(name, "uti")
  }

  function PopularFunds(dtos: seq<MutualFundListDto>): (r: seq<MutualFundListDto>)
    ensures |r| <= |dtos|
    ensures forall i :: 0 <= i < |r| ==> r[i] in dtos && IsPopularHouse(r[i].schemeName)
    ensures forall i :: 0 <= i < |dtos| && IsPopularHouse(dtos[i].schemeName) ==> dtos[i] in r
    ensures IsSubsequence(r, dtos)
    ensures forall d :: multiset(r)[d] ==
                (if IsPopularHouse(d.schemeName) then multiset(dtos)[d] else 0)
  {
    var p := (d: MutualFundListDto) => IsPopularHouse(d.schemeName);
    FilterIsSubsequence(dtos, p);
    FilterCount(dtos, p);
    Filter(dtos, p)
  }

  /** The Success payload of `getTopMutualFunds` for a limit `take` accepts. */
  function TopFunds(dtos: seq<MutualFundListDto>, limit: nat): (r: seq<MutualFund>)
    ensures |r| <= limit && |r| <= |dtos|
    ensures forall i :: 0 <= i < |r| ==> IsPopularHouse(r[i].schemeName)
  {
    Map(Take(PopularFunds(dtos), limit), ToMutualFund)
  }

  /** `scheme_type` when the API gives one, otherwise the keyword classification. */
  function ToDetail(dto: MutualFundDetailDto): (r: MutualFundDetail)
    ensures |r.navHistory| == |dto.data|
    ensures r.schemeType.Some?
  {
    MutualFundDetail(
      dto.meta.schemeCode,
      dto.meta.schemeName,
      Map(dto.data, (n: NavDataDto) => NavData(n.date, n.nav)),
      if dto.meta.schemeType.Some? then dto.meta.schemeType else Some(CategorizeScheme(dto.meta.schemeName)),
      dto.meta.fundHouse)
  }

  // ---------------------------------------------------------------------------
  // What each flow emits after Loading

  function AllFundsResult(api: Outcome<seq<MutualFundListDto>>): (r: Resource<seq<MutualFund>>)
    ensures api.Thrown? ==> r == Error(Some(ErrorMessage(api.failure)))
    ensures api.Done? ==> r.Success? && r.data.Some? && |r.data.value| == |api.value|
  {
    match api
    case Thrown(f) => Caught(f)
    case Done(dtos) => Success(Some(AllFunds(dtos)))
  }

  function DetailResult(api: Outcome<MutualFundDetailDto>): (r: Resource<MutualFundDetail>)
    ensures api.Thrown? ==> r == Error(Some(ErrorMessage(api.failure)))
    ensures api.Done? ==> r.Success? && r.data.Some? && |r.data.value.navHistory| == |api.value.data|
  {
    match api
    case Thrown(f) => Caught(f)
    case Done(dto) => Success(Some(ToDetail(dto)))
  }

  function SearchResult(api: Outcome<seq<MutualFundListDto>>, query: string): (r: Resource<seq<MutualFund>>)
    ensures api.Thrown? ==> r == Error(Some(ErrorMessage(api.failure)))
    ensures api.Done? ==> r.Success? && r.data.Some? && |r.data.value| <= |api.value|
    ensures api.Done? ==> forall i :: 0 <= i < |r.data.value| ==> ContainsIgnoreCase(r.data.value[i].schemeName, query)
  {
    match api
    case Thrown(f) => Caught(f)
    case Done(dtos) => Success(Some(SearchFunds(dtos, query)))
  }

  /** A negative limit makes `take` throw IllegalArgumentException, caught as a generic exception. */
  function TopFundsResult(api: Outcome<seq<MutualFundListDto>>, limit: int): (r: Resource<seq<MutualFund>>)
    ensures api.Thrown? ==> r == Error(Some(ErrorMessage(api.failure)))
    ensures api.Done? && limit < 0 ==> r == Error(Some(ErrorMessage(Unexpected)))
    ensures api.Done? && limit >= 0 ==> r.Success? && r.data.Some? && |r.data.value| <= limit
  {
    match api
    case Thrown(f) => Caught(f)
    case Done(dtos) => if limit < 0 then Caught(Unexpected) else Success(Some(TopFunds(dtos, limit)))
  }

  // ---------------------------------------------------------------------------
  // The flows

  method GetAllMutualFunds(api: Outcome<seq<MutualFundListDto>>) returns (emitted: seq<Resource<seq<MutualFund>>>)
    ensures emitted == [Loading, AllFundsResult(api)]
  {
    emitted := [Loading];
    match api {
      case Thrown(f) =>
        emitted := emitted + [Error(Some(ErrorMessage(f)))];
      case Done(dtos) =>
        var funds := Map(dtos, ToMutualFund);
        emitted := emitted + [Success(Some(funds))];
    }
  }

  method GetMutualFundDetails(api: Outcome<MutualFundDetailDto>) returns (emitted: seq<Resource<MutualFundDetail>>)
    ensures emitted == [Loading, DetailResult(api)]
  {
    emitted := [Loading];
    match api {
      case Thrown(f) =>
        emitted := emitted + [Error(Some(ErrorMessage(f)))];
      case Done(response) =>
        var detail := ToDetail(response);
        emitted := emitted + [Success(Some(detail))];
    }
  }

  method SearchMutualFunds(api: Outcome<seq<MutualFundListDto>>, query: string)
    returns (emitted: seq<Resource<seq<MutualFund>>>)
    ensures emitted == [Loading, SearchResult(api, query)]
  {
    emitted := [Loading];
    match api {
      case Thrown(f) =>
        emitted := emitted + [Error(Some(ErrorMessage(f)))];
      case Done(allFunds) =>
        var filtered := Filter(allFunds, d => NameMatches(d, query));
        emitted := emitted + [Success(Some(Map(filtered, ToMutualFund)))];
    }
  }

  method GetTopMutualFunds(api: Outcome<seq<MutualFundListDto>>, limit: int)
    returns (emitted: seq<Resource<seq<MutualFund>>>)
    ensures emitted == [Loading, TopFundsResult(api, limit)]
  {
    emitted := [Loading];
    match api {
      case Thrown(f) =>
        emitted := emitted + [Error(Some(ErrorMessage(f)))];
      case Done(allFunds) =>
        var popular := Filter(allFunds, (d: MutualFundListDto) => IsPopularHouse(d.schemeName));
        if limit < 0 {
          emitted := emitted + [Error(Some(ErrorMessage(Unexpected)))];
        } else {
          emitted := emitted + [Success(Some(Map(Take(popular, limit), ToMutualFund)))];
        }
    }
  }

  // ---------------------------------------------------------------------------
  // Properties of the flows

  /** A failed API call surfaces as exactly one of the three messages, and a flow never
      ends in Loading: it ends in Success with a list when the call succeeded. */
  lemma FlowsSettle(api: Outcome<seq<MutualFundListDto>>, query: string, limit: int)
    ensures api.Thrown? ==>
      AllFundsResult(api) == SearchResult(api, query) == TopFundsResult(api, limit) == Error(Some(ErrorMessage(api.failure)))
    ensures api.Done? ==> AllFundsResult(api).Success? && AllFundsResult(api).data.Some?
    ensures api.Done? ==> SearchResult(api, query).Success? && SearchResult(api, query).data.Some?
    ensures api.Done? ==> (TopFundsResult(api, limit).Success? <==> limit >= 0)
  {
  }

  /** The detail keeps the meta fields and every NAV entry in API order; its type is the
      API's `scheme_type` when present and the keyword classification otherwise, so it is
      never missing. */
  lemma DetailSpec(dto: MutualFundDetailDto)
    ensures ToDetail(dto).schemeCode == dto.meta.schemeCode && ToDetail(dto).schemeName == dto.meta.schemeName
    ensures ToDetail(dto).fundHouse == dto.meta.fundHouse
    ensures |ToDetail(dto).navHistory| == |dto.data|
    ensures forall i :: 0 <= i < |dto.data| ==>
      ToDetail(dto).navHistory[i] == NavData(dto.data[i].date, dto.data[i].nav)
    ensures ToDetail(dto).schemeType.Some?
    ensures dto.meta.schemeType.Some? ==> ToDetail(dto).schemeType == dto.meta.schemeType
    ensures dto.meta.schemeType.None? ==> ToDetail(dto).schemeType == Some(CategorizeScheme(dto.meta.schemeName))
  {
  }

  /** The search result is exactly the funds whose name contains the query ignoring case,
      in API order. */
  lemma {:induction false} SearchSpec(dtos: seq<MutualFundListDto>, query: string)
    ensures IsSubsequence(SearchFunds(dtos, query), AllFunds(dtos))
    ensures forall i :: 0 <= i < |SearchFunds(dtos, query)| ==>
      ContainsIgnoreCase(SearchFunds(dtos, query)[i].schemeName, query)
    ensures forall i :: 0 <= i < |dtos| && ContainsIgnoreCase(dtos[i].schemeName, query) ==>
      ToMutualFund(dtos[i]) in SearchFunds(dtos, query)
    ensures SearchFunds(dtos, query) == Filter(AllFunds(dtos), (f: MutualFund) => ContainsIgnoreCase(f.schemeName, query))
    ensures forall f :: multiset(SearchFunds(dtos, query))[f] ==
                (if ContainsIgnoreCase(f.schemeName, query) then multiset(AllFunds(dtos))[f] else 0)
  {
    var p := (d: MutualFundListDto) => NameMatches(d, query);
    var q := (f: MutualFund) => ContainsIgnoreCase(f.schemeName, query);
    var all := AllFunds(dtos);
    MapFilter(dtos, p, ToMutualFund, q);
    FilterCount(all, q);
    FilterIsSubsequence(all, q);
    forall i | 0 <= i < |dtos| && ContainsIgnoreCase(dtos[i].schemeName, query)
      ensures ToMutualFund(dtos[i]) in SearchFunds(dtos, query)
    {
      assert all[i] == ToMutualFund(dtos[i]) && q(all[i]);
    }
  }

  /** An empty query matches every fund. */
  lemma SearchEmptyQuery(dtos: seq<MutualFundListDto>)
    ensures SearchFunds(dtos, "") == AllFunds(dtos)
  {
    forall i | 0 <= i < |dtos|
      ensures NameMatches(dtos[i], "")
    {
      ContainsEmpty(Lower(dtos[i].schemeName));
    }
    FilterAll(dtos, d => NameMatches(d, ""));
  }

  /** Queries that differ only in case give the same result. */
  lemma SearchIgnoresCase(dtos: seq<MutualFundListDto>, query: string, query': string)
    requires EqualIgnoringCase(query, query')
    ensures SearchFunds(dtos, query) == SearchFunds(dtos, query')
  {
    LowerOfEqualIgnoringCase(query, query');
    FilterCongruent(dtos, d => NameMatches(d, query), d => NameMatches(d, query'));
  }

  /** The top funds are the first `limit` popular funds in API order: the result has
      min(limit, number of matches) entries, every one from a listed fund house. */
  /** Mapping the popular DTOs is filtering the full list by fund house. */
  lemma PopularOfFullList(dtos: seq<MutualFundListDto>)
    ensures Map(PopularFunds(dtos), ToMutualFund) == Filter(AllFunds(dtos), (f: MutualFund) => IsPopularHouse(f.schemeName))
  {
    MapFilter(dtos, (d: MutualFundListDto) => IsPopularHouse(d.schemeName), ToMutualFund,
      (f: MutualFund) => IsPopularHouse(f.schemeName));
  }

  lemma {:induction false} TopFundsSpec(dtos: seq<MutualFundListDto>, limit: nat)
    ensures |TopFunds(dtos, limit)| == Min(limit, |PopularFunds(dtos)|)
    ensures TopFunds(dtos, limit) == Map(PopularFunds(dtos), ToMutualFund)[..|TopFunds(dtos, limit)|]
    ensures IsSubsequence(TopFunds(dtos, limit), AllFunds(dtos))
    ensures forall i :: 0 <= i < |TopFunds(dtos, limit)| ==> IsPopularHouse(TopFunds(dtos, limit)[i].schemeName)
    ensures Map(PopularFunds(dtos), ToMutualFund) == Filter(AllFunds(dtos), (f: MutualFund) => IsPopularHouse(f.schemeName))
  {
    PopularOfFullList(dtos);
    var popular := PopularFunds(dtos);
    var n := Min(limit, |popular|);
    assert Take(popular, limit) == popular[..n];
    MapPrefix(popular, ToMutualFund, n);
    assert IsSubsequence(TopFunds(dtos, limit), AllFunds(dtos)) by {
      PrefixOfSubsequence(popular, dtos, n);
      MapSubsequence(popular[..n], dtos, ToMutualFund);
    }
    forall i | 0 <= i < n
      ensures IsPopularHouse(TopFunds(dtos, limit)[i].schemeName)
    {
      assert TopFunds(dtos, limit)[i].schemeName == popular[i].schemeName;
    }
  }

}
