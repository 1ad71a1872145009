/** The app's domain records and enums (data/model.kt), and the three-state
    `Resource` wrapper every repository flow emits. */
module Model {

  /** Kotlin's nullable `T?`. */
  datatype Option<+T> = None | Some(value: T) {
    /** The elvis operator `x ?: default`. */
    function GetOr(default: T): T {
      match this
      case Some(v) => v
      case None => default
    }
  }

  /** A fund in the list screens; `schemeType` defaults to null. */
  datatype MutualFund = MutualFund(schemeCode: string, schemeName: string, schemeType: Option<string> := None)

  /** One NAV observation, both fields kept as the API's strings. */
  datatype NavData = NavData(date: string, nav: string)

  /** A fund's details with its NAV history in API order (newest first). */
  datatype MutualFundDetail = MutualFundDetail(
    schemeCode: string,
    schemeName: string,
    navHistory: seq<NavData>,
    schemeType: Option<string> := None,
    fundHouse: Option<string> := None)

  datatype FundCategory = All | Equity | Debt | Hybrid | Solution | Other {
    function DisplayName(): string {
      match this
      case All => "All Funds"
      case Equity => "Equity"
      case Debt => "Debt"
      case Hybrid => "Hybrid"
      case Solution => "Solution Oriented"
      case Other => "Other"
    }
  }

  datatype TimeRange = OneMonth | ThreeMonths | SixMonths | OneYear {
    function DisplayName(): string {
      match this
      case OneMonth => "1M"
      case ThreeMonths => "3M"
      case SixMonths => "6M"
      case OneYear => "1Y"
    }

    function Months(): nat {
      match this
      case OneMonth => 1
      case ThreeMonths => 3
      case SixMonths => 6
      case OneYear => 12
    }

    /** Position in the enum's declaration order. */
    function Ordinal(): nat {
      match this
      case OneMonth => 0
      case ThreeMonths => 1
      case SixMonths => 2
      case OneYear => 3
    }
  }

  /** The result wrapper of every repository flow. `data` and `message` are nullable,
      which is why the view models fall back to an empty list and to "Unknown error". */
  datatype Resource<+T> = Loading | Success(data: Option<T>) | Error(message: Option<string>)

  /** Matching on `displayName` identifies exactly one category. */
  lemma DisplayNameInjective(a: FundCategory, b: FundCategory)
    ensures a.DisplayName() == b.DisplayName() <==> a == b
  {
  }

  /** Later time ranges cover strictly more months, and their labels are distinct. */
  lemma TimeRangeMonthsIncreasing(a: TimeRange, b: TimeRange)
    ensures a.Ordinal() < b.Ordinal() <==> a.Months() < b.Months()
    ensures a.DisplayName() == b.DisplayName() <==> a == b
  {
  }
}
