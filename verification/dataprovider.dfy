/**
 * `GetDataForCodeAsync` and its five mock strategies. Each `random.Next(lo, hi)`
 * call is one element of `rolls`, consumed in call order; Random.Next promises
 * `lo <= value < hi`, which is what `Fits` demands.
 */
module DataProvider {
  import opened Wrappers
  import opened Text
  import opened Numbers
  import opened Calendar
  import opened MailModels
  import opened Codes
  import opened Wording

  /** The half-open range of one `random.Next(lo, hi)` call. */
  datatype Range = Range(lo: int, hi: int)

  predicate Fits(rolls: seq<int>, ranges: seq<Range>) {
    |rolls| >= |ranges| && forall i :: 0 <= i < |ranges| ==> ranges[i].lo <= rolls[i] < ranges[i].hi
  }

  const ProductionEmployeeDraws: seq<Range> := [Range(80, 120), Range(85, 98), Range(80, 95), Range(0, 3)]
  const ProductionManagerDraws: seq<Range> := [Range(800, 1200), Range(85, 95), Range(2, 8), Range(1, 6)]
  const HumanResourceDraws: seq<Range> := [Range(45, 50), Range(0, 5), Range(0, 3), Range(1, 5), Range(0, 3)]
  const FinanceDraws: seq<Range> := [Range(50000, 80000), Range(30000, 45000), Range(5, 15)]
  const InformationTechnologyDraws: seq<Range> := [Range(95, 100), Range(3, 10), Range(5, 12), Range(2, 8)]

  /** The random draws the strategy for `c` makes. */
  function DrawsOf(c: Code): seq<Range> {
    match c
    case PE => ProductionEmployeeDraws
    case PM => ProductionManagerDraws
    case HR => HumanResourceDraws
    case FN => FinanceDraws
    case IT => InformationTechnologyDraws
  }

  /** The random draws made for the request code `code` (none for an unknown code). */
  function DrawsFor(code: string): seq<Range> {
    match CodeOf(ToUpper(code))
    case Some(c) => DrawsOf(c)
    case None => []
  }

  /** `rolls` is a possible outcome of the random draws made for `code`. */
  predicate RollsFit(code: string, rolls: seq<int>) {
    Fits(rolls, DrawsFor(code))
  }

  /** The keys, in enumeration order, of the dataset the strategy for `c` returns. */
  function KeysOf(c: Code): seq<Plain> {
    match c
    case PE => ProductionEmployeeKeys
    case PM => ProductionManagerKeys
    case HR => HumanResourceKeys
    case FN => FinanceKeys
    case IT => InformationTechnologyKeys
  }

  /** The entry for `key` holds an integer in `[lo, hi)`. */
  predicate IntWithin(data: DataSet, key: string, lo: int, hi: int) {
    match ValueOf(data, key)
    case Some(IntValue(v)) => lo <= v < hi
    case _ => false
  }

  const Target := 100

  function ProductionEmployeeData(date: Date, rolls: seq<int>): (data: DataSet)
    requires Fits(rolls, ProductionEmployeeDraws)
    ensures Keys(data) == ProductionEmployeeKeys
    ensures ValueOf(data, UnitsProducedKey) == Some(IntValue(rolls[0])) && IntWithin(data, UnitsProducedKey, 80, 120)
    ensures IntWithin(data, QualityScoreKey, 85, 98) && IntWithin(data, EfficiencyRateKey, 80, 95)
    ensures IntWithin(data, DowntimeKey, 0, 3) && ValueOf(data, TargetKey) == Some(IntValue(100))
    ensures ValueOf(data, PerformanceMessageKey) == Some(TextValue(TargetAchieved)) <==> rolls[0] >= 100
    ensures ValueOf(data, PerformanceMessageKey) == Some(TextValue(TargetMissed)) <==> rolls[0] < 100
  {
    var target := Target;
    var produced := rolls[0];
    var data :=
      [ DataEntry(UnitsProducedKey, Some(IntValue(produced))),
      DataEntry(QualityScoreKey, Some(IntValue(rolls[1]))),
      DataEntry(EfficiencyRateKey, Some(IntValue(rolls[2]))),
      DataEntry(DowntimeKey, Some(IntValue(rolls[3]))),
      DataEntry(TargetKey, Some(IntValue(target))),
      DataEntry(PerformanceMessageKey, Some(TextValue(if produced >= target then TargetAchieved else TargetMissed))) ];
    FindAt(data, 0);
    FindAt(data, 1);
    FindAt(data, 2);
    FindAt(data, 3);
    FindAt(data, 4);
    FindAt(data, 5);
    data
  }

  function ProductionManagerData(date: Date, rolls: seq<int>): (data: DataSet)
    requires Fits(rolls, ProductionManagerDraws)
    ensures Keys(data) == ProductionManagerKeys
    ensures IntWithin(data, TotalUnitsKey, 800, 1200) && IntWithin(data, TeamPerformanceKey, 85, 95)
    ensures IntWithin(data, IssuesCountKey, 2, 8) && IntWithin(data, ResolvedIssuesKey, 1, 6)
    ensures ValueOf(data, DepartmentStatusKey) == Some(TextValue(OperationalStatus))
    ensures ValueOf(data, ActionItemsKey) == Some(TextValue(ManagementActionItems))
  {
    var data :=
      [ DataEntry(TotalUnitsKey, Some(IntValue(rolls[0]))),
      DataEntry(TeamPerformanceKey, Some(IntValue(rolls[1]))),
      DataEntry(IssuesCountKey, Some(IntValue(rolls[2]))),
      DataEntry(ResolvedIssuesKey, Some(IntValue(rolls[3]))),
      DataEntry(DepartmentStatusKey, Some(TextValue(OperationalStatus))),
      DataEntry(ActionItemsKey, Some(TextValue(ManagementActionItems))) ];
    FindAt(data, 0);
    FindAt(data, 1);
    FindAt(data, 2);
    FindAt(data, 3);
    FindAt(data, 4);
    FindAt(data, 5);
    data
  }

  function HumanResourceData(date: Date, rolls: seq<int>): (data: DataSet)
    requires Fits(rolls, HumanResourceDraws)
    ensures Keys(data) == HumanResourceKeys
    ensures IntWithin(data, PresentCountKey, 45, 50) && IntWithin(data, AbsentCountKey, 0, 5)
    ensures IntWithin(data, LateCountKey, 0, 3) && IntWithin(data, LeaveRequestsKey, 1, 5)
    ensures IntWithin(data, TrainingRequestsKey, 0, 3)
    ensures ValueOf(data, PendingActionsKey) == Some(TextValue(HumanResourcePendingActions))
  {
    var data :=
      [ DataEntry(PresentCountKey, Some(IntValue(rolls[0]))),
      DataEntry(AbsentCountKey, Some(IntValue(rolls[1]))),
      DataEntry(LateCountKey, Some(IntValue(rolls[2]))),
      DataEntry(LeaveRequestsKey, Some(IntValue(rolls[3]))),
      DataEntry(TrainingRequestsKey, Some(IntValue(rolls[4]))),
      DataEntry(PendingActionsKey, Some(TextValue(HumanResourcePendingActions))) ];
    FindAt(data, 0);
    FindAt(data, 1);
    FindAt(data, 2);
    FindAt(data, 3);
    FindAt(data, 4);
    FindAt(data, 5);
    data
  }

  /** Revenue and expenses are printed with "N0"; the net amount is never negative. */
  function FinanceData(date: Date, rolls: seq<int>): (data: DataSet)
    requires Fits(rolls, FinanceDraws)
    ensures Keys(data) == FinanceKeys
    ensures ValueOf(data, RevenueKey) == Some(TextValue(FormatN0(rolls[0])))
    ensures ValueOf(data, ExpensesKey) == Some(TextValue(FormatN0(rolls[1])))
    ensures ValueOf(data, NetAmountKey) == Some(TextValue(FormatN0(rolls[0] - rolls[1])))
    ensures ValueOf(data, NetAmountKey).value.s[0] != '-'
    ensures IntWithin(data, OutstandingCountKey, 5, 15)
    ensures ValueOf(data, BudgetStatusKey) == Some(TextValue(BudgetOnTrack))
    ensures ValueOf(data, ReviewItemsKey) == Some(TextValue(FinanceReviewItems))
  {
    var revenue := rolls[0];
    var expenses := rolls[1];
    var data :=
      [ DataEntry(RevenueKey, Some(TextValue(FormatN0(revenue)))),
      DataEntry(ExpensesKey, Some(TextValue(FormatN0(expenses)))),
      DataEntry(NetAmountKey, Some(TextValue(FormatN0(revenue - expenses)))),
      DataEntry(BudgetStatusKey, Some(TextValue(BudgetOnTrack))),
      DataEntry(OutstandingCountKey, Some(IntValue(rolls[2]))),
      DataEntry(ReviewItemsKey, Some(TextValue(FinanceReviewItems))) ];
    FindAt(data, 0);
    FindAt(data, 1);
    FindAt(data, 2);
    FindAt(data, 3);
    FindAt(data, 4);
    FindAt(data, 5);
    data
  }

  function InformationTechnologyData(date: Date, rolls: seq<int>): (data: DataSet)
    requires Fits(rolls, InformationTechnologyDraws)
    ensures Keys(data) == InformationTechnologyKeys
    ensures IntWithin(data, ServerUptimeKey, 95, 100) && IntWithin(data, NewTicketsKey, 3, 10)
    ensures IntWithin(data, ResolvedTicketsKey, 5, 12) && IntWithin(data, PendingTicketsKey, 2, 8)
    ensures ValueOf(data, NetworkStatusKey) == Some(TextValue(NetworkStable))
    ensures ValueOf(data, BackupStatusKey) == Some(TextValue(BackupCompleted))
    ensures ValueOf(data, SecurityUpdatesKey) == Some(TextValue(SecurityUpdateSummary))
  {
    var data :=
      [ DataEntry(ServerUptimeKey, Some(IntValue(rolls[0]))),
      DataEntry(NetworkStatusKey, Some(TextValue(NetworkStable))),
      DataEntry(BackupStatusKey, Some(TextValue(BackupCompleted))),
      DataEntry(NewTicketsKey, Some(IntValue(rolls[1]))),
      DataEntry(ResolvedTicketsKey, Some(IntValue(rolls[2]))),
      DataEntry(PendingTicketsKey, Some(IntValue(rolls[3]))),
      DataEntry(SecurityUpdatesKey, Some(TextValue(SecurityUpdateSummary))) ];
    FindAt(data, 0);
    FindAt(data, 1);
    FindAt(data, 2);
    FindAt(data, 3);
    FindAt(data, 4);
    FindAt(data, 5);
    FindAt(data, 6);
    data
  }

  /** The dataset of the strategy for `c`. */
  function DataOf(c: Code, date: Date, rolls: seq<int>): (data: DataSet)
    requires Fits(rolls, DrawsOf(c))
    ensures Keys(data) == KeysOf(c)
  {
    match c
    case PE => ProductionEmployeeData(date, rolls)
    case PM => ProductionManagerData(date, rolls)
    case HR => HumanResourceData(date, rolls)
    case FN => FinanceData(date, rolls)
    case IT => InformationTechnologyData(date, rolls)
  }

  /** The error the switch's default branch reports. */
  const UnknownCodeMessage := "Unknown code provided"

  /**
   * Dispatches on the upper-cased code to one strategy; any other code is
   * reported as unknown, with an empty dataset.
   */
  function GetDataForCode(code: string, date: Date, rolls: seq<int>): (r: DataResponse)
    requires RollsFit(code, rolls)
    ensures r.success <==> ToUpper(code) in CodeTexts
    ensures !r.success ==> r == DataResponse([], false, Some(UnknownCodeMessage))
    ensures r.success ==> r.errorMessage == None && Keys(r.data) == KeysOf(CodeOf(ToUpper(code)).value)
  {
    match CodeOf(ToUpper(code))
    case Some(c) => DataResponse(DataOf(c, date, rolls), true, None)
    case None => DataResponse([], false, Some(UnknownCodeMessage))
  }
}
