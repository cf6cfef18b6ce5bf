/**
 * The dashboard API: the global dashboard state and the CSV upload that
 * validates one table and replaces one section of that state.
 *
 * The uploaded table arrives already read (or with the reader's error
 * message). Writing the uploaded file to disk is represented only by the
 * error message of a failed write and by the returned save path.
 */
module Api {
  import opened Tables
  import opened Numeric

  // ---------------------------------------------------------------------
  // Errors
  // ---------------------------------------------------------------------

  /** An exception raised inside the upload handler. */
  datatype Exception =
    | HttpError(status: nat, detail: string) // fastapi's HTTPException
    | PandasError(kind: string)              // an error raised by pandas while processing the table

  /** `str(e)`: an HTTPException renders as "status: detail". */
  function Message(e: Exception): string
  {
    match e
    case HttpError(status, detail) => NatToString(status) + ": " + detail
    case PandasError(kind) => kind
  }

  const NotCsvDetail := "CSVファイルのみアップロード可能です"
  const UploadErrorPrefix := "CSVファイルの処理中にエラーが発生しました: "
  const MissingColumnsPrefix := "必要なカラムが不足しています: "
  const UnknownTypePrefix := "不明なデータタイプ: "

  /** What the handler's `except Exception` turns any error into. */
  function Wrap500(message: string): (e: Exception)
    ensures e.HttpError? && e.status == 500
    ensures e.detail == UploadErrorPrefix + message
    ensures StartsWith(e.detail, UploadErrorPrefix)
  {
    var detail := UploadErrorPrefix + message;
    assert detail[..|UploadErrorPrefix|] == UploadErrorPrefix;
    HttpError(500, detail)
  }

  /** `", ".join(names)` */
  function JoinNames(names: seq<string>): string
  {
    if names == [] then ""
    else if |names| == 1 then names[0]
    else names[0] + ", " + JoinNames(names[1..])
  }

  /** The 400 a `process_*` raises when a required column is missing. */
  function MissingColumns(required: seq<string>): Exception
  {
    HttpError(400, MissingColumnsPrefix + JoinNames(required))
  }

  // ---------------------------------------------------------------------
  // Dashboard sections
  // ---------------------------------------------------------------------

  datatype MembersSection = MembersSection(
    total: nat,
    active: nat,
    genderDistribution: map<Value, nat>,
    ageDistribution: map<Value, nat>,
    regionDistribution: map<Value, nat>)

  datatype Metrics = Metrics(totalMembers: nat, activeMembers: nat, joinRate: real, churnRate: real)

  /** Mean occupancy per room; None is NaN (a room with no rate). */
  datatype UtilizationSection = UtilizationSection(roomAvgRates: map<Value, Option<real>>)

  datatype CompetitorsSection = CompetitorsSection(
    priceComparison: map<Value, Value>,
    competitorDetails: seq<Row>,
    areaDistribution: map<Value, nat>)

  datatype FinanceSection = FinanceSection(
    latestMonth: Row,
    monthlyTrend: seq<Row>,
    memberTypeSales: map<Value, real>)

  /** `df.to_dict(orient='records')` */
  function Records(f: Frame): (recs: seq<Row>)
    ensures |recs| == |f.rows|
    ensures forall i :: 0 <= i < |recs| ==> recs[i] == Record(f, f.rows[i])
  {
    seq(|f.rows|, i requires 0 <= i < |f.rows| => Record(f, f.rows[i]))
  }

  /** `value_counts().to_dict()` of a column: missing cells are not counted. */
  function Distribution(f: Frame, c: string): (d: map<Value, nat>)
    ensures Total(d) == |NonNull(Column(f, c))| <= |f.rows|
    ensures forall v :: v in d ==> !v.Null?
  {
    CountNonNullTotal(Column(f, c));
    CountBy(NonNull(Column(f, c)))
  }

  // ---------------------------------------------------------------------
  // Members
  // ---------------------------------------------------------------------

  const MembersRequired := ["member_id", "gender", "age_group", "region", "join_date"]

  predicate IsActive(r: Row)
  {
    Get(r, "status") == Text("active")
  }

  /**
   * `process_members_data`: the new members section, and the new metrics
   * when there is at least one active member (otherwise metrics stay).
   */
  function MembersUpdate(df: Frame): (r: Result<(MembersSection, Option<Metrics>), Exception>)
    ensures r.Err? <==> !HasColumns(df, MembersRequired)
    ensures r.Err? ==> r.error == MissingColumns(MembersRequired)
    ensures r.Ok? ==> r.value.0.total == |df.rows| && r.value.0.active <= r.value.0.total
    ensures r.Ok? && "status" !in df.columns ==> r.value.0.active == r.value.0.total
    ensures r.Ok? && "status" in df.columns ==> r.value.0.active == |Filter(df.rows, IsActive)|
    ensures r.Ok? ==> (r.value.1.Some? <==> r.value.0.active > 0)
    ensures r.Ok? && r.value.1.Some? ==>
      var (m, met) := (r.value.0, r.value.1.value);
      && met.totalMembers == m.total && met.activeMembers == m.active
      && met.joinRate == m.active as real / m.total as real * 100.0
      && met.joinRate + met.churnRate == 100.0
      && 0.0 < met.joinRate <= 100.0
    ensures r.Ok? ==> r.value.0.genderDistribution == Distribution(df, "gender")
    ensures r.Ok? ==> r.value.0.ageDistribution == Distribution(df, "age_group")
    ensures r.Ok? ==> r.value.0.regionDistribution == Distribution(df, "region")
  {
    if !HasColumns(df, MembersRequired) then Err(MissingColumns(MembersRequired))
    else
      var total := |df.rows|;
      var active := if "status" in df.columns then |Filter(df.rows, IsActive)| else total;
      var members := MembersSection(total, active, Distribution(df, "gender"),
                                    Distribution(df, "age_group"), Distribution(df, "region"));
      if active > 0 && total > 0 then
        RatesSum(active, total);
        Ok((members, Some(Metrics(total, active, (active as real / total as real) * 100.0,
                                  ((total - active) as real / total as real) * 100.0))))
      else
        Ok((members, None))
  }

  /** Join and churn rates are complementary percentages. */
  lemma RatesSum(active: nat, total: nat)
    requires 0 < active <= total
    ensures (active as real / total as real) * 100.0 + ((total - active) as real / total as real) * 100.0 == 100.0
    ensures 0.0 < (active as real / total as real) * 100.0 <= 100.0
  {
    var a, t := active as real, total as real;
    var j, c := a / t, (total - active) as real / t;
    assert j * t == a;
    assert c * t == t - a;
    UnitSum(j, c, a, t);
    assert j * 100.0 + c * 100.0 == (j + c) * 100.0;
    AtMostUnit(j, a, t);
  }

  /** Two shares whose parts make up a positive whole add up to one. */
  lemma UnitSum(j: real, c: real, a: real, t: real)
    requires t > 0.0 && j * t == a && c * t == t - a
    ensures j + c == 1.0
  {
    assert (j + c) * t == j * t + c * t;
    assert (j + c - 1.0) * t == (j + c) * t - 1.0 * t;
  }

  /** A positive quotient of a part by its whole lies in (0, 1]. */
  lemma AtMostUnit(q: real, a: real, t: real)
    requires 0.0 < a <= t && q * t == a
    ensures 0.0 < q <= 1.0
  {
    assert (1.0 - q) * t == t - a;
  }

  // ---------------------------------------------------------------------
  // Utilization
  // ---------------------------------------------------------------------

  const UtilizationRequired := ["date", "room", "occupancy_rate"]

  function InRoom(room: Value): Row -> bool
  {
    r => Get(r, "room") == room
  }

  /** `df.groupby('room')['occupancy_rate'].mean()`: rooms that are not missing, each with its mean rate. */
  function RoomAverages(df: Frame): (avg: map<Value, Option<real>>)
    ensures forall room :: room in avg <==> room in Column(df, "room") && !room.Null?
    ensures forall room :: room in avg ==> avg[room] == Mean(Values(Filter(df.rows, InRoom(room)), "occupancy_rate"))
  {
    map room | room in Column(df, "room") && !room.Null? :: Mean(Values(Filter(df.rows, InRoom(room)), "occupancy_rate"))
  }

  /** `pd.to_datetime(df['date'])` raises on text that is not a date and on a number out of range. */
  predicate DatesRaise(df: Frame, parse: DateReader)
  {
    exists i :: 0 <= i < |df.rows| && DateRaises(Get(df.rows[i], "date"), parse)
  }

  predicate DateRaises(v: Value, parse: DateReader)
  {
    (v.Text? && parse.text(v.s).None?) || (v.Num? && parse.number(v.x).None?)
  }

  /** Averaging a rate that is text raises (rows without a room are dropped first). */
  predicate MeanRaises(df: Frame)
  {
    exists i :: 0 <= i < |df.rows| && !Get(df.rows[i], "room").Null? && Get(df.rows[i], "occupancy_rate").Text?
  }

  /** `process_utilization_data` (room averages; the monthly and weekday tables are not modelled). */
  function UtilizationUpdate(df: Frame, parse: DateReader): (r: Result<UtilizationSection, Exception>)
    ensures !HasColumns(df, UtilizationRequired) ==> r == Err(MissingColumns(UtilizationRequired))
    ensures HasColumns(df, UtilizationRequired) ==> (r.Err? <==> DatesRaise(df, parse) || MeanRaises(df))
    ensures r.Err? ==> (r.error.HttpError? <==> !HasColumns(df, UtilizationRequired))
    ensures r.Ok? ==> r.value.roomAvgRates.Keys == set room | room in Column(df, "room") && !room.Null?
  {
    if !HasColumns(df, UtilizationRequired) then Err(MissingColumns(UtilizationRequired))
    else if DatesRaise(df, parse) then Err(PandasError("ValueError"))
    else if MeanRaises(df) then Err(PandasError("TypeError"))
    else Ok(UtilizationSection(RoomAverages(df)))
  }

  // ---------------------------------------------------------------------
  // Competitors
  // ---------------------------------------------------------------------

  const CompetitorsRequired := ["name", "location", "hourly_rate"]

  /** `df[['name', 'hourly_rate']].set_index('name').to_dict()['hourly_rate']`: a later row wins a repeated name. */
  function PriceComparison(rows: seq<Row>): (prices: map<Value, Value>)
    ensures prices.Keys == set r | r in rows :: Get(r, "name")
  {
    if rows == [] then map[]
    else
      var init, last := rows[..|rows| - 1], rows[|rows| - 1];
      assert rows == init + [last];
      PriceComparison(init)[Get(last, "name") := Get(last, "hourly_rate")]
  }

  /** Each competitor's price is the one in the last row naming it. */
  lemma {:induction false} PriceComparisonLastWins(rows: seq<Row>, i: nat)
    requires i < |rows|
    requires forall j :: i < j < |rows| ==> Get(rows[j], "name") != Get(rows[i], "name")
    ensures PriceComparison(rows)[Get(rows[i], "name")] == Get(rows[i], "hourly_rate")
  {
    var n := |rows| - 1;
    if i < n {
      PriceComparisonLastWins(rows[..n], i);
    }
  }

  /** `process_competitors_data` */
  function CompetitorsUpdate(df: Frame): (r: Result<CompetitorsSection, Exception>)
    ensures r.Err? <==> !HasColumns(df, CompetitorsRequired)
    ensures r.Err? ==> r.error == MissingColumns(CompetitorsRequired)
    ensures r.Ok? ==> r.value.competitorDetails == Records(df) && |r.value.competitorDetails| == |df.rows|
    ensures r.Ok? ==> r.value.priceComparison == PriceComparison(df.rows)
    ensures r.Ok? && "area" in df.columns ==> r.value.areaDistribution == Distribution(df, "area")
    ensures r.Ok? && "area" !in df.columns ==> r.value.areaDistribution == map[]
    ensures r.Ok? && "area" in df.columns ==> Total(r.value.areaDistribution) == |NonNull(Column(df, "area"))|
  {
    if !HasColumns(df, CompetitorsRequired) then Err(MissingColumns(CompetitorsRequired))
    else
      Ok(CompetitorsSection(PriceComparison(df.rows), Records(df),
                            if "area" in df.columns then Distribution(df, "area") else map[]))
  }

  // ---------------------------------------------------------------------
  // Finance
  // ---------------------------------------------------------------------

  const FinanceRequired := ["month", "sales", "costs"]

  /** `sales - costs` raises on a row where both are present and one is not a number. */
  predicate SubtractRaises(sales: Value, costs: Value)
  {
    !sales.Null? && !costs.Null? && (!sales.Num? || !costs.Num?)
  }

  /** `profit = sales - costs`; a missing operand gives a missing profit. */
  function ProfitCell(sales: Value, costs: Value): Value
  {
    if sales.Num? && costs.Num? then Num(sales.x - costs.x) else Null
  }

  /** `profit / sales * 100`; a zero sales figure (inf or NaN in pandas) gives a missing rate. */
  function ProfitRateCell(profit: Value, sales: Value): Value
  {
    if profit.Num? && sales.Num? && sales.x != 0.0 then Num(profit.x / sales.x * 100.0) else Null
  }

  /** The table with its `profit` and `profit_rate` columns added. */
  function WithProfit(df: Frame): (g: Frame)
    ensures |g.rows| == |df.rows|
    ensures g.columns == AddName(AddName(df.columns, "profit"), "profit_rate")
    ensures forall i :: 0 <= i < |g.rows| ==>
      Get(g.rows[i], "profit") == ProfitCell(Get(df.rows[i], "sales"), Get(df.rows[i], "costs"))
  {
    var p := SetColumn(df, "profit", seq(|df.rows|, i requires 0 <= i < |df.rows| =>
                         ProfitCell(Get(df.rows[i], "sales"), Get(df.rows[i], "costs"))));
    SetColumn(p, "profit_rate", seq(|p.rows|, i requires 0 <= i < |p.rows| =>
                ProfitRateCell(Get(p.rows[i], "profit"), Get(p.rows[i], "sales"))))
  }

  function InMemberType(t: Value): Row -> bool
  {
    r => Get(r, "member_type") == t
  }

  /** `df.groupby('member_type')['sales'].sum()` */
  function SalesByMemberType(df: Frame): (s: map<Value, real>)
    ensures forall t :: t in s <==> t in Column(df, "member_type") && !t.Null?
    ensures forall t :: t in s ==> s[t] == SumAmounts(Values(Filter(df.rows, InMemberType(t)), "sales"))
  {
    map t | t in Column(df, "member_type") && !t.Null? :: SumAmounts(Values(Filter(df.rows, InMemberType(t)), "sales"))
  }

  /** Some row's `sales - costs` raises. */
  predicate ProfitRaises(df: Frame)
  {
    exists i :: 0 <= i < |df.rows| && SubtractRaises(Get(df.rows[i], "sales"), Get(df.rows[i], "costs"))
  }

  /** A row whose sales figure is the number 0. */
  predicate ZeroSales(r: Row)
  {
    Get(r, "sales") == Num(0.0)
  }

  /**
   * `profit / sales` raises ZeroDivisionError. With a text `sales` or
   * `costs` column, `profit` is an object column and the division is done
   * on Python numbers one row at a time, where dividing by 0 raises (with
   * numeric columns it gives inf or NaN instead). That row-by-row division
   * stops at the first row that raises: a zero sales figure before any text
   * one raises ZeroDivisionError; a text sales figure first raises
   * TypeError, and pandas then retries on the rows where profit and sales
   * are both present, so a zero sales figure with a present profit raises.
   */
  predicate RateRaises(df: Frame)
  {
    (IsTextColumn(df, "sales") || IsTextColumn(df, "costs")) &&
    (ZeroBeforeText(df) || (IsTextColumn(df, "sales") && ZeroWithProfit(df)))
  }

  /** Some row's sales figure is 0 and no earlier sales figure is text. */
  predicate ZeroBeforeText(df: Frame)
  {
    exists i :: 0 <= i < |df.rows| && ZeroSales(df.rows[i]) &&
                forall j :: 0 <= j < i ==> !Get(df.rows[j], "sales").Text?
  }

  /** Some row's sales figure is 0 and its profit is present. */
  predicate ZeroWithProfit(df: Frame)
  {
    exists i :: 0 <= i < |df.rows| && ZeroSales(df.rows[i]) &&
                ProfitCell(Get(df.rows[i], "sales"), Get(df.rows[i], "costs")).Num?
  }

  /**
   * `process_finance_data`: the section, and the table with its profit
   * columns (the handler reports that table's columns). `iloc[-1]` on an
   * empty table raises.
   */
  function FinanceUpdate(df: Frame): (r: Result<(FinanceSection, Frame), Exception>)
    ensures !HasColumns(df, FinanceRequired) ==> r == Err(MissingColumns(FinanceRequired))
    ensures HasColumns(df, FinanceRequired) ==> (r.Err? <==> |df.rows| == 0 || ProfitRaises(df) || RateRaises(df))
    ensures HasColumns(df, FinanceRequired) && !ProfitRaises(df) && RateRaises(df) ==>
      r == Err(PandasError("ZeroDivisionError"))
    ensures r.Err? ==> (r.error.HttpError? <==> !HasColumns(df, FinanceRequired))
    ensures r.Ok? ==> r.value.1 == WithProfit(df) && |r.value.0.monthlyTrend| == |df.rows| > 0
    ensures r.Ok? ==> r.value.0.latestMonth == r.value.0.monthlyTrend[|df.rows| - 1]
    ensures r.Ok? ==> r.value.0.monthlyTrend == Records(WithProfit(df))
    ensures r.Ok? && "member_type" !in df.columns ==> r.value.0.memberTypeSales == map[]
    ensures r.Ok? && "member_type" in df.columns ==> r.value.0.memberTypeSales == SalesByMemberType(WithProfit(df))
  {
    if !HasColumns(df, FinanceRequired) then Err(MissingColumns(FinanceRequired))
    else if ProfitRaises(df) then Err(PandasError("TypeError"))
    else if RateRaises(df) then Err(PandasError("ZeroDivisionError"))
    else if |df.rows| == 0 then Err(PandasError("IndexError"))
    else
      var g := WithProfit(df);
      var trend := Records(g);
      Ok((FinanceSection(trend[|trend| - 1], trend,
                         if "member_type" in g.columns then SalesByMemberType(g) else map[]), g))
  }

  /**
   * A text costs figure beside a missing sales figure leaves every profit
   * missing, and a later sales figure of 0 still makes the upload fail.
   */
  lemma ZeroSalesBesideTextCostsFails()
    ensures FinanceUpdate(Frame(["month", "sales", "costs"],
                                [map["month" := Text("2024-01"), "sales" := Null, "costs" := Text("abc")],
                                 map["month" := Text("2024-02"), "sales" := Num(0.0), "costs" := Null]]))
            == Err(PandasError("ZeroDivisionError"))
  {
    var df := Frame(["month", "sales", "costs"],
                    [map["month" := Text("2024-01"), "sales" := Null, "costs" := Text("abc")],
                     map["month" := Text("2024-02"), "sales" := Num(0.0), "costs" := Null]]);
    assert Get(df.rows[0], "costs").Text?;
    assert ZeroSales(df.rows[1]) && !Get(df.rows[0], "sales").Text?;
    assert !ProfitRaises(df);
  }

  /** The trend lists every row with its profit, and the reported columns gain the two profit columns. */
  lemma FinanceTrend(df: Frame)
    requires FinanceUpdate(df).Ok?
    ensures FinanceUpdate(df).value.1.columns == ColumnsAfter("finance", df.columns)
    ensures forall i :: 0 <= i < |df.rows| ==>
      Get(FinanceUpdate(df).value.0.monthlyTrend[i], "profit") == ProfitCell(Get(df.rows[i], "sales"), Get(df.rows[i], "costs"))
  {
    var g := WithProfit(df);
    forall i | 0 <= i < |df.rows|
      ensures Get(Records(g)[i], "profit") == ProfitCell(Get(df.rows[i], "sales"), Get(df.rows[i], "costs"))
    {
      assert "profit" in g.columns;
    }
  }

  // ---------------------------------------------------------------------
  // The dashboard state and the upload handler
  // ---------------------------------------------------------------------

  function TwoDigits(n: nat): string
    requires n < 100
  {
    [Digit(n / 10), Digit(n % 10)]
  }

  /** The fixed labels the dashboard starts with. */
  function DefaultLabels(): map<string, seq<string>>
  {
    map[
      "months" := seq(12, i requires 0 <= i < 12 => "2023-" + TwoDigits(i + 1)) +
                  seq(6, i requires 0 <= i < 6 => "2024-" + TwoDigits(i + 1)),
      "daysOfWeek" := ["月", "火", "水", "木", "金", "土", "日"],
      "timeSlots" := ["9-12時", "12-15時", "15-18時", "18-21時", "21-24時"],
      "regions" := ["大阪府", "兵庫県", "京都府", "奈良県", "滋賀県", "和歌山県", "その他"],
      "roomNames" := ["Room1", "Room2", "Room3"],
      "competitorNames" := ["HAAAVE.sauna", "KUDOCHI sauna", "MENTE", "M's Sauna", "SAUNA Pod 槃",
                            "SAUNA OOO OSAKA", "大阪サウナ DESSE"],
      "ageGroups" := ["20代", "30代", "40代", "50代", "~19歳", "60歳~"],
      "genders" := ["男性", "女性"]
    ]
  }

  /** The sections an upload can replace. */
  datatype DataType = MembersData | UtilizationData | CompetitorsData | FinanceData

  /** The tests of the handler's `if data_type == ...` chain: the section a data-type name selects. */
  function DataTypeOf(name: string): (t: Option<DataType>)
    ensures t == Some(MembersData) <==> name == "members"
    ensures t == Some(UtilizationData) <==> name == "utilization"
    ensures t == Some(CompetitorsData) <==> name == "competitors"
    ensures t == Some(FinanceData) <==> name == "finance"
  {
    assert "members"[0] != "finance"[0];
    assert "utilization"[0] != "competitors"[0];
    if name == "members" then Some(MembersData)
    else if name == "utilization" then Some(UtilizationData)
    else if name == "competitors" then Some(CompetitorsData)
    else if name == "finance" then Some(FinanceData)
    else None
  }

  /** The columns each `process_*` checks for first. */
  function RequiredColumns(t: DataType): seq<string>
  {
    match t
    case MembersData => MembersRequired
    case UtilizationData => UtilizationRequired
    case CompetitorsData => CompetitorsRequired
    case FinanceData => FinanceRequired
  }

  /**
   * What the `if data_type == ...` chain raises, if anything: an unknown
   * name is a 400, a known one raises what its `process_*` raises.
   */
  function Outcome(dataType: string, df: Frame, parse: DateReader): Result<(), Exception>
  {
    match DataTypeOf(dataType)
    case None => Err(HttpError(400, UnknownTypePrefix + dataType))
    case Some(t) => SectionOutcome(t, df, parse)
  }

  /** What the `process_*` of one section raises, if anything. */
  function SectionOutcome(t: DataType, df: Frame, parse: DateReader): Result<(), Exception>
  {
    match t
    case MembersData => if MembersUpdate(df).Err? then Err(MembersUpdate(df).error) else Ok(())
    case UtilizationData =>
      var u := UtilizationUpdate(df, parse);
      if u.Err? then Err(u.error) else Ok(())
    case CompetitorsData => if CompetitorsUpdate(df).Err? then Err(CompetitorsUpdate(df).error) else Ok(())
    case FinanceData => if FinanceUpdate(df).Err? then Err(FinanceUpdate(df).error) else Ok(())
  }

  /**
   * Which error the chain raises: the unknown-type 400, the missing-column
   * 400 of the named type, or whatever else its `process_*` raises.
   */
  lemma OutcomeErrors(dataType: string, df: Frame, parse: DateReader)
    ensures var o := Outcome(dataType, df, parse);
      DataTypeOf(dataType).None? ==> o == Err(HttpError(400, UnknownTypePrefix + dataType))
    ensures var (o, t) := (Outcome(dataType, df, parse), DataTypeOf(dataType));
      t.Some? && !HasColumns(df, RequiredColumns(t.value)) ==> o == Err(MissingColumns(RequiredColumns(t.value)))
    ensures var (o, t) := (Outcome(dataType, df, parse), DataTypeOf(dataType));
      t.Some? && o.Err? && o.error.HttpError? ==> o == Err(MissingColumns(RequiredColumns(t.value)))
    ensures var o := Outcome(dataType, df, parse);
      o.Err? && o.error.HttpError? ==> o.error.status == 400
    ensures var o := Outcome(dataType, df, parse);
      && (dataType == "members" ==> (o.Ok? <==> MembersUpdate(df).Ok?))
      && (dataType == "utilization" ==> (o.Ok? <==> UtilizationUpdate(df, parse).Ok?))
      && (dataType == "competitors" ==> (o.Ok? <==> CompetitorsUpdate(df).Ok?))
      && (dataType == "finance" ==> (o.Ok? <==> FinanceUpdate(df).Ok?))
    ensures var o := Outcome(dataType, df, parse);
      && (dataType == "utilization" && o.Err? ==> o.error == UtilizationUpdate(df, parse).error)
      && (dataType == "finance" && o.Err? ==> o.error == FinanceUpdate(df).error)
  {
  }

  /** Processing the table as `dataType` succeeds. */
  predicate Processes(dataType: string, df: Frame, parse: DateReader)
  {
    Outcome(dataType, df, parse).Ok?
  }

  /**
   * The handler's own 400 for a missing column does not reach the client
   * as a 400: the catch-all turns it into a 500 whose detail carries
   * "400: " and the missing-column message.
   */
  lemma MissingColumnsReportedAs500(df: Frame, parse: DateReader)
    requires !HasColumns(df, MembersRequired)
    ensures Outcome("members", df, parse) == Err(MissingColumns(MembersRequired))
    ensures Wrap500(Message(Outcome("members", df, parse).error)) ==
      HttpError(500, UploadErrorPrefix + "400: " + MissingColumnsPrefix + JoinNames(MembersRequired))
  {
    assert DataTypeOf("members") == Some(MembersData);
    assert MembersUpdate(df) == Err(MissingColumns(MembersRequired));
    BadRequestMessage(MissingColumnsPrefix + JoinNames(MembersRequired));
  }

  /** A 400 renders with the status "400" in front of its detail. */
  lemma BadRequestMessage(detail: string)
    ensures Message(HttpError(400, detail)) == "400: " + detail
  {
    assert NatToString(4) == "4";
    assert NatToString(40) == "40";
  }

  /** The query parameter `data_type`, "members" when the request has none. */
  function RequestedType(query: Option<string>): (t: string)
    ensures query.Some? ==> t == query.value
    ensures query.None? ==> DataTypeOf(t) == Some(MembersData)
  {
    if query.Some? then query.value else "members"
  }

  /** `df.columns` after processing: utilization adds `month` and `day_of_week`, finance its profit columns. */
  function ColumnsAfter(dataType: string, columns: seq<string>): seq<string>
  {
    if dataType == "utilization" then AddName(AddName(columns, "month"), "day_of_week")
    else if dataType == "finance" then AddName(AddName(columns, "profit"), "profit_rate")
    else columns
  }

  /** The JSON body of a successful upload. */
  datatype UploadSummary = UploadSummary(
    filename: string,
    dataType: string,
    rows: nat,
    columns: seq<string>,
    savePath: string)

  /** `dashboard_data`; a section that is None has not been set (`{}`). */
  class Dashboard {
    var labels: map<string, seq<string>>
    var metrics: Option<Metrics>
    var members: Option<MembersSection>
    var utilization: Option<UtilizationSection>
    var competitors: Option<CompetitorsSection>
    var finance: Option<FinanceSection>

    constructor()
      ensures labels == DefaultLabels()
      ensures metrics.None? && members.None? && utilization.None? && competitors.None? && finance.None?
    {
      labels := DefaultLabels();
      metrics := None;
      members := None;
      utilization := None;
      competitors := None;
      finance := None;
    }

    /** `process_members_data` applied to the state: members replaced, metrics replaced only with an active member. */
    method ProcessMembersData(df: Frame) returns (r: Result<(), Exception>)
      modifies this`members, this`metrics
      ensures r.Ok? <==> MembersUpdate(df).Ok?
      ensures MembersUpdate(df).Err? ==> r == Err(MembersUpdate(df).error) && unchanged(this)
      ensures MembersUpdate(df).Ok? ==>
        && r == Ok(())
        && members == Some(MembersUpdate(df).value.0)
        && metrics == (if MembersUpdate(df).value.1.Some? then MembersUpdate(df).value.1 else old(metrics))
    {
      match MembersUpdate(df)
      case Err(e) =>
        return Err(e);
      case Ok((section, newMetrics)) =>
        members := Some(section);
        if newMetrics.Some? {
          metrics := newMetrics;
        }
        return Ok(());
    }

    method ProcessUtilizationData(df: Frame, parse: DateReader) returns (r: Result<(), Exception>)
      modifies this`utilization
      ensures r.Ok? <==> UtilizationUpdate(df, parse).Ok?
      ensures UtilizationUpdate(df, parse).Err? ==> r == Err(UtilizationUpdate(df, parse).error) && unchanged(this)
      ensures UtilizationUpdate(df, parse).Ok? ==> r == Ok(()) && utilization == Some(UtilizationUpdate(df, parse).value)
    {
      match UtilizationUpdate(df, parse)
      case Err(e) =>
        return Err(e);
      case Ok(section) =>
        utilization := Some(section);
        return Ok(());
    }

    method ProcessCompetitorsData(df: Frame) returns (r: Result<(), Exception>)
      modifies this`competitors
      ensures r.Ok? <==> CompetitorsUpdate(df).Ok?
      ensures CompetitorsUpdate(df).Err? ==> r == Err(CompetitorsUpdate(df).error) && unchanged(this)
      ensures CompetitorsUpdate(df).Ok? ==> r == Ok(()) && competitors == Some(CompetitorsUpdate(df).value)
    {
      match CompetitorsUpdate(df)
      case Err(e) =>
        return Err(e);
      case Ok(section) =>
        competitors := Some(section);
        return Ok(());
    }

    method ProcessFinanceData(df: Frame) returns (r: Result<(), Exception>)
      modifies this`finance
      ensures r.Ok? <==> FinanceUpdate(df).Ok?
      ensures FinanceUpdate(df).Err? ==> r == Err(FinanceUpdate(df).error) && unchanged(this)
      ensures FinanceUpdate(df).Ok? ==> r == Ok(()) && finance == Some(FinanceUpdate(df).value.0)
    {
      match FinanceUpdate(df)
      case Err(e) =>
        return Err(e);
      case Ok((section, _)) =>
        finance := Some(section);
        return Ok(());
    }

    /** The `if data_type == ...` chain: exactly the named section changes, and only on success. */
    method Dispatch(dataType: string, df: Frame, parse: DateReader) returns (outcome: Result<(), Exception>)
      modifies this`members, this`metrics, this`utilization, this`competitors, this`finance
      ensures outcome == Outcome(dataType, df, parse)
      ensures outcome.Err? ==> unchanged(this)
      ensures DataTypeOf(dataType) != Some(MembersData) ==> members == old(members) && metrics == old(metrics)
      ensures DataTypeOf(dataType) != Some(UtilizationData) ==> utilization == old(utilization)
      ensures DataTypeOf(dataType) != Some(CompetitorsData) ==> competitors == old(competitors)
      ensures DataTypeOf(dataType) != Some(FinanceData) ==> finance == old(finance)
      ensures outcome.Ok? ==>
        match DataTypeOf(dataType)
        case Some(MembersData) =>
          && members == Some(MembersUpdate(df).value.0)
          && metrics == (if MembersUpdate(df).value.1.Some? then MembersUpdate(df).value.1 else old(metrics))
        case Some(UtilizationData) => utilization == Some(UtilizationUpdate(df, parse).value)
        case Some(CompetitorsData) => competitors == Some(CompetitorsUpdate(df).value)
        case Some(FinanceData) => finance == Some(FinanceUpdate(df).value.0)
        case None => false
    {
      match DataTypeOf(dataType)
      case Some(MembersData) =>
        outcome := ProcessMembersData(df);
        assert outcome == SectionOutcome(MembersData, df, parse);
      case Some(UtilizationData) =>
        outcome := ProcessUtilizationData(df, parse);
        assert outcome == SectionOutcome(UtilizationData, df, parse);
      case Some(CompetitorsData) =>
        outcome := ProcessCompetitorsData(df);
        assert outcome == SectionOutcome(CompetitorsData, df, parse);
      case Some(FinanceData) =>
        outcome := ProcessFinanceData(df);
        assert outcome == SectionOutcome(FinanceData, df, parse);
      case None =>
        outcome := Err(HttpError(400, UnknownTypePrefix + dataType));
    }

    /**
     * `upload_csv`: a name not ending in `.csv` is refused with a 400 before
     * anything else; from then on every error, the handler's own 400s
     * included, leaves as a 500 whose detail embeds the original message.
     * `query` is the request's `data_type` query parameter, `read` the
     * decoded and parsed upload or the reader's error message, and `save`
     * the error message of writing the file to the upload directory, if
     * that raises. The file is written after the section is replaced, so a
     * failed write is a 500 that keeps the new section.
     */
    method UploadCsv(filename: string, query: Option<string>, read: Result<Frame, string>, parse: DateReader,
                     save: Option<string>)
      returns (r: Result<UploadSummary, Exception>)
      modifies this`members, this`metrics, this`utilization, this`competitors, this`finance
      ensures r.Ok? <==>
        EndsWith(filename, ".csv") && read.Ok? && Processes(RequestedType(query), read.value, parse) && save.None?
      ensures !EndsWith(filename, ".csv") ==> r == Err(HttpError(400, NotCsvDetail))
      ensures EndsWith(filename, ".csv") && r.Err? ==>
        r.error.HttpError? && r.error.status == 500 && StartsWith(r.error.detail, UploadErrorPrefix)
      ensures EndsWith(filename, ".csv") && read.Err? ==> r == Err(Wrap500(read.error))
      ensures EndsWith(filename, ".csv") && read.Ok? && Outcome(RequestedType(query), read.value, parse).Err? ==>
        r == Err(Wrap500(Message(Outcome(RequestedType(query), read.value, parse).error)))
      ensures EndsWith(filename, ".csv") && read.Ok? && Processes(RequestedType(query), read.value, parse) && save.Some? ==>
        r == Err(Wrap500(save.value))
      ensures !(EndsWith(filename, ".csv") && read.Ok? && Processes(RequestedType(query), read.value, parse)) ==>
        unchanged(this)
      ensures r.Ok? ==>
        r.value == UploadSummary(filename, RequestedType(query), |read.value.rows|,
                                 ColumnsAfter(RequestedType(query), read.value.columns),
                                 "uploads/" + RequestedType(query) + "_" + filename)
      ensures RequestedType(query) != "members" ==> members == old(members) && metrics == old(metrics)
      ensures RequestedType(query) != "utilization" ==> utilization == old(utilization)
      ensures RequestedType(query) != "competitors" ==> competitors == old(competitors)
      ensures RequestedType(query) != "finance" ==> finance == old(finance)
      ensures EndsWith(filename, ".csv") && read.Ok? && Processes(RequestedType(query), read.value, parse) ==>
        match DataTypeOf(RequestedType(query))
        case Some(MembersData) =>
          && members == Some(MembersUpdate(read.value).value.0)
          && metrics == (if MembersUpdate(read.value).value.1.Some? then MembersUpdate(read.value).value.1 else old(metrics))
        case Some(UtilizationData) => utilization == Some(UtilizationUpdate(read.value, parse).value)
        case Some(CompetitorsData) => competitors == Some(CompetitorsUpdate(read.value).value)
        case Some(FinanceData) => finance == Some(FinanceUpdate(read.value).value.0)
        case None => false
    {
      var dataType := RequestedType(query);
      if !EndsWith(filename, ".csv") {
        return Err(HttpError(400, NotCsvDetail));
      }
      if read.Err? {
        return Err(Wrap500(read.error));
      }
      var df := read.value;
      var outcome := Dispatch(dataType, df, parse);
      if outcome.Err? {
        return Err(Wrap500(Message(outcome.error)));
      }
      if save.Some? {
        return Err(Wrap500(save.value));
      }
      return Ok(UploadSummary(filename, dataType, |df.rows|, ColumnsAfter(dataType, df.columns),
                              "uploads/" + dataType + "_" + filename));
    }
  }
}
