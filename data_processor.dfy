/**
 * SaunaDataProcessor: loads the member, reservation, lesson-slot ("frame")
 * and sales exports of the sauna's booking system into tables, and derives
 * the member, reservation, occupancy and sales statistics from them.
 *
 * Reading a CSV file, parsing a date and the current instant come from
 * outside: they are the parameters `readCsv`, `parse` and `now`.
 */
module DataProcessor {
  import opened Tables
  import opened Numeric

  // ---------------------------------------------------------------------
  // Column names and ticket categories
  // ---------------------------------------------------------------------

  const MemberIdColumn := "メンバーID"
  const GenderColumn := "性別"
  const TrialColumn := "トライアル 受講日時"
  const PlanStartColumn := "プラン契約適用開始日"
  const PlanEndColumn := "プラン契約適用終了日"

  const ReservationIdColumn := "予約ID"
  const TicketColumn := "使用チケット"
  const LessonDayColumn := "受講日"
  const StatusColumn := "予約ステータス"
  const StartTimeColumn := "開始時刻"
  const ReservedAtColumn := "予約日時"
  const CategoryColumn := "ticket_category"

  const RoomColumn := "ルーム名"
  const FrameDayColumn := "レッスン日"
  const FrameAtColumn := "レッスン日時"
  const RateColumn := "稼働率"

  const SaleIdColumn := "売上ID"
  const SettledAtColumn := "精算日時"
  const AmountColumn := "合計金額"

  /** The monthly period column the occupancy and sales analyses add. */
  const MonthColumn := "month"

  const MemberDateColumns := [TrialColumn, PlanStartColumn, PlanEndColumn]

  const FirstTrial := "初回体験"
  const MemberTicket := "会員"
  const Visitor := "ビジター"
  const OtherTicket := "その他"

  /** The exceptions the loaders and analysers raise. */
  datatype Failure =
    | ReadError(path: string)  // pd.read_csv failed
    | KeyError(column: string) // a column the code indexes is absent
    | TypeError                // an operation on cells of the wrong kind
    | AttributeError           // `.str` on a column that holds no text

  // ---------------------------------------------------------------------
  // Members
  // ---------------------------------------------------------------------

  /** The member ids listed in the delete export. */
  function DeletedIds(del: Frame): set<Value>
  {
    set r | r in del.rows :: Get(r, MemberIdColumn)
  }

  function NotDeleted(ids: set<Value>): Row -> bool
  {
    r => Get(r, MemberIdColumn) !in ids
  }

  function Deleted(ids: set<Value>): Row -> bool
  {
    r => Get(r, MemberIdColumn) in ids
  }

  /**
   * `main[~main['メンバーID'].isin(del['メンバーID'])]`: the members whose id is
   * not on the delete list. `isin` matches a missing id with a missing id.
   */
  function RemoveMembers(main: Frame, del: Frame): (f: Frame)
    ensures f.columns == main.columns
    ensures forall r :: r in f.rows ==> r in main.rows && Get(r, MemberIdColumn) !in DeletedIds(del)
    ensures forall r :: r in main.rows && Get(r, MemberIdColumn) !in DeletedIds(del) ==> r in f.rows
  {
    Frame(main.columns, Filter(main.rows, NotDeleted(DeletedIds(del))))
  }

  /** Every member row is either kept or on the delete list. */
  lemma RemoveMembersCount(main: Frame, del: Frame)
    ensures |RemoveMembers(main, del).rows| + |Filter(main.rows, Deleted(DeletedIds(del)))| == |main.rows|
  {
    var ids := DeletedIds(del);
    CountPartition(main.rows, NotDeleted(ids), Deleted(ids), r => true);
    FilterAll(main.rows, r => true);
  }

  /** A delete list that names none of the members keeps every row, in order. */
  lemma RemoveMembersNoneListed(main: Frame, del: Frame)
    requires forall r :: r in main.rows ==> Get(r, MemberIdColumn) !in DeletedIds(del)
    ensures RemoveMembers(main, del) == main
  {
    FilterAll(main.rows, NotDeleted(DeletedIds(del)));
  }

  /** Removing members works row by row: the kept rows of two blocks are those of each block, in order. */
  lemma RemoveMembersAppend(columns: seq<string>, a: seq<Row>, b: seq<Row>, del: Frame)
    ensures RemoveMembers(Frame(columns, a + b), del).rows ==
      RemoveMembers(Frame(columns, a), del).rows + RemoveMembers(Frame(columns, b), del).rows
  {
    FilterAppend(a, b, NotDeleted(DeletedIds(del)));
  }

  /** A single member row is kept exactly when its id is not on the delete list. */
  lemma RemoveMembersRow(columns: seq<string>, r: Row, del: Frame)
    ensures RemoveMembers(Frame(columns, [r]), del).rows ==
      if Get(r, MemberIdColumn) in DeletedIds(del) then [] else [r]
  {
    assert [r][1..] == [];
  }

  /** Converts, in turn, each listed column the table has with `pd.to_datetime`. */
  function ConvertAll(f: Frame, cols: seq<string>, parse: DateReader): (g: Frame)
    ensures g.columns == f.columns && |g.rows| == |f.rows|
    ensures forall c :: c in cols && c in f.columns ==> DatesReady(g, c)
    ensures forall i, c :: 0 <= i < |g.rows| && c in cols && c in f.columns ==>
      Get(g.rows[i], c) == ToDatetime(Get(f.rows[i], c), parse)
    ensures forall i, c :: 0 <= i < |g.rows| && (c !in cols || c !in f.columns) ==> Get(g.rows[i], c) == Get(f.rows[i], c)
    decreases |cols|
  {
    if cols == [] then f
    else
      var f' := if cols[0] in f.columns then ConvertDates(f, cols[0], parse) else f;
      var g := ConvertAll(f', cols[1..], parse);
      assert forall c :: c in cols ==> c == cols[0] || c in cols[1..];
      assert forall c :: c in cols[1..] ==> c in cols;
      assert forall i, c :: 0 <= i < |f.rows| && c != cols[0] ==> Get(f'.rows[i], c) == Get(f.rows[i], c);
      g
  }

  /** `if member_delete_path:` — a delete list is used when a non-empty path is given. */
  predicate UsesDeleteList(deletePath: Option<string>)
  {
    deletePath.Some? && deletePath.value != ""
  }

  /** No member on the delete list survives loading. */
  lemma LoadedMembersExcludeDeleted(main: Frame, del: Frame, parse: DateReader)
    ensures forall r :: r in ConvertAll(RemoveMembers(main, del), MemberDateColumns, parse).rows ==>
      Get(r, MemberIdColumn) !in DeletedIds(del)
  {
    var f := RemoveMembers(main, del);
    var g := ConvertAll(f, MemberDateColumns, parse);
    forall r | r in g.rows ensures Get(r, MemberIdColumn) !in DeletedIds(del) {
      var i :| 0 <= i < |g.rows| && g.rows[i] == r;
      assert MemberIdColumn !in MemberDateColumns;
      assert Get(g.rows[i], MemberIdColumn) == Get(f.rows[i], MemberIdColumn);
      assert f.rows[i] in f.rows;
    }
  }

  /** The member counts of `analyze_member_status`. */
  datatype MemberStatus = MemberStatus(
    trialCount: nat,
    currentMembers: nat,
    formerMembers: nat,
    genderDistribution: map<Value, nat>)

  predicate HasTrial(r: Row)
  {
    !Get(r, TrialColumn).Null?
  }

  predicate HasPlanStart(r: Row)
  {
    !Get(r, PlanStartColumn).Null?
  }

  /** A plan that has started and has no end, or ends after `now`. */
  predicate IsCurrentMember(now: Date, r: Row)
  {
    var end := Get(r, PlanEndColumn);
    HasPlanStart(r) && (end.Null? || (end.Time? && Before(now, end.d)))
  }

  /** A plan that has started and ended at or before `now`. */
  predicate IsFormerMember(now: Date, r: Row)
  {
    var end := Get(r, PlanEndColumn);
    HasPlanStart(r) && end.Time? && AtOrBefore(end.d, now)
  }

  function CurrentAt(now: Date): Row -> bool
  {
    r => IsCurrentMember(now, r)
  }

  function FormerAt(now: Date): Row -> bool
  {
    r => IsFormerMember(now, r)
  }

  /** `end > now` compares only when every plan end is a date or missing. */
  predicate EndsComparable(f: Frame)
  {
    forall r :: r in f.rows ==> Get(r, PlanEndColumn).Null? || Get(r, PlanEndColumn).Time?
  }

  /** Current and former members split the members whose plan has started. */
  lemma CurrentFormerPartition(rows: seq<Row>, now: Date)
    requires forall r :: r in rows ==> Get(r, PlanEndColumn).Null? || Get(r, PlanEndColumn).Time?
    ensures forall r :: r in rows ==> !(IsCurrentMember(now, r) && IsFormerMember(now, r))
    ensures forall r :: r in rows ==> (IsCurrentMember(now, r) || IsFormerMember(now, r) <==> HasPlanStart(r))
    ensures |Filter(rows, CurrentAt(now))| + |Filter(rows, FormerAt(now))| == |Filter(rows, HasPlanStart)|
  {
    forall r | r in rows
      ensures (CurrentAt(now)(r) || FormerAt(now)(r)) <==> HasPlanStart(r)
      ensures !(CurrentAt(now)(r) && FormerAt(now)(r))
    {
      var end := Get(r, PlanEndColumn);
      if end.Time? {
        assert Before(now, end.d) || AtOrBefore(end.d, now);
        assert !(Before(now, end.d) && AtOrBefore(end.d, now));
      }
    }
    CountPartition(rows, CurrentAt(now), FormerAt(now), HasPlanStart);
  }

  // ---------------------------------------------------------------------
  // Ticket categories
  // ---------------------------------------------------------------------

  /**
   * `categorize_ticket`: the first keyword found decides — 体験 before
   * 会員/プラン before ビジター; a missing ticket is その他. A number or a
   * date renders without any of the keywords, so it is その他 too.
   */
  function CategorizeTicket(v: Value): (c: string)
    ensures c == FirstTrial || c == MemberTicket || c == Visitor || c == OtherTicket
    ensures !v.Text? ==> c == OtherTicket
  {
    match v
    case Text(s) =>
      if Contains(s, "体験") then FirstTrial
      else if Contains(s, "会員") || Contains(s, "プラン") then MemberTicket
      else if Contains(s, "ビジター") then Visitor
      else OtherTicket
    case _ => OtherTicket
  }

  /** The priority order of the keywords, stated both ways for every category. */
  lemma CategorizeTicketPriority(s: string)
    ensures CategorizeTicket(Text(s)) == FirstTrial <==> Contains(s, "体験")
    ensures CategorizeTicket(Text(s)) == MemberTicket <==>
      !Contains(s, "体験") && (Contains(s, "会員") || Contains(s, "プラン"))
    ensures CategorizeTicket(Text(s)) == Visitor <==>
      !Contains(s, "体験") && !Contains(s, "会員") && !Contains(s, "プラン") && Contains(s, "ビジター")
    ensures CategorizeTicket(Text(s)) == OtherTicket <==>
      !Contains(s, "体験") && !Contains(s, "会員") && !Contains(s, "プラン") && !Contains(s, "ビジター")
  {
    assert FirstTrial != MemberTicket && FirstTrial != Visitor && FirstTrial != OtherTicket;
    assert MemberTicket != Visitor && MemberTicket != OtherTicket && Visitor != OtherTicket;
  }

  /** A ticket name that mentions 体験 anywhere is a first trial, whatever else it says. */
  lemma TrialKeywordWins(a: string, b: string)
    ensures CategorizeTicket(Text(a + "体験" + b)) == FirstTrial
  {
    assert Contains("体験", "体験") by {
      assert StartsWith("体験", "体験");
    }
    ContainsWithin(a, "体験", b, "体験");
  }

  // ---------------------------------------------------------------------
  // Reading the reservation, frame and sales exports
  // ---------------------------------------------------------------------

  /** Which of the three multi-file exports a loader reads. */
  datatype Kind = Reservations | Frames | Sales

  /** The columns a file must have to be loaded. */
  function Required(kind: Kind): seq<string>
  {
    match kind
    case Reservations => [ReservationIdColumn, MemberIdColumn, TicketColumn, LessonDayColumn, StatusColumn]
    case Frames => [RoomColumn, FrameDayColumn, RateColumn]
    case Sales => [SaleIdColumn, MemberIdColumn, SettledAtColumn, AmountColumn]
  }

  /** `day + ' ' + time` on one row: text joined with a space, anything missing stays missing. */
  function JoinCells(day: Value, time: Value): Value
  {
    if day.Text? && time.Text? then Text(day.s + " " + time.s) else Null
  }

  /** A cell pair on which `day + ' ' + time` raises. */
  predicate JoinRaises(day: Value, time: Value)
  {
    (!day.Null? && !day.Text?) || (day.Text? && !time.Null? && !time.Text?)
  }

  /**
   * `df[into] = df[day] + ' ' + df[time]`. Adding a space to a column that
   * is not a text column, or text to a number, raises a TypeError.
   */
  function CombineDateTime(f: Frame, day: string, time: string, into: string): (r: Result<Frame, Failure>)
    ensures r.Err? <==>
      (|f.rows| > 0 && !IsTextColumn(f, day)) ||
      exists i :: 0 <= i < |f.rows| && JoinRaises(Get(f.rows[i], day), Get(f.rows[i], time))
    ensures r.Ok? ==> into in r.value.columns && |r.value.rows| == |f.rows|
    ensures r.Ok? ==> forall i :: 0 <= i < |f.rows| ==>
      var d, t := Get(f.rows[i], day), Get(f.rows[i], time);
      (d.Text? && t.Text? ==> Get(r.value.rows[i], into) == Text(d.s + " " + t.s)) &&
      (d.Null? || t.Null? ==> Get(r.value.rows[i], into) == Null)
    ensures r.Ok? ==> forall i :: 0 <= i < |f.rows| ==>
      Get(r.value.rows[i], into) == JoinCells(Get(f.rows[i], day), Get(f.rows[i], time))
    ensures r.Ok? ==> forall i, c :: 0 <= i < |f.rows| && c != into ==> Get(r.value.rows[i], c) == Get(f.rows[i], c)
  {
    if (|f.rows| > 0 && !IsTextColumn(f, day)) ||
       exists i :: 0 <= i < |f.rows| && JoinRaises(Get(f.rows[i], day), Get(f.rows[i], time))
    then Err(TypeError)
    else Ok(SetColumn(f, into, seq(|f.rows|, i requires 0 <= i < |f.rows| =>
                                     JoinCells(Get(f.rows[i], day), Get(f.rows[i], time)))))
  }

  /**
   * One rate cell: `pd.to_numeric(s.replace('%', ''), errors='coerce') / 100`.
   * Text that does not parse, and any cell that is not text, becomes missing.
   */
  function CleanRate(v: Value): (w: Value)
    ensures w.Null? || w.Num?
  {
    match v
    case Text(s) => (match ParseDecimal(RemoveChar(s, '%')) case Some(x) => Num(x / 100.0) case None => Null)
    case _ => Null
  }

  /** A percentage written `n%` becomes the fraction n/100. */
  lemma CleanRatePercent(n: nat)
    ensures CleanRate(Text(NatToString(n) + "%")) == Num(n as real / 100.0)
  {
    var s := NatToString(n);
    RemoveCharAppend(s, "%", '%');
    assert forall i :: 0 <= i < |s| ==> s[i] != '%';
    assert '%' !in s;
    assert RemoveChar("%", '%') == "";
    assert RemoveChar(s + "%", '%') == s;
    ParseNatToString(n);
  }

  /** `.str` on the rate column raises unless it is a text column (or empty). */
  function CleanRates(f: Frame): (r: Result<Frame, Failure>)
    ensures r.Err? <==> |f.rows| > 0 && !IsTextColumn(f, RateColumn)
    ensures r.Ok? ==> r.value.columns == f.columns && NumbersReady(r.value, RateColumn)
    ensures r.Ok? ==> |r.value.rows| == |f.rows|
    ensures r.Ok? ==> forall i :: 0 <= i < |f.rows| ==> Get(r.value.rows[i], RateColumn) == CleanRate(Get(f.rows[i], RateColumn))
    ensures r.Ok? ==> forall i, c :: 0 <= i < |f.rows| && c != RateColumn ==> Get(r.value.rows[i], c) == Get(f.rows[i], c)
    requires RateColumn in f.columns
  {
    if |f.rows| > 0 && !IsTextColumn(f, RateColumn) then Err(AttributeError)
    else Ok(SetColumn(f, RateColumn, seq(|f.rows|, i requires 0 <= i < |f.rows| => CleanRate(Get(f.rows[i], RateColumn)))))
  }

  /**
   * One amount cell: `pd.to_numeric(str(v).replace(',', ''), errors='coerce')`.
   * A number renders and reads back as itself; missing stays missing.
   */
  function CleanAmount(v: Value): (w: Value)
    ensures w.Null? || w.Num?
    ensures v.Num? ==> w == v
  {
    match v
    case Text(s) => (match ParseDecimal(RemoveChar(s, ',')) case Some(x) => Num(x) case None => Null)
    case Num(_) => v
    case _ => Null
  }

  /** An amount written with thousands separators (`1,234`) reads as its value. */
  lemma CleanAmountThousands(n: nat)
    ensures CleanAmount(Text(FormatThousands(n))) == Num(n as real)
  {
    StripThousands(n);
    ParseNatToString(n);
  }

  function CleanAmounts(f: Frame): (g: Frame)
    requires AmountColumn in f.columns
    ensures g.columns == f.columns && |g.rows| == |f.rows| && NumbersReady(g, AmountColumn)
    ensures forall i :: 0 <= i < |f.rows| ==> Get(g.rows[i], AmountColumn) == CleanAmount(Get(f.rows[i], AmountColumn))
    ensures forall i, c :: 0 <= i < |f.rows| && c != AmountColumn ==> Get(g.rows[i], c) == Get(f.rows[i], c)
  {
    SetColumn(f, AmountColumn, seq(|f.rows|, i requires 0 <= i < |f.rows| => CleanAmount(Get(f.rows[i], AmountColumn))))
  }

  /**
   * The per-file preparation a loader applies once the required columns are
   * present: reservations and lesson slots join day and start time when the
   * file has a start time; lesson slots then clean their rates and sales
   * their amounts.
   */
  function Prepare(kind: Kind, df: Frame): (r: Result<Frame, Failure>)
    requires HasColumns(df, Required(kind))
    ensures r.Ok? ==> HasColumns(r.value, Required(kind)) && |r.value.rows| == |df.rows|
    ensures kind == Reservations ==>
      (r.Err? <==> StartTimeColumn in df.columns && CombineDateTime(df, LessonDayColumn, StartTimeColumn, ReservedAtColumn).Err?)
    ensures kind == Reservations && StartTimeColumn in df.columns && r.Ok? ==>
      r == CombineDateTime(df, LessonDayColumn, StartTimeColumn, ReservedAtColumn)
    ensures kind == Reservations && StartTimeColumn !in df.columns ==> r == Ok(df)
    ensures kind == Frames ==>
      (r.Err? <==> (StartTimeColumn in df.columns && CombineDateTime(df, FrameDayColumn, StartTimeColumn, FrameAtColumn).Err?) ||
                   (|df.rows| > 0 && !IsTextColumn(df, RateColumn)))
    ensures kind == Frames && r.Ok? ==> NumbersReady(r.value, RateColumn)
    ensures kind == Frames && r.Ok? ==> forall i :: 0 <= i < |df.rows| ==>
      Get(r.value.rows[i], RateColumn) == CleanRate(Get(df.rows[i], RateColumn))
    ensures kind == Frames && r.Ok? && StartTimeColumn in df.columns ==> forall i :: 0 <= i < |df.rows| ==>
      Get(r.value.rows[i], FrameAtColumn) == JoinCells(Get(df.rows[i], FrameDayColumn), Get(df.rows[i], StartTimeColumn))
    ensures kind == Frames && r.Ok? ==> forall i, c ::
      0 <= i < |df.rows| && c != RateColumn && (c != FrameAtColumn || StartTimeColumn !in df.columns) ==>
        Get(r.value.rows[i], c) == Get(df.rows[i], c)
    ensures kind == Sales ==> r == Ok(CleanAmounts(df))
  {
    match kind
    case Reservations =>
      if StartTimeColumn in df.columns
      then CombineDateTime(df, LessonDayColumn, StartTimeColumn, ReservedAtColumn)
      else Ok(df)
    case Frames =>
      var combined :=
        if StartTimeColumn in df.columns
        then CombineDateTime(df, FrameDayColumn, StartTimeColumn, FrameAtColumn)
        else Ok(df);
      (match combined
       case Err(e) => Err(e)
       case Ok(g) =>
         assert RateColumn in g.columns;
         assert forall i :: 0 <= i < |g.rows| ==> Get(g.rows[i], RateColumn) == Get(df.rows[i], RateColumn);
         assert IsTextColumn(g, RateColumn) <==> IsTextColumn(df, RateColumn);
         CleanRates(g))
    case Sales =>
      Ok(CleanAmounts(df))
  }

  /** A lesson-slot file whose rate column was read as numbers raises at `.str`, and is warned about. */
  lemma NumericRatesFail(df: Frame)
    requires HasColumns(df, Required(Frames)) && |df.rows| > 0
    requires forall i :: 0 <= i < |df.rows| ==> Get(df.rows[i], RateColumn).Num?
    ensures Prepare(Frames, df).Err?
    ensures IntakeOf(Frames, Some(df)).Failed?
  {
    assert !IsTextColumn(df, RateColumn);
  }

  /** What happened to one file of a multi-file load. */
  datatype Intake =
    | Accepted(frame: Frame) // appended to `dfs`
    | Skipped                // lacked a required column: silently left out
    | Failed                 // raised: a warning names the path

  /** The fate of one file given what reading it produced. */
  function IntakeOf(kind: Kind, read: Option<Frame>): (x: Intake)
    ensures x.Failed? <==> read.None? || (HasColumns(read.value, Required(kind)) && Prepare(kind, read.value).Err?)
    ensures x.Accepted? ==> read.Some? && HasColumns(read.value, Required(kind)) && Prepare(kind, read.value) == Ok(x.frame)
    ensures x.Skipped? <==> read.Some? && !HasColumns(read.value, Required(kind))
    ensures x.Accepted? ==> HasColumns(x.frame, Required(kind))
    ensures x.Accepted? && kind == Frames ==> NumbersReady(x.frame, RateColumn)
    ensures x.Accepted? && kind == Sales ==> NumbersReady(x.frame, AmountColumn)
    ensures kind == Sales ==> (x.Failed? <==> read.None?)
  {
    match read
    case None => Failed
    case Some(df) =>
      if !HasColumns(df, Required(kind)) then Skipped
      else match Prepare(kind, df)
        case Ok(g) => Accepted(g)
        case Err(_) => Failed
  }

  function Intakes(kind: Kind, paths: seq<string>, readCsv: string -> Option<Frame>): (xs: seq<Intake>)
    ensures |xs| == |paths|
    ensures forall i :: 0 <= i < |paths| ==> xs[i] == IntakeOf(kind, readCsv(paths[i]))
  {
    seq(|paths|, i requires 0 <= i < |paths| => IntakeOf(kind, readCsv(paths[i])))
  }

  /** The frames of the accepted files, in path order. */
  function AcceptedFrames(xs: seq<Intake>): (dfs: seq<Frame>)
    ensures |dfs| <= |xs|
    ensures forall df :: df in dfs <==> Accepted(df) in xs
  {
    if xs == [] then []
    else
      var init, x := xs[..|xs| - 1], xs[|xs| - 1];
      assert xs == init + [x];
      AcceptedFrames(init) + (if x.Accepted? then [x.frame] else [])
  }

  /** The paths a warning is printed for, in path order. */
  function FailedPaths(paths: seq<string>, xs: seq<Intake>): (warned: seq<string>)
    requires |paths| == |xs|
    ensures forall p :: p in warned <==> exists i :: 0 <= i < |xs| && xs[i].Failed? && paths[i] == p
  {
    if xs == [] then []
    else
      var n := |xs| - 1;
      var w := FailedPaths(paths[..n], xs[..n]);
      assert forall i :: 0 <= i < n ==> xs[..n][i] == xs[i] && paths[..n][i] == paths[i];
      w + (if xs[n].Failed? then [paths[n]] else [])
  }

  /** Every accepted frame has the kind's required columns. */
  lemma AcceptedHaveColumns(kind: Kind, paths: seq<string>, readCsv: string -> Option<Frame>)
    ensures var dfs := AcceptedFrames(Intakes(kind, paths, readCsv));
      forall i :: 0 <= i < |dfs| ==> HasColumns(dfs[i], Required(kind))
  {
    var xs := Intakes(kind, paths, readCsv);
    var dfs := AcceptedFrames(xs);
    forall i | 0 <= i < |dfs| ensures HasColumns(dfs[i], Required(kind)) {
      assert Accepted(dfs[i]) in xs;
    }
  }

  /** Processing one more path extends the outcome of the paths before it. */
  lemma IntakesSnoc(kind: Kind, paths: seq<string>, readCsv: string -> Option<Frame>, i: nat)
    requires i < |paths|
    ensures var xs, x := Intakes(kind, paths[..i], readCsv), IntakeOf(kind, readCsv(paths[i]));
      && AcceptedFrames(Intakes(kind, paths[..i + 1], readCsv)) == AcceptedFrames(xs) + (if x.Accepted? then [x.frame] else [])
      && FailedPaths(paths[..i + 1], Intakes(kind, paths[..i + 1], readCsv)) ==
         FailedPaths(paths[..i], xs) + (if x.Failed? then [paths[i]] else [])
  {
    var xs, x := Intakes(kind, paths[..i], readCsv), IntakeOf(kind, readCsv(paths[i]));
    var ys := Intakes(kind, paths[..i + 1], readCsv);
    assert ys == xs + [x];
    assert ys[..i] == xs && paths[..i + 1][..i] == paths[..i];
  }

  /** Each file's contribution is independent of the others. */
  lemma {:induction false} AcceptedFramesAppend(xs: seq<Intake>, ys: seq<Intake>)
    ensures AcceptedFrames(xs + ys) == AcceptedFrames(xs) + AcceptedFrames(ys)
  {
    if ys == [] {
      assert xs + ys == xs;
    } else {
      var init, y := ys[..|ys| - 1], ys[|ys| - 1];
      assert (xs + ys)[..|xs + ys| - 1] == xs + init;
      AcceptedFramesAppend(xs, init);
    }
  }

  /** A file that is skipped or raises does not disturb the files around it. */
  lemma RejectedFileIsolated(kind: Kind, paths: seq<string>, readCsv: string -> Option<Frame>, k: nat)
    requires k < |paths| && !IntakeOf(kind, readCsv(paths[k])).Accepted?
    ensures AcceptedFrames(Intakes(kind, paths, readCsv)) ==
      AcceptedFrames(Intakes(kind, paths[..k], readCsv)) + AcceptedFrames(Intakes(kind, paths[k + 1..], readCsv))
  {
    var xs := Intakes(kind, paths, readCsv);
    var a, b := Intakes(kind, paths[..k], readCsv), Intakes(kind, paths[k + 1..], readCsv);
    var x := xs[k];
    assert xs == a + [x] + b;
    AcceptedFramesAppend(a + [x], b);
    AcceptedFramesAppend(a, [x]);
    assert [x][..0] == [];
  }

  /** Column names of `a` followed by those of `b` not already present. */
  function MergeColumns(a: seq<string>, b: seq<string>): (cs: seq<string>)
    ensures forall c :: c in cs <==> c in a || c in b
  {
    a + Filter(b, c => c !in a)
  }

  /** `pd.concat(dfs, ignore_index=True)`: the union of the columns, the rows one file after another. */
  function Concat(dfs: seq<Frame>): (f: Frame)
    ensures forall c :: c in f.columns <==> exists i :: 0 <= i < |dfs| && c in dfs[i].columns
  {
    if dfs == [] then Frame([], [])
    else
      var n := |dfs| - 1;
      var init := Concat(dfs[..n]);
      assert forall i :: 0 <= i < n ==> dfs[..n][i] == dfs[i];
      Frame(MergeColumns(init.columns, dfs[n].columns), init.rows + dfs[n].rows)
  }

  /** Concatenation keeps every row of every file. */
  lemma {:induction false} ConcatRows(dfs: seq<Frame>)
    ensures forall r :: r in Concat(dfs).rows <==> exists i :: 0 <= i < |dfs| && r in dfs[i].rows
  {
    if dfs != [] {
      var n := |dfs| - 1;
      ConcatRows(dfs[..n]);
      assert forall i :: 0 <= i < n ==> dfs[..n][i] == dfs[i];
    }
  }

  /** The rows of one table concatenated are its rows. */
  lemma ConcatSingle(f: Frame)
    ensures Concat([f]).rows == f.rows
  {
    assert [f][..0] == [];
  }

  /** The last table's rows come after the rows of the tables before it. */
  lemma ConcatLast(dfs: seq<Frame>)
    requires dfs != []
    ensures Concat(dfs).rows == Concat(dfs[..|dfs| - 1]).rows + dfs[|dfs| - 1].rows
  {
  }

  /** Concatenation puts the rows of the earlier tables first, each table's rows in their order. */
  lemma {:induction false} ConcatAppend(a: seq<Frame>, b: seq<Frame>)
    ensures Concat(a + b).rows == Concat(a).rows + Concat(b).rows
  {
    if b == [] {
      assert a + b == a;
    } else {
      var n := |b| - 1;
      var ab := a + b;
      assert ab[..|ab| - 1] == a + b[..n];
      assert ab[|ab| - 1] == b[n];
      calc {
        Concat(ab).rows;
      == { ConcatLast(ab); }
        Concat(a + b[..n]).rows + b[n].rows;
      == { ConcatAppend(a, b[..n]); }
        Concat(a).rows + Concat(b[..n]).rows + b[n].rows;
      == { ConcatLast(b); }
        Concat(a).rows + Concat(b).rows;
      }
    }
  }

  /** A column that is numeric in every file is numeric in the concatenation. */
  lemma {:induction false} ConcatNumbersReady(dfs: seq<Frame>, c: string)
    requires forall i :: 0 <= i < |dfs| ==> NumbersReady(dfs[i], c)
    ensures NumbersReady(Concat(dfs), c)
  {
    if dfs != [] {
      var n := |dfs| - 1;
      ConcatNumbersReady(dfs[..n], c);
      var init := Concat(dfs[..n]);
      var f := Concat(dfs);
      forall i | 0 <= i < |f.rows| ensures Get(f.rows[i], c).Null? || Get(f.rows[i], c).Num? {
        if i < |init.rows| {
          assert f.rows[i] == init.rows[i];
        } else {
          assert f.rows[i] == dfs[n].rows[i - |init.rows|];
        }
      }
    }
  }

  /** The date column the reservation analysis uses: the combined one when present. */
  function ReservationDateColumn(f: Frame): string
  {
    if ReservedAtColumn in f.columns then ReservedAtColumn else LessonDayColumn
  }

  /** The date column the occupancy analysis uses: the combined one when present. */
  function FrameDateColumn(f: Frame): string
  {
    if FrameAtColumn in f.columns then FrameAtColumn else FrameDayColumn
  }

  /** The column the loader converts to dates after concatenation. */
  function LoadDateColumn(kind: Kind, f: Frame): string
  {
    match kind
    case Reservations => ReservationDateColumn(f)
    case Frames => FrameDateColumn(f)
    case Sales => SettledAtColumn
  }

  /** The conversion applied after concatenation: the analysis' date column becomes dates. */
  function FinishLoad(kind: Kind, f: Frame, parse: DateReader): (g: Frame)
    ensures g.columns == f.columns && |g.rows| == |f.rows|
    ensures LoadDateColumn(kind, g) == LoadDateColumn(kind, f)
    ensures LoadDateColumn(kind, f) in f.columns ==> DatesReady(g, LoadDateColumn(kind, f))
    ensures LoadDateColumn(kind, f) in f.columns ==> forall i :: 0 <= i < |f.rows| ==>
      Get(g.rows[i], LoadDateColumn(kind, f)) == ToDatetime(Get(f.rows[i], LoadDateColumn(kind, f)), parse)
    ensures forall i, c :: 0 <= i < |f.rows| && c != LoadDateColumn(kind, f) ==> Get(g.rows[i], c) == Get(f.rows[i], c)
    ensures kind == Frames ==> (NumbersReady(f, RateColumn) ==> NumbersReady(g, RateColumn))
    ensures kind == Sales ==> (NumbersReady(f, AmountColumn) ==> NumbersReady(g, AmountColumn))
    ensures kind == Reservations && ReservationDateColumn(g) in g.columns ==> DatesReady(g, ReservationDateColumn(g))
    ensures kind == Frames && FrameDateColumn(g) in g.columns ==> DatesReady(g, FrameDateColumn(g))
    ensures kind == Sales && SettledAtColumn in g.columns ==> DatesReady(g, SettledAtColumn)
  {
    var c := LoadDateColumn(kind, f);
    if c in f.columns then ConvertDates(f, c, parse) else f
  }

  // ---------------------------------------------------------------------
  // Reservation statistics
  // ---------------------------------------------------------------------

  /** The `ticket_category` column the reservation analysis adds. */
  function Categories(f: Frame): (vs: seq<Value>)
    ensures |vs| == |f.rows|
    ensures forall i :: 0 <= i < |vs| ==>
      vs[i] == Text(if TicketColumn in f.columns then CategorizeTicket(Get(f.rows[i], TicketColumn)) else OtherTicket)
  {
    seq(|f.rows|, i requires 0 <= i < |f.rows| =>
      Text(if TicketColumn in f.columns then CategorizeTicket(Get(f.rows[i], TicketColumn)) else OtherTicket))
  }

  function WithCategories(f: Frame): Frame
  {
    SetColumn(f, CategoryColumn, Categories(f))
  }

  /** Row `r` is dated in month `m` in column `c`. */
  function InMonth(c: string, m: Month): Row -> bool
  {
    r => MonthOfValue(Get(r, c)) == Some(m)
  }

  /** (month, category) of each row whose date is present, top to bottom. */
  function DatedPairs(rows: seq<Row>, dateCol: string): (ps: seq<(Month, Value)>)
    ensures |ps| <= |rows|
  {
    if rows == [] then []
    else
      (match MonthOfValue(Get(rows[0], dateCol))
       case Some(m) => [(m, Get(rows[0], CategoryColumn))]
       case None => []) + DatedPairs(rows[1..], dateCol)
  }

  /**
   * `groupby([month, ticket_category]).size().unstack(fill_value=0)`, one map
   * per category: every month that has a dated reservation, a zero where the
   * category has none that month.
   */
  function MonthlyStats(ps: seq<(Month, Value)>): (s: map<Value, map<Month, nat>>)
    ensures s.Keys == CategoriesOf(ps)
    ensures forall c :: c in s ==> s[c].Keys == MonthsOf(ps)
    ensures forall c, m :: c in s && m in s[c] ==> s[c][m] == multiset(ps)[(m, c)]
  {
    map c | c in CategoriesOf(ps) :: CellCounts(ps, MonthsOf(ps), c)
  }

  function CategoriesOf(ps: seq<(Month, Value)>): set<Value>
  {
    set p | p in ps :: p.1
  }

  function MonthsOf(ps: seq<(Month, Value)>): set<Month>
  {
    set p | p in ps :: p.0
  }

  /** One category's counts over the months `ms`. */
  function CellCounts(ps: seq<(Month, Value)>, ms: set<Month>, c: Value): map<Month, nat>
  {
    map m | m in ms :: multiset(ps)[(m, c)]
  }

  /** One month's counts over the categories `cats`. */
  function MonthCounts(ps: seq<(Month, Value)>, cats: set<Value>, m: Month): map<Value, int>
  {
    map c | c in cats :: multiset(ps)[(m, c)]
  }

  /** The result of `analyze_reservations`. */
  datatype ReservationStats = ReservationStats(
    monthlyStats: map<Value, map<Month, nat>>,
    ticketDistribution: map<Value, nat>)

  /** The statistics read from a table that already has its `ticket_category` column. */
  function StatsOf(g: Frame): ReservationStats
  {
    var dateCol := ReservationDateColumn(g);
    ReservationStats(
      if dateCol in g.columns then MonthlyStats(DatedPairs(g.rows, dateCol)) else map[],
      CountBy(Column(g, CategoryColumn)))
  }

  /** The category counts add up to the number of reservations. */
  lemma TicketDistributionTotal(f: Frame)
    ensures Total(StatsOf(WithCategories(f)).ticketDistribution) == |f.rows|
  {
    CountByTotal(Column(WithCategories(f), CategoryColumn));
  }

  /** Every category counted is one of the four categories. */
  lemma TicketDistributionCategories(f: Frame)
    ensures forall c :: c in StatsOf(WithCategories(f)).ticketDistribution ==>
      c in {Text(FirstTrial), Text(MemberTicket), Text(Visitor), Text(OtherTicket)}
  {
    var col := Column(WithCategories(f), CategoryColumn);
    assert StatsOf(WithCategories(f)).ticketDistribution == CountBy(col);
    forall c | c in CountBy(col)
      ensures c in {Text(FirstTrial), Text(MemberTicket), Text(Visitor), Text(OtherTicket)}
    {
      var i :| 0 <= i < |col| && col[i] == c;
      CategoryCell(f, i);
    }
  }

  /** Each cell of the new column holds one of the four categories. */
  lemma CategoryCell(f: Frame, i: nat)
    requires i < |f.rows|
    ensures Column(WithCategories(f), CategoryColumn)[i] in
      {Text(FirstTrial), Text(MemberTicket), Text(Visitor), Text(OtherTicket)}
  {
    assert Column(WithCategories(f), CategoryColumn)[i] == Categories(f)[i];
  }

  /** One more dated pair adds one to its own month's cell and leaves other months alone. */
  lemma MonthCountsCons(m0: Month, c0: Value, qs: seq<(Month, Value)>, cats: set<Value>, m: Month)
    requires c0 in cats
    ensures MonthCounts([(m0, c0)] + qs, cats, m) ==
      if m0 == m then MonthCounts(qs, cats, m)[c0 := MonthCounts(qs, cats, m)[c0] + 1] else MonthCounts(qs, cats, m)
  {
    assert multiset([(m0, c0)] + qs) == multiset{(m0, c0)} + multiset(qs);
  }

  /** The month-`m` column over categories `cats` totals the rows dated in `m`. */
  lemma {:induction false} MonthColumnTotal(rows: seq<Row>, dateCol: string, cats: set<Value>, m: Month)
    requires CategoriesOf(DatedPairs(rows, dateCol)) <= cats
    ensures Total(MonthCounts(DatedPairs(rows, dateCol), cats, m)) == |Filter(rows, InMonth(dateCol, m))|
  {
    var ps := DatedPairs(rows, dateCol);
    if rows == [] {
      TotalAllZero(MonthCounts(ps, cats, m));
    } else {
      var qs := DatedPairs(rows[1..], dateCol);
      var b := MonthCounts(qs, cats, m);
      var k := |Filter(rows[1..], InMonth(dateCol, m))|;
      match MonthOfValue(Get(rows[0], dateCol))
      case None =>
        assert ps == qs;
        MonthColumnTotal(rows[1..], dateCol, cats, m);
        assert |Filter(rows, InMonth(dateCol, m))| == k;
      case Some(m0) =>
        var c0 := Get(rows[0], CategoryColumn);
        assert ps == [(m0, c0)] + qs;
        assert (m0, c0) in ps;
        assert CategoriesOf(qs) <= CategoriesOf(ps);
        MonthColumnTotal(rows[1..], dateCol, cats, m);
        MonthCountsCons(m0, c0, qs, cats, m);
        if m0 == m {
          TotalAdd(b, c0, 1);
          assert |Filter(rows, InMonth(dateCol, m))| == 1 + k;
        } else {
          assert |Filter(rows, InMonth(dateCol, m))| == k;
        }
    }
  }

  /** Month `m`'s column of the unstacked table, zero where the month has no reservation. */
  function CountsInMonth(s: map<Value, map<Month, nat>>, m: Month): map<Value, int>
  {
    map c | c in s :: if m in s[c] then s[c][m] else 0
  }

  lemma MonthColumnCounts(ps: seq<(Month, Value)>, m: Month)
    ensures CountsInMonth(MonthlyStats(ps), m) == MonthCounts(ps, CategoriesOf(ps), m)
  {
    var s := MonthlyStats(ps);
    var column := CountsInMonth(s, m);
    var counts := MonthCounts(ps, CategoriesOf(ps), m);
    forall c | c in s ensures column[c] == counts[c] {
      assert s[c] == CellCounts(ps, MonthsOf(ps), c);
      if m in MonthsOf(ps) {
        assert column[c] == s[c][m] == multiset(ps)[(m, c)];
      } else {
        assert forall p :: p in ps ==> p.0 in MonthsOf(ps);
        assert column[c] == 0 == multiset(ps)[(m, c)];
      }
    }
    assert column.Keys == counts.Keys;
  }

  /**
   * For every month, the category counts of that month add up to the
   * reservations dated in it (a category absent that month counting zero).
   */
  lemma MonthlyStatsRowTotals(g: Frame, m: Month)
    requires ReservationDateColumn(g) in g.columns
    ensures Total(CountsInMonth(StatsOf(g).monthlyStats, m)) == |Filter(g.rows, InMonth(ReservationDateColumn(g), m))|
  {
    var dateCol := ReservationDateColumn(g);
    var ps := DatedPairs(g.rows, dateCol);
    assert StatsOf(g).monthlyStats == MonthlyStats(ps);
    MonthColumnCounts(ps, m);
    MonthColumnTotal(g.rows, dateCol, CategoriesOf(ps), m);
  }

  // ---------------------------------------------------------------------
  // Occupancy and sales
  // ---------------------------------------------------------------------

  /** `.dt.to_period('M')` on one cell. */
  function PeriodOf(v: Value): (w: Value)
    ensures v.Time? <==> w.Period?
    ensures v.Time? ==> w.p == MonthOf(v.d)
    ensures !v.Time? ==> w.Null?
  {
    if v.Time? then Period(MonthOf(v.d)) else Null
  }

  /** `df['month'] = df[c].dt.to_period('M')`. */
  function WithMonths(f: Frame, c: string): Frame
  {
    SetColumn(f, MonthColumn, seq(|f.rows|, i requires 0 <= i < |f.rows| => PeriodOf(Get(f.rows[i], c))))
  }

  /** The months under which `groupby('month')` puts some row (missing periods drop out). */
  function PeriodsIn(rows: seq<Row>): set<Month>
  {
    set r | r in rows && Get(r, MonthColumn).Period? :: Get(r, MonthColumn).p
  }

  function InPeriod(m: Month): Row -> bool
  {
    r => Get(r, MonthColumn) == Period(m)
  }

  predicate Undated(r: Row)
  {
    !Get(r, MonthColumn).Period?
  }

  function InRoom(room: Value): Row -> bool
  {
    r => Get(r, RoomColumn) == room
  }

  /** `room_data.groupby('month')['稼働率'].mean()` for one room. */
  function RoomMonthly(g: Frame, room: Value): (monthly: map<Month, Option<real>>)
    ensures forall m :: m in monthly <==> exists r :: r in g.rows && Get(r, RoomColumn) == room && Get(r, MonthColumn) == Period(m)
    ensures forall m :: m in monthly ==>
      (monthly[m].None? <==> CountNumbers(Values(Filter(Filter(g.rows, InRoom(room)), InPeriod(m)), RateColumn)) == 0)
  {
    var rs := Filter(g.rows, InRoom(room));
    map m | m in PeriodsIn(rs) :: Mean(Values(Filter(rs, InPeriod(m)), RateColumn))
  }

  /** `Series.unique()`: each value once, in order of first appearance. */
  function Unique(vs: seq<Value>): (u: seq<Value>)
    ensures forall v :: v in u <==> v in vs
    ensures forall i, j :: 0 <= i < j < |u| ==> u[i] != u[j]
  {
    if vs == [] then []
    else
      var init, v := vs[..|vs| - 1], vs[|vs| - 1];
      assert vs == init + [v];
      var u := Unique(init);
      if v in u then u else u + [v]
  }

  /** The sum of the amounts of the rows in month `m` (missing amounts skipped). */
  function MonthSum(rows: seq<Row>, m: Month): real
  {
    SumAmounts(Values(Filter(rows, InPeriod(m)), AmountColumn))
  }

  /** The sum of the amounts of the rows without a month. */
  function UndatedSum(rows: seq<Row>): real
  {
    SumAmounts(Values(Filter(rows, Undated), AmountColumn))
  }

  /** `groupby('month')['合計金額'].sum()`: one sum per month present. */
  function MonthlySales(g: Frame): (s: map<Month, real>)
    ensures s.Keys == PeriodsIn(g.rows)
  {
    map m | m in PeriodsIn(g.rows) :: MonthSum(g.rows, m)
  }

  /** The result of `analyze_sales`; an average of None is pandas' NaN. */
  datatype SalesSummary = SalesSummary(monthlySales: map<Month, real>, totalSales: real, averageTransaction: Option<real>)

  lemma SumAmountsCons(rows: seq<Row>, c: string)
    requires rows != []
    ensures SumAmounts(Values(rows, c)) == Amount(Get(rows[0], c)) + SumAmounts(Values(rows[1..], c))
  {
    assert Values(rows, c)[1..] == Values(rows[1..], c);
  }

  /** How the first row moves a month's sum. */
  lemma MonthSumCons(rows: seq<Row>, m: Month)
    requires rows != []
    ensures MonthSum(rows, m) ==
      (if Get(rows[0], MonthColumn) == Period(m) then Amount(Get(rows[0], AmountColumn)) else 0.0) + MonthSum(rows[1..], m)
  {
    var rest := rows[1..];
    if Get(rows[0], MonthColumn) == Period(m) {
      assert Filter(rows, InPeriod(m)) == [rows[0]] + Filter(rest, InPeriod(m));
      SumAmountsCons(Filter(rows, InPeriod(m)), AmountColumn);
      assert Filter(rows, InPeriod(m))[1..] == Filter(rest, InPeriod(m));
    } else {
      assert Filter(rows, InPeriod(m)) == Filter(rest, InPeriod(m));
    }
  }

  /** How the first row moves the undated sum. */
  lemma UndatedSumCons(rows: seq<Row>)
    requires rows != []
    ensures UndatedSum(rows) ==
      (if Undated(rows[0]) then Amount(Get(rows[0], AmountColumn)) else 0.0) + UndatedSum(rows[1..])
  {
    var rest := rows[1..];
    if Undated(rows[0]) {
      assert Filter(rows, Undated) == [rows[0]] + Filter(rest, Undated);
      SumAmountsCons(Filter(rows, Undated), AmountColumn);
      assert Filter(rows, Undated)[1..] == Filter(rest, Undated);
    } else {
      assert Filter(rows, Undated) == Filter(rest, Undated);
    }
  }

  function MonthSums(rows: seq<Row>, ms: set<Month>): map<Month, real>
  {
    map m | m in ms :: MonthSum(rows, m)
  }

  /** The first row's amount lands in its own month's sum, or in the undated sum. */
  lemma MonthSumsCons(rows: seq<Row>, ms: set<Month>)
    requires rows != [] && PeriodsIn(rows) <= ms
    ensures var x, cell := Amount(Get(rows[0], AmountColumn)), Get(rows[0], MonthColumn);
      RealTotal(MonthSums(rows, ms)) + UndatedSum(rows) == x + RealTotal(MonthSums(rows[1..], ms)) + UndatedSum(rows[1..])
  {
    var a, b := MonthSums(rows, ms), MonthSums(rows[1..], ms);
    var x, cell := Amount(Get(rows[0], AmountColumn)), Get(rows[0], MonthColumn);
    UndatedSumCons(rows);
    if cell.Period? {
      var m0 := cell.p;
      assert m0 in PeriodsIn(rows);
      forall m | m in ms ensures a[m] == (if m == m0 then b[m] + x else b[m]) {
        MonthSumCons(rows, m);
      }
      RealTotalShift(a, b, m0, x);
    } else {
      forall m | m in ms ensures a[m] == b[m] {
        MonthSumCons(rows, m);
      }
      assert a == b;
    }
  }

  /** Monthly sums over any set of months that covers the rows, plus undated amounts, give the whole sum. */
  lemma {:induction false} MonthlySplit(rows: seq<Row>, ms: set<Month>)
    requires PeriodsIn(rows) <= ms
    ensures RealTotal(MonthSums(rows, ms)) + UndatedSum(rows) == SumAmounts(Values(rows, AmountColumn))
  {
    if rows == [] {
      RealTotalAllZero(MonthSums(rows, ms));
    } else {
      assert PeriodsIn(rows[1..]) <= PeriodsIn(rows);
      MonthlySplit(rows[1..], ms);
      SumAmountsCons(rows, AmountColumn);
      MonthSumsCons(rows, ms);
    }
  }

  /**
   * The total is the sum of the monthly sales plus the amounts of rows
   * whose date did not parse; with every date parsed, the two agree.
   */
  lemma SalesTotalSplit(g: Frame)
    ensures RealTotal(MonthlySales(g)) + UndatedSum(g.rows) == SumAmounts(Column(g, AmountColumn))
    ensures (forall r :: r in g.rows ==> !Undated(r)) ==> RealTotal(MonthlySales(g)) == SumAmounts(Column(g, AmountColumn))
  {
    MonthlySplit(g.rows, PeriodsIn(g.rows));
    assert MonthSums(g.rows, PeriodsIn(g.rows)) == MonthlySales(g);
    var u := Filter(g.rows, Undated);
    if u != [] {
      assert u[0] in u;
    }
  }

  // ---------------------------------------------------------------------
  // The processor
  // ---------------------------------------------------------------------

  /** What the analyses rely on: the date and number columns have been converted. */
  predicate ReservationsReady(f: Frame)
  {
    ReservationDateColumn(f) in f.columns ==> DatesReady(f, ReservationDateColumn(f))
  }

  predicate FramesReady(f: Frame)
  {
    (FrameDateColumn(f) in f.columns ==> DatesReady(f, FrameDateColumn(f))) && NumbersReady(f, RateColumn)
  }

  predicate SalesReady(f: Frame)
  {
    (SettledAtColumn in f.columns ==> DatesReady(f, SettledAtColumn)) && NumbersReady(f, AmountColumn)
  }

  class SaunaDataProcessor {
    var memberData: Option<Frame>
    var memberDeleteData: Option<Frame>
    var reservationData: Option<Frame>
    var frameData: Option<Frame>
    var salesData: Option<Frame>

    ghost predicate Valid()
      reads this
    {
      && (reservationData.Some? ==> ReservationsReady(reservationData.value))
      && (frameData.Some? ==> FramesReady(frameData.value))
      && (salesData.Some? ==> SalesReady(salesData.value))
    }

    constructor()
      ensures Valid()
      ensures memberData.None? && memberDeleteData.None?
      ensures reservationData.None? && frameData.None? && salesData.None?
    {
      memberData := None;
      memberDeleteData := None;
      reservationData := None;
      frameData := None;
      salesData := None;
    }

    /**
     * `load_member_data`: reads the members, drops those on the delete list
     * when one is given, then converts the three date columns. A failure
     * leaves the fields as far as the code had assigned them.
     */
    method LoadMemberData(readCsv: string -> Option<Frame>, memberPath: string, deletePath: Option<string>,
                          parse: DateReader) returns (outcome: Result<(), Failure>)
      modifies this`memberData, this`memberDeleteData
      ensures readCsv(memberPath).None? ==>
        outcome == Err(ReadError(memberPath)) && memberData == old(memberData) && memberDeleteData == old(memberDeleteData)
      ensures readCsv(memberPath).Some? && !UsesDeleteList(deletePath) ==>
        outcome == Ok(()) && memberDeleteData == old(memberDeleteData) &&
        memberData == Some(ConvertAll(readCsv(memberPath).value, MemberDateColumns, parse))
      ensures readCsv(memberPath).Some? && UsesDeleteList(deletePath) && readCsv(deletePath.value).None? ==>
        outcome == Err(ReadError(deletePath.value)) && memberDeleteData == old(memberDeleteData) &&
        memberData == readCsv(memberPath)
      ensures readCsv(memberPath).Some? && UsesDeleteList(deletePath) && readCsv(deletePath.value).Some? ==>
        var main, del := readCsv(memberPath).value, readCsv(deletePath.value).value;
        memberDeleteData == Some(del) &&
        if MemberIdColumn in main.columns && MemberIdColumn in del.columns then
          outcome == Ok(()) && memberData == Some(ConvertAll(RemoveMembers(main, del), MemberDateColumns, parse))
        else
          outcome == Err(KeyError(MemberIdColumn)) && memberData == Some(main)
    {
      var read := readCsv(memberPath);
      if read.None? {
        return Err(ReadError(memberPath));
      }
      var f := read.value;
      memberData := Some(f);
      if UsesDeleteList(deletePath) {
        var delRead := readCsv(deletePath.value);
        if delRead.None? {
          return Err(ReadError(deletePath.value));
        }
        memberDeleteData := delRead;
        var del := delRead.value;
        if MemberIdColumn !in f.columns || MemberIdColumn !in del.columns {
          return Err(KeyError(MemberIdColumn));
        }
        f := RemoveMembers(f, del);
        memberData := Some(f);
      }
      ghost var start, deleteData := f, memberDeleteData;
      for k := 0 to |MemberDateColumns|
        invariant ConvertAll(f, MemberDateColumns[k..], parse) == ConvertAll(start, MemberDateColumns, parse)
        invariant memberData == Some(f) && memberDeleteData == deleteData
      {
        var c := MemberDateColumns[k];
        assert MemberDateColumns[k..][1..] == MemberDateColumns[k + 1..];
        if c in f.columns {
          f := ConvertDates(f, c, parse);
          memberData := Some(f);
        }
      }
      return Ok(());
    }

    /**
     * `analyze_member_status` (age statistics aside): trial, current and
     * former member counts at instant `now`, and the gender distribution.
     */
    method AnalyzeMemberStatus(now: Date) returns (r: Result<MemberStatus, Failure>)
      ensures memberData.None? ==> r == Ok(MemberStatus(0, 0, 0, map[]))
      ensures memberData.Some? && TrialColumn !in memberData.value.columns ==> r == Err(KeyError(TrialColumn))
      ensures memberData.Some? && TrialColumn in memberData.value.columns && PlanStartColumn !in memberData.value.columns ==>
        r == Err(KeyError(PlanStartColumn))
      ensures memberData.Some? && TrialColumn in memberData.value.columns && PlanStartColumn in memberData.value.columns &&
              PlanEndColumn !in memberData.value.columns ==>
        r == Err(KeyError(PlanEndColumn))
      ensures memberData.Some? && HasColumns(memberData.value, MemberDateColumns) && !EndsComparable(memberData.value) ==>
        r == Err(TypeError)
      ensures memberData.Some? && HasColumns(memberData.value, MemberDateColumns) && EndsComparable(memberData.value) ==>
        var rows := memberData.value.rows;
        && r.Ok?
        && r.value.trialCount == |Filter(rows, HasTrial)|
        && r.value.currentMembers == |Filter(rows, CurrentAt(now))|
        && r.value.formerMembers == |Filter(rows, FormerAt(now))|
        && r.value.currentMembers + r.value.formerMembers == |Filter(rows, HasPlanStart)|
      ensures r.Ok? && memberData.Some? && GenderColumn in memberData.value.columns ==>
        r.value.genderDistribution == CountBy(NonNull(Column(memberData.value, GenderColumn))) &&
        Total(r.value.genderDistribution) == |NonNull(Column(memberData.value, GenderColumn))|
      ensures r.Ok? && memberData.Some? && GenderColumn !in memberData.value.columns ==>
        r.value.genderDistribution == map[]
    {
      if memberData.None? {
        return Ok(MemberStatus(0, 0, 0, map[]));
      }
      var f := memberData.value;
      if TrialColumn !in f.columns {
        return Err(KeyError(TrialColumn));
      }
      var trial := |Filter(f.rows, HasTrial)|;
      if PlanStartColumn !in f.columns {
        return Err(KeyError(PlanStartColumn));
      }
      if PlanEndColumn !in f.columns {
        return Err(KeyError(PlanEndColumn));
      }
      if !EndsComparable(f) {
        return Err(TypeError);
      }
      var current := |Filter(f.rows, CurrentAt(now))|;
      var former := |Filter(f.rows, FormerAt(now))|;
      CurrentFormerPartition(f.rows, now);
      var genders: map<Value, nat> := map[];
      if GenderColumn in f.columns {
        genders := CountBy(NonNull(Column(f, GenderColumn)));
        CountNonNullTotal(Column(f, GenderColumn));
      }
      return Ok(MemberStatus(trial, current, former, genders));
    }

    /**
     * The loop shared by `load_reservation_data`, `load_frame_data` and
     * `load_sales_data`: each path is read and checked for the required
     * columns; accepted files are collected in order, failing ones warned about.
     */
    method CollectFrames(kind: Kind, paths: seq<string>, readCsv: string -> Option<Frame>)
      returns (dfs: seq<Frame>, warned: seq<string>)
      ensures dfs == AcceptedFrames(Intakes(kind, paths, readCsv))
      ensures warned == FailedPaths(paths, Intakes(kind, paths, readCsv))
      ensures forall i :: 0 <= i < |dfs| ==> HasColumns(dfs[i], Required(kind))
    {
      dfs, warned := [], [];
      for i := 0 to |paths|
        invariant dfs == AcceptedFrames(Intakes(kind, paths[..i], readCsv))
        invariant warned == FailedPaths(paths[..i], Intakes(kind, paths[..i], readCsv))
      {
        IntakesSnoc(kind, paths, readCsv, i);
        var read := readCsv(paths[i]);
        ghost var x := IntakeOf(kind, read);
        match read
        case None =>
          assert x == Failed;
          warned := warned + [paths[i]];
        case Some(df) =>
          if HasColumns(df, Required(kind)) {
            match Prepare(kind, df)
            case Ok(g) =>
              assert x == Accepted(g);
              dfs := dfs + [g];
            case Err(_) =>
              assert x == Failed;
              warned := warned + [paths[i]];
          } else {
            assert x == Skipped;
          }
      }
      assert paths[..|paths|] == paths;
      AcceptedHaveColumns(kind, paths, readCsv);
    }

    /** `load_reservation_data`: the accepted files, concatenated, replace the reservations. */
    method LoadReservationData(paths: seq<string>, readCsv: string -> Option<Frame>, parse: DateReader)
      returns (warned: seq<string>)
      requires Valid()
      modifies this`reservationData
      ensures Valid()
      ensures warned == FailedPaths(paths, Intakes(Reservations, paths, readCsv))
      ensures var dfs := AcceptedFrames(Intakes(Reservations, paths, readCsv));
        reservationData == if dfs == [] then old(reservationData) else Some(FinishLoad(Reservations, Concat(dfs), parse))
      ensures reservationData != old(reservationData) ==> HasColumns(reservationData.value, Required(Reservations))
    {
      var dfs;
      dfs, warned := CollectFrames(Reservations, paths, readCsv);
      if dfs != [] {
        reservationData := Some(FinishLoad(Reservations, Concat(dfs), parse));
      }
    }

    /** `load_frame_data`: the accepted files, concatenated, replace the lesson slots. */
    method LoadFrameData(paths: seq<string>, readCsv: string -> Option<Frame>, parse: DateReader)
      returns (warned: seq<string>)
      requires Valid()
      modifies this`frameData
      ensures Valid()
      ensures warned == FailedPaths(paths, Intakes(Frames, paths, readCsv))
      ensures var dfs := AcceptedFrames(Intakes(Frames, paths, readCsv));
        frameData == if dfs == [] then old(frameData) else Some(FinishLoad(Frames, Concat(dfs), parse))
      ensures frameData != old(frameData) ==> HasColumns(frameData.value, Required(Frames))
    {
      var dfs;
      dfs, warned := CollectFrames(Frames, paths, readCsv);
      if dfs != [] {
        forall i | 0 <= i < |dfs| ensures NumbersReady(dfs[i], RateColumn) {
          assert Accepted(dfs[i]) in Intakes(Frames, paths, readCsv);
        }
        ConcatNumbersReady(dfs, RateColumn);
        frameData := Some(FinishLoad(Frames, Concat(dfs), parse));
      }
    }

    /** `load_sales_data`: the accepted files, concatenated, replace the sales. */
    method LoadSalesData(paths: seq<string>, readCsv: string -> Option<Frame>, parse: DateReader)
      returns (warned: seq<string>)
      requires Valid()
      modifies this`salesData
      ensures Valid()
      ensures warned == FailedPaths(paths, Intakes(Sales, paths, readCsv))
      ensures var dfs := AcceptedFrames(Intakes(Sales, paths, readCsv));
        salesData == if dfs == [] then old(salesData) else Some(FinishLoad(Sales, Concat(dfs), parse))
      ensures salesData != old(salesData) ==> HasColumns(salesData.value, Required(Sales))
    {
      var dfs;
      dfs, warned := CollectFrames(Sales, paths, readCsv);
      if dfs != [] {
        forall i | 0 <= i < |dfs| ensures NumbersReady(dfs[i], AmountColumn) {
          assert Accepted(dfs[i]) in Intakes(Sales, paths, readCsv);
        }
        ConcatNumbersReady(dfs, AmountColumn);
        salesData := Some(FinishLoad(Sales, Concat(dfs), parse));
      }
    }

    /**
     * `analyze_reservations`: adds the `ticket_category` column, then counts
     * reservations per month and category and per category.
     */
    method AnalyzeReservations() returns (stats: ReservationStats)
      requires Valid()
      modifies this`reservationData
      ensures Valid()
      ensures old(reservationData).None? ==> reservationData.None? && stats == ReservationStats(map[], map[])
      ensures old(reservationData).Some? ==>
        reservationData == Some(WithCategories(old(reservationData).value)) && stats == StatsOf(reservationData.value)
    {
      if reservationData.None? {
        return ReservationStats(map[], map[]);
      }
      var g := WithCategories(reservationData.value);
      reservationData := Some(g);
      var dateCol := ReservationDateColumn(g);
      var monthly := if dateCol in g.columns then MonthlyStats(DatedPairs(g.rows, dateCol)) else map[];
      stats := ReservationStats(monthly, CountBy(Column(g, CategoryColumn)));
    }

    /**
     * The room loop of `analyze_occupancy`: one entry per room that is not
     * missing, holding that room's monthly mean occupancy.
     */
    method OccupancyByRoom(g: Frame) returns (stats: map<Value, map<Month, Option<real>>>)
      ensures RoomColumn in g.columns && RateColumn in g.columns ==>
        stats.Keys == set r | r in Column(g, RoomColumn) && !r.Null?
      ensures !(RoomColumn in g.columns && RateColumn in g.columns) ==> stats == map[]
      ensures forall room :: room in stats ==> stats[room] == RoomMonthly(g, room)
    {
      stats := map[];
      if RoomColumn in g.columns {
        var rooms := Unique(Column(g, RoomColumn));
        for i := 0 to |rooms|
          invariant RateColumn in g.columns ==> stats.Keys == set r | r in rooms[..i] && !r.Null?
          invariant RateColumn !in g.columns ==> stats == map[]
          invariant forall room :: room in stats ==> stats[room] == RoomMonthly(g, room)
        {
          assert rooms[..i + 1] == rooms[..i] + [rooms[i]];
          if rooms[i].Null? {
            continue;
          }
          if RateColumn in g.columns {
            stats := stats[rooms[i] := RoomMonthly(g, rooms[i])];
          }
        }
        assert rooms[..|rooms|] == rooms;
      }
    }

    /**
     * `analyze_occupancy` (hourly and weekday means aside): adds the
     * `month` column, then the per-room monthly means.
     */
    method AnalyzeOccupancy() returns (stats: map<Value, map<Month, Option<real>>>)
      requires Valid()
      modifies this`frameData
      ensures Valid()
      ensures old(frameData).None? ==> frameData.None? && stats == map[]
      ensures old(frameData).Some? && FrameDateColumn(old(frameData).value) !in old(frameData).value.columns ==>
        frameData == old(frameData) && stats == map[]
      ensures old(frameData).Some? && FrameDateColumn(old(frameData).value) in old(frameData).value.columns ==>
        var g := WithMonths(old(frameData).value, FrameDateColumn(old(frameData).value));
        && frameData == Some(g)
        && (RoomColumn in g.columns && RateColumn in g.columns ==> stats.Keys == set r | r in Column(g, RoomColumn) && !r.Null?)
        && (forall room :: room in stats ==> stats[room] == RoomMonthly(g, room))
    {
      if frameData.None? {
        return map[];
      }
      var f := frameData.value;
      var dateCol := FrameDateColumn(f);
      if dateCol !in f.columns {
        return map[];
      }
      var g := WithMonths(f, dateCol);
      frameData := Some(g);
      stats := OccupancyByRoom(g);
    }

    /** `analyze_sales`: adds the `month` column, then monthly sums, the total and the mean. */
    method AnalyzeSales() returns (summary: SalesSummary)
      requires Valid()
      modifies this`salesData
      ensures Valid()
      ensures old(salesData).None? ==> salesData.None? && summary == SalesSummary(map[], 0.0, Some(0.0))
      ensures old(salesData).Some? && SettledAtColumn !in old(salesData).value.columns ==>
        salesData == old(salesData) && summary == SalesSummary(map[], 0.0, Some(0.0))
      ensures old(salesData).Some? && SettledAtColumn in old(salesData).value.columns ==>
        var g := WithMonths(old(salesData).value, SettledAtColumn);
        && salesData == Some(g)
        && (AmountColumn in g.columns ==>
              summary == SalesSummary(MonthlySales(g), SumAmounts(Column(g, AmountColumn)), Mean(Column(g, AmountColumn))))
        && (AmountColumn !in g.columns ==> summary == SalesSummary(map[], 0.0, Some(0.0)))
    {
      summary := SalesSummary(map[], 0.0, Some(0.0));
      if salesData.None? {
        return;
      }
      var f := salesData.value;
      if SettledAtColumn in f.columns {
        var g := WithMonths(f, SettledAtColumn);
        salesData := Some(g);
        if AmountColumn in g.columns {
          summary := SalesSummary(MonthlySales(g), SumAmounts(Column(g, AmountColumn)), Mean(Column(g, AmountColumn)));
        }
      }
    }
  }
}
