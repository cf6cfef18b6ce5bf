/**
 * Shared vocabulary of the model: optional values, dates and months, the
 * cells and rows of a table read from a CSV file, and the counting and
 * summing operations (filter, value_counts, group sums) the analysers use.
 */
module Tables {

  datatype Option<T> = None | Some(value: T)

  datatype Result<T, E> = Ok(value: T) | Err(error: E)

  // ---------------------------------------------------------------------
  // Dates and months
  // ---------------------------------------------------------------------

  /** An instant: calendar day plus the second within the day. */
  datatype Date = Date(year: int, month: int, day: int, second: int)

  /** Chronological order on instants (lexicographic on the fields). */
  predicate Before(a: Date, b: Date)
  {
    a.year < b.year ||
    (a.year == b.year && (a.month < b.month ||
    (a.month == b.month && (a.day < b.day ||
    (a.day == b.day && a.second < b.second)))))
  }

  predicate AtOrBefore(a: Date, b: Date)
  {
    Before(a, b) || a == b
  }

  /** A calendar month, the key of a pandas monthly period. */
  datatype Month = Month(year: int, month: int)

  function MonthOf(d: Date): Month
  {
    Month(d.year, d.month)
  }

  /** Chronological order on months. */
  predicate MonthBefore(a: Month, b: Month)
  {
    a.year < b.year || (a.year == b.year && a.month < b.month)
  }

  // ---------------------------------------------------------------------
  // Cells, rows and frames
  // ---------------------------------------------------------------------

  /**
   * One cell of a table; Null stands for pandas' NaN/NaT, Time for a
   * timestamp and Period for a monthly period (`.dt.to_period('M')`).
   */
  datatype Value = Null | Text(s: string) | Num(x: real) | Time(d: Date) | Period(p: Month)

  type Row = map<string, Value>

  /** A table: its column names and its rows. */
  datatype Frame = Frame(columns: seq<string>, rows: seq<Row>)

  /** The cell of a row; a column the row lacks reads as missing. */
  function Get(r: Row, c: string): Value
  {
    if c in r then r[c] else Null
  }

  predicate HasColumns(f: Frame, required: seq<string>)
  {
    forall c :: c in required ==> c in f.columns
  }

  /** The cells of column `c` in `rows`, top to bottom. */
  function Values(rows: seq<Row>, c: string): (vs: seq<Value>)
    ensures |vs| == |rows|
    ensures forall i :: 0 <= i < |vs| ==> vs[i] == Get(rows[i], c)
  {
    seq(|rows|, i requires 0 <= i < |rows| => Get(rows[i], c))
  }

  /** The values of one column, top to bottom. */
  function Column(f: Frame, c: string): (vs: seq<Value>)
    ensures |vs| == |f.rows|
    ensures forall i :: 0 <= i < |vs| ==> vs[i] == Get(f.rows[i], c)
  {
    Values(f.rows, c)
  }

  /** The column list once column `c` is assigned: a new column goes last. */
  function AddName(columns: seq<string>, c: string): (cs: seq<string>)
    ensures forall d :: d in cs <==> d in columns || d == c
  {
    if c in columns then columns else columns + [c]
  }

  /**
   * Assigns a whole column, as `df[c] = values` does: an existing column
   * keeps its position, a new one is appended.
   */
  function SetColumn(f: Frame, c: string, vs: seq<Value>): (g: Frame)
    requires |vs| == |f.rows|
    ensures g.columns == AddName(f.columns, c)
    ensures |g.rows| == |f.rows|
    ensures c in g.columns
    ensures forall d :: d in g.columns <==> d in f.columns || d == c
    ensures forall i :: 0 <= i < |g.rows| ==> Get(g.rows[i], c) == vs[i]
    ensures forall i, d :: 0 <= i < |g.rows| && d != c ==> Get(g.rows[i], d) == Get(f.rows[i], d)
  {
    Frame(AddName(f.columns, c),
          seq(|f.rows|, i requires 0 <= i < |f.rows| => f.rows[i][c := vs[i]]))
  }

  /** A column with no text at all is not an object column in pandas. */
  predicate IsTextColumn(f: Frame, c: string)
  {
    exists i :: 0 <= i < |f.rows| && Get(f.rows[i], c).Text?
  }

  /** A row as `to_dict(orient='records')` gives it: one entry per column. */
  function Record(f: Frame, r: Row): (rec: Row)
    ensures rec.Keys == set c | c in f.columns
    ensures forall c :: c in rec ==> rec[c] == Get(r, c)
  {
    map c | c in f.columns :: Get(r, c)
  }

  /**
   * How `pd.to_datetime` reads a cell: text through the date formats it
   * recognises, a number as nanoseconds since the epoch. `None` is a value
   * it cannot turn into an instant (unparsable text, an out-of-range number).
   */
  datatype DateReader = DateReader(text: string -> Option<Date>, number: real -> Option<Date>)

  function AsInstant(r: Option<Date>): Value
  {
    match r case Some(d) => Time(d) case None => Null
  }

  /** `pd.to_datetime(..., errors='coerce')` on one cell. */
  function ToDatetime(v: Value, parse: DateReader): (w: Value)
    ensures w.Null? || w.Time?
    ensures v.Time? ==> w == v
    ensures v.Null? ==> w.Null?
    ensures v.Text? ==> (w.Time? <==> parse.text(v.s).Some?) && (w.Time? ==> w.d == parse.text(v.s).value)
    ensures v.Num? ==> (w.Time? <==> parse.number(v.x).Some?) && (w.Time? ==> w.d == parse.number(v.x).value)
  {
    match v
    case Text(s) => AsInstant(parse.text(s))
    case Num(x) => AsInstant(parse.number(x))
    case Time(_) => v
    case _ => Null
  }

  /** The monthly period of a cell; NaT and anything else has none. */
  function MonthOfValue(v: Value): Option<Month>
  {
    if v.Time? then Some(MonthOf(v.d)) else None
  }

  /** A column every cell of which is a date or missing. */
  predicate DatesReady(f: Frame, c: string)
  {
    forall i :: 0 <= i < |f.rows| ==> Get(f.rows[i], c).Null? || Get(f.rows[i], c).Time?
  }

  /** A column every cell of which is a number or missing. */
  predicate NumbersReady(f: Frame, c: string)
  {
    forall i :: 0 <= i < |f.rows| ==> Get(f.rows[i], c).Null? || Get(f.rows[i], c).Num?
  }

  /** Converts column `c` with `ToDatetime`, leaving every other column as it was. */
  function ConvertDates(f: Frame, c: string, parse: DateReader): (g: Frame)
    requires c in f.columns
    ensures g.columns == f.columns && |g.rows| == |f.rows|
    ensures DatesReady(g, c)
    ensures forall i :: 0 <= i < |g.rows| ==> Get(g.rows[i], c) == ToDatetime(Get(f.rows[i], c), parse)
    ensures forall i, d :: 0 <= i < |g.rows| && d != c ==> Get(g.rows[i], d) == Get(f.rows[i], d)
  {
    SetColumn(f, c, seq(|f.rows|, i requires 0 <= i < |f.rows| => ToDatetime(Get(f.rows[i], c), parse)))
  }

  // ---------------------------------------------------------------------
  // Filtering and counting
  // ---------------------------------------------------------------------

  /** The elements of `s` that satisfy `p`, in their original order. */
  function Filter<T(!new)>(s: seq<T>, p: T -> bool): (r: seq<T>)
    ensures |r| <= |s|
    ensures forall x :: x in r <==> x in s && p(x)
  {
    if s == [] then [] else (if p(s[0]) then [s[0]] else []) + Filter(s[1..], p)
  }

  lemma {:induction false} FilterAppend<T(!new)>(a: seq<T>, b: seq<T>, p: T -> bool)
    ensures Filter(a + b, p) == Filter(a, p) + Filter(b, p)
  {
    if a == [] {
      assert a + b == b;
    } else {
      assert (a + b)[1..] == a[1..] + b;
      FilterAppend(a[1..], b, p);
    }
  }

  /** Filtering keeps everything exactly when every element passes. */
  lemma {:induction false} FilterAll<T(!new)>(s: seq<T>, p: T -> bool)
    ensures Filter(s, p) == s <==> forall i :: 0 <= i < |s| ==> p(s[i])
  {
    if s != [] {
      FilterAll(s[1..], p);
      if !p(s[0]) {
        assert |Filter(s, p)| < |s|;
      } else {
        assert forall i :: 0 < i < |s| ==> s[i] == s[1..][i - 1];
      }
    }
  }

  /**
   * When `p` and `q` split the elements satisfying `r` into two disjoint
   * parts, the two counts add up to the count of `r`.
   */
  lemma {:induction false} CountPartition<T(!new)>(s: seq<T>, p: T -> bool, q: T -> bool, r: T -> bool)
    requires forall x :: x in s ==> ((p(x) || q(x)) <==> r(x))
    requires forall x :: x in s ==> !(p(x) && q(x))
    ensures |Filter(s, p)| + |Filter(s, q)| == |Filter(s, r)|
  {
    if s != [] {
      CountPartition(s[1..], p, q, r);
    }
  }

  predicate IsPresent(v: Value)
  {
    !v.Null?
  }

  predicate IsNumber(v: Value)
  {
    v.Num?
  }

  /** The cells of a sequence that are not missing (what value_counts looks at). */
  function NonNull(vs: seq<Value>): (r: seq<Value>)
    ensures forall v :: v in r <==> v in vs && !v.Null?
  {
    Filter(vs, IsPresent)
  }

  // ---------------------------------------------------------------------
  // Distributions: value_counts and their totals
  // ---------------------------------------------------------------------

  /** `value_counts().to_dict()`: each distinct element mapped to its number of occurrences. */
  function CountBy<K>(s: seq<K>): (m: map<K, nat>)
    ensures m.Keys == set k | k in s
    ensures forall k :: k in m ==> m[k] == multiset(s)[k] && m[k] > 0
  {
    map k | k in s :: multiset(s)[k]
  }

  /** The sum of the entries of `m` over the keys `ks`. */
  ghost function SumOver<K>(m: map<K, int>, ks: set<K>): int
    requires ks <= m.Keys
    decreases ks
  {
    if ks == {} then 0
    else
      var k :| k in ks;
      m[k] + SumOver(m, ks - {k})
  }

  lemma {:induction false} SumOverRemove<K>(m: map<K, int>, ks: set<K>, k: K)
    requires ks <= m.Keys && k in ks
    ensures SumOver(m, ks) == m[k] + SumOver(m, ks - {k})
    decreases ks
  {
    var j :| j in ks && SumOver(m, ks) == m[j] + SumOver(m, ks - {j});
    if j != k {
      SumOverRemove(m, ks - {j}, k);
      SumOverRemove(m, ks - {k}, j);
      assert ks - {j} - {k} == ks - {k} - {j};
    }
  }

  /** A sum over `ks` only looks at the entries of `ks`. */
  lemma {:induction false} SumOverAgree<K>(m1: map<K, int>, m2: map<K, int>, ks: set<K>)
    requires ks <= m1.Keys && ks <= m2.Keys
    requires forall k :: k in ks ==> m1[k] == m2[k]
    ensures SumOver(m1, ks) == SumOver(m2, ks)
    decreases ks
  {
    if ks != {} {
      var k :| k in ks;
      SumOverRemove(m1, ks, k);
      SumOverRemove(m2, ks, k);
      SumOverAgree(m1, m2, ks - {k});
    }
  }

  /** The sum of the counts of a distribution. */
  ghost function Total<K>(m: map<K, int>): int
  {
    SumOver(m, m.Keys)
  }

  lemma TotalRemove<K>(m: map<K, int>, k: K)
    requires k in m
    ensures Total(m) == m[k] + Total(m - {k})
  {
    SumOverRemove(m, m.Keys, k);
    assert (m - {k}).Keys == m.Keys - {k};
    SumOverAgree(m, m - {k}, m.Keys - {k});
  }

  /** Adding `a` to one entry adds `a` to the total. */
  lemma TotalAdd<K>(m: map<K, int>, k: K, a: int)
    requires k in m
    ensures Total(m[k := m[k] + a]) == Total(m) + a
  {
    var m' := m[k := m[k] + a];
    TotalRemove(m, k);
    TotalRemove(m', k);
    assert m' - {k} == m - {k};
  }

  /** A new entry adds its value to the total. */
  lemma TotalInsert<K>(m: map<K, int>, k: K, a: int)
    requires k !in m
    ensures Total(m[k := a]) == Total(m) + a
  {
    var m' := m[k := a];
    TotalRemove(m', k);
    assert m' - {k} == m;
  }

  /** Entries that are zero do not change a total. */
  lemma {:induction false} TotalZeros<K>(m: map<K, int>, z: set<K>)
    requires forall k :: k in z ==> k in m && m[k] == 0
    ensures Total(m) == Total(m - z)
    decreases |z|
  {
    if z != {} {
      var k :| k in z;
      var m1 := m - {k};
      TotalRemove(m, k);
      assert |z - {k}| < |z|;
      TotalZeros(m1, z - {k});
      RemoveInTwoSteps(m, z, k);
    } else {
      assert m - z == m;
    }
  }

  /** Removing one key and then the others removes them all. */
  lemma RemoveInTwoSteps<K, V>(m: map<K, V>, z: set<K>, k: K)
    requires k in z
    ensures (m - {k}) - (z - {k}) == m - z
  {
    assert ((m - {k}) - (z - {k})).Keys == (m - z).Keys;
  }

  /** A map whose entries are all zero totals zero. */
  lemma TotalAllZero<K>(m: map<K, int>)
    requires forall k :: k in m ==> m[k] == 0
    ensures Total(m) == 0
  {
    TotalZeros(m, m.Keys);
    assert m - m.Keys == map[];
  }

  /** The counts of a distribution add up to the length of the sequence counted. */
  lemma {:induction false} CountByTotal<K>(s: seq<K>)
    ensures Total(CountBy(s)) == |s|
  {
    if s != [] {
      var init, x := s[..|s| - 1], s[|s| - 1];
      assert s == init + [x];
      CountByTotal(init);
      var m := CountBy(init);
      CountBySnoc(init, x);
      if x in init {
        TotalAdd(m, x, 1);
      } else {
        TotalInsert(m, x, 1);
      }
    }
  }

  /** One more occurrence adds one to its key's count, or a new key counted once. */
  lemma CountBySnoc<K>(init: seq<K>, x: K)
    ensures var m := CountBy(init);
      CountBy(init + [x]) == if x in init then m[x := m[x] + 1] else m[x := 1]
  {
    assert multiset(init + [x]) == multiset(init) + multiset{x};
  }

  /** A distribution of the non-missing cells never counts more than all the cells. */
  lemma CountNonNullTotal(vs: seq<Value>)
    ensures Total(CountBy(NonNull(vs))) == |NonNull(vs)| <= |vs|
  {
    CountByTotal(NonNull(vs));
  }

  // ---------------------------------------------------------------------
  // Sums of amounts
  // ---------------------------------------------------------------------

  /** The sum of the amounts of `m` over the keys `ks`. */
  ghost function RealSumOver<K>(m: map<K, real>, ks: set<K>): real
    requires ks <= m.Keys
    decreases ks
  {
    if ks == {} then 0.0
    else
      var k :| k in ks;
      m[k] + RealSumOver(m, ks - {k})
  }

  lemma {:induction false} RealSumOverRemove<K>(m: map<K, real>, ks: set<K>, k: K)
    requires ks <= m.Keys && k in ks
    ensures RealSumOver(m, ks) == m[k] + RealSumOver(m, ks - {k})
    decreases ks
  {
    var j :| j in ks && RealSumOver(m, ks) == m[j] + RealSumOver(m, ks - {j});
    if j != k {
      RealSumOverRemove(m, ks - {j}, k);
      RealSumOverRemove(m, ks - {k}, j);
      assert ks - {j} - {k} == ks - {k} - {j};
    }
  }

  lemma {:induction false} RealSumOverAgree<K>(m1: map<K, real>, m2: map<K, real>, ks: set<K>)
    requires ks <= m1.Keys && ks <= m2.Keys
    requires forall k :: k in ks ==> m1[k] == m2[k]
    ensures RealSumOver(m1, ks) == RealSumOver(m2, ks)
    decreases ks
  {
    if ks != {} {
      var k :| k in ks;
      RealSumOverRemove(m1, ks, k);
      RealSumOverRemove(m2, ks, k);
      RealSumOverAgree(m1, m2, ks - {k});
    }
  }

  /** The sum of the entries of a map of amounts. */
  ghost function RealTotal<K>(m: map<K, real>): real
  {
    RealSumOver(m, m.Keys)
  }

  lemma RealTotalRemove<K>(m: map<K, real>, k: K)
    requires k in m
    ensures RealTotal(m) == m[k] + RealTotal(m - {k})
  {
    RealSumOverRemove(m, m.Keys, k);
    assert (m - {k}).Keys == m.Keys - {k};
    RealSumOverAgree(m, m - {k}, m.Keys - {k});
  }

  lemma RealTotalAdd<K>(m: map<K, real>, k: K, a: real)
    requires k in m
    ensures RealTotal(m[k := m[k] + a]) == RealTotal(m) + a
  {
    var m' := m[k := m[k] + a];
    RealTotalRemove(m, k);
    RealTotalRemove(m', k);
    assert m' - {k} == m - {k};
  }

  /** Two maps over the same keys that differ only at `k`, by `x`, differ in total by `x`. */
  lemma RealTotalShift<K>(a: map<K, real>, b: map<K, real>, k: K, x: real)
    requires a.Keys == b.Keys && k in b && a[k] == b[k] + x
    requires forall j :: j in b && j != k ==> a[j] == b[j]
    ensures RealTotal(a) == RealTotal(b) + x
  {
    assert a == b[k := b[k] + x];
    RealTotalAdd(b, k, x);
  }

  /** A map whose entries are all zero totals zero. */
  lemma {:induction false} RealTotalAllZero<K>(m: map<K, real>)
    requires forall k :: k in m ==> m[k] == 0.0
    ensures RealTotal(m) == 0.0
    decreases |m|
  {
    if m.Keys != {} {
      var k :| k in m;
      RealTotalRemove(m, k);
      assert |m - {k}| < |m|;
      RealTotalAllZero(m - {k});
    } else {
      assert m.Keys == {};
    }
  }

  /** The numeric part of a cell: a number counts, anything else (NaN) is skipped. */
  function Amount(v: Value): real
  {
    if v.Num? then v.x else 0.0
  }

  /** `sum()` over cells, skipping missing ones as pandas does. */
  function SumAmounts(vs: seq<Value>): real
  {
    if vs == [] then 0.0 else Amount(vs[0]) + SumAmounts(vs[1..])
  }

  /** The number of cells that hold a number. */
  function CountNumbers(vs: seq<Value>): nat
  {
    |Filter(vs, IsNumber)|
  }

  /** `mean()` over cells: missing cells are skipped, no number at all gives NaN (None). */
  function Mean(vs: seq<Value>): Option<real>
  {
    var n := CountNumbers(vs);
    if n == 0 then None else Some(SumAmounts(vs) / n as real)
  }

  // ---------------------------------------------------------------------
  // Strings
  // ---------------------------------------------------------------------

  predicate StartsWith(s: string, prefix: string)
  {
    |prefix| <= |s| && s[..|prefix|] == prefix
  }

  predicate EndsWith(s: string, suffix: string)
  {
    |suffix| <= |s| && s[|s| - |suffix|..] == suffix
  }

  /** Python's `sub in s` and JavaScript's `s.includes(sub)`. */
  predicate Contains(s: string, sub: string)
  {
    StartsWith(s, sub) || (s != [] && Contains(s[1..], sub))
  }

  predicate OccursAt(s: string, sub: string, i: int)
  {
    0 <= i <= |s| - |sub| && s[i..i + |sub|] == sub
  }

  /** Occurrence at some position is what `Contains` means. */
  lemma {:induction false} ContainsAt(s: string, sub: string)
    ensures Contains(s, sub) <==> exists i :: OccursAt(s, sub, i)
  {
    if StartsWith(s, sub) {
      assert OccursAt(s, sub, 0);
    }
    if s != [] {
      ContainsAt(s[1..], sub);
      if Contains(s[1..], sub) {
        var i :| OccursAt(s[1..], sub, i);
        assert s[i + 1..i + 1 + |sub|] == s[1..][i..i + |sub|];
        assert OccursAt(s, sub, i + 1);
      }
      if exists i :: OccursAt(s, sub, i) {
        var i :| OccursAt(s, sub, i);
        if i > 0 {
          assert OccursAt(s[1..], sub, i - 1);
        }
      }
    } else if exists i :: OccursAt(s, sub, i) {
      var i :| OccursAt(s, sub, i);
      assert s[..|sub|] == s[i..i + |sub|];
    }
  }

  /** An occurrence inside a string is an occurrence in any string around it. */
  lemma ContainsWithin(a: string, s: string, b: string, sub: string)
    requires Contains(s, sub)
    ensures Contains(a + s + b, sub)
  {
    ContainsAt(s, sub);
    ContainsAt(a + s + b, sub);
    var i :| OccursAt(s, sub, i);
    assert OccursAt(a + s + b, sub, |a| + i);
  }
}
