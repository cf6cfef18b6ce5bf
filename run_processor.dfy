/**
 * The batch script: which files of the data directory it hands to the
 * processor, how it merges the monthly reservation counts of all ticket
 * types, and which months of the results it shows.
 *
 * The directory listing is a parameter; printing is not modelled.
 */
module RunProcessor {
  import opened Tables
  import opened Sorting
  import opened DataProcessor

  // ---------------------------------------------------------------------
  // File selection
  // ---------------------------------------------------------------------

  /** `os.path.join('data', name)` for a name from the directory listing. */
  function DataPath(name: string): string
  {
    "data/" + name
  }

  predicate IsCsvName(name: string)
  {
    EndsWith(name, ".csv")
  }

  predicate IsMemberName(name: string)
  {
    StartsWith(name, "member")
  }

  predicate IsDeleteName(name: string)
  {
    Contains(name, "delete")
  }

  predicate IsMainName(name: string)
  {
    !IsDeleteName(name)
  }

  /** The position of the first element satisfying `p`, or `|s|` when there is none. */
  function FirstIndex<T>(s: seq<T>, p: T -> bool): (k: nat)
    ensures k <= |s|
    ensures k < |s| ==> p(s[k])
    ensures forall j :: 0 <= j < k ==> !p(s[j])
  {
    if s == [] then 0
    else if p(s[0]) then 0
    else 1 + FirstIndex(s[1..], p)
  }

  /** The CSV names of the listing, in listing order. */
  function CsvFiles(listing: seq<string>): (csv: seq<string>)
    ensures forall f :: f in csv <==> f in listing && IsCsvName(f)
  {
    Filter(listing, IsCsvName)
  }

  /**
   * The member files to load: the first member CSV without `delete` in its
   * name, with the first one that has it; nothing when there is no main file.
   */
  function MemberPaths(listing: seq<string>): (r: Option<(string, Option<string>)>)
    ensures var members := Filter(CsvFiles(listing), IsMemberName);
      && (r.None? <==> forall i :: 0 <= i < |members| ==> IsDeleteName(members[i]))
      && (r.Some? ==> exists i :: 0 <= i < |members| && r.value.0 == DataPath(members[i]) &&
                        !IsDeleteName(members[i]) && forall j :: 0 <= j < i ==> IsDeleteName(members[j]))
      && (r.Some? ==> (r.value.1.None? <==> forall i :: 0 <= i < |members| ==> !IsDeleteName(members[i])))
      && (r.Some? && r.value.1.Some? ==>
            exists i :: 0 <= i < |members| && r.value.1.value == DataPath(members[i]) &&
                        IsDeleteName(members[i]) && forall j :: 0 <= j < i ==> !IsDeleteName(members[j]))
  {
    var members := Filter(CsvFiles(listing), IsMemberName);
    var main, delete := FirstIndex(members, IsMainName), FirstIndex(members, IsDeleteName);
    if main == |members| then None
    else if delete == |members| then Some((DataPath(members[main]), None))
    else Some((DataPath(members[main]), Some(DataPath(members[delete]))))
  }

  function ContainsWord(word: string): string -> bool
  {
    name => Contains(name, word)
  }

  /** `sorted(f for f in csv_files if word in f)` */
  function SortedNames(listing: seq<string>, word: string): (names: seq<string>)
    ensures SortedBy(names, StringBefore)
    ensures multiset(names) == multiset(Filter(CsvFiles(listing), ContainsWord(word)))
    ensures forall f :: f in names <==> f in listing && IsCsvName(f) && Contains(f, word)
  {
    var selected := Filter(CsvFiles(listing), ContainsWord(word));
    StringOrder();
    SortSorted(selected, StringBefore);
    var names := Sort(selected, StringBefore);
    assert forall f :: f in names <==> f in multiset(selected);
    names
  }

  /** The selected names joined to the data directory, in the same order. */
  function PathsOf(names: seq<string>): (paths: seq<string>)
    ensures |paths| == |names|
    ensures forall i :: 0 <= i < |names| ==> paths[i] == DataPath(names[i])
  {
    seq(|names|, i requires 0 <= i < |names| => DataPath(names[i]))
  }

  function SortedPaths(listing: seq<string>, word: string): seq<string>
  {
    PathsOf(SortedNames(listing, word))
  }

  /** What the script loads: member files, then the reservation, frame and sales lists. */
  datatype Selection = Selection(
    members: Option<(string, Option<string>)>,
    reservationPaths: seq<string>,
    framePaths: seq<string>,
    salesPaths: seq<string>)

  function SelectFiles(listing: seq<string>): (sel: Selection)
    ensures sel.members == MemberPaths(listing)
    ensures sel.reservationPaths == SortedPaths(listing, "reservation")
    ensures sel.framePaths == SortedPaths(listing, "frame")
    ensures sel.salesPaths == SortedPaths(listing, "sales")
  {
    Selection(MemberPaths(listing), SortedPaths(listing, "reservation"),
              SortedPaths(listing, "frame"), SortedPaths(listing, "sales"))
  }

  // ---------------------------------------------------------------------
  // Monthly totals over all ticket types
  // ---------------------------------------------------------------------

  /** The months that appear under any of the ticket types in `types`. */
  ghost function MonthsUnder(stats: map<Value, map<Month, nat>>, types: set<Value>): set<Month>
  {
    set t, m | t in types && t in stats && m in stats[t] :: m
  }

  /** The sum of month `m`'s counts over the ticket types in `types`. */
  ghost function PartialTotal(stats: map<Value, map<Month, nat>>, types: set<Value>, m: Month): int
    requires types <= stats.Keys
  {
    SumOver(CountsInMonth(stats, m), types)
  }

  lemma AddType(stats: map<Value, map<Month, nat>>, types: set<Value>, t: Value, m: Month)
    requires types <= stats.Keys && t in stats && t !in types
    ensures PartialTotal(stats, types + {t}, m) ==
      PartialTotal(stats, types, m) + (if m in stats[t] then stats[t][m] else 0)
  {
    SumOverRemove(CountsInMonth(stats, m), types + {t}, t);
    assert types + {t} - {t} == types;
  }

  /** A month under none of the types counts nothing over them. */
  lemma {:induction false} PartialTotalAbsent(stats: map<Value, map<Month, nat>>, types: set<Value>, m: Month)
    requires types <= stats.Keys && m !in MonthsUnder(stats, types)
    ensures PartialTotal(stats, types, m) == 0
    decreases |types|
  {
    if types != {} {
      var t :| t in types;
      SumOverRemove(CountsInMonth(stats, m), types, t);
      assert MonthsUnder(stats, types - {t}) <= MonthsUnder(stats, types);
      PartialTotalAbsent(stats, types - {t}, m);
    }
  }

  lemma MonthsUnderAdd(stats: map<Value, map<Month, nat>>, types: set<Value>, t: Value)
    requires t in stats
    ensures MonthsUnder(stats, types + {t}) == MonthsUnder(stats, types) + stats[t].Keys
  {
  }

  /**
   * The inner loop's invariant: the totals over the types in `done`, plus
   * type `t`'s counts for the months of `t` already merged (those not in `months`).
   */
  ghost predicate Merging(stats: map<Value, map<Month, nat>>, done: set<Value>, t: Value, months: set<Month>,
                          totals: map<Month, int>)
  {
    && done <= stats.Keys && t in stats && months <= stats[t].Keys
    && totals.Keys == MonthsUnder(stats, done) + (stats[t].Keys - months)
    && forall m :: m in totals ==>
         totals[m] == PartialTotal(stats, done, m) + (if m in stats[t] && m !in months then stats[t][m] else 0)
  }

  /** One step of the inner loop: month `m` of type `t` added into the totals. */
  function AddCount(totals: map<Month, int>, m: Month, count: int): map<Month, int>
  {
    if m in totals then totals[m := totals[m] + count] else totals[m := count]
  }

  lemma MergeStep(stats: map<Value, map<Month, nat>>, done: set<Value>, t: Value, months: set<Month>,
                  totals: map<Month, int>, m: Month)
    requires Merging(stats, done, t, months, totals) && m in months
    ensures Merging(stats, done, t, months - {m}, AddCount(totals, m, stats[t][m]))
  {
    var next := AddCount(totals, m, stats[t][m]);
    assert next.Keys == totals.Keys + {m};
    if m !in totals {
      PartialTotalAbsent(stats, done, m);
    }
    forall n | n in next
      ensures next[n] == PartialTotal(stats, done, n) + (if n in stats[t] && n !in months - {m} then stats[t][n] else 0)
    {
      MergeStepAt(stats, done, t, months, totals, m, n);
    }
  }

  /** `MergeStep` at one month `n` of the new totals. */
  lemma MergeStepAt(stats: map<Value, map<Month, nat>>, done: set<Value>, t: Value, months: set<Month>,
                    totals: map<Month, int>, m: Month, n: Month)
    requires Merging(stats, done, t, months, totals) && m in months
    requires m !in totals ==> PartialTotal(stats, done, m) == 0
    requires n in AddCount(totals, m, stats[t][m])
    ensures AddCount(totals, m, stats[t][m])[n] ==
      PartialTotal(stats, done, n) + (if n in stats[t] && n !in months - {m} then stats[t][n] else 0)
  {
    if n != m {
      assert n in totals;
    }
  }

  lemma MergeEnd(stats: map<Value, map<Month, nat>>, done: set<Value>, t: Value, totals: map<Month, int>)
    requires Merging(stats, done, t, {}, totals) && t !in done
    ensures totals.Keys == MonthsUnder(stats, done + {t})
    ensures forall m :: m in totals ==> totals[m] == PartialTotal(stats, done + {t}, m)
  {
    MonthsUnderAdd(stats, done, t);
    forall m | m in totals
      ensures totals[m] == PartialTotal(stats, done + {t}, m)
    {
      AddType(stats, done, t, m);
    }
  }

  /** The inner loop: adds one ticket type's monthly counts into the running totals. */
  method MergeType(stats: map<Value, map<Month, nat>>, done: set<Value>, t: Value, before: map<Month, int>)
    returns (totals: map<Month, int>)
    requires done <= stats.Keys && t in stats && t !in done
    requires before.Keys == MonthsUnder(stats, done)
    requires forall m :: m in before ==> before[m] == PartialTotal(stats, done, m)
    ensures totals.Keys == MonthsUnder(stats, done + {t})
    ensures forall m :: m in totals ==> totals[m] == PartialTotal(stats, done + {t}, m)
  {
    totals := before;
    var months := stats[t].Keys;
    while months != {}
      invariant Merging(stats, done, t, months, totals)
      decreases |months|
    {
      var m :| m in months;
      MergeStep(stats, done, t, months, totals, m);
      if m in totals {
        totals := totals[m := totals[m] + stats[t][m]];
      } else {
        totals := totals[m := stats[t][m]];
      }
      months := months - {m};
    }
    MergeEnd(stats, done, t, totals);
  }

  /**
   * The `monthly_totals` merge: a key for every month under any ticket type,
   * holding the sum of that month's counts over all types.
   */
  method MonthlyTotals(stats: map<Value, map<Month, nat>>) returns (totals: map<Month, int>)
    ensures totals.Keys == MonthsUnder(stats, stats.Keys)
    ensures forall m :: m in totals ==> totals[m] == Total(CountsInMonth(stats, m))
  {
    totals := map[];
    var todo := stats.Keys;
    while todo != {}
      invariant todo <= stats.Keys
      invariant totals.Keys == MonthsUnder(stats, stats.Keys - todo)
      invariant forall m :: m in totals ==> totals[m] == PartialTotal(stats, stats.Keys - todo, m)
      decreases |todo|
    {
      var t :| t in todo;
      totals := MergeType(stats, stats.Keys - todo, t, totals);
      assert (stats.Keys - todo) + {t} == stats.Keys - (todo - {t});
      todo := todo - {t};
    }
    assert stats.Keys - todo == stats.Keys;
    forall m | m in totals
      ensures totals[m] == Total(CountsInMonth(stats, m))
    {
      assert CountsInMonth(stats, m).Keys == stats.Keys;
    }
  }

  // ---------------------------------------------------------------------
  // The months shown
  // ---------------------------------------------------------------------

  lemma MonthOrder()
    ensures StrictTotalOrder(MonthBefore)
  {
  }

  /** The keys of a monthly table, each once, in no particular order. */
  method MonthsOfTable<V>(table: map<Month, V>) returns (ms: seq<Month>)
    ensures forall m :: m in ms <==> m in table
    ensures |ms| == |table|
    ensures Distinct(ms)
  {
    ms := [];
    var todo := table.Keys;
    while todo != {}
      invariant todo <= table.Keys
      invariant forall m :: m in ms <==> m in table && m !in todo
      invariant |ms| + |todo| == |table|
      invariant Distinct(ms)
      decreases |todo|
    {
      var m :| m in todo;
      ms := ms + [m];
      todo := todo - {m};
    }
  }

  function ItemsAt<V>(table: map<Month, V>, ms: seq<Month>): (items: seq<(Month, V)>)
    requires forall m :: m in ms ==> m in table
    ensures |items| == |ms|
    ensures forall i :: 0 <= i < |ms| ==> items[i] == (ms[i], table[ms[i]])
  {
    seq(|ms|, i requires 0 <= i < |ms| => (ms[i], table[ms[i]]))
  }

  function Min(a: nat, b: nat): nat
  {
    if a < b then a else b
  }

  /** Sales order of `sorted(..., key=sales, reverse=True)` on items already in month order: higher first, then earlier. */
  predicate RanksAbove(a: (Month, real), b: (Month, real))
  {
    a.1 > b.1 || (a.1 == b.1 && MonthBefore(a.0, b.0))
  }

  lemma RankOrder()
    ensures StrictTotalOrder(RanksAbove)
  {
  }

  /** The items of a table in the order `before`: each key once, with its value. */
  lemma SortedItems<V(!new)>(table: map<Month, V>, ms: seq<Month>, before: ((Month, V), (Month, V)) -> bool)
    requires StrictTotalOrder(before)
    requires Distinct(ms) && forall m :: m in ms <==> m in table
    ensures var sorted := Sort(ItemsAt(table, ms), before);
      && |sorted| == |table|
      && (forall i :: 0 <= i < |sorted| ==> sorted[i].0 in table && sorted[i].1 == table[sorted[i].0])
      && (forall i, j :: 0 <= i < j < |sorted| ==> before(sorted[i], sorted[j]))
      && (forall m :: m in table ==> (m, table[m]) in sorted)
  {
    var items := ItemsAt(table, ms);
    var sorted := Sort(items, before);
    assert Distinct(items);
    SortSorted(items, before);
    SortDistinct(items, before);
    SortedStrict(sorted, before);
    assert |ms| == |table| by {
      DistinctCardinality(ms, table.Keys);
    }
    forall i | 0 <= i < |sorted|
      ensures sorted[i].0 in table && sorted[i].1 == table[sorted[i].0]
    {
      assert sorted[i] in multiset(items);
    }
    forall m | m in table
      ensures (m, table[m]) in sorted
    {
      var n :| 0 <= n < |ms| && ms[n] == m;
      assert items[n] == (m, table[m]);
      assert items[n] in multiset(sorted);
    }
  }

  /** A sequence without repetitions listing exactly a set is as long as the set is large. */
  lemma {:induction false} DistinctCardinality<T>(s: seq<T>, ks: set<T>)
    requires Distinct(s) && forall x :: x in s <==> x in ks
    ensures |s| == |ks|
  {
    if s != [] {
      var x := s[|s| - 1];
      var init := s[..|s| - 1];
      forall y | y in init
        ensures y in ks - {x}
      {
        var j :| 0 <= j < |init| && init[j] == y;
        assert s[j] == y && s[|s| - 1] == x;
      }
      forall y | y in ks - {x}
        ensures y in init
      {
        var j :| 0 <= j < |s| && s[j] == y;
        assert init[j] == y;
      }
      DistinctCardinality(init, ks - {x});
    } else {
      assert forall y :: y !in ks;
    }
  }

  /** An item of a strictly ordered sequence missing from its first `k` items comes after each of them. */
  lemma Omitted<T(!new)>(sorted: seq<T>, k: nat, x: T, before: (T, T) -> bool)
    requires StrictTotalOrder(before) && k <= |sorted|
    requires forall i, j :: 0 <= i < j < |sorted| ==> before(sorted[i], sorted[j])
    requires x in sorted && forall j :: 0 <= j < k ==> sorted[j] != x
    ensures forall i :: 0 <= i < k ==> before(sorted[i], x)
  {
    var n :| 0 <= n < |sorted| && sorted[n] == x;
    assert n >= k;
  }

  /** The keys of a table in month order. */
  lemma SortedKeys<V>(table: map<Month, V>, ms: seq<Month>)
    requires Distinct(ms) && forall m :: m in ms <==> m in table
    ensures var sorted := Sort(ms, MonthBefore);
      && |sorted| == |table|
      && (forall m :: m in sorted <==> m in table)
      && (forall i, j :: 0 <= i < j < |sorted| ==> MonthBefore(sorted[i], sorted[j]))
  {
    var sorted := Sort(ms, MonthBefore);
    MonthOrder();
    SortSorted(ms, MonthBefore);
    SortDistinct(ms, MonthBefore);
    SortedStrict(sorted, MonthBefore);
    DistinctCardinality(ms, table.Keys);
    assert forall m :: m in sorted <==> m in multiset(ms);
  }

  lemma Ranked(sales: map<Month, real>, ms: seq<Month>)
    requires Distinct(ms) && forall m :: m in ms <==> m in sales
    ensures var ranked := Sort(ItemsAt(sales, ms), RanksAbove);
      && |ranked| == |sales|
      && (forall i :: 0 <= i < |ranked| ==> ranked[i].0 in sales && ranked[i].1 == sales[ranked[i].0])
      && (forall i, j :: 0 <= i < j < |ranked| ==> RanksAbove(ranked[i], ranked[j]))
      && (forall m :: m in sales ==> (m, sales[m]) in ranked)
  {
    RankOrder();
    SortedItems(sales, ms, RanksAbove);
  }

  /** Every item missing from the first `k` ranked items ranks below each of them. */
  lemma RankedOmitted(sales: map<Month, real>, ranked: seq<(Month, real)>, k: nat)
    requires k <= |ranked|
    requires forall i, j :: 0 <= i < j < |ranked| ==> RanksAbove(ranked[i], ranked[j])
    requires forall m :: m in sales ==> (m, sales[m]) in ranked
    ensures forall m, i :: m in sales && (m, sales[m]) !in ranked[..k] && 0 <= i < k ==>
      RanksAbove(ranked[i], (m, sales[m]))
  {
    RankOrder();
    forall m | m in sales && (m, sales[m]) !in ranked[..k]
      ensures forall i :: 0 <= i < k ==> RanksAbove(ranked[i], (m, sales[m]))
    {
      var p := (m, sales[m]);
      forall j | 0 <= j < k
        ensures ranked[j] != p
      {
        assert ranked[j] == ranked[..k][j];
      }
      Omitted(ranked, k, p, RanksAbove);
    }
  }

  /** The first `k` ranked items of a table: the method's contract for any `k`. */
  lemma TopPrefix(sales: map<Month, real>, ms: seq<Month>, k: nat)
    requires Distinct(ms) && (forall m :: m in ms <==> m in sales) && |ms| == |sales| && k <= |ms|
    ensures var top := Sort(ItemsAt(sales, ms), RanksAbove)[..k];
      && |top| == k
      && (forall i :: 0 <= i < |top| ==> top[i].0 in sales && top[i].1 == sales[top[i].0])
      && (forall i, j :: 0 <= i < j < |top| ==> RanksAbove(top[i], top[j]))
      && (forall m, i :: m in sales && (m, sales[m]) !in top && 0 <= i < |top| ==> RanksAbove(top[i], (m, sales[m])))
  {
    var ranked := Sort(ItemsAt(sales, ms), RanksAbove);
    Ranked(sales, ms);
    RankedOmitted(sales, ranked, k);
    var top := ranked[..k];
    assert forall i :: 0 <= i < k ==> top[i] == ranked[i];
  }

  /**
   * The five best months by sales, best first; every month shown ranks above
   * every month left out (it sold more, or as much and is earlier).
   */
  method TopMonths(sales: map<Month, real>) returns (top: seq<(Month, real)>)
    ensures |top| == Min(5, |sales|)
    ensures forall i :: 0 <= i < |top| ==> top[i].0 in sales && top[i].1 == sales[top[i].0]
    ensures forall i, j :: 0 <= i < j < |top| ==> RanksAbove(top[i], top[j])
    ensures forall m, i :: m in sales && (m, sales[m]) !in top && 0 <= i < |top| ==> RanksAbove(top[i], (m, sales[m]))
  {
    var ms := MonthsOfTable(sales);
    TopPrefix(sales, ms, Min(5, |sales|));
    top := Sort(ItemsAt(sales, ms), RanksAbove)[..Min(5, |sales|)];
  }

  /** A month of a sorted list that is not among its last entries comes before each of them. */
  lemma BeforeSuffix(ms: seq<Month>, k: nat, m: Month)
    requires forall i, j :: 0 <= i < j < |ms| ==> MonthBefore(ms[i], ms[j])
    requires m in ms && k <= |ms| && forall j :: k <= j < |ms| ==> ms[j] != m
    ensures forall i :: k <= i < |ms| ==> MonthBefore(m, ms[i])
  {
    var n :| 0 <= n < |ms| && ms[n] == m;
    assert n < k;
  }

  /** A month of a sorted list that is not among its first entries comes after each of them. */
  lemma AfterPrefix(ms: seq<Month>, k: nat, m: Month)
    requires forall i, j :: 0 <= i < j < |ms| ==> MonthBefore(ms[i], ms[j])
    requires m in ms && k <= |ms| && forall j :: 0 <= j < k ==> ms[j] != m
    ensures forall i :: 0 <= i < k ==> MonthBefore(ms[i], m)
  {
    var n :| 0 <= n < |ms| && ms[n] == m;
    assert n >= k;
  }

  /** Months `k..` of the table's months in order, with their values. */
  lemma MonthSuffix<V>(table: map<Month, V>, ms: seq<Month>, k: nat)
    requires (forall m :: m in ms <==> m in table) && |ms| == |table| && k <= |ms|
    requires forall i, j :: 0 <= i < j < |ms| ==> MonthBefore(ms[i], ms[j])
    ensures var shown := ItemsAt(table, ms[k..]);
      && |shown| == |ms| - k
      && (forall i :: 0 <= i < |shown| ==> shown[i].0 in table && shown[i].1 == table[shown[i].0])
      && (forall i, j :: 0 <= i < j < |shown| ==> MonthBefore(shown[i].0, shown[j].0))
      && (forall m, i :: m in table && 0 <= i < |shown| && (forall j :: 0 <= j < |shown| ==> shown[j].0 != m) ==>
            MonthBefore(m, shown[i].0))
  {
    var shown := ItemsAt(table, ms[k..]);
    assert forall j :: k <= j < |ms| ==> shown[j - k].0 == ms[j];
    forall m, i | m in table && 0 <= i < |shown| && (forall j :: 0 <= j < |shown| ==> shown[j].0 != m)
      ensures MonthBefore(m, shown[i].0)
    {
      BeforeSuffix(ms, k, m);
      assert shown[i].0 == ms[k + i];
    }
  }

  /** Months `..k` of the table's months in order, with their values. */
  lemma MonthPrefix<V>(table: map<Month, V>, ms: seq<Month>, k: nat)
    requires (forall m :: m in ms <==> m in table) && |ms| == |table| && k <= |ms|
    requires forall i, j :: 0 <= i < j < |ms| ==> MonthBefore(ms[i], ms[j])
    ensures var shown := ItemsAt(table, ms[..k]);
      && |shown| == k
      && (forall i :: 0 <= i < |shown| ==> shown[i].0 in table && shown[i].1 == table[shown[i].0])
      && (forall i, j :: 0 <= i < j < |shown| ==> MonthBefore(shown[i].0, shown[j].0))
      && (forall m, i :: m in table && 0 <= i < |shown| && (forall j :: 0 <= j < |shown| ==> shown[j].0 != m) ==>
            MonthBefore(shown[i].0, m))
  {
    var shown := ItemsAt(table, ms[..k]);
    assert forall j :: 0 <= j < k ==> shown[j].0 == ms[j];
    forall m, i | m in table && 0 <= i < |shown| && (forall j :: 0 <= j < |shown| ==> shown[j].0 != m)
      ensures MonthBefore(shown[i].0, m)
    {
      AfterPrefix(ms, k, m);
      assert shown[i].0 == ms[i];
    }
  }

  /** The last six months in month order; every month left out is earlier than every month shown. */
  method RecentMonths(sales: map<Month, real>) returns (recent: seq<(Month, real)>)
    ensures |recent| == Min(6, |sales|)
    ensures forall i :: 0 <= i < |recent| ==> recent[i].0 in sales && recent[i].1 == sales[recent[i].0]
    ensures forall i, j :: 0 <= i < j < |recent| ==> MonthBefore(recent[i].0, recent[j].0)
    ensures forall m, i :: m in sales && 0 <= i < |recent| && (forall j :: 0 <= j < |recent| ==> recent[j].0 != m) ==>
      MonthBefore(m, recent[i].0)
  {
    var keys := MonthsOfTable(sales);
    var ms := Sort(keys, MonthBefore);
    SortedKeys(sales, keys);
    var k := |ms| - Min(6, |ms|);
    MonthSuffix(sales, ms, k);
    recent := ItemsAt(sales, ms[k..]);
  }

  /** The first ten merged monthly totals in month order; every month left out is later than every month shown. */
  method FirstMonthlyTotals(totals: map<Month, int>) returns (first: seq<(Month, int)>)
    ensures |first| == Min(10, |totals|)
    ensures forall i :: 0 <= i < |first| ==> first[i].0 in totals && first[i].1 == totals[first[i].0]
    ensures forall i, j :: 0 <= i < j < |first| ==> MonthBefore(first[i].0, first[j].0)
    ensures forall m, i :: m in totals && 0 <= i < |first| && (forall j :: 0 <= j < |first| ==> first[j].0 != m) ==>
      MonthBefore(first[i].0, m)
  {
    var keys := MonthsOfTable(totals);
    var ms := Sort(keys, MonthBefore);
    SortedKeys(totals, keys);
    var k := Min(10, |ms|);
    MonthPrefix(totals, ms, k);
    first := ItemsAt(totals, ms[..k]);
  }
}
