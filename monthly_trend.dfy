/**
 * The monthly trend (`monthlyData`): expenses grouped by the "YYYY-MM"
 * prefix of their date, sorted by month, the last six kept. The chart
 * label the source derives from the month key is left out; the key itself
 * is kept.
 */
module MonthlyTrend {
  import opened Records
  import opened StringOrder
  import opened OrderedMap
  import opened Kpis

  const MonthsShown: nat := 6

  /** `datum.substring(0, 7)`: the "YYYY-MM" part of a date. */
  function MonthKey(datum: string): string {
    if |datum| <= 7 then datum else datum[..7]
  }

  /** `if (a.fields.datum)`: the date is present and not empty. */
  predicate Dated(a: Ausgabe) {
    a.fields.datum.Some? && a.fields.datum.value != ""
  }

  /** The expense falls in the bucket of `month`. */
  predicate InBucket(a: Ausgabe, month: string) {
    Dated(a) && MonthKey(a.fields.datum.value) == month
  }

  /** The sum of the amounts of the expenses in the bucket of `month`. */
  function MonthSum(xs: seq<Ausgabe>, month: string): int {
    if xs == [] then 0
    else
      var last := xs[|xs| - 1];
      MonthSum(xs[..|xs| - 1], month) + if InBucket(last, month) then Amount(last) else 0
  }

  /** For a "yyyy-MM" month, starting with the month is the same as falling in its bucket. */
  lemma InMonthIsInBucket(a: Ausgabe, month: string)
    requires |month| == 7
    ensures InMonth(a, month) <==> InBucket(a, month)
  {
    if a.fields.datum.Some? && month <= a.fields.datum.value {
      assert a.fields.datum.value[..7] == month;
    }
  }

  /**
   * The key figures and the trend agree: the current month's total is the
   * sum the trend keeps for that month.
   */
  lemma {:induction false} ThisMonthTotalIsMonthSum(xs: seq<Ausgabe>, month: string)
    requires |month| == 7
    ensures ThisMonthTotal(xs, month) == MonthSum(xs, month)
  {
    if xs != [] {
      var n := |xs| - 1;
      var last := xs[n];
      ThisMonthTotalIsMonthSum(xs[..n], month);
      InMonthIsInBucket(last, month);
      TotalAppend(ThisMonth(xs[..n], month), if InMonth(last, month) then [last] else []);
      assert Total([last]) == Amount(last) by {
        assert [last][..0] == [];
      }
    }
  }

  /** The sum of the amounts of the dated expenses. */
  function DatedTotal(xs: seq<Ausgabe>): int {
    if xs == [] then 0
    else
      var last := xs[|xs| - 1];
      DatedTotal(xs[..|xs| - 1]) + if Dated(last) then Amount(last) else 0
  }

  /** `monthMap` as a left fold of the `forEach` body over the expenses. */
  function MonthTotals(xs: seq<Ausgabe>): Entries<int> {
    if xs == [] then []
    else
      var m := MonthTotals(xs[..|xs| - 1]);
      var a := xs[|xs| - 1];
      if Dated(a) then AddTo(m, MonthKey(a.fields.datum.value), Amount(a)) else m
  }

  lemma {:induction false} MonthTotalsUnique(xs: seq<Ausgabe>)
    ensures UniqueKeys(MonthTotals(xs))
  {
    if xs != [] {
      var m := MonthTotals(xs[..|xs| - 1]);
      var a := xs[|xs| - 1];
      MonthTotalsUnique(xs[..|xs| - 1]);
      if Dated(a) {
        var k := MonthKey(a.fields.datum.value);
        PutUnique(m, k, Get(m, k).GetOr(0) + Amount(a));
      }
    }
  }

  /** A month's entry holds the sum of that month's amounts (0 standing for no entry). */
  lemma {:induction false} MonthTotalsGet(xs: seq<Ausgabe>, month: string)
    ensures Get(MonthTotals(xs), month).GetOr(0) == MonthSum(xs, month)
  {
    if xs != [] {
      var n := |xs| - 1;
      var m := MonthTotals(xs[..n]);
      var a := xs[n];
      MonthTotalsGet(xs[..n], month);
      if Dated(a) {
        var k := MonthKey(a.fields.datum.value);
        assert MonthTotals(xs) == Put(m, k, Get(m, k).GetOr(0) + Amount(a));
        PutGet(m, k, Get(m, k).GetOr(0) + Amount(a), month);
      }
    }
  }

  /** Every month of a dated expense has an entry. */
  lemma {:induction false} MonthTotalsHasBucket(xs: seq<Ausgabe>, i: nat)
    requires i < |xs| && Dated(xs[i])
    ensures Get(MonthTotals(xs), MonthKey(xs[i].fields.datum.value)).Some?
  {
    var n := |xs| - 1;
    var m := MonthTotals(xs[..n]);
    var a := xs[n];
    var month := MonthKey(xs[i].fields.datum.value);
    if Dated(a) {
      var k := MonthKey(a.fields.datum.value);
      PutGet(m, k, Get(m, k).GetOr(0) + Amount(a), month);
    }
    if i < n {
      assert xs[..n][i] == xs[i];
      MonthTotalsHasBucket(xs[..n], i);
    }
  }

  /** Only the months of dated expenses have entries. */
  lemma {:induction false} MonthTotalsOnlyBuckets(xs: seq<Ausgabe>, month: string)
    requires Get(MonthTotals(xs), month).Some?
    ensures exists i :: 0 <= i < |xs| && InBucket(xs[i], month)
  {
    var n := |xs| - 1;
    var m := MonthTotals(xs[..n]);
    var a := xs[n];
    if !InBucket(a, month) {
      if Dated(a) {
        var k := MonthKey(a.fields.datum.value);
        PutGet(m, k, Get(m, k).GetOr(0) + Amount(a), month);
      }
      MonthTotalsOnlyBuckets(xs[..n], month);
      var i :| 0 <= i < n && InBucket(xs[..n][i], month);
      assert xs[i] == xs[..n][i];
    }
  }

  /** Undated expenses land in no month: the entries add up to the dated expenses' total. */
  lemma {:induction false} MonthTotalsSum(xs: seq<Ausgabe>)
    ensures SumValues(MonthTotals(xs)) == DatedTotal(xs)
  {
    if xs != [] {
      var m := MonthTotals(xs[..|xs| - 1]);
      var a := xs[|xs| - 1];
      MonthTotalsSum(xs[..|xs| - 1]);
      if Dated(a) {
        AddToSum(m, MonthKey(a.fields.datum.value), Amount(a));
      }
    }
  }

  /** Builds `monthMap` as the source does: one update per dated expense, in order. */
  method BuildMonthTotals(xs: seq<Ausgabe>) returns (m: Entries<int>)
    ensures m == MonthTotals(xs)
  {
    m := [];
    for i := 0 to |xs|
      invariant m == MonthTotals(xs[..i])
    {
      assert xs[..i + 1][..i] == xs[..i];
      var a := xs[i];
      if a.fields.datum.Some? && a.fields.datum.value != "" {
        m := AddTo(m, MonthKey(a.fields.datum.value), Amount(a));
      }
    }
    assert xs[..|xs|] == xs;
  }

  predicate StrictlyAscending(s: Entries<int>) {
    forall i, j :: 0 <= i < j < |s| ==> Less(s[i].0, s[j].0)
  }

  /** Inserts `e` before the first entry whose month sorts after it. */
  function InsertByMonth(e: (string, int), s: Entries<int>): Entries<int> {
    if s == [] || Less(e.0, s[0].0) then [e] + s
    else [s[0]] + InsertByMonth(e, s[1..])
  }

  /** `sort(([a], [b]) => a.localeCompare(b))` on the map's entries. */
  function SortByMonth(s: Entries<int>): Entries<int> {
    if s == [] then [] else InsertByMonth(s[0], SortByMonth(s[1..]))
  }

  lemma {:induction false} InsertByMonthPermutes(e: (string, int), s: Entries<int>)
    ensures multiset(InsertByMonth(e, s)) == multiset(s) + multiset{e}
  {
    if s != [] && !Less(e.0, s[0].0) {
      InsertByMonthPermutes(e, s[1..]);
      assert s == [s[0]] + s[1..];
    }
  }

  /** Insertion keeps a lower bound on the months. */
  lemma {:induction false} InsertByMonthBounds(e: (string, int), s: Entries<int>, low: string)
    requires Less(low, e.0) && forall i :: 0 <= i < |s| ==> Less(low, s[i].0)
    ensures forall i :: 0 <= i < |InsertByMonth(e, s)| ==> Less(low, InsertByMonth(e, s)[i].0)
  {
    if s != [] && !Less(e.0, s[0].0) {
      InsertByMonthBounds(e, s[1..], low);
    }
  }

  lemma {:induction false} InsertByMonthAscending(e: (string, int), s: Entries<int>)
    requires StrictlyAscending(s) && e.0 !in Keys(s)
    ensures StrictlyAscending(InsertByMonth(e, s))
  {
    if s == [] {
    } else if Less(e.0, s[0].0) {
      forall j | 0 < j < |s|
        ensures Less(e.0, s[j].0)
      {
        Transitive(e.0, s[0].0, s[j].0);
      }
    } else {
      Trichotomy(e.0, s[0].0);
      assert Keys(s) == [s[0].0] + Keys(s[1..]);
      InsertByMonthAscending(e, s[1..]);
      InsertByMonthBounds(e, s[1..], s[0].0);
    }
  }

  lemma AbsentFromPermutation(k: string, t: Entries<int>, u: Entries<int>)
    requires multiset(t) == multiset(u)
    requires forall i :: 0 <= i < |u| ==> u[i].0 != k
    ensures k !in Keys(t)
  {
    forall j | 0 <= j < |t|
      ensures t[j].0 != k
    {
      assert t[j] in multiset(u);
    }
  }

  lemma {:induction false} SortByMonthPermutes(s: Entries<int>)
    ensures multiset(SortByMonth(s)) == multiset(s)
  {
    if s != [] {
      SortByMonthPermutes(s[1..]);
      InsertByMonthPermutes(s[0], SortByMonth(s[1..]));
      assert s == [s[0]] + s[1..];
    }
  }

  /** Sorting permutes the entries and, their months being distinct, orders them strictly. */
  lemma {:induction false} SortByMonthSorts(s: Entries<int>)
    requires UniqueKeys(s)
    ensures multiset(SortByMonth(s)) == multiset(s)
    ensures StrictlyAscending(SortByMonth(s))
  {
    SortByMonthPermutes(s);
    if s != [] {
      var t := SortByMonth(s[1..]);
      SortByMonthSorts(s[1..]);
      assert forall i :: 0 <= i < |s[1..]| ==> s[1..][i].0 != s[0].0;
      AbsentFromPermutation(s[0].0, t, s[1..]);
      InsertByMonthAscending(s[0], t);
    }
  }

  /** `slice(-6)`: the last six entries, or all of them when there are fewer. */
  function LastSix(s: Entries<int>): (r: Entries<int>)
    ensures |r| <= MonthsShown
  {
    if |s| <= MonthsShown then s else s[|s| - MonthsShown..]
  }

  datatype MonthPoint = MonthPoint(month: string, total: int)

  /** The trend the chart shows: empty for no expenses, else the last six months in order. */
  function MonthlySeries(xs: seq<Ausgabe>): seq<MonthPoint> {
    if xs == [] then []
    else
      var t := LastSix(SortByMonth(MonthTotals(xs)));
      seq(|t|, i requires 0 <= i < |t| => MonthPoint(t[i].0, t[i].1))
  }

  /** Computes `monthlyData` as the source does. */
  method MonthlyData(xs: seq<Ausgabe>) returns (points: seq<MonthPoint>)
    ensures points == MonthlySeries(xs)
  {
    if |xs| == 0 {
      return [];
    }
    var m := BuildMonthTotals(xs);
    var sorted := SortByMonth(m);
    var t := LastSix(sorted);
    points := seq(|t|, i requires 0 <= i < |t| => MonthPoint(t[i].0, t[i].1));
  }

  /** At most six points, months strictly ascending, none for no expenses. */
  lemma MonthlyOrdered(xs: seq<Ausgabe>)
    ensures xs == [] ==> MonthlySeries(xs) == []
    ensures |MonthlySeries(xs)| <= MonthsShown
    ensures forall i, j :: 0 <= i < j < |MonthlySeries(xs)| ==>
      Less(MonthlySeries(xs)[i].month, MonthlySeries(xs)[j].month)
  {
    if xs != [] {
      MonthTotalsUnique(xs);
      SortByMonthSorts(MonthTotals(xs));
    }
  }

  /**
   * Each point's month is the first seven characters of some expense's
   * date, and its total is the sum of that month's amounts.
   */
  lemma MonthlyPointsFromExpenses(xs: seq<Ausgabe>, i: nat)
    requires i < |MonthlySeries(xs)|
    ensures exists j :: 0 <= j < |xs| && InBucket(xs[j], MonthlySeries(xs)[i].month)
    ensures MonthlySeries(xs)[i].total == MonthSum(xs, MonthlySeries(xs)[i].month)
  {
    var m := MonthTotals(xs);
    var s := SortByMonth(m);
    var off := |s| - |LastSix(s)|;
    MonthTotalsUnique(xs);
    SortByMonthSorts(m);
    var e := s[off + i];
    assert MonthlySeries(xs)[i] == MonthPoint(e.0, e.1);
    assert e in multiset(m);
    var p :| 0 <= p < |m| && m[p] == e;
    GetEntry(m, p);
    MonthTotalsGet(xs, e.0);
    MonthTotalsOnlyBuckets(xs, e.0);
  }

  /** The points are the last six sorted month entries. */
  lemma SeriesPoints(xs: seq<Ausgabe>)
    requires xs != []
    ensures var t := LastSix(SortByMonth(MonthTotals(xs)));
      |MonthlySeries(xs)| == |t| &&
      forall i :: 0 <= i < |t| ==> MonthlySeries(xs)[i] == MonthPoint(t[i].0, t[i].1)
  {
  }

  lemma LastSixKeeps(s: Entries<int>, q: nat)
    requires |s| - |LastSix(s)| <= q < |s|
    ensures LastSix(s)[q - (|s| - |LastSix(s)|)] == s[q]
  {
  }

  /** In a strictly ascending list, an entry that `slice(-6)` drops sorts before all it keeps. */
  lemma {:induction false} LastSixDropsEarlier(s: Entries<int>, q: nat)
    requires StrictlyAscending(s) && q < |s|
    requires forall i :: 0 <= i < |LastSix(s)| ==> LastSix(s)[i].0 != s[q].0
    ensures |LastSix(s)| == MonthsShown && Less(s[q].0, LastSix(s)[0].0)
  {
    var off := |s| - |LastSix(s)|;
    if q >= off {
      LastSixKeeps(s, q);
    }
  }

  /**
   * The last six months are kept: a month with a dated expense but no point
   * is only missing when six later months are shown.
   */
  lemma MonthlyKeepsLatest(xs: seq<Ausgabe>, j: nat)
    requires j < |xs| && Dated(xs[j])
    requires forall i :: 0 <= i < |MonthlySeries(xs)| ==>
      MonthlySeries(xs)[i].month != MonthKey(xs[j].fields.datum.value)
    ensures |MonthlySeries(xs)| == MonthsShown
    ensures Less(MonthKey(xs[j].fields.datum.value), MonthlySeries(xs)[0].month)
  {
    var month := MonthKey(xs[j].fields.datum.value);
    var m := MonthTotals(xs);
    var s := SortByMonth(m);
    MonthTotalsUnique(xs);
    SortByMonthSorts(m);
    MonthTotalsHasBucket(xs, j);
    GetFindsKeys(m, month);
    var p :| 0 <= p < |m| && m[p].0 == month;
    assert m[p] in multiset(s);
    var q :| 0 <= q < |s| && s[q] == m[p];
    SeriesPoints(xs);
    LastSixDropsEarlier(s, q);
  }
}
