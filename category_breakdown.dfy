/**
 * The category breakdown (`categoryData`) and its pie projection
 * (`pieData`): expenses grouped by the NAME their category reference
 * resolves to, with "Unkategorisiert" for everything unresolved, and the
 * groups sorted by total, largest first.
 */
module CategoryBreakdown {
  import opened Records
  import opened OrderedMap
  import opened Kpis
  import opened CategoryLookup

  const Uncategorized: string := "Unkategorisiert"

  /** The name of the bucket an expense lands in. */
  function BucketName(a: Ausgabe, categoryMap: Entries<string>): string {
    ResolveName(a.fields.kategorie, categoryMap, Uncategorized)
  }

  /** The bucket names of the expenses, one per expense, in order. */
  function BucketNames(xs: seq<Ausgabe>, categoryMap: Entries<string>): seq<string> {
    if xs == [] then []
    else BucketNames(xs[..|xs| - 1], categoryMap) + [BucketName(xs[|xs| - 1], categoryMap)]
  }

  lemma {:induction false} BucketNamesAt(xs: seq<Ausgabe>, categoryMap: Entries<string>)
    ensures |BucketNames(xs, categoryMap)| == |xs|
    ensures forall i :: 0 <= i < |xs| ==> BucketNames(xs, categoryMap)[i] == BucketName(xs[i], categoryMap)
  {
    if xs != [] {
      var n := |xs| - 1;
      BucketNamesAt(xs[..n], categoryMap);
      forall i | 0 <= i < n
        ensures BucketNames(xs, categoryMap)[i] == BucketName(xs[i], categoryMap)
      {
        assert xs[..n][i] == xs[i];
      }
    }
  }

  /** The distinct strings of `s` in the order of their first occurrence. */
  function FirstSeen(s: seq<string>): seq<string> {
    if s == [] then []
    else
      var d := FirstSeen(s[..|s| - 1]);
      if s[|s| - 1] in d then d else d + [s[|s| - 1]]
  }

  lemma {:induction false} FirstSeenElements(s: seq<string>)
    ensures forall x :: x in FirstSeen(s) <==> x in s
    ensures forall i, j :: 0 <= i < j < |FirstSeen(s)| ==> FirstSeen(s)[i] != FirstSeen(s)[j]
  {
    if s != [] {
      FirstSeenElements(s[..|s| - 1]);
      assert s == s[..|s| - 1] + [s[|s| - 1]];
    }
  }

  lemma FirstSeenAppend(s: seq<string>, x: string)
    ensures FirstSeen(s + [x]) == if x in FirstSeen(s) then FirstSeen(s) else FirstSeen(s) + [x]
  {
    assert (s + [x])[..|s|] == s;
  }

  lemma KeysStep(m: Entries<int>, prev: seq<string>, k: string, x: int)
    requires Keys(m) == FirstSeen(prev)
    ensures Keys(AddTo(m, k, x)) == FirstSeen(prev + [k])
  {
    PutKeys(m, k, Get(m, k).GetOr(0) + x);
    FirstSeenAppend(prev, k);
  }

  /** The sum of the amounts of the expenses in the bucket `name`. */
  function CategorySum(xs: seq<Ausgabe>, categoryMap: Entries<string>, name: string): int {
    if xs == [] then 0
    else
      var last := xs[|xs| - 1];
      CategorySum(xs[..|xs| - 1], categoryMap, name) +
        if BucketName(last, categoryMap) == name then Amount(last) else 0
  }

  /** `categoryTotals` as a left fold of the `forEach` body over the expenses. */
  function CategoryTotals(xs: seq<Ausgabe>, categoryMap: Entries<string>): Entries<int> {
    if xs == [] then []
    else
      var last := xs[|xs| - 1];
      AddTo(CategoryTotals(xs[..|xs| - 1], categoryMap), BucketName(last, categoryMap), Amount(last))
  }

  /** The buckets appear in the order their names are first met. */
  lemma {:induction false} CategoryTotalsKeys(xs: seq<Ausgabe>, categoryMap: Entries<string>)
    ensures Keys(CategoryTotals(xs, categoryMap)) == FirstSeen(BucketNames(xs, categoryMap))
  {
    if xs != [] {
      var n := |xs| - 1;
      var m := CategoryTotals(xs[..n], categoryMap);
      var k := BucketName(xs[n], categoryMap);
      var prev := BucketNames(xs[..n], categoryMap);
      CategoryTotalsKeys(xs[..n], categoryMap);
      assert CategoryTotals(xs, categoryMap) == AddTo(m, k, Amount(xs[n]));
      assert BucketNames(xs, categoryMap) == prev + [k];
      KeysStep(m, prev, k, Amount(xs[n]));
    }
  }

  lemma {:induction false} CategoryTotalsUnique(xs: seq<Ausgabe>, categoryMap: Entries<string>)
    ensures UniqueKeys(CategoryTotals(xs, categoryMap))
  {
    if xs != [] {
      var n := |xs| - 1;
      var m := CategoryTotals(xs[..n], categoryMap);
      var k := BucketName(xs[n], categoryMap);
      CategoryTotalsUnique(xs[..n], categoryMap);
      PutUnique(m, k, Get(m, k).GetOr(0) + Amount(xs[n]));
    }
  }

  /** Each bucket holds the sum of its expenses' amounts (0 standing for no bucket). */
  lemma {:induction false} CategoryTotalsGet(xs: seq<Ausgabe>, categoryMap: Entries<string>, name: string)
    ensures Get(CategoryTotals(xs, categoryMap), name).GetOr(0) == CategorySum(xs, categoryMap, name)
  {
    if xs != [] {
      var n := |xs| - 1;
      var m := CategoryTotals(xs[..n], categoryMap);
      var k := BucketName(xs[n], categoryMap);
      CategoryTotalsGet(xs[..n], categoryMap, name);
      PutGet(m, k, Get(m, k).GetOr(0) + Amount(xs[n]), name);
    }
  }

  /** Every expense adds its amount to exactly one bucket: the buckets add up to the overall total. */
  lemma {:induction false} CategoryTotalsSum(xs: seq<Ausgabe>, categoryMap: Entries<string>)
    ensures SumValues(CategoryTotals(xs, categoryMap)) == Total(xs)
  {
    if xs != [] {
      var n := |xs| - 1;
      CategoryTotalsSum(xs[..n], categoryMap);
      AddToSum(CategoryTotals(xs[..n], categoryMap), BucketName(xs[n], categoryMap), Amount(xs[n]));
    }
  }

  /** Builds `categoryTotals` as the source does: one update per expense, in order. */
  method BuildCategoryTotals(xs: seq<Ausgabe>, categoryMap: Entries<string>) returns (m: Entries<int>)
    ensures m == CategoryTotals(xs, categoryMap)
  {
    m := [];
    for i := 0 to |xs|
      invariant m == CategoryTotals(xs[..i], categoryMap)
    {
      assert xs[..i + 1][..i] == xs[..i];
      var categoryName := ResolveName(xs[i].fields.kategorie, categoryMap, Uncategorized);
      m := AddTo(m, categoryName, Amount(xs[i]));
    }
    assert xs[..|xs|] == xs;
  }

  datatype CategoryTotal = CategoryTotal(name: string, total: int)

  /** `Array.from(categoryTotals.entries()).map(([name, total]) => ({ name, total }))`. */
  function ToCategoryTotals(m: Entries<int>): (r: seq<CategoryTotal>)
    ensures |r| == |m|
    ensures forall i :: 0 <= i < |m| ==> r[i] == CategoryTotal(m[i].0, m[i].1)
  {
    if m == [] then [] else [CategoryTotal(m[0].0, m[0].1)] + ToCategoryTotals(m[1..])
  }

  function SumTotals(s: seq<CategoryTotal>): int {
    if s == [] then 0 else s[0].total + SumTotals(s[1..])
  }

  lemma {:induction false} ToCategoryTotalsSum(m: Entries<int>)
    ensures SumTotals(ToCategoryTotals(m)) == SumValues(m)
  {
    if m != [] {
      ToCategoryTotalsSum(m[1..]);
    }
  }

  /** The groups before sorting, in first-encountered order. */
  function Grouped(xs: seq<Ausgabe>, categoryMap: Entries<string>): seq<CategoryTotal> {
    ToCategoryTotals(CategoryTotals(xs, categoryMap))
  }

  predicate NonIncreasing(s: seq<CategoryTotal>) {
    forall i, j :: 0 <= i < j < |s| ==> s[j].total <= s[i].total
  }

  predicate UniqueNames(s: seq<CategoryTotal>) {
    forall i, j :: 0 <= i < j < |s| ==> s[i].name != s[j].name
  }

  /** The entries of `s` whose total is `t`, in order. */
  function WithTotal(s: seq<CategoryTotal>, t: int): seq<CategoryTotal> {
    if s == [] then []
    else (if s[0].total == t then [s[0]] else []) + WithTotal(s[1..], t)
  }

  /** Inserts `c` before the first entry whose total is not larger. */
  function InsertByTotal(c: CategoryTotal, s: seq<CategoryTotal>): seq<CategoryTotal> {
    if s == [] || s[0].total <= c.total then [c] + s
    else [s[0]] + InsertByTotal(c, s[1..])
  }

  /** The stable `sort((a, b) => b.total - a.total)`. */
  function SortByTotal(s: seq<CategoryTotal>): seq<CategoryTotal> {
    if s == [] then [] else InsertByTotal(s[0], SortByTotal(s[1..]))
  }

  lemma {:induction false} InsertByTotalPermutes(c: CategoryTotal, s: seq<CategoryTotal>)
    ensures multiset(InsertByTotal(c, s)) == multiset(s) + multiset{c}
    ensures SumTotals(InsertByTotal(c, s)) == SumTotals(s) + c.total
  {
    if s != [] && s[0].total > c.total {
      InsertByTotalPermutes(c, s[1..]);
      assert s == [s[0]] + s[1..];
    }
  }

  /** Insertion keeps an upper bound on the totals and keeps a name away. */
  lemma {:induction false} InsertByTotalBounds(c: CategoryTotal, s: seq<CategoryTotal>, b: int, name: string)
    ensures (c.total <= b && forall i :: 0 <= i < |s| ==> s[i].total <= b) ==>
      forall i :: 0 <= i < |InsertByTotal(c, s)| ==> InsertByTotal(c, s)[i].total <= b
    ensures (c.name != name && forall i :: 0 <= i < |s| ==> s[i].name != name) ==>
      forall i :: 0 <= i < |InsertByTotal(c, s)| ==> InsertByTotal(c, s)[i].name != name
  {
    if s != [] && s[0].total > c.total {
      InsertByTotalBounds(c, s[1..], b, name);
    }
  }

  lemma {:induction false} InsertByTotalOrders(c: CategoryTotal, s: seq<CategoryTotal>)
    requires NonIncreasing(s)
    ensures NonIncreasing(InsertByTotal(c, s))
  {
    if s != [] && s[0].total > c.total {
      InsertByTotalOrders(c, s[1..]);
      InsertByTotalBounds(c, s[1..], s[0].total, c.name);
    } else if s != [] {
      assert forall i :: 0 <= i < |s| ==> s[i].total <= s[0].total;
    }
  }

  lemma {:induction false} InsertByTotalUnique(c: CategoryTotal, s: seq<CategoryTotal>)
    requires UniqueNames(s)
    requires forall i :: 0 <= i < |s| ==> s[i].name != c.name
    ensures UniqueNames(InsertByTotal(c, s))
  {
    if s != [] && s[0].total > c.total {
      InsertByTotalUnique(c, s[1..]);
      InsertByTotalBounds(c, s[1..], c.total, s[0].name);
    }
  }

  /** Insertion is stable: `c` joins its tie group in front, the other groups are untouched. */
  lemma {:induction false} InsertByTotalStable(c: CategoryTotal, s: seq<CategoryTotal>, t: int)
    ensures WithTotal(InsertByTotal(c, s), t) == (if c.total == t then [c] else []) + WithTotal(s, t)
  {
    if s != [] && s[0].total > c.total {
      var r' := InsertByTotal(c, s[1..]);
      InsertByTotalStable(c, s[1..], t);
      assert ([s[0]] + r')[1..] == r';
      assert WithTotal(s, t) == (if s[0].total == t then [s[0]] else []) + WithTotal(s[1..], t);
    } else {
      assert ([c] + s)[1..] == s;
    }
  }

  lemma {:induction false} SortByTotalPermutes(s: seq<CategoryTotal>)
    ensures multiset(SortByTotal(s)) == multiset(s)
    ensures SumTotals(SortByTotal(s)) == SumTotals(s)
  {
    if s != [] {
      SortByTotalPermutes(s[1..]);
      InsertByTotalPermutes(s[0], SortByTotal(s[1..]));
      assert s == [s[0]] + s[1..];
    }
  }

  lemma {:induction false} SortByTotalOrders(s: seq<CategoryTotal>)
    ensures NonIncreasing(SortByTotal(s))
  {
    if s != [] {
      SortByTotalOrders(s[1..]);
      InsertByTotalOrders(s[0], SortByTotal(s[1..]));
    }
  }

  lemma {:induction false} SortByTotalUnique(s: seq<CategoryTotal>)
    requires UniqueNames(s)
    ensures UniqueNames(SortByTotal(s))
  {
    if s != [] {
      var t := SortByTotal(s[1..]);
      SortByTotalUnique(s[1..]);
      SortByTotalPermutes(s[1..]);
      forall j | 0 <= j < |t|
        ensures t[j].name != s[0].name
      {
        assert t[j] in multiset(s[1..]);
      }
      InsertByTotalUnique(s[0], t);
    }
  }

  /** The sort is stable: within each group of equal totals the order is kept. */
  lemma {:induction false} SortByTotalStable(s: seq<CategoryTotal>, t: int)
    ensures WithTotal(SortByTotal(s), t) == WithTotal(s, t)
  {
    if s != [] {
      SortByTotalStable(s[1..], t);
      InsertByTotalStable(s[0], SortByTotal(s[1..]), t);
    }
  }

  /** The breakdown the dashboard shows. */
  function Breakdown(xs: seq<Ausgabe>, categoryMap: Entries<string>): seq<CategoryTotal> {
    SortByTotal(Grouped(xs, categoryMap))
  }

  /** Computes `categoryData` as the source does. */
  method CategoryData(xs: seq<Ausgabe>, categoryMap: Entries<string>) returns (data: seq<CategoryTotal>)
    ensures data == Breakdown(xs, categoryMap)
  {
    var totals := BuildCategoryTotals(xs, categoryMap);
    data := SortByTotal(ToCategoryTotals(totals));
  }

  /** The groups of the breakdown are sorted by total, largest first, and their names are distinct. */
  lemma BreakdownOrdered(xs: seq<Ausgabe>, categoryMap: Entries<string>)
    ensures NonIncreasing(Breakdown(xs, categoryMap))
    ensures UniqueNames(Breakdown(xs, categoryMap))
  {
    var m := CategoryTotals(xs, categoryMap);
    CategoryTotalsUnique(xs, categoryMap);
    assert UniqueNames(Grouped(xs, categoryMap));
    SortByTotalOrders(Grouped(xs, categoryMap));
    SortByTotalUnique(Grouped(xs, categoryMap));
  }

  /** The group totals add up to the overall total: every expense is counted in one group. */
  lemma BreakdownSum(xs: seq<Ausgabe>, categoryMap: Entries<string>)
    ensures SumTotals(Breakdown(xs, categoryMap)) == Total(xs)
  {
    CategoryTotalsSum(xs, categoryMap);
    ToCategoryTotalsSum(CategoryTotals(xs, categoryMap));
    SortByTotalPermutes(Grouped(xs, categoryMap));
  }

  /** Each group's total is the sum of the amounts of the expenses that resolve to its name. */
  lemma BreakdownTotals(xs: seq<Ausgabe>, categoryMap: Entries<string>, i: nat)
    requires i < |Breakdown(xs, categoryMap)|
    ensures Breakdown(xs, categoryMap)[i].total == CategorySum(xs, categoryMap, Breakdown(xs, categoryMap)[i].name)
  {
    var m := CategoryTotals(xs, categoryMap);
    var g := Grouped(xs, categoryMap);
    var c := Breakdown(xs, categoryMap)[i];
    SortByTotalPermutes(g);
    assert c in multiset(g);
    var p :| 0 <= p < |g| && g[p] == c;
    CategoryTotalsUnique(xs, categoryMap);
    GetEntry(m, p);
    CategoryTotalsGet(xs, categoryMap, c.name);
  }

  /** Every group is named after the bucket of some expense. */
  lemma BreakdownNameOfSomeExpense(xs: seq<Ausgabe>, categoryMap: Entries<string>, i: nat)
    requires i < |Breakdown(xs, categoryMap)|
    ensures exists j :: 0 <= j < |xs| && BucketName(xs[j], categoryMap) == Breakdown(xs, categoryMap)[i].name
  {
    var m := CategoryTotals(xs, categoryMap);
    var g := Grouped(xs, categoryMap);
    var c := Breakdown(xs, categoryMap)[i];
    SortByTotalPermutes(g);
    assert c in multiset(g);
    var p :| 0 <= p < |g| && g[p] == c;
    CategoryTotalsKeys(xs, categoryMap);
    FirstSeenElements(BucketNames(xs, categoryMap));
    BucketNamesAt(xs, categoryMap);
    assert c.name in BucketNames(xs, categoryMap);
  }

  predicate HasGroup(data: seq<CategoryTotal>, name: string) {
    exists i :: 0 <= i < |data| && data[i].name == name
  }

  /** Every expense's bucket is one of the groups. */
  lemma BreakdownHasBucket(xs: seq<Ausgabe>, categoryMap: Entries<string>, j: nat)
    requires j < |xs|
    ensures HasGroup(Breakdown(xs, categoryMap), BucketName(xs[j], categoryMap))
  {
    var m := CategoryTotals(xs, categoryMap);
    var g := Grouped(xs, categoryMap);
    var name := BucketName(xs[j], categoryMap);
    CategoryTotalsKeys(xs, categoryMap);
    FirstSeenElements(BucketNames(xs, categoryMap));
    BucketNamesAt(xs, categoryMap);
    assert BucketNames(xs, categoryMap)[j] == name;
    assert name in Keys(m);
    var p :| 0 <= p < |Keys(m)| && Keys(m)[p] == name;
    SortByTotalPermutes(g);
    assert g[p] in multiset(Breakdown(xs, categoryMap));
  }

  /**
   * Ties keep the first-encountered order: the groups with any one total
   * appear in the breakdown in the order their names were first met.
   */
  lemma BreakdownTies(xs: seq<Ausgabe>, categoryMap: Entries<string>, t: int)
    ensures WithTotal(Breakdown(xs, categoryMap), t) == WithTotal(Grouped(xs, categoryMap), t)
    ensures |Grouped(xs, categoryMap)| == |FirstSeen(BucketNames(xs, categoryMap))|
    ensures forall i :: 0 <= i < |Grouped(xs, categoryMap)| ==>
      Grouped(xs, categoryMap)[i].name == FirstSeen(BucketNames(xs, categoryMap))[i]
  {
    SortByTotalStable(Grouped(xs, categoryMap), t);
    CategoryTotalsKeys(xs, categoryMap);
  }

  datatype PieSlice = PieSlice(name: string, value: int)

  /** `categoryData.map((item) => ({ name: item.name, value: item.total }))`. */
  function PieData(data: seq<CategoryTotal>): seq<PieSlice> {
    seq(|data|, i requires 0 <= i < |data| => PieSlice(data[i].name, data[i].total))
  }

  function SumValuesOfPie(pie: seq<PieSlice>): int {
    if pie == [] then 0 else pie[0].value + SumValuesOfPie(pie[1..])
  }

  lemma {:induction false} PieSum(data: seq<CategoryTotal>)
    ensures SumValuesOfPie(PieData(data)) == SumTotals(data)
  {
    if data != [] {
      assert PieData(data)[1..] == PieData(data[1..]);
      PieSum(data[1..]);
    }
  }

  /**
   * The pie has one slice per group, in the same order, each slice's value
   * its group's total; the slices add up to the overall total.
   */
  lemma PieOfBreakdown(xs: seq<Ausgabe>, categoryMap: Entries<string>)
    ensures |PieData(Breakdown(xs, categoryMap))| == |Breakdown(xs, categoryMap)|
    ensures forall i :: 0 <= i < |Breakdown(xs, categoryMap)| ==>
      PieData(Breakdown(xs, categoryMap))[i] ==
        PieSlice(Breakdown(xs, categoryMap)[i].name, Breakdown(xs, categoryMap)[i].total)
    ensures SumValuesOfPie(PieData(Breakdown(xs, categoryMap))) == Total(xs)
  {
    PieSum(Breakdown(xs, categoryMap));
    BreakdownSum(xs, categoryMap);
  }
}
