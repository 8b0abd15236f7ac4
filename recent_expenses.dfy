/**
 * The recent-expenses table (`recentExpenses`): a copy of the expense list
 * sorted by date, newest first, of which the first ten are shown. A
 * missing date sorts as the empty string, after every real date. The model
 * works on values, so the input list is left as it was by construction.
 */
module RecentExpenses {
  import opened Records
  import opened StringOrder

  const RecentShown: nat := 10

  /** `a.fields.datum || ''`. */
  function DateKey(a: Ausgabe): string {
    a.fields.datum.GetOr("")
  }

  /** Newest first: no expense's date sorts after that of an expense before it. */
  predicate NewestFirst(s: seq<Ausgabe>) {
    forall i, j :: 0 <= i < j < |s| ==> LessEq(DateKey(s[j]), DateKey(s[i]))
  }

  /** The expenses of `s` whose date key is `d`, in order. */
  function WithDate(s: seq<Ausgabe>, d: string): seq<Ausgabe> {
    if s == [] then []
    else (if DateKey(s[0]) == d then [s[0]] else []) + WithDate(s[1..], d)
  }

  /** Inserts `x` before the first expense whose date does not sort after its own. */
  function InsertByDate(x: Ausgabe, s: seq<Ausgabe>): seq<Ausgabe> {
    if s == [] || !Less(DateKey(x), DateKey(s[0])) then [x] + s
    else [s[0]] + InsertByDate(x, s[1..])
  }

  /** The stable `sort((a, b) => dateB.localeCompare(dateA))`. */
  function SortByDate(s: seq<Ausgabe>): seq<Ausgabe> {
    if s == [] then [] else InsertByDate(s[0], SortByDate(s[1..]))
  }

  lemma {:induction false} InsertByDatePermutes(x: Ausgabe, s: seq<Ausgabe>)
    ensures multiset(InsertByDate(x, s)) == multiset(s) + multiset{x}
  {
    if s != [] && Less(DateKey(x), DateKey(s[0])) {
      InsertByDatePermutes(x, s[1..]);
      assert s == [s[0]] + s[1..];
    }
  }

  /** Insertion keeps an upper bound on the dates. */
  lemma {:induction false} InsertByDateBounds(x: Ausgabe, s: seq<Ausgabe>, high: string)
    requires LessEq(DateKey(x), high) && forall i :: 0 <= i < |s| ==> LessEq(DateKey(s[i]), high)
    ensures forall i :: 0 <= i < |InsertByDate(x, s)| ==> LessEq(DateKey(InsertByDate(x, s)[i]), high)
  {
    if s != [] && Less(DateKey(x), DateKey(s[0])) {
      InsertByDateBounds(x, s[1..], high);
    }
  }

  lemma {:induction false} InsertByDateOrders(x: Ausgabe, s: seq<Ausgabe>)
    requires NewestFirst(s)
    ensures NewestFirst(InsertByDate(x, s))
  {
    if s == [] {
    } else if !Less(DateKey(x), DateKey(s[0])) {
      NotLess(DateKey(x), DateKey(s[0]));
      forall j | 0 <= j < |s|
        ensures LessEq(DateKey(s[j]), DateKey(x))
      {
        LessEqTransitive(DateKey(s[j]), DateKey(s[0]), DateKey(x));
      }
    } else {
      InsertByDateOrders(x, s[1..]);
      InsertByDateBounds(x, s[1..], DateKey(s[0]));
    }
  }

  /** Insertion is stable: `x` joins its tie group in front, the other groups are untouched. */
  lemma {:induction false} InsertByDateStable(x: Ausgabe, s: seq<Ausgabe>, d: string)
    ensures WithDate(InsertByDate(x, s), d) == (if DateKey(x) == d then [x] else []) + WithDate(s, d)
  {
    if s != [] && Less(DateKey(x), DateKey(s[0])) {
      var r' := InsertByDate(x, s[1..]);
      InsertByDateStable(x, s[1..], d);
      Irreflexive(DateKey(x));
      assert ([s[0]] + r')[1..] == r';
      assert WithDate(s, d) == (if DateKey(s[0]) == d then [s[0]] else []) + WithDate(s[1..], d);
    } else {
      assert ([x] + s)[1..] == s;
    }
  }

  lemma {:induction false} SortByDatePermutes(s: seq<Ausgabe>)
    ensures multiset(SortByDate(s)) == multiset(s)
  {
    if s != [] {
      SortByDatePermutes(s[1..]);
      InsertByDatePermutes(s[0], SortByDate(s[1..]));
      assert s == [s[0]] + s[1..];
    }
  }

  lemma {:induction false} SortByDateOrders(s: seq<Ausgabe>)
    ensures NewestFirst(SortByDate(s))
  {
    if s != [] {
      SortByDateOrders(s[1..]);
      InsertByDateOrders(s[0], SortByDate(s[1..]));
    }
  }

  /** The sort is stable: expenses with the same date keep their relative order. */
  lemma {:induction false} SortByDateStable(s: seq<Ausgabe>, d: string)
    ensures WithDate(SortByDate(s), d) == WithDate(s, d)
  {
    if s != [] {
      SortByDateStable(s[1..], d);
      InsertByDateStable(s[0], SortByDate(s[1..]), d);
    }
  }

  /** `[...ausgaben].sort(...).slice(0, 10)`. */
  function Recent(xs: seq<Ausgabe>): seq<Ausgabe> {
    var sorted := SortByDate(xs);
    if |sorted| <= RecentShown then sorted else sorted[..RecentShown]
  }

  /**
   * The table shows min(10, n) expenses, all taken from the input, newest
   * first, with the undated ones last.
   */
  lemma RecentShape(xs: seq<Ausgabe>)
    ensures |Recent(xs)| == if |xs| <= RecentShown then |xs| else RecentShown
    ensures multiset(Recent(xs)) <= multiset(xs)
    ensures NewestFirst(Recent(xs))
    ensures forall i, j :: 0 <= i < j < |Recent(xs)| && Recent(xs)[i].fields.datum.None? ==>
      DateKey(Recent(xs)[j]) == ""
  {
    var sorted := SortByDate(xs);
    SortByDatePermutes(xs);
    SortByDateOrders(xs);
    assert |sorted| == |multiset(sorted)| == |xs|;
    if |sorted| > RecentShown {
      assert sorted == Recent(xs) + sorted[RecentShown..];
    }
    UndatedLast(Recent(xs));
  }

  /** In a newest-first list, everything after an undated expense is undated too. */
  lemma UndatedLast(s: seq<Ausgabe>)
    requires NewestFirst(s)
    ensures forall i, j :: 0 <= i < j < |s| && s[i].fields.datum.None? ==> DateKey(s[j]) == ""
  {
    forall i, j | 0 <= i < j < |s| && s[i].fields.datum.None?
      ensures DateKey(s[j]) == ""
    {
      assert LessEq(DateKey(s[j]), "");
    }
  }

  /** The table shows the newest expenses: none left out is newer than the last one shown. */
  lemma RecentAreNewest(xs: seq<Ausgabe>, x: Ausgabe)
    requires x in multiset(xs) - multiset(Recent(xs))
    ensures |Recent(xs)| == RecentShown
    ensures LessEq(DateKey(x), DateKey(Recent(xs)[RecentShown - 1]))
  {
    var sorted := SortByDate(xs);
    SortByDatePermutes(xs);
    SortByDateOrders(xs);
    assert |sorted| <= RecentShown ==> multiset(Recent(xs)) == multiset(xs);
    var rest := sorted[RecentShown..];
    assert sorted == Recent(xs) + rest;
    assert multiset(sorted) == multiset(Recent(xs)) + multiset(rest);
    assert x in multiset(rest);
    var k :| 0 <= k < |rest| && rest[k] == x;
    assert sorted[RecentShown + k] == x && Recent(xs)[RecentShown - 1] == sorted[RecentShown - 1];
  }

  /** Expenses with the same date are shown in their input order. */
  lemma RecentKeepsTies(xs: seq<Ausgabe>, d: string)
    ensures WithDate(SortByDate(xs), d) == WithDate(xs, d)
    ensures Recent(xs) <= SortByDate(xs)
  {
    SortByDateStable(xs, d);
  }
}
