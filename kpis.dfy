/**
 * The dashboard's key figures (`kpis`): the overall total, the number of
 * expenses, their average and the total of the current month.
 */
module Kpis {
  import opened Records

  /** `a.fields.betrag || 0`: an absent amount counts as 0. */
  function Amount(a: Ausgabe): int {
    a.fields.betrag.GetOr(0)
  }

  /** `reduce((sum, a) => sum + amount, 0)`: the left fold of the amounts. */
  function Total(xs: seq<Ausgabe>): int {
    if xs == [] then 0 else Total(xs[..|xs| - 1]) + Amount(xs[|xs| - 1])
  }

  predicate NonNegativeAmounts(xs: seq<Ausgabe>) {
    forall i :: 0 <= i < |xs| ==> Amount(xs[i]) >= 0
  }

  /** The total is additive: splitting the list in two splits the total in two. */
  lemma {:induction false} TotalAppend(xs: seq<Ausgabe>, ys: seq<Ausgabe>)
    ensures Total(xs + ys) == Total(xs) + Total(ys)
    decreases |ys|
  {
    if ys == [] {
      assert xs + ys == xs;
    } else {
      var n := |ys| - 1;
      assert (xs + ys)[..|xs + ys| - 1] == xs + ys[..n];
      assert (xs + ys)[|xs + ys| - 1] == ys[n];
      TotalAppend(xs, ys[..n]);
    }
  }

  lemma {:induction false} TotalNonNegative(xs: seq<Ausgabe>)
    requires NonNegativeAmounts(xs)
    ensures Total(xs) >= 0
  {
    if xs != [] {
      TotalNonNegative(xs[..|xs| - 1]);
    }
  }

  /** `a.fields.datum?.startsWith(currentMonth)`. */
  predicate InMonth(a: Ausgabe, currentMonth: string) {
    a.fields.datum.Some? && currentMonth <= a.fields.datum.value
  }

  /** `ausgaben.filter(...)`: the expenses of the current month, in their order. */
  function ThisMonth(xs: seq<Ausgabe>, currentMonth: string): (r: seq<Ausgabe>)
    ensures forall a :: a in r <==> a in xs && InMonth(a, currentMonth)
  {
    if xs == [] then []
    else
      var last := xs[|xs| - 1];
      ThisMonth(xs[..|xs| - 1], currentMonth) + if InMonth(last, currentMonth) then [last] else []
  }

  /** The filter keeps every current-month expense as often as it occurs, and nothing else. */
  lemma {:induction false} ThisMonthCounts(xs: seq<Ausgabe>, currentMonth: string, a: Ausgabe)
    ensures multiset(ThisMonth(xs, currentMonth))[a] == if InMonth(a, currentMonth) then multiset(xs)[a] else 0
  {
    if xs != [] {
      var n := |xs| - 1;
      ThisMonthCounts(xs[..n], currentMonth, a);
      assert xs == xs[..n] + [xs[n]];
    }
  }

  function ThisMonthTotal(xs: seq<Ausgabe>, currentMonth: string): int {
    Total(ThisMonth(xs, currentMonth))
  }

  /** With non-negative amounts the current month never exceeds the overall total. */
  lemma {:induction false} ThisMonthAtMostTotal(xs: seq<Ausgabe>, currentMonth: string)
    requires NonNegativeAmounts(xs)
    ensures 0 <= ThisMonthTotal(xs, currentMonth) <= Total(xs)
  {
    if xs != [] {
      var n := |xs| - 1;
      var last := xs[n];
      var rest := ThisMonth(xs[..n], currentMonth);
      ThisMonthAtMostTotal(xs[..n], currentMonth);
      TotalAppend(rest, if InMonth(last, currentMonth) then [last] else []);
      assert Total([last]) == Amount(last) by {
        assert [last][..0] == [];
      }
    }
  }

  /** `count > 0 ? total / count : 0`. */
  function Average(total: int, count: nat): (avg: real)
    ensures count == 0 ==> avg == 0.0
    ensures count > 0 ==> avg * count as real == total as real
  {
    if count > 0 then total as real / count as real else 0.0
  }

  datatype KeyFigures = KeyFigures(total: int, thisMonthTotal: int, average: real, count: nat)

  /** The key figures of `xs`; `currentMonth` is the "yyyy-MM" of today. */
  function ComputeKpis(xs: seq<Ausgabe>, currentMonth: string): (k: KeyFigures)
    ensures k.total == Total(xs) && k.thisMonthTotal == ThisMonthTotal(xs, currentMonth)
    ensures k.count == |xs|
    ensures k.average == Average(k.total, k.count)
    ensures NonNegativeAmounts(xs) ==> 0 <= k.thisMonthTotal <= k.total
  {
    var total := Total(xs);
    var count := |xs|;
    var k := KeyFigures(total, ThisMonthTotal(xs, currentMonth), Average(total, count), count);
    if NonNegativeAmounts(xs) then ThisMonthAtMostTotal(xs, currentMonth); k else k
  }

  /** Two expenses of 10 and 20 average to 15. */
  lemma AverageExample(a: Ausgabe, b: Ausgabe)
    requires a.fields.betrag == Some(1000) && b.fields.betrag == Some(2000)
    ensures ComputeKpis([a, b], "2024-03").average == 1500.0
  {
    assert Amount(a) == 1000 && Amount(b) == 2000;
    assert [a][..0] == [];
    assert Total([a]) == 1000;
    assert [a, b][..1] == [a];
    assert Total([a, b]) == 3000;
  }
}
