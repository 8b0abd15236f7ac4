/**
 * The derived values of the dashboard page, computed together from one
 * snapshot of the expense and category records, as the page's memoised
 * computations do.
 */
module Dashboard {
  import opened Records
  import opened OrderedMap
  import opened CategoryLookup
  import opened Kpis
  import opened MonthlyTrend
  import opened CategoryBreakdown
  import opened RecentExpenses

  datatype DashboardData = DashboardData(
    categoryMap: Entries<string>,
    kpis: KeyFigures,
    monthly: seq<MonthPoint>,
    categories: seq<CategoryTotal>,
    pie: seq<PieSlice>,
    recent: seq<Ausgabe>)

  /**
   * Derives every figure of the page. The breakdown and the pie add up to
   * the overall total, the trend has at most six points and the table at
   * most ten rows.
   */
  method Derive(ausgaben: seq<Ausgabe>, kategorien: seq<Kategorie>, currentMonth: string)
    returns (d: DashboardData)
    ensures d.categoryMap == CategoryMapOf(kategorien)
    ensures d.kpis == ComputeKpis(ausgaben, currentMonth)
    ensures d.monthly == MonthlySeries(ausgaben)
    ensures d.categories == Breakdown(ausgaben, d.categoryMap)
    ensures d.pie == PieData(d.categories)
    ensures d.recent == Recent(ausgaben)
    ensures SumTotals(d.categories) == d.kpis.total
    ensures SumValuesOfPie(d.pie) == d.kpis.total
    ensures |d.monthly| <= MonthsShown
    ensures |d.recent| == if |ausgaben| <= RecentShown then |ausgaben| else RecentShown
  {
    var categoryMap := BuildCategoryMap(kategorien);
    var kpis := ComputeKpis(ausgaben, currentMonth);
    var monthly := MonthlyData(ausgaben);
    var categories := CategoryData(ausgaben, categoryMap);
    var pie := PieData(categories);
    var recent := Recent(ausgaben);
    BreakdownSum(ausgaben, categoryMap);
    PieOfBreakdown(ausgaben, categoryMap);
    MonthlyOrdered(ausgaben);
    RecentShape(ausgaben);
    d := DashboardData(categoryMap, kpis, monthly, categories, pie, recent);
  }
}
