/**
 * The sales table the report reads and its five analyses, in the order the
 * report runs them. A chart is modelled by what it is drawn from (its title and
 * the data handed to seaborn), not by its pixels.
 */
module Analyses {
  import opened Aggregation

  const SalesColumn := "SALES"
  const StatusColumn := "STATUS"
  const QuarterColumn := "QTR_ID"
  const ProductLineColumn := "PRODUCTLINE"
  const CustomerColumn := "CUSTOMERNAME"

  /** One row of the dataset, reduced to the five columns the report reads. */
  datatype SalesRow = SalesRow(sales: int, status: string, quarter: int, productLine: string, customer: string)

  /** The loaded dataset: the column names it actually has, and its rows. */
  datatype SalesFrame = SalesFrame(columns: set<string>, rows: seq<SalesRow>)

  /** The data one chart is drawn from. */
  datatype Plot =
    | Histogram(values: seq<int>, bins: nat, kde: bool)
    | BoxPlot(points: seq<(string, int)>)
    | QuarterBars(quarterTotals: map<int, int>)
    | ProductLineBars(lineTotals: map<string, int>, labelRotation: int)
    | CustomerBars(ranking: seq<(string, int)>)

  datatype Chart = Chart(title: string, plot: Plot)

  /** One entry of the report: the narrative title and body, and the chart. */
  datatype Analysis = Analysis(title: string, body: string, chart: Chart)

  const DistributionTitle := "Sales Distribution"
  const StatusTitle := "Sales by Order Status"
  const QuarterTitle := "Sales by Quarter"
  const ProductLineTitle := "Sales by Product Line"
  const CustomerTitle := "Top 10 Customers by Sales"

  const DistributionBody := "The sales distribution chart shows the spread of sales amounts. The histogram reveals the frequency of sales within certain ranges, while the KDE line provides a smoother representation of the distribution."
  const StatusBody := "This boxplot shows the sales amounts categorized by order status. It highlights the distribution of sales for each status, including the median, quartiles, and potential outliers."
  const QuarterBody := "This bar chart depicts the total sales for each quarter. It helps in understanding the seasonal sales patterns and identifying the quarters with the highest sales."
  const ProductLineBody := "This bar chart shows the total sales for each product line. It provides insights into which product lines contribute the most to the overall sales."
  const CustomerBody := "This bar chart identifies the top 10 customers by their total sales. It helps in recognizing key customers and understanding their importance to the business."

  /** The titles of the five analyses, in the order the report runs them. */
  const Titles := [DistributionTitle, StatusTitle, QuarterTitle, ProductLineTitle, CustomerTitle]

  // Column projections handed to the plotting calls.

  function Sales(rows: seq<SalesRow>): seq<int>
  {
    seq(|rows|, i requires 0 <= i < |rows| => rows[i].sales)
  }

  function ByStatus(rows: seq<SalesRow>): seq<(string, int)>
  {
    seq(|rows|, i requires 0 <= i < |rows| => (rows[i].status, rows[i].sales))
  }

  function ByQuarter(rows: seq<SalesRow>): seq<(int, int)>
  {
    seq(|rows|, i requires 0 <= i < |rows| => (rows[i].quarter, rows[i].sales))
  }

  function ByProductLine(rows: seq<SalesRow>): seq<(string, int)>
  {
    seq(|rows|, i requires 0 <= i < |rows| => (rows[i].productLine, rows[i].sales))
  }

  function ByCustomer(rows: seq<SalesRow>): seq<(string, int)>
  {
    seq(|rows|, i requires 0 <= i < |rows| => (rows[i].customer, rows[i].sales))
  }

  // The five charts.

  /** Histogram of SALES with 30 bins and a KDE line. */
  function DistributionChart(rows: seq<SalesRow>): Chart
  {
    Chart(DistributionTitle, Histogram(Sales(rows), 30, true))
  }

  /** Box plot of SALES per STATUS. */
  function StatusChart(rows: seq<SalesRow>): Chart
  {
    Chart(StatusTitle, BoxPlot(ByStatus(rows)))
  }

  /** Bars of summed SALES per QTR_ID. */
  function QuarterChart(rows: seq<SalesRow>): Chart
  {
    Chart(QuarterTitle, QuarterBars(GroupTotals(ByQuarter(rows))))
  }

  /** Bars of summed SALES per PRODUCTLINE, tick labels rotated by 45 degrees. */
  function ProductLineChart(rows: seq<SalesRow>): Chart
  {
    Chart(ProductLineTitle, ProductLineBars(GroupTotals(ByProductLine(rows)), 45))
  }

  /** Bars of the ten customers with the largest summed SALES. */
  function CustomerChart(rows: seq<SalesRow>): Chart
  {
    Chart(CustomerTitle, CustomerBars(TopCustomers(ByCustomer(rows))))
  }

  // The five analyses: title, narrative body and chart.

  function DistributionAnalysis(rows: seq<SalesRow>): Analysis
  {
    Analysis(DistributionTitle, DistributionBody, DistributionChart(rows))
  }

  function StatusAnalysis(rows: seq<SalesRow>): Analysis
  {
    Analysis(StatusTitle, StatusBody, StatusChart(rows))
  }

  function QuarterAnalysis(rows: seq<SalesRow>): Analysis
  {
    Analysis(QuarterTitle, QuarterBody, QuarterChart(rows))
  }

  function ProductLineAnalysis(rows: seq<SalesRow>): Analysis
  {
    Analysis(ProductLineTitle, ProductLineBody, ProductLineChart(rows))
  }

  function CustomerAnalysis(rows: seq<SalesRow>): Analysis
  {
    Analysis(CustomerTitle, CustomerBody, CustomerChart(rows))
  }

  /** The five analyses over `rows`, in the order the report runs them. */
  function AnalysisList(rows: seq<SalesRow>): seq<Analysis>
  {
    [DistributionAnalysis(rows), StatusAnalysis(rows), QuarterAnalysis(rows), ProductLineAnalysis(rows), CustomerAnalysis(rows)]
  }

  /** The columns analysis `i` reads; a missing one raises before its chart is saved. */
  function RequiredColumns(i: nat): set<string>
    requires i < 5
  {
    if i == 0 then {SalesColumn}
    else if i == 1 then {StatusColumn, SalesColumn}
    else if i == 2 then {QuarterColumn, SalesColumn}
    else if i == 3 then {ProductLineColumn, SalesColumn}
    else {CustomerColumn, SalesColumn}
  }

  /**
   * How many analyses run to completion: the position of the first analysis
   * whose columns are not all present, or 5 when none is missing any.
   */
  function Completed(df: SalesFrame): (n: nat)
    ensures n <= 5
    ensures forall i :: 0 <= i < n ==> RequiredColumns(i) <= df.columns
    ensures n < 5 ==> !(RequiredColumns(n) <= df.columns)
  {
    if SalesColumn !in df.columns then 0
    else if StatusColumn !in df.columns then 1
    else if QuarterColumn !in df.columns then 2
    else if ProductLineColumn !in df.columns then 3
    else if CustomerColumn !in df.columns then 4
    else 5
  }

  /** The column whose absence stops the report. */
  function MissingColumn(df: SalesFrame): (c: string)
    requires Completed(df) < 5
    ensures c in RequiredColumns(Completed(df)) && c !in df.columns
  {
    [SalesColumn, StatusColumn, QuarterColumn, ProductLineColumn, CustomerColumn][Completed(df)]
  }

  /** Exactly five analyses, titled in the fixed order, each chart carrying its analysis's title. */
  lemma AnalysisOrder(rows: seq<SalesRow>)
    ensures |AnalysisList(rows)| == 5
    ensures forall i :: 0 <= i < 5 ==> AnalysisList(rows)[i].title == Titles[i] && AnalysisList(rows)[i].chart.title == Titles[i]
  {
  }

  /** The quarter chart has one bar per quarter present, of height the sum of SALES in that quarter. */
  lemma QuarterChartSums(rows: seq<SalesRow>)
    ensures QuarterChart(rows).plot.quarterTotals.Keys == set r | r in rows :: r.quarter
    ensures forall q :: q in QuarterChart(rows).plot.quarterTotals ==> QuarterChart(rows).plot.quarterTotals[q] == SumFor(ByQuarter(rows), q)
  {
    var pairs := ByQuarter(rows);
    assert KeysOf(pairs) == set r | r in rows :: r.quarter by {
      forall q | q in KeysOf(pairs) ensures q in set r | r in rows :: r.quarter {
        var p :| p in pairs && p.0 == q;
        var i :| 0 <= i < |pairs| && pairs[i] == p;
        assert rows[i] in rows;
      }
      forall q | q in set r | r in rows :: r.quarter ensures q in KeysOf(pairs) {
        var r :| r in rows && r.quarter == q;
        var i :| 0 <= i < |rows| && rows[i] == r;
        assert pairs[i] in pairs;
      }
    }
  }

  /** The product-line chart has one bar per product line present, of height that line's summed SALES. */
  lemma ProductLineChartSums(rows: seq<SalesRow>)
    ensures ProductLineChart(rows).plot.lineTotals.Keys == set r | r in rows :: r.productLine
    ensures forall p :: p in ProductLineChart(rows).plot.lineTotals ==> ProductLineChart(rows).plot.lineTotals[p] == SumFor(ByProductLine(rows), p)
  {
    var pairs := ByProductLine(rows);
    assert KeysOf(pairs) == set r | r in rows :: r.productLine by {
      forall k | k in KeysOf(pairs) ensures k in set r | r in rows :: r.productLine {
        var p :| p in pairs && p.0 == k;
        var i :| 0 <= i < |pairs| && pairs[i] == p;
        assert rows[i] in rows;
      }
      forall k | k in set r | r in rows :: r.productLine ensures k in KeysOf(pairs) {
        var r :| r in rows && r.productLine == k;
        var i :| 0 <= i < |rows| && rows[i] == r;
        assert pairs[i] in pairs;
      }
    }
  }

  /** Customer `k` has a bar in the ranking. */
  predicate OnChart(ranking: seq<(string, int)>, k: string)
  {
    exists i :: 0 <= i < |ranking| && ranking[i].0 == k
  }

  /** The customer chart ranks at most ten customers by summed SALES, best first, and leaves out nobody better. */
  lemma CustomerChartRanking(rows: seq<SalesRow>)
    ensures |CustomerChart(rows).plot.ranking| == Min(10, |KeysOf(ByCustomer(rows))|)
    ensures forall i :: 0 <= i < |CustomerChart(rows).plot.ranking| ==>
      CustomerChart(rows).plot.ranking[i].1 == SumFor(ByCustomer(rows), CustomerChart(rows).plot.ranking[i].0)
    ensures Ranked(CustomerChart(rows).plot.ranking)
    ensures forall k, i :: k in KeysOf(ByCustomer(rows)) && !OnChart(CustomerChart(rows).plot.ranking, k)
                           && 0 <= i < |CustomerChart(rows).plot.ranking| ==>
      RankBefore(CustomerChart(rows).plot.ranking[i], (k, SumFor(ByCustomer(rows), k)))
  {
    var pairs := ByCustomer(rows);
    var ranking := CustomerChart(rows).plot.ranking;
    assert ranking == TopCustomers(pairs);
    TopCustomersLength(pairs);
    TopCustomersSums(pairs);
    TopCustomersOrdered(pairs);
    forall k | k in KeysOf(pairs) && !OnChart(ranking, k)
      ensures forall i :: 0 <= i < |ranking| ==> RankBefore(ranking[i], (k, SumFor(pairs, k)))
    {
      TopCustomersAreTop(pairs, k);
    }
  }
}
