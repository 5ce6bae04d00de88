/**
 * The holdings table: per-row investment, present value, gain/loss and
 * share of the portfolio. Both divisions are unguarded in the component,
 * so a row needs a non-zero investment and the table a non-zero total.
 */
module PortfolioTable {
  import opened MockData
  import opened DataFetcher

  datatype Row = Row(
    key: string,
    investment: real,
    presentValue: real,
    gainLoss: real,
    gainLossPercent: real,
    portfolioPercent: real,
    isGain: bool)

  /** Line 61: a holding's investment as a percentage of the whole-list investment. */
  function Share(stock: StockData, totalInvestment: real): (p: real)
    requires totalInvestment != 0.0
    ensures p * totalInvestment == Measure(Investment, stock) * 100.0
  {
    (Measure(Investment, stock) / totalInvestment) * 100.0
  }

  /** Lines 55-63 for one holding, given the whole-list invested total. */
  function TableRow(stock: StockData, totalInvestment: real): (r: Row)
    requires Measure(Investment, stock) != 0.0 && totalInvestment != 0.0
    ensures r.key == stock.id
    ensures r.investment == stock.purchasePrice * stock.quantity as real
    ensures r.presentValue == stock.currentPrice * stock.quantity as real
    ensures r.gainLoss == r.presentValue - r.investment
    ensures r.gainLossPercent * r.investment == r.gainLoss * 100.0
    ensures r.portfolioPercent == Share(stock, totalInvestment)
    ensures r.isGain <==> r.presentValue >= r.investment
  {
    var investment := stock.purchasePrice * stock.quantity as real;
    var presentValue := stock.currentPrice * stock.quantity as real;
    var gainLoss := presentValue - investment;
    var gainLossPercent := (gainLoss / investment) * 100.0;
    var portfolioPercent := (investment / totalInvestment) * 100.0;
    Row(stock.id, investment, presentValue, gainLoss, gainLossPercent, portfolioPercent, gainLoss >= 0.0)
  }

  /**
   * Every row's divisions have non-zero denominators. An empty list renders
   * no row and so divides by nothing.
   */
  predicate Divisible(data: seq<StockData>) {
    && (data != [] ==> Total(data, Investment) != 0.0)
    && forall i :: 0 <= i < |data| ==> Measure(Investment, data[i]) != 0.0
  }

  function RowsWith(data: seq<StockData>, totalInvestment: real): (rows: seq<Row>)
    requires data != [] ==> totalInvestment != 0.0
    requires forall i :: 0 <= i < |data| ==> Measure(Investment, data[i]) != 0.0
    ensures |rows| == |data|
    ensures forall i :: 0 <= i < |rows| ==> rows[i] == TableRow(data[i], totalInvestment)
  {
    seq(|data|, i requires 0 <= i < |data| => TableRow(data[i], totalInvestment))
  }

  /** The component's output: 5 placeholder rows while loading, else one row per holding. */
  datatype TableView = Placeholders(keys: seq<int>) | Rows(rows: seq<Row>)

  function PortfolioTableView(data: seq<StockData>, isLoading: bool): (v: TableView)
    requires !isLoading ==> Divisible(data)
    ensures v.Placeholders? <==> isLoading
    ensures v.Placeholders? ==> v.keys == [0, 1, 2, 3, 4]
    ensures v.Rows? ==>
      && |v.rows| == |data|
      && forall i :: 0 <= i < |data| ==> v.rows[i].key == data[i].id
    ensures v.Rows? ==> v.rows == RowsWith(data, Total(data, Investment))
    ensures !isLoading && data == [] ==> v == Rows([])
  {
    if isLoading then Placeholders(seq(5, i => i))
    else Rows(RowsWith(data, Total(data, Investment)))
  }

  /** Σ of the holdings' portfolio shares. */
  function ShareSum(data: seq<StockData>, totalInvestment: real): real
    requires totalInvestment != 0.0
    decreases |data|
  {
    if data == [] then 0.0 else ShareSum(data[..|data| - 1], totalInvestment) + Share(data[|data| - 1], totalInvestment)
  }

  /** The shares sum to the list's investment as a percentage of the given total. */
  lemma {:induction false} ShareSumIsRatio(data: seq<StockData>, totalInvestment: real)
    requires totalInvestment != 0.0
    ensures ShareSum(data, totalInvestment) * totalInvestment == Total(data, Investment) * 100.0
    decreases |data|
  {
    if data != [] {
      var p := data[..|data| - 1];
      ShareSumIsRatio(p, totalInvestment);
      DistributeOver(ShareSum(p, totalInvestment), Share(data[|data| - 1], totalInvestment), totalInvestment);
    }
  }

  /** The portfolio shares of all rows add up to 100. */
  lemma SharesSumTo100(data: seq<StockData>)
    requires Total(data, Investment) != 0.0
    ensures ShareSum(data, Total(data, Investment)) == 100.0
  {
    var t := Total(data, Investment);
    ShareSumIsRatio(data, t);
    CancelFactor(ShareSum(data, t), t, Total(data, Investment), 100.0);
  }

  lemma DistributeOver(a: real, b: real, t: real)
    ensures (a + b) * t == a * t + b * t
  {
  }

  /** x * t == t * y with t non-zero gives x == y (u is t, as another term of the same value). */
  lemma CancelFactor(x: real, t: real, u: real, y: real)
    requires t != 0.0 && u == t && x * t == u * y
    ensures x == y
  {
    assert (x - y) * t == 0.0;
    assert (x - y) * t / t == x - y;
  }
}
