/**
 * Portfolio-wide totals with the guarded percentage, and the sign-to-colour
 * classifiers.
 */
module DataFetcher {
  import opened MockData

  /** The per-holding figure a `reduce` sums. */
  datatype Metric = Investment | PresentValue | GainLoss

  function Measure(m: Metric, d: StockData): (r: real)
    ensures m == GainLoss ==> r == (d.currentPrice - d.purchasePrice) * d.quantity as real
    ensures m == Investment && d.purchasePrice >= 0.0 && d.quantity >= 0 ==> r >= 0.0
  {
    match m
    case Investment => d.purchasePrice * d.quantity as real
    case PresentValue => d.currentPrice * d.quantity as real
    case GainLoss => d.currentPrice * d.quantity as real - d.purchasePrice * d.quantity as real
  }

  /** `data.reduce((sum, s) => sum + Measure(m, s), 0)`: a left fold from 0. */
  function Total(data: seq<StockData>, m: Metric): (r: real)
    ensures data == [] ==> r == 0.0
    ensures |data| == 1 ==> r == Measure(m, data[0])
    decreases |data|
  {
    if data == [] then 0.0 else Total(data[..|data| - 1], m) + Measure(m, data[|data| - 1])
  }

  /** Summing a concatenation sums the parts. */
  lemma {:induction false} TotalAppend(a: seq<StockData>, b: seq<StockData>, m: Metric)
    ensures Total(a + b, m) == Total(a, m) + Total(b, m)
    decreases |b|
  {
    if b != [] {
      var b' := b[..|b| - 1];
      assert (a + b)[..|a + b| - 1] == a + b';
      TotalAppend(a, b', m);
    } else {
      assert a + b == a;
    }
  }

  /** The summed gain/loss is the difference of the summed values. */
  lemma {:induction false} TotalGainLossIsDifference(data: seq<StockData>)
    ensures Total(data, GainLoss) == Total(data, PresentValue) - Total(data, Investment)
    decreases |data|
  {
    if data != [] {
      TotalGainLossIsDifference(data[..|data| - 1]);
    }
  }

  /** With non-negative prices and quantities the invested total is non-negative. */
  lemma {:induction false} TotalInvestmentNonNegative(data: seq<StockData>)
    requires forall i :: 0 <= i < |data| ==> data[i].purchasePrice >= 0.0 && data[i].quantity >= 0
    ensures Total(data, Investment) >= 0.0
    decreases |data|
  {
    if data != [] {
      TotalInvestmentNonNegative(data[..|data| - 1]);
      var d := data[|data| - 1];
      ProductNonNegative(d.quantity as real, d.purchasePrice);
    }
  }

  datatype PortfolioStats = PortfolioStats(
    totalInvestment: real,
    totalPresentValue: real,
    totalGainLoss: real,
    gainLossPercent: real)

  /** `(part / whole) * 100`, the percentage every component computes. */
  function Percent(part: real, whole: real): (p: real)
    requires whole != 0.0
    ensures p * whole == part * 100.0
  {
    (part / whole) * 100.0
  }

  /** `calculatePortfolioStats`: the only division that guards a zero total. */
  function CalculatePortfolioStats(data: seq<StockData>): (s: PortfolioStats)
    ensures s.totalInvestment == Total(data, Investment)
    ensures s.totalPresentValue == Total(data, PresentValue)
    ensures s.totalGainLoss == s.totalPresentValue - s.totalInvestment
    ensures s.totalInvestment <= 0.0 ==> s.gainLossPercent == 0.0
    ensures s.totalInvestment > 0.0 ==> s.gainLossPercent * s.totalInvestment == s.totalGainLoss * 100.0
    ensures data == [] ==> s == PortfolioStats(0.0, 0.0, 0.0, 0.0)
  {
    var totalInvestment := Total(data, Investment);
    var totalPresentValue := Total(data, PresentValue);
    var totalGainLoss := totalPresentValue - totalInvestment;
    var gainLossPercent := if totalInvestment > 0.0 then Percent(totalGainLoss, totalInvestment) else 0.0;
    PortfolioStats(totalInvestment, totalPresentValue, totalGainLoss, gainLossPercent)
  }

  const TextGreen := "text-green-600"
  const TextRed := "text-red-600"
  const TextGray := "text-gray-600"
  const BgGreen := "bg-green-50"
  const BgRed := "bg-red-50"
  const BgGray := "bg-gray-50"

  /** Green for a gain, red for a loss, gray exactly at zero. */
  function GainLossColor(value: real): (c: string)
    ensures c == TextGreen <==> value > 0.0
    ensures c == TextRed <==> value < 0.0
    ensures c == TextGray <==> value == 0.0
  {
    if value > 0.0 then TextGreen
    else if value < 0.0 then TextRed
    else TextGray
  }

  /** The background classes, on the same three-way split. */
  function GainLossBgColor(value: real): (c: string)
    ensures c == BgGreen <==> value > 0.0
    ensures c == BgRed <==> value < 0.0
    ensures c == BgGray <==> value == 0.0
  {
    if value > 0.0 then BgGreen
    else if value < 0.0 then BgRed
    else BgGray
  }
}
