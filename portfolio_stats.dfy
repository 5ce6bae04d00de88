/**
 * The four headline cards: invested total, present value, gain/loss and
 * total return. The return divides by the invested total without a guard.
 */
module PortfolioStatsCards {
  import opened MockData
  import opened DataFetcher
  import opened Rounding

  datatype Icon = DollarSign | Wallet | TrendingUp | TrendingDown

  /**
   * A card's value as the number it displays: a signed currency amount in
   * whole rupees (`maximumFractionDigits: 0`), or a percentage in
   * hundredths (`toFixed(2)`).
   */
  datatype CardValue = Amount(sign: string, amount: int) | Percentage(value: real)

  datatype StatCard = StatCard(title: string, value: CardValue, icon: Icon, color: string, textColor: string)

  datatype Headline = Headline(
    totalInvestment: real,
    totalPresentValue: real,
    totalGainLoss: real,
    gainLossPercent: real,
    isGain: bool,
    cards: seq<StatCard>)

  const Labels: seq<string> := ["Total Investment", "Present Portfolio Value", "Gain/Loss", "Total Return %"]

  function Abs(x: real): (r: real)
    ensures r >= 0.0 && (r == x || r == -x)
  {
    if x < 0.0 then -x else x
  }

  /** The `stats` array (lines 20-49) for the four headline figures. */
  function Cards(totalInvestment: real, totalPresentValue: real, totalGainLoss: real, gainLossPercent: real)
    : (cards: seq<StatCard>)
    ensures |cards| == 4
    ensures forall i :: 0 <= i < 4 ==> cards[i].title == Labels[i]
    ensures cards[0].value == Amount("", Round0(totalInvestment))
    ensures cards[1].value == Amount("", Round0(totalPresentValue))
    ensures cards[2].value.Amount?
    ensures cards[2].value.amount >= 0
    ensures -0.5 <= cards[2].value.amount as real - Abs(totalGainLoss) <= 0.5
    ensures cards[2].value.sign == "+" <==> totalGainLoss >= 0.0
    ensures cards[2].value.sign == "+" || cards[2].value.sign == ""
    ensures cards[3].value == Percentage(Round2(gainLossPercent))
    ensures cards[2].color == cards[3].color == (if totalGainLoss >= 0.0 then BgGreen else BgRed)
    ensures cards[2].textColor == cards[3].textColor == (if totalGainLoss >= 0.0 then TextGreen else TextRed)
  {
    var isGain := totalGainLoss >= 0.0;
    var color := if isGain then BgGreen else BgRed;
    var textColor := if isGain then TextGreen else TextRed;
    [
      StatCard(Labels[0], Amount("", Round0(totalInvestment)), DollarSign, "bg-blue-50", "text-blue-600"),
      StatCard(Labels[1], Amount("", Round0(totalPresentValue)), Wallet, "bg-primary/10", "text-primary"),
      StatCard(Labels[2], Amount(if isGain then "+" else "", Round0(Abs(totalGainLoss))),
               if isGain then TrendingUp else TrendingDown, color, textColor),
      StatCard(Labels[3], Percentage(Round2(gainLossPercent)), TrendingUp, color, textColor)
    ]
  }

  /** `PortfolioStats` (lines 13-49). */
  function PortfolioStats(data: seq<StockData>): (h: Headline)
    requires Total(data, Investment) != 0.0
    ensures h.totalInvestment == Total(data, Investment)
    ensures h.totalPresentValue == Total(data, PresentValue)
    ensures h.totalGainLoss == h.totalPresentValue - h.totalInvestment
    ensures h.gainLossPercent == Percent(h.totalGainLoss, h.totalInvestment)
    ensures h.isGain <==> h.totalPresentValue >= h.totalInvestment
    ensures h.cards == Cards(h.totalInvestment, h.totalPresentValue, h.totalGainLoss, h.gainLossPercent)
    ensures h.cards[2].value.sign == "+" <==> h.isGain
    ensures h.cards[2].color == h.cards[3].color == (if h.isGain then BgGreen else BgRed)
    ensures h.cards[2].textColor == h.cards[3].textColor == (if h.isGain then TextGreen else TextRed)
  {
    var totalInvestment := Total(data, Investment);
    var totalPresentValue := Total(data, PresentValue);
    var totalGainLoss := totalPresentValue - totalInvestment;
    var gainLossPercent := Percent(totalGainLoss, totalInvestment);
    var isGain := totalGainLoss >= 0.0;
    Headline(totalInvestment, totalPresentValue, totalGainLoss, gainLossPercent, isGain,
             Cards(totalInvestment, totalPresentValue, totalGainLoss, gainLossPercent))
  }

  /**
   * With a positive invested total the headline figures equal those of
   * `calculatePortfolioStats`; they part ways only where that function's
   * zero guard applies.
   */
  lemma HeadlineAgreesWithCalculatedStats(data: seq<StockData>)
    requires Total(data, Investment) > 0.0
    ensures var h := PortfolioStats(data);
            var s := CalculatePortfolioStats(data);
            && h.totalInvestment == s.totalInvestment
            && h.totalPresentValue == s.totalPresentValue
            && h.totalGainLoss == s.totalGainLoss
            && h.gainLossPercent == s.gainLossPercent
  {
  }

  /**
   * The gain/loss card is green at exactly zero, where `getGainLossBgColor`
   * would choose gray; elsewhere the two agree.
   */
  lemma GainCardColourAgainstClassifier(data: seq<StockData>)
    requires Total(data, Investment) != 0.0
    ensures var h := PortfolioStats(data);
            && (h.totalGainLoss != 0.0 ==> h.cards[2].color == GainLossBgColor(h.totalGainLoss))
            && (h.totalGainLoss == 0.0 ==> h.cards[2].color == BgGreen && GainLossBgColor(h.totalGainLoss) == BgGray)
  {
  }
}
