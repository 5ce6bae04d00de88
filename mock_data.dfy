/**
 * The holding registry, the per-holding record types and the synthetic
 * quote generator used whenever no live quote is available.
 */
module MockData {
  import opened Rounding

  /** A holding as listed in the registry. */
  datatype Stock = Stock(
    id: string,
    symbol: string,
    yahooSymbol: string,
    name: string,
    purchasePrice: real,
    quantity: int,
    exchange: string,
    sector: string)

  /** A holding together with its quote fields (the `StockData` record). */
  datatype StockData = StockData(
    id: string,
    symbol: string,
    yahooSymbol: string,
    name: string,
    purchasePrice: real,
    quantity: int,
    exchange: string,
    sector: string,
    currentPrice: real,
    peRatio: real,
    latestEarnings: real)

  /** The holding part of a record. */
  function StockOf(d: StockData): Stock {
    Stock(d.id, d.symbol, d.yahooSymbol, d.name, d.purchasePrice, d.quantity, d.exchange, d.sector)
  }

  /** `{ ...stock, currentPrice, peRatio, latestEarnings }`. */
  function WithQuote(s: Stock, currentPrice: real, peRatio: real, latestEarnings: real): (d: StockData)
    ensures StockOf(d) == s
    ensures d.currentPrice == currentPrice && d.peRatio == peRatio && d.latestEarnings == latestEarnings
  {
    StockData(s.id, s.symbol, s.yahooSymbol, s.name, s.purchasePrice, s.quantity, s.exchange, s.sector,
              currentPrice, peRatio, latestEarnings)
  }

  /** The three `Math.random()` draws of one call of the generator, in call order. */
  datatype Draws = Draws(price: real, pe: real, earnings: real)

  predicate ValidDraws(r: Draws) {
    0.0 <= r.price < 1.0 && 0.0 <= r.pe < 1.0 && 0.0 <= r.earnings < 1.0
  }

  lemma ProductNonNegative(a: real, b: real)
    requires b >= 0.0
    ensures a >= 0.0 ==> a * b >= 0.0
  {
  }

  lemma ProductPositive(a: real, b: real)
    requires b > 0.0
    ensures a > 0.0 ==> a * b > 0.0
  {
  }

  /** Purchase price moved by a variation in [-10%, +10%), before rounding. */
  function SyntheticPrice(purchasePrice: real, r: real): (p: real)
    requires 0.0 <= r < 1.0
    ensures purchasePrice >= 0.0 ==> 0.9 * purchasePrice <= p <= 1.1 * purchasePrice
    ensures purchasePrice > 0.0 ==> p < 1.1 * purchasePrice
  {
    var priceVariation := (r - 0.5) * 0.2;
    assert -0.1 <= priceVariation < 0.1;
    var p := purchasePrice * (1.0 + priceVariation);
    assert p - 0.9 * purchasePrice == purchasePrice * (priceVariation + 0.1);
    assert 1.1 * purchasePrice - p == purchasePrice * (0.1 - priceVariation);
    ProductNonNegative(purchasePrice, priceVariation + 0.1);
    ProductNonNegative(purchasePrice, 0.1 - priceVariation);
    p
  }

  /** A P/E ratio drawn from [15, 25), before rounding. */
  function SyntheticPeRatio(r: real): (pe: real)
    requires 0.0 <= r < 1.0
    ensures 15.0 <= pe < 25.0
  {
    15.0 + r * 10.0
  }

  /** 5% of the investment scaled by a factor in [0.8, 1.2), before rounding. */
  function SyntheticEarnings(purchasePrice: real, quantity: int, r: real): (e: real)
    requires 0.0 <= r < 1.0
    ensures purchasePrice * quantity as real >= 0.0 ==>
      0.04 * (purchasePrice * quantity as real) <= e <= 0.06 * (purchasePrice * quantity as real)
    ensures purchasePrice * quantity as real > 0.0 ==> e < 0.06 * (purchasePrice * quantity as real)
  {
    var investment := purchasePrice * quantity as real;
    var factor := 0.8 + r * 0.4;
    var e := investment * 0.05 * factor;
    assert e - 0.04 * investment == investment * (0.05 * factor - 0.04);
    assert 0.06 * investment - e == investment * (0.06 - 0.05 * factor);
    ProductNonNegative(investment, 0.05 * factor - 0.04);
    ProductNonNegative(investment, 0.06 - 0.05 * factor);
    assert 0.06 - 0.05 * factor > 0.0;
    ProductPositive(investment, 0.06 - 0.05 * factor);
    e
  }

  /**
   * `getMockStockData`: the holding unchanged, with a synthetic price near the
   * purchase price, a P/E in [15, 25] and earnings near 5% of the investment,
   * each rounded to hundredths.
   */
  function MockStockData(s: Stock, r: Draws): (d: StockData)
    requires ValidDraws(r)
    ensures StockOf(d) == s
    ensures IsCents(d.currentPrice) && IsCents(d.peRatio) && IsCents(d.latestEarnings)
    ensures s.purchasePrice >= 0.0 ==>
      0.9 * s.purchasePrice - 0.005 <= d.currentPrice <= 1.1 * s.purchasePrice + 0.005
    ensures 15.0 <= d.peRatio <= 25.0
    ensures s.purchasePrice * s.quantity as real >= 0.0 ==>
      0.04 * (s.purchasePrice * s.quantity as real) - 0.005 <= d.latestEarnings
      <= 0.06 * (s.purchasePrice * s.quantity as real) + 0.005
  {
    var pe := SyntheticPeRatio(r.pe);
    Round2Monotone(15.0, pe);
    Round2Monotone(pe, 25.0);
    Round2OfCents(15.0);
    Round2OfCents(25.0);
    WithQuote(s,
      Round2(SyntheticPrice(s.purchasePrice, r.price)),
      Round2(pe),
      Round2(SyntheticEarnings(s.purchasePrice, s.quantity, r.earnings)))
  }

  /** The static registry `mockPortfolio`. */
  const Registry: seq<Stock> := [
    Stock("1", "RELIANCE", "RELIANCE.NS", "Reliance Industries", 2800.0, 5, "NSE", "Financials"),
    Stock("2", "TCS", "TCS.NS", "Tata Consultancy Services", 3500.0, 10, "NSE", "Technology"),
    Stock("3", "INFY", "INFY.NS", "Infosys", 1800.0, 8, "NSE", "Technology"),
    Stock("4", "HDFC", "HDFCBANK.NS", "HDFC Bank", 1600.0, 12, "NSE", "Financials"),
    Stock("5", "WIPRO", "WIPRO.NS", "Wipro", 450.0, 20, "NSE", "Technology"),
    Stock("6", "MARUTI", "MARUTI.NS", "Maruti Suzuki", 9500.0, 2, "NSE", "Automotive"),
    Stock("7", "ICICIBANK", "ICICIBANK.NS", "ICICI Bank", 1250.0, 15, "NSE", "Financials"),
    Stock("8", "ADANIPORTS", "ADANIPORTS.NS", "Adani Ports", 650.0, 30, "NSE", "Infrastructure")
  ]

  /** Distinct ids, positive prices and quantities. */
  predicate WellFormedRegistry(reg: seq<Stock>) {
    && (forall i :: 0 <= i < |reg| ==> reg[i].purchasePrice > 0.0 && reg[i].quantity > 0)
    && (forall i, j :: 0 <= i < j < |reg| ==> reg[i].id != reg[j].id)
  }

  /** The registry's ids are the one-digit strings "1" to "8", in order. */
  lemma RegistryIds()
    ensures |Registry| == 8
    ensures forall i :: 0 <= i < |Registry| ==> Registry[i].id == [('1' as int + i) as char]
  {
  }

  lemma RegistryIsWellFormed()
    ensures |Registry| == 8
    ensures WellFormedRegistry(Registry)
  {
    RegistryIds();
    forall i, j | 0 <= i < j < |Registry|
      ensures Registry[i].id != Registry[j].id
    {
      assert Registry[i].id[0] != Registry[j].id[0];
    }
  }
}
