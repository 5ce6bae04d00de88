/**
 * The `GET /api/portfolio` handler: index the provider's batch of quotes by
 * symbol, then give every registry holding its live quote or a synthetic
 * record; if the batch call throws, every holding is synthetic.
 */
module PortfolioRoute {
  import opened Options
  import opened MockData

  /** The fields of a provider quote that the handler reads; each may be absent. */
  datatype Quote = Quote(
    symbol: Option<string>,
    regularMarketPrice: Option<real>,
    trailingPE: Option<real>,
    epsTrailingTwelveMonths: Option<real>)

  /** What the batch `quote` call did: threw, returned one value, or returned an array. */
  datatype QuoteOutcome = Threw | One(quote: Option<Quote>) | Many(quotes: seq<Option<Quote>>)

  /** `Array.isArray(quotes) ? quotes : [quotes]`. */
  function QuotesArray(o: QuoteOutcome): (qs: seq<Option<Quote>>)
    requires !o.Threw?
    ensures o.One? ==> qs == [o.quote]
    ensures o.Many? ==> qs == o.quotes
  {
    match o
    case One(q) => [q]
    case Many(qs) => qs
  }

  /** `q && q.symbol`: a present quote whose symbol is a non-empty string. */
  predicate Keyed(q: Option<Quote>) {
    q.Some? && q.value.symbol.Some? && q.value.symbol.value != ""
  }

  function KeyOf(q: Option<Quote>): string
    requires Keyed(q)
  {
    q.value.symbol.value
  }

  /** The map the loop builds: each keyed quote set under its symbol, in order. */
  function QuoteIndex(qs: seq<Option<Quote>>): (index: map<string, Quote>)
    ensures forall k :: k in index ==> index[k].symbol == Some(k)
    decreases |qs|
  {
    if qs == [] then map[]
    else
      var m := QuoteIndex(qs[..|qs| - 1]);
      var q := qs[|qs| - 1];
      if Keyed(q) then m[KeyOf(q) := q.value] else m
  }

  /** The index holds exactly the symbols of the keyed quotes. */
  lemma {:induction false} QuoteIndexKeys(qs: seq<Option<Quote>>, k: string)
    ensures k in QuoteIndex(qs) <==> exists i :: 0 <= i < |qs| && Keyed(qs[i]) && KeyOf(qs[i]) == k
    decreases |qs|
  {
    if qs != [] {
      var p := qs[..|qs| - 1];
      QuoteIndexKeys(p, k);
      if k in QuoteIndex(p) {
        var i :| 0 <= i < |p| && Keyed(p[i]) && KeyOf(p[i]) == k;
        assert qs[i] == p[i];
      }
      if exists i :: 0 <= i < |qs| && Keyed(qs[i]) && KeyOf(qs[i]) == k {
        var i :| 0 <= i < |qs| && Keyed(qs[i]) && KeyOf(qs[i]) == k;
        if i < |p| {
          assert p[i] == qs[i];
        }
      }
    }
  }

  /** A later quote with the same symbol overwrites an earlier one: the indexed quote is the last one. */
  lemma {:induction false} QuoteIndexLastWins(qs: seq<Option<Quote>>, k: string)
    requires k in QuoteIndex(qs)
    ensures exists i :: 0 <= i < |qs| && Keyed(qs[i]) && KeyOf(qs[i]) == k && QuoteIndex(qs)[k] == qs[i].value
                        && forall j :: i < j < |qs| ==> !(Keyed(qs[j]) && KeyOf(qs[j]) == k)
    decreases |qs|
  {
    var p := qs[..|qs| - 1];
    var q := qs[|qs| - 1];
    if Keyed(q) && KeyOf(q) == k {
      assert QuoteIndex(qs)[k] == q.value;
    } else {
      assert k in QuoteIndex(p);
      QuoteIndexLastWins(p, k);
      var i :| 0 <= i < |p| && Keyed(p[i]) && KeyOf(p[i]) == k && QuoteIndex(p)[k] == p[i].value
               && forall j :: i < j < |p| ==> !(Keyed(p[j]) && KeyOf(p[j]) == k);
      assert qs[i] == p[i];
      assert forall j :: i < j < |qs| ==> !(Keyed(qs[j]) && KeyOf(qs[j]) == k) by {
        forall j | i < j < |qs|
          ensures !(Keyed(qs[j]) && KeyOf(qs[j]) == k)
        {
          if j < |p| {
            assert qs[j] == p[j];
          }
        }
      }
    }
  }

  /** The `for` loop that fills `quoteMap`. */
  method BuildQuoteMap(quotesArray: seq<Option<Quote>>) returns (quoteMap: map<string, Quote>)
    ensures quoteMap == QuoteIndex(quotesArray)
  {
    quoteMap := map[];
    var i := 0;
    while i < |quotesArray|
      invariant 0 <= i <= |quotesArray|
      invariant quoteMap == QuoteIndex(quotesArray[..i])
    {
      var q := quotesArray[i];
      assert quotesArray[..i + 1][..i] == quotesArray[..i];
      if q.Some? && q.value.symbol.Some? && q.value.symbol.value != "" {
        quoteMap := quoteMap[q.value.symbol.value := q.value];
      }
      i := i + 1;
    }
    assert quotesArray[..i] == quotesArray;
  }

  /** A holding's record from its live quote: missing fields become 0. */
  function FromQuote(s: Stock, q: Quote): (d: StockData)
    ensures StockOf(d) == s
    ensures d.currentPrice == OrZero(q.regularMarketPrice)
    ensures d.peRatio == OrZero(q.trailingPE)
    ensures d.latestEarnings == OrZero(q.epsTrailingTwelveMonths)
  {
    WithQuote(s, OrZero(q.regularMarketPrice), OrZero(q.trailingPE), OrZero(q.epsTrailingTwelveMonths))
  }

  /** One draw triple per holding, each in [0, 1). */
  predicate DrawsFor(holdings: seq<Stock>, draws: seq<Draws>) {
    |draws| == |holdings| && forall i :: 0 <= i < |draws| ==> ValidDraws(draws[i])
  }

  /** The quote found under the holding's provider symbol, or the synthetic record. */
  function Resolve(s: Stock, quoteMap: map<string, Quote>, r: Draws): (d: StockData)
    requires ValidDraws(r)
    ensures StockOf(d) == s
  {
    if s.yahooSymbol in quoteMap then FromQuote(s, quoteMap[s.yahooSymbol]) else MockStockData(s, r)
  }

  /** `mockPortfolio.map(...)` over the quote map. */
  function ResolveAll(holdings: seq<Stock>, quoteMap: map<string, Quote>, draws: seq<Draws>): (data: seq<StockData>)
    requires DrawsFor(holdings, draws)
    ensures |data| == |holdings|
    ensures forall i :: 0 <= i < |data| ==> StockOf(data[i]) == holdings[i]
  {
    seq(|holdings|, i requires 0 <= i < |holdings| => Resolve(holdings[i], quoteMap, draws[i]))
  }

  /** `mockPortfolio.map((stock) => getMockStockData(stock))`. */
  function MockAll(holdings: seq<Stock>, draws: seq<Draws>): (data: seq<StockData>)
    requires DrawsFor(holdings, draws)
    ensures |data| == |holdings|
    ensures forall i :: 0 <= i < |data| ==> data[i] == MockStockData(holdings[i], draws[i])
  {
    seq(|holdings|, i requires 0 <= i < |holdings| => MockStockData(holdings[i], draws[i]))
  }

  const YahooFinance := "yahoo-finance"
  const MockDataSource := "mock-data"

  /** The JSON body; `timestamp` is the clock reading passed in. */
  datatype Response = Response(success: bool, data: seq<StockData>, timestamp: string, source: string)

  /**
   * `GET`: one record per registry holding, in registry order; quoted
   * holdings carry the provider's fields, unquoted ones and every holding of
   * a failed batch carry synthetic fields. The call always succeeds.
   */
  method Get(outcome: QuoteOutcome, draws: seq<Draws>, now: string) returns (resp: Response)
    requires DrawsFor(Registry, draws)
    ensures resp.success && resp.timestamp == now
    ensures |resp.data| == |Registry|
    ensures forall i :: 0 <= i < |Registry| ==> StockOf(resp.data[i]) == Registry[i]
    ensures outcome.Threw? ==>
      && resp.source == MockDataSource
      && forall i :: 0 <= i < |Registry| ==> resp.data[i] == MockStockData(Registry[i], draws[i])
    ensures !outcome.Threw? ==>
      && resp.source == YahooFinance
      && forall i :: 0 <= i < |Registry| ==>
           var quoteMap := QuoteIndex(QuotesArray(outcome));
           resp.data[i] == if Registry[i].yahooSymbol in quoteMap
                           then FromQuote(Registry[i], quoteMap[Registry[i].yahooSymbol])
                           else MockStockData(Registry[i], draws[i])
  {
    if outcome.Threw? {
      return Response(true, MockAll(Registry, draws), now, MockDataSource);
    }
    var quotesArray := if outcome.Many? then outcome.quotes else [outcome.quote];
    var quoteMap := BuildQuoteMap(quotesArray);
    resp := Response(true, ResolveAll(Registry, quoteMap, draws), now, YahooFinance);
  }

  /** A holding whose provider symbol some keyed quote carries gets the last such quote's fields. */
  lemma {:induction false} QuotedHoldingTakesLastQuote(outcome: QuoteOutcome, draws: seq<Draws>, i: int)
    requires !outcome.Threw? && DrawsFor(Registry, draws) && 0 <= i < |Registry|
    requires exists j :: 0 <= j < |QuotesArray(outcome)| && Keyed(QuotesArray(outcome)[j])
                         && KeyOf(QuotesArray(outcome)[j]) == Registry[i].yahooSymbol
    ensures exists j :: 0 <= j < |QuotesArray(outcome)| && Keyed(QuotesArray(outcome)[j])
                        && KeyOf(QuotesArray(outcome)[j]) == Registry[i].yahooSymbol
                        && var q := QuotesArray(outcome)[j].value;
                           && ResolveAll(Registry, QuoteIndex(QuotesArray(outcome)), draws)[i] == FromQuote(Registry[i], q)
                           && forall k :: j < k < |QuotesArray(outcome)| ==> !(Keyed(QuotesArray(outcome)[k]) && KeyOf(QuotesArray(outcome)[k]) == Registry[i].yahooSymbol)
  {
    var qs := QuotesArray(outcome);
    var key := Registry[i].yahooSymbol;
    QuoteIndexKeys(qs, key);
    QuoteIndexLastWins(qs, key);
  }

  /** A holding whose provider symbol no keyed quote carries gets the synthetic record. */
  lemma {:induction false} UnquotedHoldingIsSynthetic(outcome: QuoteOutcome, draws: seq<Draws>, i: int)
    requires !outcome.Threw? && DrawsFor(Registry, draws) && 0 <= i < |Registry|
    requires forall j :: 0 <= j < |QuotesArray(outcome)| && Keyed(QuotesArray(outcome)[j])
                         ==> KeyOf(QuotesArray(outcome)[j]) != Registry[i].yahooSymbol
    ensures ResolveAll(Registry, QuoteIndex(QuotesArray(outcome)), draws)[i] == MockStockData(Registry[i], draws[i])
  {
    QuoteIndexKeys(QuotesArray(outcome), Registry[i].yahooSymbol);
  }
}
