/**
 * The page hands the route's records to the stats cards, the holdings table
 * and the sector summaries. Every record keeps a registry holding's positive
 * purchase price and quantity, so none of the components' unguarded
 * divisions meets a zero denominator on those records.
 */
module Dashboard {
  import opened MockData
  import opened DataFetcher
  import opened SectorAllocation
  import opened PortfolioTable

  /** Every holding has a positive purchase price and a positive quantity. */
  predicate PositiveHoldings(data: seq<StockData>) {
    forall i :: 0 <= i < |data| ==> data[i].purchasePrice > 0.0 && data[i].quantity > 0
  }

  /** Records that keep the registry's holdings, one per holding, as the route returns them, are positive. */
  lemma RouteRecordsArePositive(data: seq<StockData>)
    requires |data| == |Registry|
    requires forall i :: 0 <= i < |data| ==> StockOf(data[i]) == Registry[i]
    ensures data != [] && PositiveHoldings(data)
  {
    RegistryIsWellFormed();
    forall i | 0 <= i < |data|
      ensures data[i].purchasePrice > 0.0 && data[i].quantity > 0
    {
      assert StockOf(data[i]).purchasePrice == Registry[i].purchasePrice;
      assert StockOf(data[i]).quantity == Registry[i].quantity;
    }
  }

  /** A positive holding has a positive investment, and so a list of them a positive total. */
  lemma {:induction false} PositiveInvestment(data: seq<StockData>)
    requires PositiveHoldings(data)
    ensures forall i :: 0 <= i < |data| ==> Measure(Investment, data[i]) > 0.0
    ensures data != [] ==> Total(data, Investment) > 0.0
    ensures Total(data, Investment) >= 0.0
    decreases |data|
  {
    forall i | 0 <= i < |data|
      ensures Measure(Investment, data[i]) > 0.0
    {
      ProductPositive(data[i].purchasePrice, data[i].quantity as real);
    }
    if data != [] {
      PositiveInvestment(data[..|data| - 1]);
    }
  }

  /** A sector's holdings are holdings of the list. */
  lemma {:induction false} InSectorKeepsPositive(data: seq<StockData>, sector: string)
    requires PositiveHoldings(data)
    ensures PositiveHoldings(InSector(data, sector))
    decreases |data|
  {
    if data != [] {
      InSectorKeepsPositive(data[..|data| - 1], sector);
    }
  }

  /** A listed sector has at least one holding. */
  lemma {:induction false} ListedSectorIsInhabited(data: seq<StockData>, sector: string)
    requires sector in SectorOrder(data)
    ensures InSector(data, sector) != []
    decreases |data|
  {
    var p := data[..|data| - 1];
    var d := data[|data| - 1];
    assert data == p + [d];
    SectorOrderStep(p, d);
    InSectorStep(p, d, sector);
    if d.sector != sector {
      ListedSectorIsInhabited(p, sector);
    }
  }

  /**
   * On positive holdings every unguarded division has a non-zero
   * denominator: each table row and the table total, the headline total,
   * and every sector's investment.
   */
  lemma PositiveHoldingsAreDivisible(data: seq<StockData>)
    requires PositiveHoldings(data)
    ensures Divisible(data)
    ensures data != [] ==> Total(data, Investment) != 0.0
    ensures forall s :: s in SectorOrder(data) ==> Total(InSector(data, s), Investment) != 0.0
  {
    PositiveInvestment(data);
    forall s | s in SectorOrder(data)
      ensures Total(InSector(data, s), Investment) != 0.0
    {
      ListedSectorIsInhabited(data, s);
      InSectorKeepsPositive(data, s);
      PositiveInvestment(InSector(data, s));
    }
  }

  /**
   * The route's records can be shown: the headline, the table and the
   * sector summaries are all defined on them, with no NaN or Infinity.
   */
  lemma RouteRecordsAreDivisible(data: seq<StockData>)
    requires |data| == |Registry|
    requires forall i :: 0 <= i < |data| ==> StockOf(data[i]) == Registry[i]
    ensures Divisible(data)
    ensures Total(data, Investment) > 0.0
    ensures forall s :: s in SectorOrder(data) ==> Total(InSector(data, s), Investment) != 0.0
  {
    RouteRecordsArePositive(data);
    PositiveHoldingsAreDivisible(data);
    PositiveInvestment(data);
  }
}
