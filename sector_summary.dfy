/**
 * The "Sector Allocation" figures: holdings grouped by sector in order of
 * first appearance, with per-sector sums and an unguarded percentage.
 */
module SectorAllocation {
  import opened MockData
  import opened DataFetcher

  datatype SectorSummary = SectorSummary(
    sector: string,
    totalInvestment: real,
    totalPresentValue: real,
    gainLoss: real,
    gainLossPercent: real)

  /** The distinct sectors of `data`, in order of first appearance (the Map's key order). */
  function SectorOrder(data: seq<StockData>): (order: seq<string>)
    ensures forall i, j :: 0 <= i < j < |order| ==> order[i] != order[j]
    decreases |data|
  {
    if data == [] then []
    else
      var order := SectorOrder(data[..|data| - 1]);
      if data[|data| - 1].sector in order then order else order + [data[|data| - 1].sector]
  }

  /** The holdings of one sector, in input order. */
  function InSector(data: seq<StockData>, sector: string): (r: seq<StockData>)
    ensures forall i :: 0 <= i < |r| ==> r[i].sector == sector
    decreases |data|
  {
    if data == [] then []
    else
      InSector(data[..|data| - 1], sector) + if data[|data| - 1].sector == sector then [data[|data| - 1]] else []
  }

  /** A sector is listed exactly when some holding belongs to it. */
  lemma {:induction false} SectorOrderMembers(data: seq<StockData>, sector: string)
    ensures sector in SectorOrder(data) <==> exists i :: 0 <= i < |data| && data[i].sector == sector
    decreases |data|
  {
    if data != [] {
      var p := data[..|data| - 1];
      SectorOrderMembers(p, sector);
      assert forall i :: 0 <= i < |p| ==> data[i] == p[i];
    }
  }

  /** An unlisted sector has no holdings. */
  lemma {:induction false} InSectorOfUnlisted(data: seq<StockData>, sector: string)
    requires sector !in SectorOrder(data)
    ensures InSector(data, sector) == []
    decreases |data|
  {
    if data != [] {
      var p := data[..|data| - 1];
      InSectorOfUnlisted(p, sector);
      assert SectorOrder(p) <= SectorOrder(data);
    }
  }

  /** What the `forEach` leaves in the Map for one sector (percent still 0). */
  function Accumulated(data: seq<StockData>, sector: string): (s: SectorSummary)
    ensures s.sector == sector && s.gainLossPercent == 0.0
    ensures s.gainLoss == s.totalPresentValue - s.totalInvestment
  {
    TotalGainLossIsDifference(InSector(data, sector));
    var holdings := InSector(data, sector);
    SectorSummary(sector, Total(holdings, Investment), Total(holdings, PresentValue), Total(holdings, GainLoss), 0.0)
  }

  lemma InSectorStep(data: seq<StockData>, d: StockData, sector: string)
    ensures InSector(data + [d], sector) == InSector(data, sector) + if d.sector == sector then [d] else []
  {
    assert (data + [d])[..|data|] == data;
  }

  lemma SectorOrderStep(data: seq<StockData>, d: StockData)
    ensures SectorOrder(data + [d])
            == if d.sector in SectorOrder(data) then SectorOrder(data) else SectorOrder(data) + [d.sector]
  {
    assert (data + [d])[..|data|] == data;
  }

  /**
   * Keys are in order of first appearance: for two listed sectors, a holding
   * of the earlier one comes before every holding of the later one.
   */
  lemma {:induction false} SectorOrderIsFirstAppearance(data: seq<StockData>, i: int, j: int) returns (a: nat)
    requires 0 <= i < j < |SectorOrder(data)|
    ensures a < |data| && data[a].sector == SectorOrder(data)[i]
    ensures forall b :: 0 <= b <= a ==> data[b].sector != SectorOrder(data)[j]
    decreases |data|
  {
    assert data != [];
    var p := data[..|data| - 1];
    var d := data[|data| - 1];
    assert data == p + [d];
    var order := SectorOrder(p);
    SectorOrderStep(p, d);
    if j < |order| {
      a := SectorOrderIsFirstAppearance(p, i, j);
    } else {
      SectorOrderMembers(p, order[i]);
      SectorOrderMembers(p, d.sector);
      a :| 0 <= a < |p| && p[a].sector == order[i];
    }
  }

  /** A sector that has not appeared yet has all-zero sums. */
  lemma AccumulatedAbsent(data: seq<StockData>, sector: string)
    requires sector !in SectorOrder(data)
    ensures Accumulated(data, sector) == SectorSummary(sector, 0.0, 0.0, 0.0, 0.0)
  {
    InSectorOfUnlisted(data, sector);
  }

  /** Lines 32-34: the `+=` updates of one entry. */
  function AddFigures(summary: SectorSummary, stock: StockData): (r: SectorSummary)
    ensures r.sector == summary.sector && r.gainLossPercent == summary.gainLossPercent
    ensures r.totalInvestment == summary.totalInvestment + Measure(Investment, stock)
    ensures r.totalPresentValue == summary.totalPresentValue + Measure(PresentValue, stock)
    ensures r.gainLoss == summary.gainLoss + Measure(GainLoss, stock)
    ensures summary.gainLoss == summary.totalPresentValue - summary.totalInvestment ==>
      r.gainLoss == r.totalPresentValue - r.totalInvestment
  {
    var investment := stock.purchasePrice * stock.quantity as real;
    var presentValue := stock.currentPrice * stock.quantity as real;
    var gainLoss := presentValue - investment;
    summary.(totalInvestment := summary.totalInvestment + investment,
             totalPresentValue := summary.totalPresentValue + presentValue,
             gainLoss := summary.gainLoss + gainLoss)
  }

  /** One more holding adds its figures to its own sector and to no other. */
  lemma AccumulatedStep(data: seq<StockData>, d: StockData, sector: string)
    ensures Accumulated(data + [d], sector) ==
      if d.sector == sector then AddFigures(Accumulated(data, sector), d) else Accumulated(data, sector)
  {
    InSectorStep(data, d, sector);
    if d.sector == sector {
      var h := InSector(data, sector);
      assert [d][..0] == [];
      TotalAppend(h, [d], Investment);
      TotalAppend(h, [d], PresentValue);
      TotalAppend(h, [d], GainLoss);
    } else {
      assert InSector(data, sector) + [] == InSector(data, sector);
    }
  }

  /** The Map (key order and entries) holds exactly the sums of the holdings seen so far. */
  ghost predicate Tracks(keys: seq<string>, sectorMap: map<string, SectorSummary>, seen: seq<StockData>) {
    && keys == SectorOrder(seen)
    && (forall s :: s in sectorMap <==> s in keys)
    && (forall s :: s in sectorMap ==> sectorMap[s] == Accumulated(seen, s))
  }

  /** The `forEach` callback: add one holding's figures to its sector's entry, creating it first if needed. */
  method AddHolding(keys: seq<string>, sectorMap: map<string, SectorSummary>, stock: StockData, ghost seen: seq<StockData>)
    returns (keys': seq<string>, sectorMap': map<string, SectorSummary>)
    requires Tracks(keys, sectorMap, seen)
    ensures Tracks(keys', sectorMap', seen + [stock])
  {
    keys', sectorMap' := keys, sectorMap;
    if stock.sector !in sectorMap' {
      sectorMap' := sectorMap'[stock.sector := SectorSummary(stock.sector, 0.0, 0.0, 0.0, 0.0)];
      keys' := keys' + [stock.sector];
    }
    var summary := sectorMap'[stock.sector];
    sectorMap' := sectorMap'[stock.sector := AddFigures(summary, stock)];
    assert keys' == SectorOrder(seen + [stock]) by {
      SectorOrderStep(seen, stock);
    }
    assert summary == Accumulated(seen, stock.sector) by {
      if stock.sector !in sectorMap {
        AccumulatedAbsent(seen, stock.sector);
      }
    }
    forall s | s in sectorMap'
      ensures sectorMap'[s] == Accumulated(seen + [stock], s)
    {
      AccumulatedStep(seen, stock, s);
    }
  }

  /** The grouping loop (lines 16-35) and `Array.from(sectorMap.values())`. */
  method AccumulateSectors(data: seq<StockData>) returns (summaries: seq<SectorSummary>)
    ensures |summaries| == |SectorOrder(data)|
    ensures forall i :: 0 <= i < |summaries| ==> summaries[i] == Accumulated(data, SectorOrder(data)[i])
  {
    var keys: seq<string> := [];
    var sectorMap: map<string, SectorSummary> := map[];
    var i := 0;
    while i < |data|
      invariant 0 <= i <= |data|
      invariant Tracks(keys, sectorMap, data[..i])
    {
      assert data[..i + 1] == data[..i] + [data[i]];
      keys, sectorMap := AddHolding(keys, sectorMap, data[i], data[..i]);
      i := i + 1;
    }
    assert data[..i] == data;
    summaries := seq(|keys|, j requires 0 <= j < |keys| => sectorMap[keys[j]]);
  }

  /** Lines 37-40: the percentage, divided without a zero guard. */
  function WithPercent(summaries: seq<SectorSummary>): (sectors: seq<SectorSummary>)
    requires forall i :: 0 <= i < |summaries| ==> summaries[i].totalInvestment != 0.0
    ensures |sectors| == |summaries|
    ensures forall i :: 0 <= i < |sectors| ==>
      && sectors[i] == summaries[i].(gainLossPercent := sectors[i].gainLossPercent)
      && sectors[i].gainLossPercent * summaries[i].totalInvestment == summaries[i].gainLoss * 100.0
  {
    seq(|summaries|, i requires 0 <= i < |summaries| =>
      summaries[i].(gainLossPercent := (summaries[i].gainLoss / summaries[i].totalInvestment) * 100.0))
  }

  /** Line 47: a sector is shown as a gain when its gain/loss is not negative. */
  predicate ShownAsGain(s: SectorSummary): (b: bool)
    ensures s.gainLoss == s.totalPresentValue - s.totalInvestment ==>
      (b <==> s.totalPresentValue >= s.totalInvestment)
  {
    s.gainLoss >= 0.0
  }

  /**
   * The sector table: one summary per distinct sector in order of first
   * appearance, each summing its own holdings, its gain/loss the difference
   * of its sums, its percentage gain/loss over investment.
   */
  method SectorSummaries(data: seq<StockData>) returns (sectors: seq<SectorSummary>)
    requires forall s :: s in SectorOrder(data) ==> Total(InSector(data, s), Investment) != 0.0
    ensures |sectors| == |SectorOrder(data)|
    ensures forall i :: 0 <= i < |sectors| ==>
      && sectors[i].sector == SectorOrder(data)[i]
      && sectors[i].totalInvestment == Total(InSector(data, sectors[i].sector), Investment)
      && sectors[i].totalPresentValue == Total(InSector(data, sectors[i].sector), PresentValue)
      && sectors[i].gainLoss == sectors[i].totalPresentValue - sectors[i].totalInvestment
      && sectors[i].gainLossPercent * sectors[i].totalInvestment == sectors[i].gainLoss * 100.0
      && (ShownAsGain(sectors[i]) <==> sectors[i].totalPresentValue >= sectors[i].totalInvestment)
  {
    var summaries := AccumulateSectors(data);
    sectors := WithPercent(summaries);
    forall i | 0 <= i < |sectors|
      ensures SectorRow(data, SectorOrder(data)[i], sectors[i])
    {
      SummaryWithPercent(data, SectorOrder(data)[i], summaries[i], sectors[i]);
    }
  }

  /** One row of the sector table, as the contract of `SectorSummaries` describes it. */
  ghost predicate SectorRow(data: seq<StockData>, sector: string, row: SectorSummary) {
    && row.sector == sector
    && row.totalInvestment == Total(InSector(data, row.sector), Investment)
    && row.totalPresentValue == Total(InSector(data, row.sector), PresentValue)
    && row.gainLoss == row.totalPresentValue - row.totalInvestment
    && row.gainLossPercent * row.totalInvestment == row.gainLoss * 100.0
    && (ShownAsGain(row) <==> row.totalPresentValue >= row.totalInvestment)
  }

  /** A sector's sums with its percentage filled in make its table row. */
  lemma SummaryWithPercent(data: seq<StockData>, sector: string, summary: SectorSummary, row: SectorSummary)
    requires summary == Accumulated(data, sector)
    requires row == summary.(gainLossPercent := row.gainLossPercent)
    requires row.gainLossPercent * summary.totalInvestment == summary.gainLoss * 100.0
    ensures SectorRow(data, sector, row)
  {
  }

  // ---------------------------------------------------------------------------
  // The sector sums partition the portfolio sums

  /** Σ over `sectors` of each sector's total of `m`. */
  function SectorSum(sectors: seq<string>, data: seq<StockData>, m: Metric): real
    decreases |sectors|
  {
    if sectors == [] then 0.0
    else SectorSum(sectors[..|sectors| - 1], data, m) + Total(InSector(data, sectors[|sectors| - 1]), m)
  }

  /** Adding a holding adds its figure to the sum of exactly the one sector it belongs to. */
  lemma {:induction false} SectorSumStep(sectors: seq<string>, data: seq<StockData>, d: StockData, m: Metric)
    requires forall i, j :: 0 <= i < j < |sectors| ==> sectors[i] != sectors[j]
    ensures SectorSum(sectors, data + [d], m)
            == SectorSum(sectors, data, m) + if d.sector in sectors then Measure(m, d) else 0.0
    decreases |sectors|
  {
    if sectors != [] {
      var p := sectors[..|sectors| - 1];
      var last := sectors[|sectors| - 1];
      assert forall i :: 0 <= i < |p| ==> p[i] == sectors[i];
      SectorSumStep(p, data, d, m);
      InSectorStep(data, d, last);
      TotalAppend(InSector(data, last), if d.sector == last then [d] else [], m);
      assert [d][..0] == [];
      assert d.sector in sectors <==> d.sector in p || d.sector == last;
      assert d.sector == last ==> d.sector !in p;
    }
  }

  lemma TotalOfOne(d: StockData, m: Metric)
    ensures Total([d], m) == Measure(m, d)
  {
    assert [d][..0] == [];
  }

  /** A holding of a sector not seen before opens a sector whose sum is its own figure. */
  lemma NewSectorSum(p: seq<StockData>, d: StockData, m: Metric)
    requires d.sector !in SectorOrder(p)
    ensures SectorSum(SectorOrder(p + [d]), p + [d], m) == SectorSum(SectorOrder(p), p + [d], m) + Measure(m, d)
  {
    var order := SectorOrder(p);
    SectorOrderStep(p, d);
    assert (order + [d.sector])[..|order|] == order;
    assert InSector(p + [d], d.sector) == [d] by {
      InSectorOfUnlisted(p, d.sector);
      InSectorStep(p, d, d.sector);
    }
    TotalOfOne(d, m);
  }

  /** Summed over all sectors, each metric equals its portfolio-wide sum. */
  lemma {:induction false} SectorsPartitionTotal(data: seq<StockData>, m: Metric)
    ensures SectorSum(SectorOrder(data), data, m) == Total(data, m)
    decreases |data|
  {
    if data != [] {
      var p := data[..|data| - 1];
      var d := data[|data| - 1];
      assert data == p + [d];
      var order := SectorOrder(p);
      SectorsPartitionTotal(p, m);
      assert Total(data, m) == Total(p, m) + Measure(m, d);
      SectorSumStep(order, p, d, m);
      if d.sector in order {
        SectorOrderStep(p, d);
      } else {
        NewSectorSum(p, d, m);
      }
    }
  }
}
