# Portfolio dashboard: quote merge, scrape extraction and portfolio arithmetic

This project models the deterministic core of a stock-portfolio dashboard.
The dashboard keeps a fixed registry of eight NSE holdings. Its portfolio
endpoint asks a quote provider for live prices. For each holding it takes
the price, P/E and trailing EPS from that holding's quote. A holding with
no quote, or every holding when the provider call fails, gets a synthetic
record from a random fallback generator. A second module scrapes a quote
page for a price and a P/E, keeps the first plausible value of each, and
derives earnings as price / P/E, rounded to two decimals. The UI derives
these from the record list:

- portfolio totals and the total gain/loss percentage;
- sign colours for gains and losses;
- per-sector summaries;
- per-row figures with each holding's share of the portfolio;
- the four headline stat cards.

Modules, one per source file:

| module | file | source |
|---|---|---|
| `Options` | `options.dfy` | `Option` and the `?? 0` default |
| `Rounding` | `rounding.dfy` | `parseFloat(x.toFixed(2))` on reals as `Round2`, and whole-number display rounding as `Round0` |
| `MockData` | `mock_data.dfy` | `lib/mock-data.ts` |
| `DataFetcher` | `data_fetcher.dfy` | `lib/data-fetcher.ts` |
| `PortfolioRoute` | `portfolio_route.dfy` | `app/api/portfolio/route.ts` |
| `GoogleFinance` | `google_finance.dfy` | `lib/google-finance.ts` |
| `SectorAllocation` | `sector_summary.dfy` | `components/sector-summary.tsx` |
| `PortfolioTable` | `portfolio_table.dfy` | `components/portfolio-table.tsx` |
| `PortfolioStatsCards` | `portfolio_stats.dfy` | `components/portfolio-stats.tsx` |
| `Dashboard` | `dashboard.dfy` | `app/page.tsx`, which feeds the route's records to the components |

Money and P/E are `real` and quantities are `int`. The outside world enters as parameters:

- **Quote call:** its outcome is a `QuoteOutcome` value: it threw, it returned one quote, or it returned an array.
- **HTTP fetch:** its outcome is an `HttpOutcome` value: it threw, or it answered with `ok` and the page.
- **Page regexes:** a `Page` stands in for them and holds, per pattern and in pattern order, the captured group or none.
- **`Math.random()`:** each holding gets its own `Draws`, three reals in [0, 1).
- **Clock:** the timestamp is a string parameter.

Parts of the code are imperative, and the model keeps them as loops:

- the quote-map fill;
- the pattern loops with early return;
- the result-map fill;
- the sector `forEach`.

Each loop is a `method` proved equal to a specification function. The
properties the source promises are proved about those functions.

The route never calls the scrape module. It never merges scraped P/E or
earnings into its output. It reports one `source` string, `yahoo-finance`
or `mock-data`, not a provenance tag per field. The model follows the code
on all three points.

## Model

| member | source | states |
|---|---|---|
| Options.OrZero | app/api/portfolio/route.ts:27-29 | an absent optional number becomes 0 and a present one is kept |
| Rounding.Round0 | components/portfolio-stats.tsx:23 | the nearest whole number, ties away from zero: for x >= 0 the result lies in (x - 0.5, x + 0.5], for x < 0 in [x - 0.5, x + 0.5), and the sign of x is kept |
| Rounding.Cents | lib/mock-data.ts:37-39 | the whole number of cents nearest to x, within half a cent |
| Rounding.Round2 | lib/mock-data.ts:37-39 | rounding to two decimals gives a whole number of cents within 0.005 of x and keeps non-negative values non-negative |
| Rounding.Round2OfCents | lib/google-finance.ts:31 | a value that is already whole cents is unchanged by rounding |
| Rounding.Round2Idempotent | lib/google-finance.ts:31 | rounding twice is the same as rounding once |
| Rounding.Round2Monotone | lib/mock-data.ts:37-39 | rounding preserves order (x <= y gives Round2(x) <= Round2(y)) |
| MockData.WithQuote | lib/mock-data.ts:12-16 | a StockData is its Stock plus the three market fields, and projecting it back gives the Stock unchanged |
| MockData.SyntheticPrice | lib/mock-data.ts:30-31 | for a draw in [0,1) the price lies in [0.9, 1.1] times the purchase price, strictly below 1.1 times it when that is positive |
| MockData.SyntheticPeRatio | lib/mock-data.ts:32 | for a draw in [0,1) the P/E lies in [15, 25) |
| MockData.SyntheticEarnings | lib/mock-data.ts:33 | for a draw in [0,1) the earnings lie in [0.04, 0.06) times purchase price times quantity, the upper bound strict when that product is positive |
| MockData.MockStockData | lib/mock-data.ts:29-41 | every Stock field is copied unchanged; the three synthetic fields are whole cents; price, P/E and earnings stay within the generator's bounds, widened by half a cent for the rounding |
| MockData.RegistryIds | lib/mock-data.ts:18-27 | the registry's ids are "1" to "8" in order |
| MockData.RegistryIsWellFormed | lib/mock-data.ts:18-27 | the registry has 8 holdings with distinct ids and strictly positive purchase price and quantity |
| DataFetcher.Measure | lib/data-fetcher.ts:20-22 | a holding's investment, present value or gain/loss; its gain/loss is (current - purchase price) times quantity, and its investment is non-negative for non-negative price and quantity |
| DataFetcher.Total | lib/data-fetcher.ts:20-21 | the reduce-sum from 0: an empty list sums to 0 and a one-holding list to that holding's figure |
| DataFetcher.TotalAppend | lib/data-fetcher.ts:20-21 | the reduce-sum of a concatenation is the sum of the parts' sums |
| DataFetcher.TotalGainLossIsDifference | lib/data-fetcher.ts:22 | summed gain/loss per holding equals summed present value minus summed investment |
| DataFetcher.TotalInvestmentNonNegative | lib/data-fetcher.ts:20 | with non-negative prices and quantities the invested total is non-negative |
| DataFetcher.Percent | lib/data-fetcher.ts:23 | the percentage p of part in whole satisfies p · whole = part · 100 |
| DataFetcher.CalculatePortfolioStats | lib/data-fetcher.ts:19-31 | the totals are the reduce-sums and gain/loss is their difference; the percentage is 0 unless the investment is positive, and otherwise satisfies percent · investment = gain/loss · 100; the empty list gives four zeros |
| DataFetcher.GainLossColor | lib/data-fetcher.ts:44-48 | green exactly when value > 0, red exactly when value < 0, gray exactly at 0 |
| DataFetcher.GainLossBgColor | lib/data-fetcher.ts:50-54 | the same three-way split with the bg-* classes |
| PortfolioRoute.QuotesArray | app/api/portfolio/route.ts:14 | a single quote becomes a one-element list and an array is kept as is |
| PortfolioRoute.QuoteIndex | app/api/portfolio/route.ts:15-19 | every key of the quote map maps to a quote carrying that very symbol |
| PortfolioRoute.QuoteIndexKeys | app/api/portfolio/route.ts:15-19 | a symbol is a key of the quote map exactly when some quote with a non-empty symbol carries it |
| PortfolioRoute.QuoteIndexLastWins | app/api/portfolio/route.ts:15-19 | a key maps to the last quote in the array that carries that symbol |
| PortfolioRoute.BuildQuoteMap | app/api/portfolio/route.ts:13-19 | the in-place loop builds exactly the quote index: missing quotes and empty symbols are skipped and a later quote overwrites an earlier one |
| PortfolioRoute.FromQuote | app/api/portfolio/route.ts:24-30 | the holding's fields are kept and price, P/E and EPS come from the quote, each 0 when absent |
| PortfolioRoute.Resolve | app/api/portfolio/route.ts:21-34 | a holding keeps its Stock fields whether it is quoted or synthetic |
| PortfolioRoute.ResolveAll | app/api/portfolio/route.ts:21-34 | one record per holding in registry order, each keeping that holding's Stock fields |
| PortfolioRoute.MockAll | app/api/portfolio/route.ts:45 | every record is the fallback generator's record for its holding |
| PortfolioRoute.Get | app/api/portfolio/route.ts:7-54 | success is always true; one record per registry holding, in order, keeping its fields; a thrown batch gives all-synthetic data with source mock-data; a returned batch gives source yahoo-finance with each holding taking its quote, or the fallback record when it has none |
| PortfolioRoute.QuotedHoldingTakesLastQuote | app/api/portfolio/route.ts:14-30 | a holding whose symbol some quote carries takes its fields from the last such quote |
| PortfolioRoute.UnquotedHoldingIsSynthetic | app/api/portfolio/route.ts:21-33 | a holding whose symbol no quote carries gets the fallback generator's record |
| GoogleFinance.StripCommas | lib/google-finance.ts:49 | the result has no commas, is no longer than the input, and leaves a comma-free input unchanged |
| GoogleFinance.StripCommasAppend | lib/google-finance.ts:49 | stripping distributes over concatenation, so every character is handled on its own and the order is kept |
| GoogleFinance.StripCommasOne | lib/google-finance.ts:68 | a comma is dropped and any other character is kept |
| GoogleFinance.LeadingDigits | lib/google-finance.ts:49 | the length of the longest prefix of decimal digits |
| GoogleFinance.ParseFloat | lib/google-finance.ts:49 | parsing a digits-and-points capture yields none or a non-negative number |
| GoogleFinance.ParseDecimal | lib/google-finance.ts:49 | digits, a point and digits parse to the decimal they spell |
| GoogleFinance.ParseInteger | lib/google-finance.ts:49 | a run of digits parses to its whole-number value |
| GoogleFinance.AllDigitsIsLeading | lib/google-finance.ts:49 | a run of digits is all integer part, with no fraction |
| GoogleFinance.LeadingDigitsOfDigitsThen | lib/google-finance.ts:49 | the digit prefix stops at the first non-digit |
| GoogleFinance.Candidate | lib/google-finance.ts:47-49 | a number is read only from a present, non-empty capture, and it is non-negative |
| GoogleFinance.Candidates | lib/google-finance.ts:46-49 | one parsed candidate per pattern, in pattern order |
| GoogleFinance.FirstPlausible | lib/google-finance.ts:46-56 | whatever value is returned passes the field's bounds |
| GoogleFinance.FirstPlausibleIsFirst | lib/google-finance.ts:46-54 | a returned value is some pattern's candidate, and every earlier pattern's candidate was missing or failed the bounds |
| GoogleFinance.FirstPlausibleNone | lib/google-finance.ts:56 | nothing is returned exactly when no pattern gives a plausible value |
| GoogleFinance.Extracted | lib/google-finance.ts:44-56 | the extracted value passes the field's bounds, and there is none when no pattern's candidate passes them |
| GoogleFinance.ExtractFirst | lib/google-finance.ts:46-56 | the early-return loop returns the first plausible candidate, or none |
| GoogleFinance.ExtractPrice | lib/google-finance.ts:40-57 | returns the first plausible price, which is strictly positive, or none |
| GoogleFinance.ExtractPERatio | lib/google-finance.ts:59-76 | returns the first plausible P/E, which lies strictly between 0 and 1000, or none |
| GoogleFinance.DerivedEarnings | lib/google-finance.ts:29-32 | earnings exist exactly when price is present and non-zero and P/E is present and positive; they are whole cents within 0.005 of price / P/E |
| GoogleFinance.Scrape | lib/google-finance.ts:20-37 | a throw or a non-2xx answer gives {null, null}; an ok answer's P/E is the first plausible P/E of the page, so it lies in (0, 1000) when present; earnings are present exactly when the answer is ok and both P/E and price were extracted; they are then price / P/E rounded to two decimals and non-negative |
| GoogleFinance.FetchGoogleFinanceData | lib/google-finance.ts:6-38 | the fetch-and-extract procedure returns what the scrape specification says, for every outcome |
| GoogleFinance.FetchAllGoogleFinanceData | lib/google-finance.ts:78-94 | the map has exactly one key per distinct input symbol, holding that symbol's scrape result |
| GoogleFinance.CommaStrippedFromThousands | lib/google-finance.ts:68 | "1,500" loses its comma before parsing |
| GoogleFinance.CommaStrippedFromPrice | lib/google-finance.ts:49 | "1,234.50" loses its comma before parsing |
| GoogleFinance.ParsesWholeNumber | lib/google-finance.ts:49 | "1500" parses to 1500 |
| GoogleFinance.ParsesOneDecimal | lib/google-finance.ts:68 | "22.5" parses to 22.5 |
| GoogleFinance.ParsesTwoDecimals | lib/google-finance.ts:49 | "1234.50" parses to 1234.5 |
| GoogleFinance.CandidateOfThousands | lib/google-finance.ts:68 | the capture "1,500" yields the candidate 1500 |
| GoogleFinance.CandidateOfOneDecimal | lib/google-finance.ts:68 | the capture "22.5" yields the candidate 22.5 |
| GoogleFinance.CandidateOfPrice | lib/google-finance.ts:49 | the capture "1,234.50" yields the candidate 1234.5 |
| GoogleFinance.PeFallsThroughToSecondPattern | lib/google-finance.ts:65-73 | a P/E of 1500 from the first pattern fails the bounds, so 22.5 from the second wins |
| GoogleFinance.PriceFromFirstPattern | lib/google-finance.ts:46-52 | a plausible price from the first pattern wins |
| GoogleFinance.ScrapeFallsThroughToSecondPattern | lib/google-finance.ts:26-34 | on that page the result is P/E 22.5 with earnings 1234.5 / 22.5 rounded to hundredths |
| SectorAllocation.SectorOrder | components/sector-summary.tsx:21-29 | the sector keys in order of first appearance, without repeats |
| SectorAllocation.InSector | components/sector-summary.tsx:16-35 | the holdings of one sector, in input order |
| SectorAllocation.SectorOrderMembers | components/sector-summary.tsx:21-29 | a sector is listed exactly when some holding belongs to it |
| SectorAllocation.InSectorOfUnlisted | components/sector-summary.tsx:21-29 | a sector that is not listed has no holdings |
| SectorAllocation.SectorOrderIsFirstAppearance | components/sector-summary.tsx:21-29 | keys are in order of first appearance: for two listed sectors, some holding of the earlier one comes before every holding of the later one |
| SectorAllocation.Accumulated | components/sector-summary.tsx:16-34 | a sector's summary carries its own name and a zero percentage, and its gain/loss is its present value minus its investment |
| SectorAllocation.AddFigures | components/sector-summary.tsx:31-34 | one holding adds its investment, present value and gain/loss to the summary, leaves sector and percentage alone, and keeps gain/loss equal to present value minus investment |
| SectorAllocation.AccumulatedAbsent | components/sector-summary.tsx:22-28 | a sector's summary starts at zero before any of its holdings |
| SectorAllocation.AccumulatedStep | components/sector-summary.tsx:31-34 | a holding adds its investment, present value and gain/loss to its own sector's summary |
| SectorAllocation.AddHolding | components/sector-summary.tsx:17-34 | one forEach step keeps the map equal to the per-sector sums of the holdings seen so far |
| SectorAllocation.AccumulateSectors | components/sector-summary.tsx:14-37 | one summary per distinct sector, in order of first appearance, each the sum over that sector's holdings |
| SectorAllocation.WithPercent | components/sector-summary.tsx:37-40 | only the percentage changes, and it satisfies percent · investment = gain/loss · 100 |
| SectorAllocation.ShownAsGain | components/sector-summary.tsx:47 | when gain/loss is the difference of the sums, a sector is shown as a gain exactly when its present value is at least its investment |
| SectorAllocation.SectorSummaries | components/sector-summary.tsx:14-40 | one summary per sector in order of first appearance; investment and present value are that sector's sums; gain/loss is their difference; the percentage relation holds; a sector is shown as a gain exactly when present value >= investment |
| SectorAllocation.SectorSumStep | components/sector-summary.tsx:16-35 | a new holding adds its figure to exactly one listed sector's sum |
| SectorAllocation.NewSectorSum | components/sector-summary.tsx:21-33 | a holding of a new sector opens a sector whose sum is its own figure |
| SectorAllocation.SectorsPartitionTotal | components/sector-summary.tsx:16-35 | summed over all sectors, investment, present value and gain/loss equal their portfolio-wide totals |
| PortfolioTable.Share | components/portfolio-table.tsx:61 | share · total investment = the holding's investment · 100 |
| PortfolioTable.TableRow | components/portfolio-table.tsx:54-63 | keyed by the stock id; investment and present value are price times quantity; gain/loss is their difference; percent · investment = gain/loss · 100; the share is taken of the whole-list total; gain exactly when present value >= investment |
| PortfolioTable.RowsWith | components/portfolio-table.tsx:54-63 | one row per holding, in order, all against the same total; an empty list needs no non-zero total |
| PortfolioTable.PortfolioTableView | components/portfolio-table.tsx:22-66 | loading shows exactly the 5 placeholder keys 0-4; otherwise one row per record, keyed by its id, every share taken of the whole-list invested total; an empty list renders no rows |
| PortfolioTable.ShareSumIsRatio | components/portfolio-table.tsx:60-61 | the shares of a list, times the total, equal the list's investment times 100 |
| PortfolioTable.SharesSumTo100 | components/portfolio-table.tsx:60-61 | with a non-zero invested total the portfolio shares of all rows sum to exactly 100 |
| PortfolioStatsCards.Cards | components/portfolio-stats.tsx:20-49 | four cards with fixed titles; the amounts in whole rupees; the gain card shows the absolute gain/loss, within half a rupee, with '+' exactly when the gain/loss is not negative; the return card shows the percentage in hundredths; the gain and return cards are green or red by the sign |
| PortfolioStatsCards.PortfolioStats | components/portfolio-stats.tsx:13-49 | the totals are the reduce-sums; gain/loss is their difference; the percentage is gain/loss over investment; isGain exactly when present value >= investment; the cards are built from these figures, with '+' and green exactly when isGain |
| PortfolioStatsCards.HeadlineAgreesWithCalculatedStats | components/portfolio-stats.tsx:13-16 | with a positive invested total the headline figures equal calculatePortfolioStats' figures |
| PortfolioStatsCards.GainCardColourAgainstClassifier | components/portfolio-stats.tsx:37-40 | the gain card's colour agrees with getGainLossBgColor except at exactly zero, where the card is green and the classifier gray |
| Dashboard.RouteRecordsArePositive | app/api/portfolio/route.ts:21-34 | records that keep the registry's holdings, one per holding, are non-empty with positive purchase prices and quantities |
| Dashboard.PositiveInvestment | lib/data-fetcher.ts:20 | positive holdings have positive investments, and a non-empty list of them a positive total |
| Dashboard.InSectorKeepsPositive | components/sector-summary.tsx:16-35 | a sector's holdings are still positive |
| Dashboard.ListedSectorIsInhabited | components/sector-summary.tsx:21-29 | every listed sector has at least one holding |
| Dashboard.PositiveHoldingsAreDivisible | app/page.tsx:130-142 | on positive holdings every table row, the table total, the headline total and every sector's investment is non-zero |
| Dashboard.RouteRecordsAreDivisible | app/page.tsx:36 | on the route's records the headline, the table and the sector summaries never divide by zero |

## Left out

- The quote provider's client and its `quote` call (app/api/portfolio/route.ts:5, 11) are a foreign library. Their outcome is the `QuoteOutcome` input.
- HTTP `fetch`, its headers and URL (lib/google-finance.ts:10-18), and `fetchPortfolioData` (lib/data-fetcher.ts:3-17) are I/O. A response is the `HttpOutcome` input: ok or not, plus the page.
- The regular-expression engine is not modelled. A page is the captured group of each pattern, in pattern order.
- `Math.random()` (lib/mock-data.ts:30-33) is not modelled. Each registry holding gets its own three draws in [0, 1), indexed by position.
- The route's `new Date().toISOString()` is the `now` parameter, and `console.error` is left out.
- Floating point is not modelled: arithmetic is on exact reals.
- Round2: it models `parseFloat(x.toFixed(2))` as round-half-away-from-zero on exact reals. Binary-float ties and representation error are not captured.
- Round0: it models the whole-number display rounding (`maximumFractionDigits: 0`) as round-half-away-from-zero on exact reals. Binary-float ties are not captured.
- ParseFloat: it covers only what the patterns can capture (digits, commas and points). It reads the longest digits-point-digits prefix. Signs, exponents, whitespace and `Infinity` are not modelled because no capture can contain them. `NaN` is modelled as `None`.
- `toLocaleString`, `formatCurrency` and `formatPercentage` (lib/data-fetcher.ts:33-42) are locale formatting: digit grouping, the rupee sign and the `%` are left out. PortfolioStatsCards.Cards carries each value as the number it displays: amounts rounded to whole rupees (`maximumFractionDigits: 0`), the return rounded to hundredths (`toFixed(2)`).
- FetchAllGoogleFinanceData: the `Promise.all` fill is modelled sequentially. Each symbol's outcome is `respond(symbol)`, a function, so every occurrence of a symbol gets the same response. The source fires one request per occurrence (lib/google-finance.ts:83-86), and the one that settles last sets the map entry; that choice between differing responses is not modelled. The inner catch (lib/google-finance.ts:87-89) is never reached because `fetchGoogleFinanceData` never throws.
- SectorAllocation.SectorSummaries, PortfolioTable.TableRow and PortfolioStatsCards.PortfolioStats require non-zero denominators. Dashboard.RouteRecordsAreDivisible shows the route's records always meet them. The source divides unguarded at sector-summary.tsx:39, portfolio-table.tsx:58 and 61, and portfolio-stats.tsx:16, which in JavaScript gives NaN or Infinity for a zero investment. Those values are not modelled.
- React state, JSX markup, icons' rendering and the other components are UI and are not modelled.
- Type mismatches are not modelled, because the model follows the route's actual response:
  - app/page.tsx reads `source` as an object, but the route returns a string.
  - hooks/use-portfolio-data.ts stores `{data, source}` in a `StockData[]` state.
