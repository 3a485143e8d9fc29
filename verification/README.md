# PnL aggregation by currency (cc-liquid history)

This project models `aggregate_pnl_by_currency(fills, positions)`, the
per-coin profit-and-loss summary behind the `history` command. It also
models the two fill filters the tests use: by coin
(tests/test_history.py:367, :372) and by a time cutoff, whose result the
time-window test aggregates (:348-350). The aggregation's implementation
module, `cc_liquid.trader`, is not part of this model. Its contract comes
from what `tests/test_history.py` asserts about it, except for a coin with a
position but no fills, which no test has (see "## Left out").

- A **fill** is one executed trade leg. Only its coin, its time (epoch
  milliseconds) and its realized PnL (`closedPnl`) matter here.
- A **position** is a snapshot of the exposure held in one coin. Only its
  coin and its unrealized PnL matter here. Its size is carried but never
  read; it only marks the fixture's closed BTC snapshot, of size 0.
- The **summary** has one entry per coin that occurs in the fills or the
  positions. Each entry holds `realized_pnl` and `unrealized_pnl`.
  - Realized PnL is the sum of the coin's `closedPnl` (0 for a coin with
    positions only).
  - Unrealized PnL is the coin's position's (0 for a coin with fills
    only).
  - The keys come out in ascending code-point order.

Money is Dafny `real`, so every decimal amount is exact.

Modules:

- `CoinOrder`: the key order as a strict total order on strings, and the
  sorted, duplicate-free key list it yields.
- `Ledger`: fills and positions, the two filters, and the two reductions.
  - The fill ledger reducer `RealizedByCoin` is a fold. `ReduceFills` is
    the same reduction as a loop with a map accumulator.
  - The position valuator `UnrealizedByCoin` records each position's
    unrealized PnL under its coin.
- `PnlAggregation`: the summary (`Aggregate`), its totals and its
  properties.
- `HistoryScenarios`: the tests' fixtures and their expected results, as
  lemmas.
  - The fill fixture is nine groups of legs, one per coin, in the order the
    fixture lists them. `IsSampleTrades` says that a list of groups is this
    fixture, and `SampleTradesExact` shows that only `SampleTrades` meets
    it.
  - The position fixture is pinned the same way by `IsSamplePositions`.

## Model

| member | source | states |
|---|---|---|
| PnlAggregation.Aggregate | tests/test_history.py:278-316 | The keys are strictly ascending and are exactly the coins of the fills and of the positions. Every entry's realized PnL is the sum of that coin's `closedPnl`. Its unrealized PnL is the coin's latest position's, or 0 without one. |
| PnlAggregation.EmptyIffNoInput | tests/test_history.py:377-382 | The summary is empty exactly when there are no fills and no positions. Then it equals the empty summary. |
| PnlAggregation.KeysAreSortedCoins | tests/test_history.py:398-401 | Any strictly ascending list of exactly the input coins is the summary's key list, so the keys are the sorted coins. |
| PnlAggregation.MissingSideIsZero | tests/test_history.py:305-316 | A coin without fills has realized PnL 0. A coin without a position has unrealized PnL 0, as :314-316 assert. No test has a coin with positions but no fills. |
| PnlAggregation.PositionAlwaysListed | tests/test_history.py:309-312 | Every position's coin has an entry, a size-0 position included. With one position per coin, the entry carries that position's unrealized PnL. |
| PnlAggregation.TotalRealizedIsClosedTotal | tests/test_history.py:333-337 | The summary's realized PnL, added over its entries, equals the total `closedPnl` of all fills. |
| PnlAggregation.NoPositionsNoUnrealized | tests/test_history.py:335-338 | Without positions, the summary's unrealized PnL adds up to 0. |
| PnlAggregation.TimeWindowTotal | tests/test_history.py:346-362 | Aggregating the fills kept by the `time >= cutoff` filter gives, in total, exactly the `closedPnl` booked at or after the cutoff. |
| PnlAggregation.CoinFilterAggregate | tests/test_history.py:365-374 | Aggregating one coin's filtered fills lists that coin alone, with the same realized PnL it has in the full summary. |
| PnlAggregation.FillOrderIrrelevant | tests/test_history.py:278-283 | Two fill lists holding the same records, in any order, give the same summary. |
| PnlAggregation.RealizedOfPermutation | tests/test_history.py:297-303 | A coin's realized PnL depends only on the multiset of fills, not on their order. |
| PnlAggregation.UnrealizedReportedUnique | tests/test_history.py:310-312 | A coin's reported unrealized PnL is determined by the positions: two candidate values are equal. |
| PnlAggregation.PerCoinCovers | tests/test_history.py:333-337 | Over a repeat-free coin list that covers every fill, the per-coin realized totals add up to the grand total. |
| PnlAggregation.TotalRealized | tests/test_history.py:334 | The sum of `realized_pnl` over the summary's entries, taken in key order. It has no contract of its own: PnlAggregation.TotalRealizedIsClosedTotal states its value. |
| PnlAggregation.TotalUnrealized | tests/test_history.py:335 | The sum of `unrealized_pnl` over the summary's entries. It has no contract of its own: PnlAggregation.NoPositionsNoUnrealized states its value without positions. |
| PnlAggregation.SameEntries | tests/test_history.py:278-283 | Fill lists with the same records give the same entry map. |
| Ledger.FilterCoin | tests/test_history.py:367-374 | The coin filter keeps only fills that are in the input and have that coin, and never more than the input. |
| Ledger.FilterCoinCount | tests/test_history.py:365-374 | The coin filter keeps each fill of the coin exactly as many times as it occurs, repeats included, and drops every other fill. |
| Ledger.FilterCoinIdempotent | tests/test_history.py:367-374 | Filtering twice by the same coin gives the same fills as filtering once. |
| Ledger.FilterCoinCoins | tests/test_history.py:370-374 | After the coin filter, the only coin left is that one, if the input had it. |
| Ledger.FilterSince | tests/test_history.py:347-348 | The time filter keeps only fills that are in the input and are at or after the cutoff. |
| Ledger.FilterSinceCount | tests/test_history.py:347-348 | The time filter keeps each fill at or after the cutoff exactly as many times as it occurs, and drops every earlier fill. |
| Ledger.FilterSinceTotal | tests/test_history.py:346-362 | The time-filtered fills total exactly the `closedPnl` booked at or after the cutoff. |
| Ledger.ClosedTotalPermutation | tests/test_history.py:323-337 | The total `closedPnl` of a list of fills does not depend on their order. |
| Ledger.RealizedOfAbsentCoin | tests/test_history.py:278-283 | A coin that none of the fills has realizes 0. No test has a coin with positions but no fills. |
| Ledger.RealizedByCoin | tests/test_history.py:297-307 | The fill reducer as a fold, adding each fill's `closedPnl` into its coin's running total. It has no contract of its own: Ledger.RealizedByCoinCorrect states what it computes. |
| Ledger.RealizedByCoinCorrect | tests/test_history.py:297-307 | The reducer gives exactly the coins of the fills a total each, equal to the sum of that coin's `closedPnl`. Repeated coins are merged. |
| Ledger.ReduceFills | tests/test_history.py:297-307 | The accumulator loop computes the reducer's fold. Its keys are the coins of the fills, each with the sum of its `closedPnl`. |
| Ledger.UnrealizedByCoin | tests/test_history.py:309-312 | The valuator has an entry for exactly the coins of the positions, a size-0 position included. Each entry is the unrealized PnL of that coin's last position. |
| Ledger.UnrealizedOfSolePosition | tests/test_history.py:309-312 | With one position per coin, the valuator reports each position's own unrealized PnL. |
| CoinOrder.Less | tests/test_history.py:400 | Code-point lexicographic order on strings, the order `sorted` puts `str` keys in. It has no contract of its own: LessIrreflexive, LessTransitive and LessTotal prove it a strict total order. |
| CoinOrder.LessTotal | tests/test_history.py:398-401 | Any two different coins are ordered one way or the other. |
| CoinOrder.LessTransitive | tests/test_history.py:398-401 | The key order is transitive. |
| CoinOrder.LessIrreflexive | tests/test_history.py:398-401 | No coin sorts before itself. |
| CoinOrder.Insert | tests/test_history.py:398-401 | Inserting a coin into a strictly sorted key list keeps it strictly sorted. It adds exactly that coin. |
| CoinOrder.SortCoins | tests/test_history.py:398-401 | The sorted key list is strictly ascending and holds exactly the given coins, each once. |
| CoinOrder.SortedUnique | tests/test_history.py:398-401 | There is only one strictly ascending listing of a set of coins. |
| HistoryScenarios.SampleTradesExact | tests/test_history.py:11-230 | The fixture predicate holds of the grouped fill fixture and of nothing else. |
| HistoryScenarios.IsSamplePositions | tests/test_history.py:238-275 | The position fixture: SOL size 0.37 with 1.65 unrealized, ETH size 0.0185 with 1.85, and BTC closed to size 0 with 0. It has no contract of its own; the unrealized scenarios require it. |
| HistoryScenarios.SampleRealizedScenario | tests/test_history.py:285-307 | For the fill fixture and any positions, these coins are listed with these realized PnL: BTC -5.91, APE -0.15, GRASS 0.10, MAV 17.26, APT -19.45, RSR 8.51, BNB -4.34. SOL and ETH, only opened, are listed with 0. |
| HistoryScenarios.SampleUnrealizedScenario | tests/test_history.py:309-316 | With the position fixture, SOL and ETH report 1.65 and 1.85 unrealized. BTC reports 0 (its closed size-0 position), and APE and MAV report 0 (no position). |
| HistoryScenarios.SamplePositionsReported | tests/test_history.py:309-312 | For any fills, the three fixture positions are listed with their unrealized PnL. |
| HistoryScenarios.SampleCoinTotals | tests/test_history.py:352-359 | Each fixture coin has fills. Its `closedPnl` totals its expected realized PnL, all of it booked on or after 26 October. |
| HistoryScenarios.OpeningLegs | tests/test_history.py:305-307 | Fills whose `closedPnl` is 0 (the fixture's opening legs) realize nothing, in any window. |
| HistoryScenarios.GroupEntry | tests/test_history.py:285-303 | With one group of fills per coin, each coin is listed with the total of its own group. |
| HistoryScenarios.FilterExpand | tests/test_history.py:365-374 | With one group per coin, the coin filter returns exactly that coin's group. |
| HistoryScenarios.CoinFilterScenario | tests/test_history.py:365-374 | On the fill fixture, the BTC filter keeps 2 fills and the ETH filter keeps 3. Two of the ETH fills share one order id (tests/test_history.py:70-91); the model drops `oid`, `sz`, `px` and `fee`, so there they are equal records, and the filter keeps both. |
| HistoryScenarios.WindowExpand | tests/test_history.py:346-362 | The window total of the fixture is the sum of its groups' window totals. |
| HistoryScenarios.TimeFilterScenario | tests/test_history.py:341-362 | Aggregating the fixture fills from midnight UTC of 26 October totals -5.91 - 0.15 + 0.10 + 17.26 - 19.45 + 8.51 - 4.34. |
| HistoryScenarios.TotalFills | tests/test_history.py:323-327 | The fills of the totals test: BTC 10.5, ETH -5.3, BTC 2.1, with time 0 as they carry none. It has no contract of its own; the TotalScenario lemmas state its summary. |
| HistoryScenarios.TotalScenarioKeys | tests/test_history.py:319-331 | The fills BTC 10.5, ETH -5.3 and BTC 2.1 are summarized under BTC and ETH, in that order. |
| HistoryScenarios.TotalScenarioEntries | tests/test_history.py:319-331 | For those fills, BTC realizes 12.6 and ETH -5.3, with 0 unrealized each. |
| HistoryScenarios.TotalScenarioSums | tests/test_history.py:333-338 | For those fills, total realized PnL is 7.3 and total unrealized PnL is 0. |
| HistoryScenarios.SortingScenario | tests/test_history.py:385-401 | Fills of ZEC, APE, BTC and ETH, in that order, give the keys APE, BTC, ETH, ZEC. |
| HistoryScenarios.EmptyScenario | tests/test_history.py:377-382 | No fills and no positions give the empty summary. |

## Left out

- The implementation module `cc_liquid.trader` is not part of this model.
  The aggregation is modelled from what the tests assert: a fill reducer, a
  position valuator, and a merge in key order.
- Parsing `closedPnl` from its decimal string, and what happens to a
  malformed or missing value: no shown file does either. Fills carry the
  amount already parsed.
- The informational fields of fills (`side`, `dir`, `sz`, `px`, `fee`,
  `oid`) and of positions (`side`, `entry_price`, `mark_price`, `value`,
  `return_pct`, `liquidation_price`, `margin_used`). The aggregation does
  not read them.
- Floating-point arithmetic and the `pytest.approx` tolerance. Amounts are
  exact reals, so the model's totals equal the expected decimal sums
  exactly.
- Building timestamps from UTC datetimes. Fixture times are given as their
  epoch-millisecond values, and the cutoff is `Oct26Cutoff`.
- Duplicate positions for one coin: the model lets the last one win. No
  test pins this down.
- A coin with a position but no fills: the model lists it with realized PnL
  0. No test has such a coin.
- Ledger.UnrealizedOfSolePosition: assumes one position per coin, as every
  fixture has; `UnrealizedByCoin` covers the general case.
- PnlAggregation.PositionAlwaysListed: states the entry's value only under
  one position per coin; `Aggregate` covers the general case.
- The fills of the totals and sorting tests carry no time. TotalFills
  gives them time 0. SortingScenario is stated for any times and amounts.
- Fetching fills and positions from the exchange, the CLI and its
  rendering, and the pytest fixture mechanics.
