/**
 * `aggregate_pnl_by_currency(fills, positions)`: the per-coin profit and
 * loss summary, split into realized PnL (from the fills) and unrealized
 * PnL (from the open positions).
 *
 * The summary is a full outer join of the two inputs on the coin: one
 * entry per coin that occurs in either, listed in ascending order of the
 * coin.  It is modelled as the ordered list of its keys, which is the
 * order the summary iterates in, next to the map from each key to its
 * entry.
 */
module PnlAggregation {
  import opened CoinOrder
  import opened Ledger

  datatype PnlEntry = PnlEntry(realizedPnl: real, unrealizedPnl: real)

  datatype Summary = Summary(coins: seq<string>, entries: map<string, PnlEntry>)

  /** The coins of the fills, in input order, repeats included. */
  function FillCoinList(fills: seq<Fill>): (cs: seq<string>)
    ensures Elems(cs) == FillCoins(fills)
  {
    if fills == [] then []
    else
      assert fills == [fills[0]] + fills[1..];
      assert FillCoins(fills) == {fills[0].coin} + FillCoins(fills[1..]);
      [fills[0].coin] + FillCoinList(fills[1..])
  }

  /** The coins of the positions, in input order, repeats included. */
  function PositionCoinList(positions: seq<Position>): (cs: seq<string>)
    ensures Elems(cs) == PositionCoins(positions)
  {
    if positions == [] then []
    else
      assert positions == [positions[0]] + positions[1..];
      assert PositionCoins(positions) == {positions[0].coin} + PositionCoins(positions[1..]);
      [positions[0].coin] + PositionCoinList(positions[1..])
  }

  /** A missing total counts as zero. */
  function TotalOr0(m: map<string, real>, c: string): real
  {
    if c in m then m[c] else 0.0
  }

  /** The unrealized PnL a coin is reported with: its latest position's, else 0. */
  ghost predicate UnrealizedReported(positions: seq<Position>, c: string, u: real)
  {
    if c in PositionCoins(positions) then
      exists i :: LatestFor(positions, i) && positions[i].coin == c && u == positions[i].unrealizedPnl
    else
      u == 0.0
  }

  /**
   * The summary: one entry for every coin of the fills or the positions
   * and for no other coin, listed in ascending order without repeats;
   * realized PnL is the sum of the coin's `closedPnl` (0 with no fills),
   * unrealized PnL is its latest position's (0 with no position).
   */
  function Aggregate(fills: seq<Fill>, positions: seq<Position>): (r: Summary)
    ensures StrictlySorted(r.coins)
    ensures Elems(r.coins) == FillCoins(fills) + PositionCoins(positions)
    ensures r.entries.Keys == Elems(r.coins)
    ensures forall c :: c in r.entries ==> r.entries[c].realizedPnl == RealizedOf(fills, c)
    ensures forall c :: c in r.entries ==> UnrealizedReported(positions, c, r.entries[c].unrealizedPnl)
  {
    var coinList := FillCoinList(fills) + PositionCoinList(positions);
    assert Elems(coinList) == Elems(FillCoinList(fills)) + Elems(PositionCoinList(positions));
    var coins := SortCoins(coinList);
    var entries := Join(RealizedByCoin(fills), UnrealizedByCoin(positions), Elems(coins));
    JoinFacts(fills, positions, Elems(coins), entries);
    Summary(coins, entries)
  }

  /** One entry per key, each taking its totals from the two maps, 0 where missing. */
  function Join(realized: map<string, real>, unrealized: map<string, real>, keys: set<string>): map<string, PnlEntry>
  {
    map c | c in keys :: PnlEntry(TotalOr0(realized, c), TotalOr0(unrealized, c))
  }

  lemma JoinFacts(fills: seq<Fill>, positions: seq<Position>, keys: set<string>, entries: map<string, PnlEntry>)
    requires keys == FillCoins(fills) + PositionCoins(positions)
    requires entries == Join(RealizedByCoin(fills), UnrealizedByCoin(positions), keys)
    ensures entries.Keys == keys
    ensures forall c :: c in entries ==> entries[c].realizedPnl == RealizedOf(fills, c)
    ensures forall c :: c in entries ==> UnrealizedReported(positions, c, entries[c].unrealizedPnl)
  {
    var realized, unrealized := RealizedByCoin(fills), UnrealizedByCoin(positions);
    RealizedByCoinCorrect(fills);
    forall c | c in entries
      ensures entries[c].realizedPnl == RealizedOf(fills, c)
      ensures UnrealizedReported(positions, c, entries[c].unrealizedPnl)
    {
      if c !in realized {
        RealizedOfAbsentCoin(fills, c);
      }
    }
  }

  /** The realized PnL of the entries listed under `coins`, added up. */
  function RealizedSum(coins: seq<string>, entries: map<string, PnlEntry>): real
  {
    if coins == [] then 0.0
    else (if coins[0] in entries then entries[coins[0]].realizedPnl else 0.0) + RealizedSum(coins[1..], entries)
  }

  /** The unrealized PnL of the entries listed under `coins`, added up. */
  function UnrealizedSum(coins: seq<string>, entries: map<string, PnlEntry>): real
  {
    if coins == [] then 0.0
    else (if coins[0] in entries then entries[coins[0]].unrealizedPnl else 0.0) + UnrealizedSum(coins[1..], entries)
  }

  /** The summary's realized PnL over all its entries. */
  function TotalRealized(s: Summary): real
  {
    RealizedSum(s.coins, s.entries)
  }

  /** The summary's unrealized PnL over all its entries. */
  function TotalUnrealized(s: Summary): real
  {
    UnrealizedSum(s.coins, s.entries)
  }

  /** The realized PnL of each coin of `ks`, added up. */
  function PerCoinRealized(ks: seq<string>, fills: seq<Fill>): real
  {
    if ks == [] then 0.0 else RealizedOf(fills, ks[0]) + PerCoinRealized(ks[1..], fills)
  }

  // ---------------------------------------------------------------------
  // Properties of the summary
  // ---------------------------------------------------------------------

  /** No fills and no positions give an empty summary, and only they do. */
  lemma EmptyIffNoInput(fills: seq<Fill>, positions: seq<Position>)
    ensures Aggregate(fills, positions).coins == [] <==> fills == [] && positions == []
    ensures fills == [] && positions == [] ==> Aggregate(fills, positions) == Summary([], map[])
  {
    var r := Aggregate(fills, positions);
    if fills != [] {
      assert fills[0].coin in FillCoins(fills);
      assert fills[0].coin in Elems(r.coins);
    } else if positions != [] {
      assert positions[0].coin in PositionCoins(positions);
      assert positions[0].coin in Elems(r.coins);
    }
  }

  /**
   * The keys come out as THE ascending listing of the coins: any strictly
   * sorted list of exactly the input coins is the summary's key list.
   */
  lemma KeysAreSortedCoins(fills: seq<Fill>, positions: seq<Position>, ks: seq<string>)
    requires StrictlySorted(ks)
    requires Elems(ks) == FillCoins(fills) + PositionCoins(positions)
    ensures Aggregate(fills, positions).coins == ks
  {
    SortedUnique(Aggregate(fills, positions).coins, ks);
  }

  /**
   * A coin is reported with realized PnL 0 when it has no fills, and with
   * unrealized PnL 0 when it has no position.
   */
  lemma MissingSideIsZero(fills: seq<Fill>, positions: seq<Position>, c: string)
    requires c in Aggregate(fills, positions).entries
    ensures c !in FillCoins(fills) ==> Aggregate(fills, positions).entries[c].realizedPnl == 0.0
    ensures c !in PositionCoins(positions) ==> Aggregate(fills, positions).entries[c].unrealizedPnl == 0.0
  {
    if c !in FillCoins(fills) {
      RealizedOfAbsentCoin(fills, c);
    }
  }

  /**
   * Every position gets its entry, a closed one of size 0 included; with one
   * position per coin the entry carries that position's unrealized PnL.
   */
  lemma PositionAlwaysListed(fills: seq<Fill>, positions: seq<Position>, p: Position)
    requires p in positions
    ensures p.coin in Aggregate(fills, positions).entries
    ensures OnePositionPerCoin(positions) ==>
      Aggregate(fills, positions).entries[p.coin].unrealizedPnl == p.unrealizedPnl
  {
    var r := Aggregate(fills, positions);
    assert p.coin in PositionCoins(positions);
    if OnePositionPerCoin(positions) {
      var k :| 0 <= k < |positions| && positions[k] == p;
      var i :| LatestFor(positions, i) && positions[i].coin == p.coin &&
        r.entries[p.coin].unrealizedPnl == positions[i].unrealizedPnl;
      assert i == k;
    }
  }

  lemma {:induction false} PerCoinNoFills(ks: seq<string>)
    ensures PerCoinRealized(ks, []) == 0.0
  {
    if ks != [] {
      PerCoinNoFills(ks[1..]);
    }
  }

  /** One more fill adds its amount to exactly one coin of a repeat-free list. */
  lemma {:induction false} PerCoinCons(ks: seq<string>, f: Fill, rest: seq<Fill>)
    requires NoDuplicates(ks)
    ensures PerCoinRealized(ks, [f] + rest) ==
      PerCoinRealized(ks, rest) + (if f.coin in ks then f.closedPnl else 0.0)
  {
    if ks != [] {
      assert ([f] + rest)[1..] == rest;
      assert f.coin == ks[0] ==> f.coin !in ks[1..];
      PerCoinCons(ks[1..], f, rest);
    }
  }

  /** Over a repeat-free list of coins covering every fill, the per-coin totals add up to the grand total. */
  lemma {:induction false} PerCoinCovers(ks: seq<string>, fills: seq<Fill>)
    requires NoDuplicates(ks)
    requires FillCoins(fills) <= Elems(ks)
    ensures PerCoinRealized(ks, fills) == ClosedTotal(fills)
  {
    if fills == [] {
      PerCoinNoFills(ks);
    } else {
      assert fills == [fills[0]] + fills[1..];
      assert fills[0].coin in FillCoins(fills);
      assert FillCoins(fills[1..]) <= FillCoins(fills);
      PerCoinCons(ks, fills[0], fills[1..]);
      PerCoinCovers(ks, fills[1..]);
    }
  }

  lemma {:induction false} RealizedSumPerCoin(ks: seq<string>, entries: map<string, PnlEntry>, fills: seq<Fill>)
    requires forall c :: c in entries ==> entries[c].realizedPnl == RealizedOf(fills, c)
    requires Elems(ks) <= entries.Keys
    ensures RealizedSum(ks, entries) == PerCoinRealized(ks, fills)
  {
    if ks != [] {
      assert ks[0] in Elems(ks);
      assert Elems(ks[1..]) <= Elems(ks);
      RealizedSumPerCoin(ks[1..], entries, fills);
    }
  }

  /**
   * Adding up the summary's realized PnL gives the total `closedPnl` of all
   * fills: every fill is counted once, under its own coin.
   */
  lemma TotalRealizedIsClosedTotal(fills: seq<Fill>, positions: seq<Position>)
    ensures TotalRealized(Aggregate(fills, positions)) == ClosedTotal(fills)
  {
    var r := Aggregate(fills, positions);
    SortedHasNoDuplicates(r.coins);
    RealizedSumPerCoin(r.coins, r.entries, fills);
    PerCoinCovers(r.coins, fills);
  }

  lemma {:induction false} UnrealizedSumZero(ks: seq<string>, entries: map<string, PnlEntry>)
    requires forall c :: c in entries ==> entries[c].unrealizedPnl == 0.0
    ensures UnrealizedSum(ks, entries) == 0.0
  {
    if ks != [] {
      UnrealizedSumZero(ks[1..], entries);
    }
  }

  /** Without positions there is no unrealized PnL in the summary. */
  lemma NoPositionsNoUnrealized(fills: seq<Fill>)
    ensures TotalUnrealized(Aggregate(fills, [])) == 0.0
  {
    assert PositionCoins([]) == {};
    UnrealizedSumZero(Aggregate(fills, []).coins, Aggregate(fills, []).entries);
  }

  /**
   * Aggregating the fills kept by a `time >= cutoff` filter totals exactly
   * the `closedPnl` booked inside that window.
   */
  lemma TimeWindowTotal(fills: seq<Fill>, cutoff: int)
    ensures TotalRealized(Aggregate(FilterSince(fills, cutoff), [])) == WindowTotal(fills, cutoff)
  {
    TotalRealizedIsClosedTotal(FilterSince(fills, cutoff), []);
    FilterSinceTotal(fills, cutoff);
  }

  /**
   * Aggregating one coin's fills gives that coin alone, with the same
   * realized PnL it has in the summary of all fills.
   */
  lemma CoinFilterAggregate(fills: seq<Fill>, coin: string)
    ensures Aggregate(FilterCoin(fills, coin), []).coins == if coin in FillCoins(fills) then [coin] else []
    ensures coin in FillCoins(fills) ==>
      Aggregate(FilterCoin(fills, coin), []).entries[coin].realizedPnl ==
      Aggregate(fills, []).entries[coin].realizedPnl
  {
    FilterCoinCoins(fills, coin);
    assert PositionCoins([]) == {};
    var ks: seq<string> := if coin in FillCoins(fills) then [coin] else [];
    assert Elems(ks) == FillCoins(FilterCoin(fills, coin));
    KeysAreSortedCoins(FilterCoin(fills, coin), [], ks);
    FilterCoinIdempotent(fills, coin);
  }

  /** The latest position of a coin is unique, so its reported value is too. */
  lemma UnrealizedReportedUnique(positions: seq<Position>, c: string, u: real, v: real)
    requires UnrealizedReported(positions, c, u) && UnrealizedReported(positions, c, v)
    ensures u == v
  {
    if c in PositionCoins(positions) {
      var i :| LatestFor(positions, i) && positions[i].coin == c && u == positions[i].unrealizedPnl;
      var j :| LatestFor(positions, j) && positions[j].coin == c && v == positions[j].unrealizedPnl;
      assert i == j;
    }
  }

  /** Fills with the same multiset of records give every coin the same realized PnL. */
  lemma RealizedOfPermutation(fills1: seq<Fill>, fills2: seq<Fill>, c: string)
    requires multiset(fills1) == multiset(fills2)
    ensures RealizedOf(fills1, c) == RealizedOf(fills2, c)
  {
    forall f ensures multiset(FilterCoin(fills1, c))[f] == multiset(FilterCoin(fills2, c))[f] {
      FilterCoinCount(fills1, c, f);
      FilterCoinCount(fills2, c, f);
    }
    assert multiset(FilterCoin(fills1, c)) == multiset(FilterCoin(fills2, c));
    ClosedTotalPermutation(FilterCoin(fills1, c), FilterCoin(fills2, c));
  }

  /** The order the fills come in does not change the summary. */
  lemma FillOrderIrrelevant(fills1: seq<Fill>, fills2: seq<Fill>, positions: seq<Position>)
    requires multiset(fills1) == multiset(fills2)
    ensures Aggregate(fills1, positions) == Aggregate(fills2, positions)
  {
    SameFillCoins(fills1, fills2);
    SortedUnique(Aggregate(fills1, positions).coins, Aggregate(fills2, positions).coins);
    SameEntries(fills1, fills2, positions);
  }

  lemma SameEntries(fills1: seq<Fill>, fills2: seq<Fill>, positions: seq<Position>)
    requires multiset(fills1) == multiset(fills2)
    ensures Aggregate(fills1, positions).entries == Aggregate(fills2, positions).entries
  {
    var e1, e2 := Aggregate(fills1, positions).entries, Aggregate(fills2, positions).entries;
    SameFillCoins(fills1, fills2);
    assert e1.Keys == e2.Keys;
    forall c | c in e1
      ensures e1[c] == e2[c]
    {
      SameEntry(fills1, fills2, positions, c);
    }
    SameKeysSameValues(e1, e2);
  }

  lemma SameKeysSameValues(e1: map<string, PnlEntry>, e2: map<string, PnlEntry>)
    requires e1.Keys == e2.Keys
    requires forall c :: c in e1 ==> e1[c] == e2[c]
    ensures e1 == e2
  {
  }

  lemma SameEntry(fills1: seq<Fill>, fills2: seq<Fill>, positions: seq<Position>, c: string)
    requires multiset(fills1) == multiset(fills2)
    requires c in Aggregate(fills1, positions).entries && c in Aggregate(fills2, positions).entries
    ensures Aggregate(fills1, positions).entries[c] == Aggregate(fills2, positions).entries[c]
  {
    var x1, x2 := Aggregate(fills1, positions).entries[c], Aggregate(fills2, positions).entries[c];
    RealizedOfPermutation(fills1, fills2, c);
    UnrealizedReportedUnique(positions, c, x1.unrealizedPnl, x2.unrealizedPnl);
  }

  lemma SameFillCoins(fills1: seq<Fill>, fills2: seq<Fill>)
    requires multiset(fills1) == multiset(fills2)
    ensures FillCoins(fills1) == FillCoins(fills2)
  {
    forall f | f in fills1 ensures f in fills2 {
      assert f in multiset(fills1);
    }
    forall f | f in fills2 ensures f in fills1 {
      assert f in multiset(fills2);
    }
  }
}
