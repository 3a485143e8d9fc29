/**
 * The concrete scenarios of the history tests, stated about the model.
 *
 * The tests' fixture of nineteen fills over nine coins is given as groups
 * of `Trades`, one per coin in the order the fixture lists them, each
 * group's legs in fixture order as (time, closedPnl) pairs; times are the
 * epoch milliseconds of the fixture's UTC datetimes.  `IsSampleTrades`
 * says a list of groups is that fixture and `IsSamplePositions` says a
 * list of positions is the fixture of three position snapshots, one of
 * them a closed BTC position of size 0.
 */
module HistoryScenarios {
  import opened CoinOrder
  import opened Ledger
  import opened PnlAggregation

  /** The fills of one coin, as (time, closedPnl) legs in fixture order. */
  datatype Trades = Trades(coin: string, legs: seq<(int, real)>)

  function Legs(coin: string, legs: seq<(int, real)>): (r: seq<Fill>)
    ensures |r| == |legs|
    ensures forall f :: f in r ==> f.coin == coin
  {
    if legs == [] then [] else [Fill(coin, legs[0].0, legs[0].1)] + Legs(coin, legs[1..])
  }

  function Expand(groups: seq<Trades>): seq<Fill>
  {
    if groups == [] then [] else Legs(groups[0].coin, groups[0].legs) + Expand(groups[1..])
  }

  /** No coin has two groups. */
  predicate DistinctCoins(groups: seq<Trades>)
  {
    forall i, j :: 0 <= i < j < |groups| ==> groups[i].coin != groups[j].coin
  }

  /** Midnight UTC of 26 October 2024, the cutoff of the time-window test. */
  const Oct26Cutoff: int := 1729900800000

  function BtcLegs(): seq<(int, real)> { [(1729918080000, -5.91), (1728244500000, 0.0)] }
  function SolLegs(): seq<(int, real)> { [(1729917960000, 0.0), (1728244500000, 0.0)] }
  function EthLegs(): seq<(int, real)> { [(1729917960000, 0.0), (1728244500000, 0.0), (1728244500000, 0.0)] }
  function ApeLegs(): seq<(int, real)> { [(1729917900000, -0.15), (1729916820000, 0.0)] }
  function GrassLegs(): seq<(int, real)> { [(1729917900000, 0.10), (1729916820000, 0.0)] }
  function MavLegs(): seq<(int, real)> { [(1729916820000, 17.26), (1728244560000, 0.0)] }
  function AptLegs(): seq<(int, real)> { [(1729916820000, -19.45), (1728244500000, 0.0)] }
  function RsrLegs(): seq<(int, real)> { [(1729916820000, 8.51), (1728244560000, 0.0)] }
  function BnbLegs(): seq<(int, real)> { [(1729916820000, -4.34), (1728244500000, 0.0)] }

  /**
   * The fill fixture: `groups` lists these nine coins with these legs, in
   * this order.  The scenarios below are stated for any `groups` meeting
   * it; `SampleTradesExact` shows it pins down `SampleTrades`.
   */
  predicate IsSampleTrades(groups: seq<Trades>)
  {
    && |groups| == 9
    && groups[0] == Trades("BTC", BtcLegs())
    && groups[1] == Trades("SOL", SolLegs())
    && groups[2] == Trades("ETH", EthLegs())
    && groups[3] == Trades("APE", ApeLegs())
    && groups[4] == Trades("GRASS", GrassLegs())
    && groups[5] == Trades("MAV", MavLegs())
    && groups[6] == Trades("APT", AptLegs())
    && groups[7] == Trades("RSR", RsrLegs())
    && groups[8] == Trades("BNB", BnbLegs())
  }

  function SampleTrades(): seq<Trades>
  {
    [ Trades("BTC", BtcLegs()),
      Trades("SOL", SolLegs()),
      Trades("ETH", EthLegs()),
      Trades("APE", ApeLegs()),
      Trades("GRASS", GrassLegs()),
      Trades("MAV", MavLegs()),
      Trades("APT", AptLegs()),
      Trades("RSR", RsrLegs()),
      Trades("BNB", BnbLegs()) ]
  }

  lemma SampleTradesExact(groups: seq<Trades>)
    ensures IsSampleTrades(groups) <==> groups == SampleTrades()
  {
    if IsSampleTrades(groups) {
      assert forall j :: 0 <= j < 9 ==> groups[j] == SampleTrades()[j];
    }
  }

  /**
   * The position fixture: open SOL and ETH positions and a BTC position
   * closed down to size 0.
   */
  predicate IsSamplePositions(positions: seq<Position>)
  {
    && |positions| == 3
    && positions[0] == Position("SOL", 0.37, 1.65)
    && positions[1] == Position("ETH", 0.0185, 1.85)
    && positions[2] == Position("BTC", 0.0, 0.0)
  }

  lemma {:induction false} FilterLegs(coin: string, legs: seq<(int, real)>, c: string)
    ensures FilterCoin(Legs(coin, legs), c) == if coin == c then Legs(coin, legs) else []
  {
    if legs != [] {
      FilterLegs(coin, legs[1..], c);
    }
  }

  lemma {:induction false} FilterExpandAbsent(groups: seq<Trades>, c: string)
    requires forall i :: 0 <= i < |groups| ==> groups[i].coin != c
    ensures FilterCoin(Expand(groups), c) == []
  {
    if groups != [] {
      FilterCoinConcat(Legs(groups[0].coin, groups[0].legs), Expand(groups[1..]), c);
      FilterLegs(groups[0].coin, groups[0].legs, c);
      FilterExpandAbsent(groups[1..], c);
    }
  }

  /** With one group per coin, a coin's fills are exactly its group's legs. */
  lemma {:induction false} FilterExpand(groups: seq<Trades>, j: nat)
    requires DistinctCoins(groups) && j < |groups|
    ensures FilterCoin(Expand(groups), groups[j].coin) == Legs(groups[j].coin, groups[j].legs)
  {
    var c := groups[j].coin;
    var head := Legs(groups[0].coin, groups[0].legs);
    FilterCoinConcat(head, Expand(groups[1..]), c);
    FilterLegs(groups[0].coin, groups[0].legs, c);
    if j == 0 {
      FilterExpandAbsent(groups[1..], c);
      assert head + [] == head;
    } else {
      assert groups[0].coin != groups[j].coin;
      FilterExpand(groups[1..], j - 1);
    }
  }

  lemma SampleCoinsDistinct(groups: seq<Trades>)
    requires IsSampleTrades(groups)
    ensures DistinctCoins(groups)
  {
  }

  /**
   * With one group per coin, each group's coin is listed with the total of
   * its own legs.
   */
  lemma GroupEntry(groups: seq<Trades>, positions: seq<Position>, j: nat)
    requires DistinctCoins(groups) && j < |groups| && groups[j].legs != []
    ensures groups[j].coin in Aggregate(Expand(groups), positions).entries
    ensures Aggregate(Expand(groups), positions).entries[groups[j].coin].realizedPnl
      == ClosedTotal(Legs(groups[j].coin, groups[j].legs))
  {
    var g := groups[j];
    FilterExpand(groups, j);
    var f := Legs(g.coin, g.legs)[0];
    assert f in FilterCoin(Expand(groups), g.coin);
    assert g.coin in FillCoins(Expand(groups));
  }

  /** Totals of a coin with two fills, all-time and from `cutoff` on. */
  lemma PairTotals(coin: string, a: (int, real), b: (int, real), cutoff: int)
    ensures ClosedTotal(Legs(coin, [a, b])) == a.1 + b.1
    ensures WindowTotal(Legs(coin, [a, b]), cutoff)
      == (if a.0 >= cutoff then a.1 else 0.0) + (if b.0 >= cutoff then b.1 else 0.0)
  {
    var tail := [Fill(coin, b.0, b.1)];
    assert Legs(coin, [b]) == tail by {
      assert [b][1..] == [];
    }
    assert [a, b][1..] == [b];
    var fs := Legs(coin, [a, b]);
    assert fs == [Fill(coin, a.0, a.1)] + tail;
    assert fs[1..] == tail && tail[1..] == [];
    assert ClosedTotal(tail) == b.1;
    assert WindowTotal(tail, cutoff) == if b.0 >= cutoff then b.1 else 0.0;
  }

  /** Fills whose `closedPnl` is 0 (the fixture's opening legs) realize nothing, in any window. */
  lemma {:induction false} OpeningLegs(coin: string, legs: seq<(int, real)>, cutoff: int)
    requires forall k :: 0 <= k < |legs| ==> legs[k].1 == 0.0
    ensures ClosedTotal(Legs(coin, legs)) == 0.0
    ensures WindowTotal(Legs(coin, legs), cutoff) == 0.0
  {
    if legs != [] {
      OpeningLegs(coin, legs[1..], cutoff);
    }
  }

  /** Each fixture coin's realized PnL, in fixture order. */
  function SampleClosingTotals(): seq<real>
  {
    [-5.91, 0.0, 0.0, -0.15, 0.10, 17.26, -19.45, 8.51, -4.34]
  }

  /**
   * Every closing fill of the fixture falls on 26 October, so each coin's
   * window total from midnight is its whole realized PnL.
   */
  lemma SampleCoinTotals(groups: seq<Trades>, j: nat)
    requires IsSampleTrades(groups) && j < |groups|
    ensures groups[j].legs != []
    ensures ClosedTotal(Legs(groups[j].coin, groups[j].legs)) == SampleClosingTotals()[j]
    ensures WindowTotal(Legs(groups[j].coin, groups[j].legs), Oct26Cutoff) == SampleClosingTotals()[j]
  {
    if j == 0 {
      PairTotals("BTC", (1729918080000, -5.91), (1728244500000, 0.0), Oct26Cutoff);
    } else if j == 1 {
      PairTotals("SOL", (1729917960000, 0.0), (1728244500000, 0.0), Oct26Cutoff);
    } else if j == 2 {
      OpeningLegs("ETH", EthLegs(), Oct26Cutoff);
    } else if j == 3 {
      PairTotals("APE", (1729917900000, -0.15), (1729916820000, 0.0), Oct26Cutoff);
    } else if j == 4 {
      PairTotals("GRASS", (1729917900000, 0.10), (1729916820000, 0.0), Oct26Cutoff);
    } else if j == 5 {
      PairTotals("MAV", (1729916820000, 17.26), (1728244560000, 0.0), Oct26Cutoff);
    } else if j == 6 {
      PairTotals("APT", (1729916820000, -19.45), (1728244500000, 0.0), Oct26Cutoff);
    } else if j == 7 {
      PairTotals("RSR", (1729916820000, 8.51), (1728244560000, 0.0), Oct26Cutoff);
    } else {
      PairTotals("BNB", (1729916820000, -4.34), (1728244500000, 0.0), Oct26Cutoff);
    }
  }

  /** The fixture coin of group `j` is listed with the total of its legs, whatever the positions. */
  lemma SampleRealized(groups: seq<Trades>, positions: seq<Position>, j: nat)
    requires IsSampleTrades(groups) && j < |groups|
    ensures groups[j].coin in Aggregate(Expand(groups), positions).entries
    ensures Aggregate(Expand(groups), positions).entries[groups[j].coin].realizedPnl == SampleClosingTotals()[j]
  {
    SampleCoinsDistinct(groups);
    SampleCoinTotals(groups, j);
    GroupEntry(groups, positions, j);
  }

  /**
   * Whatever the fills, the three snapshot coins report their positions'
   * unrealized PnL, the closed BTC one included.
   */
  lemma SamplePositionsReported(fills: seq<Fill>, positions: seq<Position>)
    requires IsSamplePositions(positions)
    ensures var e := Aggregate(fills, positions).entries;
      && "SOL" in e && e["SOL"].unrealizedPnl == 1.65
      && "ETH" in e && e["ETH"].unrealizedPnl == 1.85
      && "BTC" in e && e["BTC"].unrealizedPnl == 0.0
  {
    assert OnePositionPerCoin(positions);
    PositionAlwaysListed(fills, positions, positions[0]);
    PositionAlwaysListed(fills, positions, positions[1]);
    PositionAlwaysListed(fills, positions, positions[2]);
  }

  /** The position fixture has snapshots of SOL, ETH and BTC only. */
  lemma SampleSnapshotCoins(positions: seq<Position>, c: string)
    requires IsSamplePositions(positions)
    requires c != "SOL" && c != "ETH" && c != "BTC"
    ensures c !in PositionCoins(positions)
  {
  }

  /**
   * Each closing coin is listed with its closedPnl; SOL and ETH, only
   * opened, with 0.
   */
  lemma SampleRealizedScenario(groups: seq<Trades>, positions: seq<Position>)
    requires IsSampleTrades(groups)
    ensures var e := Aggregate(Expand(groups), positions).entries;
      && "BTC" in e && e["BTC"].realizedPnl == -5.91
      && "SOL" in e && e["SOL"].realizedPnl == 0.0
      && "ETH" in e && e["ETH"].realizedPnl == 0.0
      && "APE" in e && e["APE"].realizedPnl == -0.15
      && "GRASS" in e && e["GRASS"].realizedPnl == 0.10
      && "MAV" in e && e["MAV"].realizedPnl == 17.26
      && "APT" in e && e["APT"].realizedPnl == -19.45
      && "RSR" in e && e["RSR"].realizedPnl == 8.51
      && "BNB" in e && e["BNB"].realizedPnl == -4.34
  {
    SampleRealized(groups, positions, 0);
    SampleRealized(groups, positions, 1);
    SampleRealized(groups, positions, 2);
    SampleRealized(groups, positions, 3);
    SampleRealized(groups, positions, 4);
    SampleRealized(groups, positions, 5);
    SampleRealized(groups, positions, 6);
    SampleRealized(groups, positions, 7);
    SampleRealized(groups, positions, 8);
  }

  /**
   * SOL and ETH report their open positions' unrealized PnL; BTC, whose
   * snapshot has size 0, and APE and MAV, with no snapshot, report 0.
   */
  lemma SampleUnrealizedScenario(groups: seq<Trades>, positions: seq<Position>)
    requires IsSampleTrades(groups) && IsSamplePositions(positions)
    ensures var e := Aggregate(Expand(groups), positions).entries;
      && "SOL" in e && e["SOL"].unrealizedPnl == 1.65
      && "ETH" in e && e["ETH"].unrealizedPnl == 1.85
      && "BTC" in e && e["BTC"].unrealizedPnl == 0.0
      && "APE" in e && e["APE"].unrealizedPnl == 0.0
      && "MAV" in e && e["MAV"].unrealizedPnl == 0.0
  {
    SamplePositionsReported(Expand(groups), positions);
    SampleRealized(groups, positions, 3);
    SampleRealized(groups, positions, 5);
    SampleSnapshotCoins(positions, "APE");
    SampleSnapshotCoins(positions, "MAV");
    MissingSideIsZero(Expand(groups), positions, "APE");
    MissingSideIsZero(Expand(groups), positions, "MAV");
  }

  /**
   * BTC has two fills; ETH keeps all three.  Two of the ETH fills share one
   * order id and differ only in fields the model drops, so here they are
   * equal records, and the filter keeps both.
   */
  lemma CoinFilterScenario(groups: seq<Trades>)
    requires IsSampleTrades(groups)
    ensures |FilterCoin(Expand(groups), "BTC")| == 2
    ensures |FilterCoin(Expand(groups), "ETH")| == 3
    ensures FilterCoin(Expand(groups), "ETH")[1] == FilterCoin(Expand(groups), "ETH")[2]
  {
    SampleCoinsDistinct(groups);
    FilterExpand(groups, 0);
    FilterExpand(groups, 2);
    RepeatedLeg("ETH", EthLegs()[0], EthLegs()[1]);
    assert EthLegs() == [EthLegs()[0], EthLegs()[1], EthLegs()[1]];
  }

  /** A leg listed twice in a row gives two equal fills. */
  lemma RepeatedLeg(coin: string, a: (int, real), b: (int, real))
    ensures |Legs(coin, [a, b, b])| == 3
    ensures Legs(coin, [a, b, b])[1] == Legs(coin, [a, b, b])[2] == Fill(coin, b.0, b.1)
  {
    var fb := Fill(coin, b.0, b.1);
    assert Legs(coin, [b]) == [fb] by {
      assert [b][1..] == [];
    }
    assert Legs(coin, [b, b]) == [fb, fb] by {
      assert [b, b][1..] == [b];
    }
    assert Legs(coin, [a, b, b]) == [Fill(coin, a.0, a.1), fb, fb] by {
      assert [a, b, b][1..] == [b, b];
    }
  }

  /** A list of amounts, added up. */
  function RealSum(xs: seq<real>): real
  {
    if xs == [] then 0.0 else xs[0] + RealSum(xs[1..])
  }

  /**
   * The window total of the expanded fills adds up the window totals of
   * the groups, given as `ws`.
   */
  lemma {:induction false} WindowExpand(groups: seq<Trades>, ws: seq<real>, cutoff: int)
    requires |ws| == |groups|
    requires forall j :: 0 <= j < |groups| ==> WindowTotal(Legs(groups[j].coin, groups[j].legs), cutoff) == ws[j]
    ensures WindowTotal(Expand(groups), cutoff) == RealSum(ws)
  {
    if groups != [] {
      WindowTotalConcat(Legs(groups[0].coin, groups[0].legs), Expand(groups[1..]), cutoff);
      assert forall j :: 0 <= j < |groups[1..]| ==> groups[1..][j] == groups[j + 1] && ws[1..][j] == ws[j + 1];
      WindowExpand(groups[1..], ws[1..], cutoff);
    }
  }

  /**
   * The window from midnight of 26 October keeps every closing fill (and
   * the opens of that day, which add nothing).
   */
  lemma TimeFilterScenario(groups: seq<Trades>)
    requires IsSampleTrades(groups)
    ensures TotalRealized(Aggregate(FilterSince(Expand(groups), Oct26Cutoff), []))
      == -5.91 - 0.15 + 0.10 + 17.26 - 19.45 + 8.51 - 4.34
  {
    TimeWindowTotal(Expand(groups), Oct26Cutoff);
    forall j | 0 <= j < |groups|
      ensures WindowTotal(Legs(groups[j].coin, groups[j].legs), Oct26Cutoff) == SampleClosingTotals()[j]
    {
      SampleCoinTotals(groups, j);
    }
    WindowExpand(groups, SampleClosingTotals(), Oct26Cutoff);
    SampleClosingSum();
  }

  /** The per-coin closing totals of the fixture add up to the expected window total. */
  lemma SampleClosingSum()
    ensures RealSum(SampleClosingTotals()) == -5.91 - 0.15 + 0.10 + 17.26 - 19.45 + 8.51 - 4.34
  {
  }

  /** The fills of the totals test; they carry no time, which is taken as 0. */
  function TotalFills(): seq<Fill>
  {
    [Fill("BTC", 0, 10.5), Fill("ETH", 0, -5.3), Fill("BTC", 0, 2.1)]
  }

  /** Fills BTC 10.5, ETH -5.3, BTC 2.1 and no positions: BTC and ETH, in that order. */
  lemma TotalScenarioKeys()
    ensures Aggregate(TotalFills(), []).coins == ["BTC", "ETH"]
  {
    assert FillCoins(TotalFills()) == {"BTC", "ETH"};
    assert PositionCoins([]) == {};
    assert Less("BTC", "ETH");
    KeysAreSortedCoins(TotalFills(), [], ["BTC", "ETH"]);
  }

  /** BTC realizes 10.5 + 2.1 over its two fills, ETH -5.3; neither has unrealized PnL. */
  lemma TotalScenarioEntries()
    ensures var e := Aggregate(TotalFills(), []).entries;
      && "BTC" in e && e["BTC"] == PnlEntry(12.6, 0.0)
      && "ETH" in e && e["ETH"] == PnlEntry(-5.3, 0.0)
  {
    assert "BTC" in FillCoins(TotalFills()) && "ETH" in FillCoins(TotalFills());
    assert PositionCoins([]) == {};
    assert RealizedOf(TotalFills(), "BTC") == 12.6;
    assert RealizedOf(TotalFills(), "ETH") == -5.3;
  }

  /** Realized PnL adds up to 10.5 - 5.3 + 2.1; unrealized to 0. */
  lemma TotalScenarioSums()
    ensures TotalRealized(Aggregate(TotalFills(), [])) == 7.3
    ensures TotalUnrealized(Aggregate(TotalFills(), [])) == 0.0
  {
    TotalRealizedIsClosedTotal(TotalFills(), []);
    NoPositionsNoUnrealized(TotalFills());
  }

  /**
   * Fills of ZEC, APE, BTC and ETH, in that order and whatever their times
   * and amounts, come out as APE, BTC, ETH, ZEC.
   */
  lemma SortingScenario(fills: seq<Fill>)
    requires |fills| == 4
    requires fills[0].coin == "ZEC" && fills[1].coin == "APE" && fills[2].coin == "BTC" && fills[3].coin == "ETH"
    ensures Aggregate(fills, []).coins == ["APE", "BTC", "ETH", "ZEC"]
  {
    var ks := ["APE", "BTC", "ETH", "ZEC"];
    assert FillCoins(fills) == Elems(ks) by {
      assert forall f | f in fills :: f == fills[0] || f == fills[1] || f == fills[2] || f == fills[3];
      assert fills[0] in fills && fills[1] in fills && fills[2] in fills && fills[3] in fills;
    }
    assert PositionCoins([]) == {};
    assert Less("APE", "BTC") && Less("BTC", "ETH") && Less("ETH", "ZEC");
    assert StrictlySorted(ks) by {
      LessTransitive("APE", "BTC", "ETH");
      LessTransitive("APE", "ETH", "ZEC");
      LessTransitive("BTC", "ETH", "ZEC");
    }
    KeysAreSortedCoins(fills, [], ks);
  }

  /** No fills and no positions give the empty summary. */
  lemma EmptyScenario()
    ensures Aggregate([], []) == Summary([], map[])
  {
    EmptyIffNoInput([], []);
  }
}
