/**
 * Fills and positions, the two inputs of the PnL aggregation, and the
 * per-coin reductions over each of them.
 *
 * A fill is one executed trade leg; only its coin, its timestamp (epoch
 * milliseconds) and its realized PnL (`closedPnl`) matter here.  A
 * position is a snapshot of the exposure currently held in one coin; only
 * its coin and its unrealized PnL matter here (its size is carried but never
 * read).  Money is a `real`, so every decimal amount is exact.
 */
module Ledger {
  import opened CoinOrder

  datatype Fill = Fill(coin: string, time: int, closedPnl: real)

  datatype Position = Position(coin: string, size: real, unrealizedPnl: real)

  /** The total realized PnL of a list of fills: their `closedPnl` added up. */
  function ClosedTotal(fills: seq<Fill>): real
  {
    if fills == [] then 0.0 else fills[0].closedPnl + ClosedTotal(fills[1..])
  }

  /**
   * The coin filter the tests apply on its own (its result is not
   * aggregated): keeps every fill of that coin, in order, repeated fills
   * included (nothing is merged by order id), and nothing else.
   */
  function FilterCoin(fills: seq<Fill>, coin: string): (r: seq<Fill>)
    ensures forall f :: f in r ==> f in fills && f.coin == coin
    ensures |r| <= |fills|
  {
    if fills == [] then []
    else if fills[0].coin == coin then [fills[0]] + FilterCoin(fills[1..], coin)
    else FilterCoin(fills[1..], coin)
  }

  /**
   * Each fill of the coin is kept as many times as it occurs; every other
   * fill is dropped.
   */
  lemma {:induction false} FilterCoinCount(fills: seq<Fill>, coin: string, f: Fill)
    ensures multiset(FilterCoin(fills, coin))[f] == if f.coin == coin then multiset(fills)[f] else 0
  {
    if fills != [] {
      assert fills == [fills[0]] + fills[1..];
      FilterCoinCount(fills[1..], coin, f);
    }
  }

  /**
   * The time filter the tests apply before aggregating: the fills executed
   * at or after `cutoff`, in order, and nothing else.
   */
  function FilterSince(fills: seq<Fill>, cutoff: int): (r: seq<Fill>)
    ensures forall f :: f in r ==> f in fills && f.time >= cutoff
    ensures |r| <= |fills|
  {
    if fills == [] then []
    else if fills[0].time >= cutoff then [fills[0]] + FilterSince(fills[1..], cutoff)
    else FilterSince(fills[1..], cutoff)
  }

  /** Each fill at or after the cutoff is kept as many times as it occurs. */
  lemma {:induction false} FilterSinceCount(fills: seq<Fill>, cutoff: int, f: Fill)
    ensures multiset(FilterSince(fills, cutoff))[f] == if f.time >= cutoff then multiset(fills)[f] else 0
  {
    if fills != [] {
      assert fills == [fills[0]] + fills[1..];
      FilterSinceCount(fills[1..], cutoff, f);
    }
  }

  /** The realized PnL booked at or after `cutoff`, fill by fill. */
  function WindowTotal(fills: seq<Fill>, cutoff: int): real
  {
    if fills == [] then 0.0
    else (if fills[0].time >= cutoff then fills[0].closedPnl else 0.0) + WindowTotal(fills[1..], cutoff)
  }

  /** The time-filtered list totals exactly the fills inside the window. */
  lemma {:induction false} FilterSinceTotal(fills: seq<Fill>, cutoff: int)
    ensures ClosedTotal(FilterSince(fills, cutoff)) == WindowTotal(fills, cutoff)
  {
    if fills != [] {
      FilterSinceTotal(fills[1..], cutoff);
    }
  }

  lemma {:induction false} WindowTotalConcat(a: seq<Fill>, b: seq<Fill>, cutoff: int)
    ensures WindowTotal(a + b, cutoff) == WindowTotal(a, cutoff) + WindowTotal(b, cutoff)
  {
    if a == [] {
      assert a + b == b;
    } else {
      assert a + b == [a[0]] + (a[1..] + b);
      WindowTotalConcat(a[1..], b, cutoff);
    }
  }

  /** The coin filter of a concatenation is the concatenation of the filters. */
  lemma {:induction false} FilterCoinConcat(a: seq<Fill>, b: seq<Fill>, coin: string)
    ensures FilterCoin(a + b, coin) == FilterCoin(a, coin) + FilterCoin(b, coin)
  {
    if a == [] {
      assert a + b == b;
    } else {
      assert a + b == [a[0]] + (a[1..] + b);
      FilterCoinConcat(a[1..], b, coin);
    }
  }

  /** Filtering by a coin twice keeps the same fills as filtering once. */
  lemma {:induction false} FilterCoinIdempotent(fills: seq<Fill>, coin: string)
    ensures FilterCoin(FilterCoin(fills, coin), coin) == FilterCoin(fills, coin)
  {
    if fills != [] {
      FilterCoinIdempotent(fills[1..], coin);
    }
  }

  /** The coin filter keeps the fills of that coin and drops every other coin. */
  lemma FilterCoinCoins(fills: seq<Fill>, coin: string)
    ensures FillCoins(FilterCoin(fills, coin)) == if coin in FillCoins(fills) then {coin} else {}
  {
    if coin in FillCoins(fills) {
      var f :| f in fills && f.coin == coin;
      FilterCoinCount(fills, coin, f);
      assert f in FilterCoin(fills, coin);
    }
  }

  /** The realized PnL of one coin: the total `closedPnl` of its fills. */
  function RealizedOf(fills: seq<Fill>, coin: string): real
  {
    ClosedTotal(FilterCoin(fills, coin))
  }

  /** Every coin some fill was executed in. */
  function FillCoins(fills: seq<Fill>): set<string>
  {
    set f | f in fills :: f.coin
  }

  /** Every coin some position snapshot is held in. */
  function PositionCoins(positions: seq<Position>): set<string>
  {
    set p | p in positions :: p.coin
  }

  /** Position `i` is the last one in the snapshot list for its coin. */
  predicate LatestFor(positions: seq<Position>, i: int)
  {
    0 <= i < |positions| && forall j :: i < j < |positions| ==> positions[j].coin != positions[i].coin
  }

  /** The snapshot holds at most one position per coin. */
  predicate OnePositionPerCoin(positions: seq<Position>)
  {
    forall i, j :: 0 <= i < j < |positions| ==> positions[i].coin != positions[j].coin
  }

  lemma {:induction false} ClosedTotalAppend(fills: seq<Fill>, f: Fill)
    ensures ClosedTotal(fills + [f]) == ClosedTotal(fills) + f.closedPnl
  {
    if fills != [] {
      assert (fills + [f])[1..] == fills[1..] + [f];
      ClosedTotalAppend(fills[1..], f);
    }
  }

  lemma {:induction false} ClosedTotalConcat(a: seq<Fill>, b: seq<Fill>)
    ensures ClosedTotal(a + b) == ClosedTotal(a) + ClosedTotal(b)
  {
    if a == [] {
      assert a + b == b;
    } else {
      assert a + b == [a[0]] + (a[1..] + b);
      ClosedTotalConcat(a[1..], b);
    }
  }

  /** The total of a list of fills does not depend on their order. */
  lemma {:induction false} ClosedTotalPermutation(a: seq<Fill>, b: seq<Fill>)
    requires multiset(a) == multiset(b)
    ensures ClosedTotal(a) == ClosedTotal(b)
    decreases |a|
  {
    if a == [] {
      assert |b| == |multiset(b)|;
    } else {
      assert a[0] in multiset(b);
      var k :| 0 <= k < |b| && b[k] == a[0];
      var rest := RemoveAt(b, k);
      DropHead(a);
      ClosedTotalPermutation(a[1..], rest);
    }
  }

  lemma DropHead(a: seq<Fill>)
    requires a != []
    ensures multiset(a[1..]) == multiset(a) - multiset{a[0]}
  {
    assert a == [a[0]] + a[1..];
  }

  /** `b` without its `k`-th fill, whose amount it no longer counts. */
  function RemoveAt(b: seq<Fill>, k: nat): (rest: seq<Fill>)
    requires k < |b|
    ensures multiset(rest) == multiset(b) - multiset{b[k]}
    ensures ClosedTotal(b) == b[k].closedPnl + ClosedTotal(rest)
  {
    assert b == b[..k] + ([b[k]] + b[k + 1..]);
    ClosedTotalConcat(b[..k], [b[k]] + b[k + 1..]);
    ClosedTotalConcat(b[..k], b[k + 1..]);
    b[..k] + b[k + 1..]
  }

  lemma {:induction false} FilterCoinAppend(fills: seq<Fill>, f: Fill, coin: string)
    ensures FilterCoin(fills + [f], coin) ==
      FilterCoin(fills, coin) + (if f.coin == coin then [f] else [])
  {
    if fills != [] {
      assert (fills + [f])[1..] == fills[1..] + [f];
      FilterCoinAppend(fills[1..], f, coin);
    }
  }

  lemma RealizedOfAppend(fills: seq<Fill>, f: Fill, coin: string)
    ensures RealizedOf(fills + [f], coin) ==
      RealizedOf(fills, coin) + (if f.coin == coin then f.closedPnl else 0.0)
  {
    FilterCoinAppend(fills, f, coin);
    if f.coin == coin {
      ClosedTotalAppend(FilterCoin(fills, coin), f);
    } else {
      assert FilterCoin(fills, coin) + [] == FilterCoin(fills, coin);
    }
  }

  /** A coin none of the fills was executed in has realized PnL 0. */
  lemma {:induction false} RealizedOfAbsentCoin(fills: seq<Fill>, coin: string)
    requires coin !in FillCoins(fills)
    ensures RealizedOf(fills, coin) == 0.0
  {
    if fills != [] {
      assert fills[0] in fills;
      assert FillCoins(fills[1..]) <= FillCoins(fills);
      RealizedOfAbsentCoin(fills[1..], coin);
    }
  }

  /**
   * The fill ledger reducer: one pass over the fills, creating a coin's
   * total at 0 the first time the coin is seen and adding each fill's
   * `closedPnl` into it.
   */
  function RealizedByCoin(fills: seq<Fill>): map<string, real>
  {
    if fills == [] then map[]
    else
      var m := RealizedByCoin(fills[..|fills| - 1]);
      var f := fills[|fills| - 1];
      m[f.coin := (if f.coin in m then m[f.coin] else 0.0) + f.closedPnl]
  }

  /**
   * Every coin of the fills gets exactly one total, the sum of that coin's
   * `closedPnl`, and no other coin gets one.
   */
  lemma {:induction false} RealizedByCoinCorrect(fills: seq<Fill>)
    ensures RealizedByCoin(fills).Keys == FillCoins(fills)
    ensures forall c :: c in RealizedByCoin(fills) ==> RealizedByCoin(fills)[c] == RealizedOf(fills, c)
  {
    if fills != [] {
      var prefix, f := fills[..|fills| - 1], fills[|fills| - 1];
      RealizedByCoinCorrect(prefix);
      assert fills == prefix + [f];
      RealizedStep(prefix, f, RealizedByCoin(prefix), RealizedByCoin(fills));
    }
  }

  lemma RealizedByCoinSnoc(prefix: seq<Fill>, f: Fill)
    ensures RealizedByCoin(prefix + [f]) ==
      var m := RealizedByCoin(prefix);
      m[f.coin := (if f.coin in m then m[f.coin] else 0.0) + f.closedPnl]
  {
    var fills := prefix + [f];
    assert fills[..|fills| - 1] == prefix;
    assert fills[|fills| - 1] == f;
    var m := RealizedByCoin(prefix);
    assert RealizedByCoin(fills) == m[f.coin := (if f.coin in m then m[f.coin] else 0.0) + f.closedPnl];
  }

  /** One step of the reducer keeps every total equal to its coin's sum. */
  lemma RealizedStep(prefix: seq<Fill>, f: Fill, m: map<string, real>, r: map<string, real>)
    requires m.Keys == FillCoins(prefix)
    requires forall c :: c in m ==> m[c] == RealizedOf(prefix, c)
    requires r == m[f.coin := (if f.coin in m then m[f.coin] else 0.0) + f.closedPnl]
    ensures r.Keys == FillCoins(prefix + [f])
    ensures forall c :: c in r ==> r[c] == RealizedOf(prefix + [f], c)
  {
    assert FillCoins(prefix + [f]) == FillCoins(prefix) + {f.coin};
    forall c | c in r
      ensures r[c] == RealizedOf(prefix + [f], c)
    {
      RealizedOfAppend(prefix, f, c);
      if c !in m {
        RealizedOfAbsentCoin(prefix, c);
      }
    }
  }

  /**
   * The same reducer as a loop over the fills with a map accumulator; it
   * computes exactly the fold above.
   */
  method ReduceFills(fills: seq<Fill>) returns (totals: map<string, real>)
    ensures totals == RealizedByCoin(fills)
    ensures totals.Keys == FillCoins(fills)
    ensures forall c :: c in totals ==> totals[c] == RealizedOf(fills, c)
  {
    totals := map[];
    var i := 0;
    while i < |fills|
      invariant 0 <= i <= |fills|
      invariant totals == RealizedByCoin(fills[..i])
    {
      var f := fills[i];
      var running := if f.coin in totals then totals[f.coin] else 0.0;
      assert fills[..i + 1] == fills[..i] + [f];
      RealizedByCoinSnoc(fills[..i], f);
      totals := totals[f.coin := running + f.closedPnl];
      i := i + 1;
    }
    assert fills[..i] == fills;
    RealizedByCoinCorrect(fills);
  }

  /**
   * The position valuator: one pass over the snapshot recording each
   * position's unrealized PnL under its coin.  A position of size 0 still
   * gets its entry, and when two positions share a coin the later one
   * overwrites the earlier.
   */
  function UnrealizedByCoin(positions: seq<Position>): (r: map<string, real>)
    ensures r.Keys == PositionCoins(positions)
    ensures forall c :: c in r ==>
      exists i :: LatestFor(positions, i) && positions[i].coin == c && r[c] == positions[i].unrealizedPnl
  {
    if positions == [] then map[]
    else
      var prefix, p := positions[..|positions| - 1], positions[|positions| - 1];
      var m := UnrealizedByCoin(prefix);
      var r := m[p.coin := p.unrealizedPnl];
      UnrealizedStep(prefix, p, m, r);
      assert positions == prefix + [p];
      r
  }

  /** Recording one more position keeps every coin at its latest position. */
  lemma UnrealizedStep(prefix: seq<Position>, p: Position, m: map<string, real>, r: map<string, real>)
    requires m.Keys == PositionCoins(prefix)
    requires forall c :: c in m ==>
      exists i :: LatestFor(prefix, i) && prefix[i].coin == c && m[c] == prefix[i].unrealizedPnl
    requires r == m[p.coin := p.unrealizedPnl]
    ensures r.Keys == PositionCoins(prefix + [p])
    ensures forall c :: c in r ==>
      exists i :: LatestFor(prefix + [p], i) && (prefix + [p])[i].coin == c && r[c] == (prefix + [p])[i].unrealizedPnl
  {
    var positions := prefix + [p];
    assert PositionCoins(positions) == PositionCoins(prefix) + {p.coin};
    forall c | c in r
      ensures exists i :: LatestFor(positions, i) && positions[i].coin == c && r[c] == positions[i].unrealizedPnl
    {
      if c == p.coin {
        assert LatestFor(positions, |prefix|);
      } else {
        var i :| LatestFor(prefix, i) && prefix[i].coin == c && m[c] == prefix[i].unrealizedPnl;
        assert LatestFor(positions, i);
      }
    }
  }

  /**
   * With at most one position per coin (the usual snapshot), a coin's
   * unrealized PnL is that of its position.
   */
  lemma UnrealizedOfSolePosition(positions: seq<Position>, p: Position)
    requires OnePositionPerCoin(positions) && p in positions
    ensures p.coin in UnrealizedByCoin(positions)
    ensures UnrealizedByCoin(positions)[p.coin] == p.unrealizedPnl
  {
    var m := UnrealizedByCoin(positions);
    var k :| 0 <= k < |positions| && positions[k] == p;
    assert p.coin in PositionCoins(positions);
    var i :| LatestFor(positions, i) && positions[i].coin == p.coin && m[p.coin] == positions[i].unrealizedPnl;
  }
}
