/** The logarithmic price ladder: level `i` sits `spread * multiplier^i`
    below (buy) or above (sell) the reference price, so rungs are dense near
    the price and spread out further away. */
module Ladder {
  import opened Basics
  import opened Grid
  import opened Risk

  /** Fractional distance of level `i` from the reference price. */
  function Distance(spread: real, multiplier: real, i: nat): real
  {
    spread * Pow(multiplier, i)
  }

  /** The price of level `i` before rounding. */
  function RawPrice(side: Side, reference: real, spread: real, multiplier: real, i: nat): real
  {
    if side == Buy then reference * (1.0 - Distance(spread, multiplier, i))
    else reference * (1.0 + Distance(spread, multiplier, i))
  }

  /** The price the engine stores for level `i`: the raw price rounded to six
      decimal places. */
  function LevelPrice(cfg: GridConfig, side: Side, reference: real, i: nat): real
  {
    Round6(RawPrice(side, reference, cfg.gridSpread, cfg.logMultiplier, i))
  }

  /** A level as the ladder builds it: pending, and without an order id entry. */
  function FreshLevel(cfg: GridConfig, side: Side, reference: real, i: nat): Level
    requires reference != 0.0
  {
    Level(i, side, LevelPrice(cfg, side, reference, i), cfg.levelAmount / reference, Missing, Pending)
  }

  /** One of the two loops of `create_grid`: levels `0 .. n-1` of one side, in
      order. */
  function Legs(cfg: GridConfig, side: Side, reference: real, n: nat): (legs: seq<Level>)
    requires reference != 0.0
    ensures |legs| == n
    ensures forall i :: 0 <= i < n ==> legs[i] == FreshLevel(cfg, side, reference, i)
  {
    if n == 0 then [] else Legs(cfg, side, reference, n - 1) + [FreshLevel(cfg, side, reference, n - 1)]
  }

  /** The ladder `create_grid` builds: every buy level, then every sell level. */
  function BuildLadder(cfg: GridConfig, reference: real): seq<Level>
    requires reference != 0.0
  {
    Legs(cfg, Buy, reference, cfg.gridLevels) + Legs(cfg, Sell, reference, cfg.gridLevels)
  }

  /** The ladder has `2 * gridLevels` levels: buys numbered 0 .. n-1, then
      sells numbered 0 .. n-1, all pending, all of the same base amount
      `levelAmount / reference`, none with an order id entry. */
  lemma LadderShape(cfg: GridConfig, reference: real)
    requires reference != 0.0
    ensures var grid := BuildLadder(cfg, reference);
      var n := cfg.gridLevels;
      && |grid| == 2 * n
      && (forall k :: 0 <= k < n ==> grid[k].side == Buy && grid[k].level == k)
      && (forall k :: n <= k < 2 * n ==> grid[k].side == Sell && grid[k].level == k - n)
      && (forall k :: 0 <= k < 2 * n ==>
            && grid[k].status == Pending
            && grid[k].orderId == Missing
            && grid[k].amount == cfg.levelAmount / reference
            && grid[k].price == LevelPrice(cfg, grid[k].side, reference, grid[k].level))
  {
    var n := cfg.gridLevels;
    var grid := BuildLadder(cfg, reference);
    var buys := Legs(cfg, Buy, reference, n);
    var sells := Legs(cfg, Sell, reference, n);
    forall k | n <= k < 2 * n
      ensures grid[k] == FreshLevel(cfg, Sell, reference, k - n)
    {
      assert grid[k] == sells[k - n];
    }
  }

  /** With a positive price, spread and multiplier, every buy rung lies below
      the reference price and every sell rung above it. */
  lemma SidesOfReference(reference: real, spread: real, multiplier: real, i: nat)
    requires reference > 0.0 && spread > 0.0 && multiplier > 0.0
    ensures RawPrice(Buy, reference, spread, multiplier, i) < reference
    ensures reference < RawPrice(Sell, reference, spread, multiplier, i)
  {
    PowPositive(multiplier, i);
    assert Distance(spread, multiplier, i) > 0.0;
  }

  /** With a multiplier above one, rungs further out are strictly further
      away: buy prices fall and sell prices rise with the level number. */
  lemma RungsSpreadOut(reference: real, spread: real, multiplier: real, i: nat, j: nat)
    requires reference > 0.0 && spread > 0.0 && multiplier > 1.0
    requires i < j
    ensures RawPrice(Buy, reference, spread, multiplier, j) < RawPrice(Buy, reference, spread, multiplier, i)
    ensures RawPrice(Sell, reference, spread, multiplier, i) < RawPrice(Sell, reference, spread, multiplier, j)
  {
    PowStrictlyIncreasing(multiplier, i, j);
    var di := Distance(spread, multiplier, i);
    var dj := Distance(spread, multiplier, j);
    assert di < dj;
    assert reference * di < reference * dj;
  }

  /** With a multiplier of exactly one every rung of a side has the same price. */
  lemma FlatLadder(side: Side, reference: real, spread: real, i: nat, j: nat)
    ensures RawPrice(side, reference, spread, 1.0, i) == RawPrice(side, reference, spread, 1.0, j)
  {
    PowOfOne(i);
    PowOfOne(j);
  }

  /** After rounding the order survives, though two neighbouring rungs may now
      share a price. */
  lemma StoredPricesOrdered(cfg: GridConfig, reference: real, i: nat, j: nat)
    requires reference > 0.0 && cfg.gridSpread > 0.0 && cfg.logMultiplier > 1.0
    requires i < j
    ensures LevelPrice(cfg, Buy, reference, j) <= LevelPrice(cfg, Buy, reference, i)
    ensures LevelPrice(cfg, Sell, reference, i) <= LevelPrice(cfg, Sell, reference, j)
  {
    RungsSpreadOut(reference, cfg.gridSpread, cfg.logMultiplier, i, j);
    Round6Monotone(RawPrice(Buy, reference, cfg.gridSpread, cfg.logMultiplier, j),
                   RawPrice(Buy, reference, cfg.gridSpread, cfg.logMultiplier, i));
    Round6Monotone(RawPrice(Sell, reference, cfg.gridSpread, cfg.logMultiplier, i),
                   RawPrice(Sell, reference, cfg.gridSpread, cfg.logMultiplier, j));
  }

  /** Nothing bounds the distance below one: once `spread * multiplier^i`
      reaches one, the buy rung is at or below zero. */
  lemma FarBuyRungNotPositive(reference: real, spread: real, multiplier: real, i: nat)
    requires reference > 0.0
    requires Distance(spread, multiplier, i) >= 1.0
    ensures RawPrice(Buy, reference, spread, multiplier, i) <= 0.0
  {
  }

  lemma OneAndAHalfToTheNineteenth()
    ensures Pow(1.5, 19) == 1162261467.0 / 524288.0
  {
    assert Pow(1.5, 1) == 1.5;
    assert Pow(1.5, 2) == 2.25;
    assert Pow(1.5, 3) == 3.375;
    assert Pow(1.5, 4) == 5.0625;
    assert Pow(1.5, 5) == 243.0 / 32.0;
    assert Pow(1.5, 6) == 729.0 / 64.0;
    assert Pow(1.5, 7) == 2187.0 / 128.0;
    assert Pow(1.5, 8) == 6561.0 / 256.0;
    assert Pow(1.5, 9) == 19683.0 / 512.0;
    assert Pow(1.5, 10) == 59049.0 / 1024.0;
    assert Pow(1.5, 11) == 177147.0 / 2048.0;
    assert Pow(1.5, 12) == 531441.0 / 4096.0;
    assert Pow(1.5, 13) == 1594323.0 / 8192.0;
    assert Pow(1.5, 14) == 4782969.0 / 16384.0;
    assert Pow(1.5, 15) == 14348907.0 / 32768.0;
    assert Pow(1.5, 16) == 43046721.0 / 65536.0;
    assert Pow(1.5, 17) == 129140163.0 / 131072.0;
    assert Pow(1.5, 18) == 387420489.0 / 262144.0;
  }

  /** Risk level 5 (20 levels, spread 0.0005) with the default multiplier 1.5
      puts the last buy rung about 110.8% below the price: for any price of at
      least 0.0001 the stored buy price of level 19 is negative. */
  lemma RiskFiveLastBuyIsNegative(cfg: GridConfig, reference: real)
    requires cfg.gridLevels == RiskLevels[5].gridLevels
    requires cfg.gridSpread == RiskLevels[5].spread
    requires cfg.logMultiplier == 1.5
    requires reference >= 0.0001
    ensures |BuildLadder(cfg, reference)| == 40
    ensures BuildLadder(cfg, reference)[19].side == Buy
    ensures BuildLadder(cfg, reference)[19].price < 0.0
  {
    LadderShape(cfg, reference);
    OneAndAHalfToTheNineteenth();
    var d := Distance(cfg.gridSpread, 1.5, 19);
    assert d == 0.0005 * (1162261467.0 / 524288.0);
    assert d > 1.1;
    var raw := RawPrice(Buy, reference, cfg.gridSpread, 1.5, 19);
    assert raw == reference * (1.0 - d);
    assert raw <= reference * (-0.1);
    assert raw <= -0.00001;
  }

  /** A worked ladder: three levels, spread 1%, multiplier 2, price 1000 give
      buys at 990, 980, 960 and sells at 1010, 1020, 1040. */
  lemma WorkedLadder(cfg: GridConfig)
    requires cfg.gridLevels == 3 && cfg.gridSpread == 0.01 && cfg.logMultiplier == 2.0
    ensures var g := BuildLadder(cfg, 1000.0);
      && |g| == 6
      && g[0].price == 990.0 && g[1].price == 980.0 && g[2].price == 960.0
      && g[3].price == 1010.0 && g[4].price == 1020.0 && g[5].price == 1040.0
  {
    LadderShape(cfg, 1000.0);
    assert Pow(2.0, 1) == 2.0;
    assert Pow(2.0, 2) == 4.0;
    RoundWhole(990.0, 990);
    RoundWhole(980.0, 980);
    RoundWhole(960.0, 960);
    RoundWhole(1010.0, 1010);
    RoundWhole(1020.0, 1020);
    RoundWhole(1040.0, 1040);
  }

  /** Whole numbers are left alone by rounding. */
  lemma RoundWhole(x: real, n: int)
    requires x == n as real
    ensures Round6(x) == x
  {
    var k := (x * 1000000.0 + 0.5).Floor;
    assert k as real <= x * 1000000.0 + 0.5 < k as real + 1.0;
    assert n * 1000000 <= k < n * 1000000 + 1;
  }
}
