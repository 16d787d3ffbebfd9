/** The program's driver: start-up (configuration, deposit, resuming stored
    grids or building new ones) and one round of the monitoring loop, whose
    symbols are taken in the configured priority order. */
module Supervisor {
  import opened Basics
  import opened Grid
  import opened Risk
  import opened Balance
  import opened Ladder
  import opened Ledger
  import opened Placement
  import opened Sync
  import opened Recreate

  /** Everything the exchange answers while one symbol is handled, in call
      order: the driver's own ticker request, the order lookups of the sync
      pass, the recreate pass's ticker, the placement pass's ticker and the
      placement attempts. A step reads only the answers it asks for. */
  datatype Script = Script(
    ticker: Quote,
    fetches: seq<FetchReply>,
    recreateQuote: Quote,
    placeQuote: Quote,
    placements: seq<PlaceReply>)

  /** Past the end of the scripts every request fails. */
  const Silent: Script := Script(QuoteFailed, [], QuoteFailed, QuoteFailed, [])

  function ScriptAt(scripts: seq<Script>, k: nat): Script
  {
    if k < |scripts| then scripts[k] else Silent
  }

  function Later(scripts: seq<Script>): seq<Script>
  {
    if |scripts| == 0 then [] else scripts[1..]
  }

  /** The grids and the table after start-up, with the configuration the
      deposit fixed. */
  datatype Bot = Bot(config: GridConfig, state: State)

  /** `symbols_priority`: the configured pairs that have a grid, in
      configuration order. */
  function Priority(symbols: seq<string>, grids: Grids): (ps: seq<string>)
    ensures forall x :: x in ps <==> x in symbols && x in grids
    ensures |ps| <= |symbols|
  {
    if |symbols| == 0 then []
    else (if symbols[0] in grids then [symbols[0]] else []) + Priority(symbols[1..], grids)
  }

  /** The priority list keeps configuration order: it distributes over
      concatenation of the configured list. */
  lemma {:induction false} PriorityKeepsOrder(a: seq<string>, b: seq<string>, grids: Grids)
    ensures Priority(a + b, grids) == Priority(a, grids) + Priority(b, grids)
  {
    if |a| > 0 {
      assert (a + b)[0] == a[0];
      assert (a + b)[1..] == a[1..] + b;
      PriorityKeepsOrder(a[1..], b, grids);
    } else {
      assert a + b == b;
    }
  }

  /** Sync followed by recreate, as the resume branch of start-up runs them. */
  function Revisit(cfg: GridConfig, symbol: string, s: State, script: Script): (r: State)
    ensures r.grids.Keys == s.grids.Keys
    ensures forall x :: x in s.grids ==> |r.grids[x]| == |s.grids[x]|
    ensures forall x :: x in s.grids && x != symbol ==> r.grids[x] == s.grids[x]
    ensures |r.table| == |s.table|
  {
    var synced := SyncOrders(symbol, s, script.fetches);
    CheckAndRecreate(cfg, symbol, synced, script.recreateQuote, script.placeQuote, script.placements)
  }

  /** One symbol of a monitoring round: sync and recreate run only when the
      driver's own ticker request gave a last price. */
  function Monitor(cfg: GridConfig, symbol: string, s: State, script: Script): State
  {
    if LastPrice(script.ticker).Some? then Revisit(cfg, symbol, s, script) else s
  }

  /** The loop over `symbols`, the i-th symbol answered by the i-th script;
      `guarded` selects the monitoring loop's ticker check. */
  function ReviseAll(cfg: GridConfig, symbols: seq<string>, s: State, scripts: seq<Script>, guarded: bool): (r: State)
    ensures r.grids.Keys == s.grids.Keys
    ensures forall x :: x in s.grids ==> |r.grids[x]| == |s.grids[x]|
    ensures forall x :: x in s.grids && x !in symbols ==> r.grids[x] == s.grids[x]
    ensures |r.table| == |s.table|
    decreases |symbols|
  {
    if |symbols| == 0 then s
    else
      var script := ScriptAt(scripts, 0);
      var s1 := if guarded then Monitor(cfg, symbols[0], s, script) else Revisit(cfg, symbols[0], s, script);
      ReviseAll(cfg, symbols[1..], s1, Later(scripts), guarded)
  }

  /** One pass of the monitoring loop (the pause that follows is left out).
      No grid is added or removed, no grid changes length, the table gains no
      row, and a grid whose pair is no longer configured is never touched. */
  function Tick(bot: Bot, scripts: seq<Script>): (r: Bot)
    ensures r.config == bot.config
    ensures r.state.grids.Keys == bot.state.grids.Keys
    ensures forall x :: x in bot.state.grids ==> |r.state.grids[x]| == |bot.state.grids[x]|
    ensures forall x :: x in bot.state.grids && x !in bot.config.symbols ==> r.state.grids[x] == bot.state.grids[x]
    ensures |r.state.table| == |bot.state.table|
  {
    var order := Priority(bot.config.symbols, bot.state.grids);
    Bot(bot.config, ReviseAll(bot.config, order, bot.state, scripts, true))
  }

  /** A level neither pass will ever look at again: it has an order id, so it
      is not rebuilt, and a status outside "active", "filled", "canceled" and
      "pending", so it is neither queried nor rebuilt. Exchange statuses such
      as "open" or "closed" end up here once a sync copies them in. */
  predicate Stuck(l: Level)
  {
    HasOrderId(l.orderId) && l.status != Active && l.status != Filled && l.status != Canceled && l.status != Pending
  }

  lemma RevisitKeepsStuck(cfg: GridConfig, symbol: string, s: State, script: Script, x: string, i: nat)
    requires x in s.grids && i < |s.grids[x]| && Stuck(s.grids[x][i])
    ensures Revisit(cfg, symbol, s, script).grids[x][i] == s.grids[x][i]
  {
    if x == symbol {
      var synced := SyncOrders(symbol, s, script.fetches);
      SyncEffect(symbol, s, script.fetches);
      assert synced.grids[x][i] == s.grids[x][i];
      if LastPrice(script.recreateQuote).Some? {
        RecreateEffect(cfg, symbol, synced, script.recreateQuote, script.placeQuote, script.placements);
      }
    }
  }

  lemma {:induction false} ReviseAllKeepsStuck(cfg: GridConfig, symbols: seq<string>, s: State, scripts: seq<Script>, guarded: bool, x: string, i: nat)
    requires x in s.grids && i < |s.grids[x]| && Stuck(s.grids[x][i])
    ensures ReviseAll(cfg, symbols, s, scripts, guarded).grids[x][i] == s.grids[x][i]
    decreases |symbols|
  {
    if |symbols| > 0 {
      var script := ScriptAt(scripts, 0);
      var s1 := if guarded then Monitor(cfg, symbols[0], s, script) else Revisit(cfg, symbols[0], s, script);
      RevisitKeepsStuck(cfg, symbols[0], s, script, x, i);
      assert s1.grids[x][i] == s.grids[x][i];
      ReviseAllKeepsStuck(cfg, symbols[1..], s1, Later(scripts), guarded, x, i);
    }
  }

  /** A stuck level survives every monitoring round unchanged. */
  lemma StuckLevelsStay(bot: Bot, scripts: seq<Script>, x: string, i: nat)
    requires x in bot.state.grids && i < |bot.state.grids[x]| && Stuck(bot.state.grids[x][i])
    ensures Tick(bot, scripts).state.grids[x][i] == bot.state.grids[x][i]
  {
    ReviseAllKeepsStuck(bot.config, Priority(bot.config.symbols, bot.state.grids), bot.state, scripts, true, x, i);
  }

  /** An active order the exchange reports under any status outside the four
      the program knows becomes stuck at the first sync. */
  lemma ForeignStatusSticks(l: Level, status: string)
    requires Queried(l)
    requires status != Active && status != Filled && status != Canceled && status != Pending
    ensures Stuck(Synced(l, Reported(status)))
  {
  }

  /** `create_grid`: the ladder around `current` replaces the symbol's grid and
      its rows are appended to the table. A zero price makes the base amount
      raise `ZeroDivisionError` before anything changes. */
  function CreateGrid(cfg: GridConfig, symbol: string, current: real, s: State): (r: State)
    ensures current == 0.0 ==> r == s
    ensures current != 0.0 ==>
      && r.grids.Keys == s.grids.Keys + {symbol}
      && (forall x :: x in s.grids && x != symbol ==> r.grids[x] == s.grids[x])
      && r.grids[symbol] == BuildLadder(cfg, current)
      && |r.grids[symbol]| == 2 * cfg.gridLevels
      && |r.table| == |s.table| + 2 * cfg.gridLevels
      && r.table[..|s.table|] == s.table
      && (forall k :: |s.table| <= k < |r.table| ==>
            && r.table[k].symbol == symbol
            && r.table[k].orderId.None?
            && r.table[k].status == Pending)
    ensures current != 0.0 ==> r.table == SaveGrid(s.table, symbol, BuildLadder(cfg, current))
  {
    if current == 0.0 then s
    else
      var ladder := BuildLadder(cfg, current);
      var t := SaveGrid(s.table, symbol, ladder);
      assert forall k :: |s.table| <= k < |t| ==> t[k] == InsertedRow(symbol, ladder[k - |s.table|]);
      State(s.grids[symbol := ladder], t)
  }

  /** The script answers with a non-zero last price. */
  predicate PricedScript(script: Script)
  {
    LastPrice(script.ticker).Some? && LastPrice(script.ticker).value != 0.0
  }

  /** How many of the symbols get a new grid. */
  function Priced(symbols: seq<string>, scripts: seq<Script>): nat
    decreases |symbols|
  {
    if |symbols| == 0 then 0
    else (if PricedScript(ScriptAt(scripts, 0)) then 1 else 0) + Priced(symbols[1..], Later(scripts))
  }

  /** The rows added when each new grid has `n` levels. */
  function NewRows(n: nat, symbols: seq<string>, scripts: seq<Script>): nat
    decreases |symbols|
  {
    if |symbols| == 0 then 0
    else (if PricedScript(ScriptAt(scripts, 0)) then n else 0) + NewRows(n, symbols[1..], Later(scripts))
  }

  lemma {:induction false} NewRowsCount(n: nat, symbols: seq<string>, scripts: seq<Script>)
    ensures NewRows(n, symbols, scripts) == n * Priced(symbols, scripts)
    decreases |symbols|
  {
    if |symbols| > 0 {
      NewRowsCount(n, symbols[1..], Later(scripts));
      var here := if PricedScript(ScriptAt(scripts, 0)) then 1 else 0;
      assert n * (here + Priced(symbols[1..], Later(scripts))) == n * here + n * Priced(symbols[1..], Later(scripts));
    }
  }

  /** One symbol of the fresh-start loop: with a last price, a grid is built
      and then offered to a placement pass. */
  function CreateOne(cfg: GridConfig, symbol: string, s: State, script: Script): (r: State)
    ensures s.grids.Keys <= r.grids.Keys <= s.grids.Keys + {symbol}
    ensures |r.table| == |s.table| + (if PricedScript(script) then 2 * cfg.gridLevels else 0)
    ensures r.table[..|s.table|] == s.table
    ensures forall k :: |s.table| <= k < |r.table| ==>
      && r.table[k].symbol == symbol
      && r.table[k].orderId.None?
      && r.table[k].status == Pending
  {
    match LastPrice(script.ticker)
    case None => s
    case Some(current) =>
      PlaceGridOrders(symbol, CreateGrid(cfg, symbol, current, s), script.placeQuote, script.placements)
  }

  /** The fresh-start loop over the configured symbols. */
  function CreateAll(cfg: GridConfig, symbols: seq<string>, s: State, scripts: seq<Script>): (r: State)
    ensures s.grids.Keys <= r.grids.Keys
    ensures forall x :: x in r.grids ==> x in s.grids || x in symbols
    ensures |r.table| == |s.table| + NewRows(2 * cfg.gridLevels, symbols, scripts)
    ensures r.table[..|s.table|] == s.table
    ensures forall k :: |s.table| <= k < |r.table| ==>
      && r.table[k].symbol in symbols
      && r.table[k].orderId.None?
      && r.table[k].status == Pending
    decreases |symbols|
  {
    if |symbols| == 0 then s
    else
      var s1 := CreateOne(cfg, symbols[0], s, ScriptAt(scripts, 0));
      var r := CreateAll(cfg, symbols[1..], s1, Later(scripts));
      NewRowsCarryOver(s.table, s1.table, r.table, symbols[0], symbols);
      assert forall x :: x in symbols[1..] ==> x in symbols;
      r
  }

  /** Rows appended in two steps: the first step's rows belong to `first`, the
      second step's to `rest`; all of them are pending without an order id. */
  lemma NewRowsCarryOver(t0: Table, t1: Table, t2: Table, first: string, symbols: seq<string>)
    requires |symbols| > 0 && first == symbols[0]
    requires |t0| <= |t1| <= |t2|
    requires t1[..|t0|] == t0 && t2[..|t1|] == t1
    requires forall k :: |t0| <= k < |t1| ==> t1[k].symbol == first && t1[k].orderId.None? && t1[k].status == Pending
    requires forall k :: |t1| <= k < |t2| ==> t2[k].symbol in symbols[1..] && t2[k].orderId.None? && t2[k].status == Pending
    ensures t2[..|t0|] == t0
    ensures forall k :: |t0| <= k < |t2| ==> t2[k].symbol in symbols && t2[k].orderId.None? && t2[k].status == Pending
  {
    assert forall k :: |t0| <= k < |t1| ==> t2[k] == t1[k];
  }

  /** `main` up to the monitoring loop. The deposit is the free USDT balance;
      a configuration error ends the program; otherwise the stored grids are
      resumed (sync, then recreate, for each in load order) or, when the table
      is empty, new grids are built for the configured pairs. */
  function Startup(settings: Settings, deposit: BalanceReply, table: Table, scripts: seq<Script>): (r: Result<Bot, ConfigError>)
    ensures var params := CalculateRiskParameters(settings, FreeBalance(deposit, QuoteCurrency));
      && (r.Ok? <==> params.Ok?)
      && (params.Err? ==> r == Err(params.error))
      && (r.Ok? ==> r.value.config == params.value.config)
    ensures r.Ok? && |table| > 0 ==>
      && |r.value.state.table| == |table|
      && (forall x :: x in r.value.state.grids <==> exists k :: 0 <= k < |table| && table[k].symbol == x)
    ensures r.Ok? && |table| == 0 ==>
      && (forall x :: x in r.value.state.grids ==> x in settings.symbols)
      && |r.value.state.table| == 2 * r.value.config.gridLevels * Priced(settings.symbols, scripts)
      && (forall k :: 0 <= k < |r.value.state.table| ==>
            r.value.state.table[k].orderId.None? && r.value.state.table[k].status == Pending)
  {
    var total := FreeBalance(deposit, QuoteCurrency);
    match CalculateRiskParameters(settings, total)
    case Err(e) => Err(e)
    case Ok(params) =>
      var cfg := params.config;
      var loaded := LoadExistingGrids(table);
      if loaded.found then
        Ok(Bot(cfg, ReviseAll(cfg, loaded.order, State(loaded.grids, table), scripts, false)))
      else
        NewRowsCount(2 * cfg.gridLevels, cfg.symbols, scripts);
        Ok(Bot(cfg, CreateAll(cfg, cfg.symbols, State(map[], table), scripts)))
  }
}
