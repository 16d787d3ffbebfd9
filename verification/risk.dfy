/** Configuration of the grid engine: the fixed table of risk levels, the
    checks made when the configuration object is built, and the derivation of
    the grid parameters from a risk level and a deposit. */
module Risk {
  import opened Basics
  import Text

  /** One entry of the risk table. The table's display name is only printed
      and is not kept. */
  datatype RiskProfile = RiskProfile(depositPercent: nat, gridLevels: nat, spread: real)

  /** `RISK_LEVELS`: risk level 1 (most careful) to 5 (most aggressive). */
  const RiskLevels: map<int, RiskProfile> := map[
    1 := RiskProfile(60, 8, 0.002),
    2 := RiskProfile(70, 10, 0.0015),
    3 := RiskProfile(80, 12, 0.001),
    4 := RiskProfile(90, 15, 0.0008),
    5 := RiskProfile(95, 20, 0.0005)
  ]

  /** The `ValueError`s and the division by zero configuration can raise. */
  datatype ConfigError = MissingSymbols | UnknownRiskLevel(level: int) | NoPairs

  /** What the configuration holds once it has been built: the risk level, the
      ladder growth factor and the ordered list of trading pairs. */
  datatype Settings = Settings(riskLevel: int, logMultiplier: real, symbols: seq<string>)

  /** The parameters every grid operation reads. */
  datatype GridConfig = GridConfig(
    symbols: seq<string>,
    logMultiplier: real,
    gridLevels: nat,
    gridSpread: real,
    levelAmount: real)

  /** The dictionary `calculate_risk_parameters` returns, with the completed
      configuration. */
  datatype RiskParameters = RiskParameters(tradingDeposit: real, depositPerPair: real, config: GridConfig)

  /** `SYMBOLS` split on commas, each piece stripped of surrounding whitespace. */
  function ParseSymbols(env: string): (symbols: seq<string>)
    ensures |symbols| == Text.Count(env, ',') + 1
    ensures forall k :: 0 <= k < |symbols| ==> symbols[k] == Text.Strip(Text.Split(env, ',')[k])
  {
    var parts := Text.Split(env, ',');
    seq(|parts|, k requires 0 <= k < |parts| => Text.Strip(parts[k]))
  }

  /** The checks of `__post_init__` (credentials aside): a missing or empty
      `SYMBOLS` setting is refused first, then an unknown risk level. */
  function PostInit(riskLevel: int, logMultiplier: real, envSymbols: Option<string>): (r: Result<Settings, ConfigError>)
    ensures r == Err(MissingSymbols) <==> envSymbols.None? || envSymbols.value == ""
    ensures r == Err(UnknownRiskLevel(riskLevel)) <==>
      envSymbols.Some? && envSymbols.value != "" && riskLevel !in RiskLevels
    ensures r.Ok? <==> envSymbols.Some? && envSymbols.value != "" && riskLevel in RiskLevels
    ensures r.Ok? ==>
      && r.value.riskLevel == riskLevel
      && r.value.logMultiplier == logMultiplier
      && r.value.symbols == ParseSymbols(envSymbols.value)
      && |r.value.symbols| >= 1
  {
    if envSymbols.None? || envSymbols.value == "" then Err(MissingSymbols)
    else
      var symbols := ParseSymbols(envSymbols.value);
      if riskLevel !in RiskLevels then Err(UnknownRiskLevel(riskLevel))
      else Ok(Settings(riskLevel, logMultiplier, symbols))
  }

  /** `calculate_risk_parameters`: the level count and spread come from the
      table entry; the trading deposit is the entry's percentage of the total,
      shared equally among the pairs and then among the levels. */
  function CalculateRiskParameters(s: Settings, totalDeposit: real): (r: Result<RiskParameters, ConfigError>)
    ensures r.Ok? <==> s.riskLevel in RiskLevels && |s.symbols| > 0
    ensures s.riskLevel !in RiskLevels ==> r == Err(UnknownRiskLevel(s.riskLevel))
    ensures s.riskLevel in RiskLevels && |s.symbols| == 0 ==> r == Err(NoPairs)
    ensures r.Ok? ==>
      var profile := RiskLevels[s.riskLevel];
      var c := r.value.config;
      && c.symbols == s.symbols
      && c.logMultiplier == s.logMultiplier
      && c.gridLevels == profile.gridLevels
      && c.gridSpread == profile.spread
      && r.value.tradingDeposit == totalDeposit * (profile.depositPercent as real) / 100.0
      && r.value.depositPerPair * (|s.symbols| as real) == r.value.tradingDeposit
      && c.levelAmount * (c.gridLevels as real) * (|s.symbols| as real) == r.value.tradingDeposit
  {
    if s.riskLevel !in RiskLevels then Err(UnknownRiskLevel(s.riskLevel))
    else if |s.symbols| == 0 then Err(NoPairs)
    else
      var profile := RiskLevels[s.riskLevel];
      var pairs := |s.symbols| as real;
      var tradingDeposit := totalDeposit * (profile.depositPercent as real) / 100.0;
      var depositPerPair := tradingDeposit / pairs;
      var levels := profile.gridLevels as real;
      assert levels > 0.0;
      var levelAmount := depositPerPair / levels;
      assert levelAmount * levels == depositPerPair;
      assert depositPerPair * pairs == tradingDeposit;
      Ok(RiskParameters(tradingDeposit, depositPerPair,
        GridConfig(s.symbols, s.logMultiplier, profile.gridLevels, profile.spread, levelAmount)))
  }

  /** Every table entry has levels, a positive spread and a share of the
      deposit of at most one hundred percent. */
  lemma RiskTableWellFormed(level: int)
    requires level in RiskLevels
    ensures RiskLevels[level].gridLevels > 0
    ensures RiskLevels[level].spread > 0.0
    ensures 0 < RiskLevels[level].depositPercent <= 100
  {
  }

  /** A configuration that passed its checks always gets grid parameters: the
      division by the number of pairs cannot fail. */
  lemma BuiltConfigYieldsParameters(riskLevel: int, logMultiplier: real, envSymbols: Option<string>, totalDeposit: real)
    requires PostInit(riskLevel, logMultiplier, envSymbols).Ok?
    ensures CalculateRiskParameters(PostInit(riskLevel, logMultiplier, envSymbols).value, totalDeposit).Ok?
  {
  }

  /** With a non-negative deposit, every level amount is non-negative and
      `gridLevels` levels of that amount for every pair (one side of each
      grid) add up to at most the deposit. */
  lemma GridNeverExceedsDeposit(s: Settings, totalDeposit: real)
    requires totalDeposit >= 0.0
    requires CalculateRiskParameters(s, totalDeposit).Ok?
    ensures var p := CalculateRiskParameters(s, totalDeposit).value;
      && p.config.levelAmount >= 0.0
      && p.config.levelAmount * (p.config.gridLevels as real) * (|s.symbols| as real) <= totalDeposit
  {
    var p := CalculateRiskParameters(s, totalDeposit).value;
    RiskTableWellFormed(s.riskLevel);
    var profile := RiskLevels[s.riskLevel];
    var total := (p.config.gridLevels as real) * (|s.symbols| as real);
    assert total > 0.0;
    assert p.config.levelAmount * total == p.tradingDeposit;
    assert p.tradingDeposit >= 0.0;
    assert p.tradingDeposit <= totalDeposit;
  }
}
