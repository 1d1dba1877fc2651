/** The setup rule engine (quantfinance/setups/engine.py): four trading
    setups evaluated against the latest indicator values, each isolated
    from the failures of the others. */
module SetupEngine {
  import opened Common
  import opened TrendAnalysis

  /** An indicator frame: its row count and its numeric columns by name,
      NaN as None. */
  datatype Frame = Frame(rows: nat, columns: map<string, seq<Option<real>>>)
  {
    /** Every column has one entry per row. */
    predicate Rectangular()
    {
      forall c :: c in columns ==> |columns[c]| == rows
    }
  }

  datatype SetupResult = SetupResult(name: string, description: string, active: bool, details: string)

  /** What the engine reads from the market snapshot: the daily trend, the
      trend per timeframe and the latest close. The snapshot type of
      quantfinance/reporting/insights.py carries only the first of these;
      the two others are inputs here (see `TrendFollowingAsWritten`). */
  datatype Market = Market(trend: TrendSnapshot, trendMulti: map<string, TrendSnapshot>, latestPrice: real)

  // ---------------------------------------------------------------------
  // The texts of the results

  const TrendFollowingName := "Trend Following"
  const TrendFollowingDescription := "Seguir tendência em alta com pullback raso."
  const TrendFollowingMet := "Tendência diária/semana favorável, preço acima da EMA21 e volume >= média 20d."
  const TrendFollowingUnmet := "Requer tendência forte, preço acima da EMA21 e volume em linha com a média."
  const RsiReboundName := "RSI Rebound"
  const RsiShortDescription := "Retomada a partir de sobrevenda (RSI 30)."
  const RsiShortDetails := "RSI insuficiente para avaliar cruzamento."
  const RsiReboundDescription := "Compra quando RSI reacelera acima da faixa 30."
  const RsiReboundMet := "RSI saiu da zona de sobrevenda e semanal não está em baixa forte."
  const RsiReboundUnmet := "Aguardando RSI cruzar 30 ou melhorar tendência semanal."
  const BuyCrossConfirmed := "Cruzamento de compra confirmado pela tendência diária."
  const BuyCrossUnconfirmed := "Cruzamento de compra, mas tendência diária não favorece."
  const SellCrossConfirmed := "Cruzamento de venda alinhado à tendência diária."
  const SellCrossUnconfirmed := "Cruzamento de venda, porém tendência diária não está em baixa."
  const FailedDescription := "Erro ao avaliar setup."

  // ---------------------------------------------------------------------
  // Trend labels

  /** The five labels `_trend_label` produces. */
  datatype TrendLabel = StrongUp | ModerateUp | StrongDown | ModerateDown | Sideways
  {
    function Text(): string
    {
      match this
      case StrongUp => "alta forte"
      case ModerateUp => "alta moderada"
      case StrongDown => "baixa forte"
      case ModerateDown => "baixa moderada"
      case Sideways => "lateral"
    }

    /** One of the two "alta" labels. */
    predicate IsUp() { this == StrongUp || this == ModerateUp }

    /** One of the two "baixa" labels. */
    predicate IsDown() { this == StrongDown || this == ModerateDown }
  }

  /** `_trend_label`; `priceAboveMa200` is None when there is no SMA_200. */
  function Label(trend: TrendSnapshot, priceAboveMa200: Option<bool>): (r: TrendLabel)
    ensures r.IsUp() <==> trend.direction == "uptrend"
    ensures r.IsDown() <==> trend.direction == "downtrend"
  {
    if trend.direction == "uptrend" then
      if trend.crossover == "bullish_stack" && (priceAboveMa200.None? || priceAboveMa200.value) then StrongUp
      else ModerateUp
    else if trend.direction == "downtrend" then
      if trend.crossover == "bearish_stack" && (priceAboveMa200.None? || !priceAboveMa200.value) then StrongDown
      else ModerateDown
    else Sideways
  }

  /** The label is an "alta" label iff the trend is up and a "baixa" label
      iff it is down; it is strong iff the stack agrees and the price is not
      on the wrong side of the 200-bar average. */
  lemma LabelCases(trend: TrendSnapshot, priceAboveMa200: Option<bool>)
    ensures Label(trend, priceAboveMa200).IsUp() <==> trend.direction == "uptrend"
    ensures Label(trend, priceAboveMa200).IsDown() <==> trend.direction == "downtrend"
    ensures Label(trend, priceAboveMa200) == Sideways <==> trend.direction != "uptrend" && trend.direction != "downtrend"
    ensures Label(trend, priceAboveMa200) == StrongUp <==>
              trend.direction == "uptrend" && trend.crossover == "bullish_stack" && priceAboveMa200 != Some(false)
    ensures Label(trend, priceAboveMa200) == StrongDown <==>
              trend.direction == "downtrend" && trend.crossover == "bearish_stack" && priceAboveMa200 != Some(true)
  {
    assert "uptrend" != "downtrend" by { assert "uptrend"[0] != "downtrend"[0]; }
  }

  /** The five labels have five different texts. */
  lemma LabelTextsDistinct(a: TrendLabel, b: TrendLabel)
    ensures a.Text() == b.Text() ==> a == b
  {
    if a != b {
      assert a.Text()[0] != b.Text()[0] || a.Text()[5] != b.Text()[5] || |a.Text()| != |b.Text()|;
    }
  }

  // ---------------------------------------------------------------------
  // Reading the frame

  /** `_float`: None for a missing column or a missing last value, with no
      fallback to earlier rows; `.iloc[-1]` of an empty column raises. */
  function LastValue(df: Frame, column: string): (r: Result<Option<real>>)
    ensures column !in df.columns ==> r == Ok(None)
    ensures column in df.columns && |df.columns[column]| == 0 ==> r == Err(IndexOutOfBounds)
    ensures column in df.columns && |df.columns[column]| > 0 ==>
              r == Ok(df.columns[column][|df.columns[column]| - 1])
  {
    if column !in df.columns then Ok(None)
    else
      var s := df.columns[column];
      if |s| == 0 then Err(IndexOutOfBounds) else Ok(s[|s| - 1])
  }

  /** A column that is present but has no rows. */
  predicate EmptyColumn(df: Frame, column: string)
  {
    column in df.columns && |df.columns[column]| == 0
  }

  /** `_lagged_values`: the last n present values of the column, [] for a
      missing column. */
  function LaggedValues(df: Frame, column: string, n: nat): (r: seq<real>)
    ensures column !in df.columns ==> r == []
    ensures column in df.columns ==>
              var present := Present(df.columns[column]);
              |r| == (if |present| < n then |present| else n) && r == present[|present| - |r|..]
  {
    if column !in df.columns then []
    else
      var series := Present(df.columns[column]);
      if |series| == 0 then [] else Tail(series, n)
  }

  // ---------------------------------------------------------------------
  // Trend Following

  /** The four conditions of `_setup_trend_following` on the values it
      read: a strong daily uptrend, a weekly trend (when there is one) that
      is up, the price at or above EMA 21 and a volume ratio of at least 1. */
  predicate TrendFollowingHolds(daily: TrendLabel, weekly: Option<TrendLabel>, price: real, ema21: Option<real>, volumeRatio: Option<real>)
  {
    daily == StrongUp &&
    (weekly.None? || weekly.value.IsUp()) &&
    (ema21.Some? && price >= ema21.value) &&
    (volumeRatio.Some? && volumeRatio.value >= 1.0)
  }

  /** Whether the price is at or above the 200-bar average, None without
      one. */
  function AboveMa200(price: real, sma200: Option<real>): Option<bool>
  {
    if sma200.Some? then Some(price >= sma200.value) else None
  }

  /** `_setup_trend_following`; it raises when a column it reads is present
      but the frame has no rows. */
  function TrendFollowing(market: Market, df: Frame): (r: Result<SetupResult>)
    ensures r.Err? <==> EmptyColumn(df, "EMA_21") || EmptyColumn(df, "Volume_Ratio") || EmptyColumn(df, "SMA_200")
    ensures r.Ok? ==> r.value.name == TrendFollowingName
    ensures r.Ok? ==>
              var ema21 := LastValue(df, "EMA_21").value;
              var volumeRatio := LastValue(df, "Volume_Ratio").value;
              var above := AboveMa200(market.latestPrice, LastValue(df, "SMA_200").value);
              var weekly := if "weekly" in market.trendMulti then Some(Label(market.trendMulti["weekly"], above)) else None;
              r.value.active <==> TrendFollowingHolds(Label(market.trend, above), weekly, market.latestPrice, ema21, volumeRatio)
  {
    match LastValue(df, "EMA_21")
    case Err(e) => Err(e)
    case Ok(ema21) =>
      match LastValue(df, "Volume_Ratio")
      case Err(e) => Err(e)
      case Ok(volumeRatio) =>
        match LastValue(df, "SMA_200")
        case Err(e) => Err(e)
        case Ok(sma200) =>
          var price := market.latestPrice;
          var above := AboveMa200(price, sma200);
          var daily := Label(market.trend, above);
          var weekly := if "weekly" in market.trendMulti then Some(Label(market.trendMulti["weekly"], above)) else None;
          var active := TrendFollowingHolds(daily, weekly, price, ema21, volumeRatio);
          Ok(SetupResult(
               TrendFollowingName,
               TrendFollowingDescription,
               active,
               if active then TrendFollowingMet
               else TrendFollowingUnmet))
  }

  // ---------------------------------------------------------------------
  // RSI Rebound

  /** The RSI left the oversold zone: at most 30 before, above 30 and at
      most 45 now. */
  predicate CrossedUp30(previous: real, now: real)
  {
    previous <= 30.0 && 30.0 < now <= 45.0
  }

  /** The weekly label, "lateral" when there is no weekly trend. */
  function WeeklyLabel(market: Market): TrendLabel
  {
    if "weekly" in market.trendMulti then Label(market.trendMulti["weekly"], None) else Sideways
  }

  /** `_setup_rsi_rebound`: active iff the last two present RSI values
      cross 30 upwards and the weekly trend is not down. */
  function RsiRebound(market: Market, df: Frame): (r: SetupResult)
    ensures r.name == RsiReboundName
    ensures |LaggedValues(df, "RSI_14", 3)| < 2 ==> !r.active
    ensures r.active <==>
              var rsi := LaggedValues(df, "RSI_14", 3);
              |rsi| >= 2 && CrossedUp30(rsi[|rsi| - 2], rsi[|rsi| - 1]) && !WeeklyLabel(market).IsDown()
  {
    var rsi := LaggedValues(df, "RSI_14", 3);
    if |rsi| < 2 then
      SetupResult(RsiReboundName, RsiShortDescription, false, RsiShortDetails)
    else
      var active := CrossedUp30(rsi[|rsi| - 2], rsi[|rsi| - 1]) && !WeeklyLabel(market).IsDown();
      SetupResult(RsiReboundName, RsiReboundDescription, active,
                  if active then RsiReboundMet
                  else RsiReboundUnmet)
  }

  /** The RSI values `_lagged_values` keeps are the last present ones, so
      the two compared are the last two present readings. */
  lemma RsiReboundReadsLastTwo(market: Market, df: Frame)
    requires "RSI_14" in df.columns && |Present(df.columns["RSI_14"])| >= 2
    ensures var p := Present(df.columns["RSI_14"]);
            RsiRebound(market, df).active <==> CrossedUp30(p[|p| - 2], p[|p| - 1]) && !WeeklyLabel(market).IsDown()
  {
    var p := Present(df.columns["RSI_14"]);
    var rsi := LaggedValues(df, "RSI_14", 3);
    assert rsi[|rsi| - 2] == p[|p| - 2] && rsi[|rsi| - 1] == p[|p| - 1];
  }

  // ---------------------------------------------------------------------
  // EMA crosses

  /** The elementwise difference of two columns; missing where either is. */
  function Difference(short: seq<Option<real>>, long: seq<Option<real>>): (d: seq<Option<real>>)
    requires |short| == |long|
    ensures |d| == |short|
    ensures forall i :: 0 <= i < |d| ==> d[i] == if short[i].Some? && long[i].Some? then Some(short[i].value - long[i].value) else None
  {
    seq(|short|, i requires 0 <= i < |short| => if short[i].Some? && long[i].Some? then Some(short[i].value - long[i].value) else None)
  }

  /** `prev_diff <= 0 < latest_diff`; a comparison with NaN is false. */
  predicate CrossesUp(previous: Option<real>, latest: Option<real>)
  {
    previous.Some? && latest.Some? && previous.value <= 0.0 < latest.value
  }

  /** `prev_diff >= 0 > latest_diff`. */
  predicate CrossesDown(previous: Option<real>, latest: Option<real>)
  {
    previous.Some? && latest.Some? && previous.value >= 0.0 > latest.value
  }

  /** `s[-2:]`: the last two characters. */
  function LastTwo(s: string): (r: string)
    ensures |r| == if |s| < 2 then |s| else 2
  {
    Tail(s, 2)
  }

  function PairName(shortColumn: string, longColumn: string): string
  {
    "EMA Cross (" + LastTwo(shortColumn) + " x " + LastTwo(longColumn) + ")"
  }

  /** The results of a cross at the last bar: a buy result on an upward
      cross, active iff the daily label is an "alta" label; a sell result on
      a downward cross, active iff it is a "baixa" label; else none. */
  function CrossResults(daily: TrendLabel, shortColumn: string, longColumn: string, previous: Option<real>, latest: Option<real>): (r: seq<SetupResult>)
    ensures |r| <= 1
    ensures |r| == 1 <==> CrossesUp(previous, latest) || CrossesDown(previous, latest)
    ensures CrossesUp(previous, latest) ==> r[0].name == PairName(shortColumn, longColumn) + " compra" && (r[0].active <==> daily.IsUp())
    ensures CrossesDown(previous, latest) ==> r[0].name == PairName(shortColumn, longColumn) + " venda" && (r[0].active <==> daily.IsDown())
  {
    var pair := PairName(shortColumn, longColumn);
    var short := LastTwo(shortColumn);
    var long := LastTwo(longColumn);
    if CrossesUp(previous, latest) then
      var active := daily.IsUp();
      [SetupResult(pair + " compra", "EMA " + short + " cruzando acima da EMA " + long + ".", active,
                   if active then BuyCrossConfirmed else BuyCrossUnconfirmed)]
    else if CrossesDown(previous, latest) then
      var active := daily.IsDown();
      [SetupResult(pair + " venda", "EMA " + short + " cruzando abaixo da EMA " + long + ".", active,
                   if active then SellCrossConfirmed else SellCrossUnconfirmed)]
    else []
  }

  /** `_ema_cross`: no result when a column is missing or fewer than two
      differences are present; otherwise the cross between the last two
      differences, judged against the daily label. */
  function EmaCross(market: Market, df: Frame, shortColumn: string, longColumn: string): (r: seq<SetupResult>)
    requires df.Rectangular()
    ensures |r| <= 1
    ensures shortColumn !in df.columns || longColumn !in df.columns ==> r == []
    ensures shortColumn in df.columns && longColumn in df.columns ==>
              var d := Difference(df.columns[shortColumn], df.columns[longColumn]);
              r == if |Present(d)| < 2 then [] else CrossResults(Label(market.trend, None), shortColumn, longColumn, d[|d| - 2], d[|d| - 1])
  {
    if shortColumn !in df.columns || longColumn !in df.columns then []
    else
      var d := Difference(df.columns[shortColumn], df.columns[longColumn]);
      if |Present(d)| < 2 then []
      else CrossResults(Label(market.trend, None), shortColumn, longColumn, d[|d| - 2], d[|d| - 1])
  }

  /** An upward and a downward cross cannot happen on the same bar. */
  lemma CrossesExclusive(previous: Option<real>, latest: Option<real>)
    ensures !(CrossesUp(previous, latest) && CrossesDown(previous, latest))
  {
  }

  /** The pair names keep the last two characters of each column, so the
      9/21 pair is labelled "_9 x 21". */
  lemma CrossPairNames()
    ensures PairName("EMA_9", "EMA_21") == "EMA Cross (_9 x 21)"
    ensures PairName("EMA_21", "EMA_72") == "EMA Cross (21 x 72)"
  {
  }

  // ---------------------------------------------------------------------
  // evaluate_setups

  /** The four evaluators, in the order `evaluate_setups` runs them. */
  datatype Setup = TrendFollowingSetup | RsiReboundSetup | EmaCrossSetup(shortColumn: string, longColumn: string)

  function Setups(): seq<Setup>
  {
    [TrendFollowingSetup, RsiReboundSetup, EmaCrossSetup("EMA_9", "EMA_21"), EmaCrossSetup("EMA_21", "EMA_72")]
  }

  /** One evaluator's results, or the exception it raised. */
  function Evaluate(setup: Setup, market: Market, df: Frame): Result<seq<SetupResult>>
    requires df.Rectangular()
  {
    match setup
    case TrendFollowingSetup =>
      (match TrendFollowing(market, df) case Ok(v) => Ok([v]) case Err(e) => Err(e))
    case RsiReboundSetup => Ok([RsiRebound(market, df)])
    case EmaCrossSetup(s, l) => Ok(EmaCross(market, df, s, l))
  }

  /** The result standing in for an evaluator that raised: named after the
      evaluator (each is a lambda), inactive, with the exception text. */
  function FailedSetup(error: string): SetupResult
  {
    SetupResult("<lambda>", FailedDescription, false, error)
  }

  /** What one evaluator contributes to the list. */
  function Contribution(setup: Setup, market: Market, df: Frame): (r: seq<SetupResult>)
    requires df.Rectangular()
    ensures Evaluate(setup, market, df).Err? ==> r == [FailedSetup(Evaluate(setup, market, df).error)]
    ensures Evaluate(setup, market, df).Ok? ==> r == Evaluate(setup, market, df).value
  {
    match Evaluate(setup, market, df)
    case Ok(v) => v
    case Err(e) => [FailedSetup(e)]
  }

  /** The contributions of the given evaluators, in order. */
  function Evaluations(setups: seq<Setup>, market: Market, df: Frame): seq<SetupResult>
    requires df.Rectangular()
  {
    if |setups| == 0 then []
    else Evaluations(setups[..|setups| - 1], market, df) + Contribution(setups[|setups| - 1], market, df)
  }

  /** `evaluate_setups`: run every evaluator in order, replacing one that
      raises by a failure result and carrying on. */
  method EvaluateSetups(market: Market, df: Frame) returns (results: seq<SetupResult>)
    requires df.Rectangular()
    ensures results == Evaluations(Setups(), market, df)
  {
    var setups := Setups();
    results := [];
    var i := 0;
    while i < |setups|
      invariant 0 <= i <= |setups|
      invariant results == Evaluations(setups[..i], market, df)
    {
      var evaluations: seq<SetupResult>;
      match Evaluate(setups[i], market, df) {
        case Ok(v) => evaluations := v;
        case Err(e) => evaluations := [FailedSetup(e)];
      }
      assert setups[..i + 1][..i] == setups[..i];
      results := results + evaluations;
      i := i + 1;
    }
    assert setups[..i] == setups;
  }

  /** Evaluators do not affect each other: the results of a run are the
      results of its first part followed by those of the rest. */
  lemma {:induction false} EvaluationsAppend(a: seq<Setup>, b: seq<Setup>, market: Market, df: Frame)
    requires df.Rectangular()
    ensures Evaluations(a + b, market, df) == Evaluations(a, market, df) + Evaluations(b, market, df)
  {
    if |b| == 0 {
      assert a + b == a;
    } else {
      var b' := b[..|b| - 1];
      assert (a + b)[..|a + b| - 1] == a + b';
      EvaluationsAppend(a, b', market, df);
    }
  }

  /** The list is the trend-following contribution, the RSI result, then
      the results of the two EMA pairs, in that order. */
  lemma SetupsOrder(market: Market, df: Frame)
    requires df.Rectangular()
    ensures Evaluations(Setups(), market, df) ==
              Contribution(TrendFollowingSetup, market, df) + [RsiRebound(market, df)] +
              EmaCross(market, df, "EMA_9", "EMA_21") + EmaCross(market, df, "EMA_21", "EMA_72")
  {
    EvaluationsOfFour(TrendFollowingSetup, RsiReboundSetup, EmaCrossSetup("EMA_9", "EMA_21"), EmaCrossSetup("EMA_21", "EMA_72"), market, df);
    ReboundContribution(market, df);
    CrossContribution(market, df, "EMA_9", "EMA_21");
    CrossContribution(market, df, "EMA_21", "EMA_72");
  }

  /** Four evaluators contribute in turn. */
  lemma EvaluationsOfFour(a: Setup, b: Setup, c: Setup, d: Setup, market: Market, df: Frame)
    requires df.Rectangular()
    ensures Evaluations([a, b, c, d], market, df) ==
              Contribution(a, market, df) + Contribution(b, market, df) + Contribution(c, market, df) + Contribution(d, market, df)
  {
    var s := [a, b, c, d];
    assert s[..1][..0] == [] && s[..2][..1] == s[..1] && s[..3][..2] == s[..2] && s[..4][..3] == s[..3] && s[..4] == s;
    assert Evaluations(s[..1], market, df) == Contribution(a, market, df);
    assert Evaluations(s[..2], market, df) == Contribution(a, market, df) + Contribution(b, market, df);
    assert Evaluations(s[..3], market, df) == Contribution(a, market, df) + Contribution(b, market, df) + Contribution(c, market, df);
  }

  lemma ReboundContribution(market: Market, df: Frame)
    requires df.Rectangular()
    ensures Contribution(RsiReboundSetup, market, df) == [RsiRebound(market, df)]
  {
  }

  lemma CrossContribution(market: Market, df: Frame, short: string, long: string)
    requires df.Rectangular()
    ensures Contribution(EmaCrossSetup(short, long), market, df) == EmaCross(market, df, short, long)
  {
  }

  /** Trend following contributes one entry: its result, or on an empty
      frame holding one of its columns the failure with the IndexError
      text. */
  lemma TrendFollowingContribution(market: Market, df: Frame)
    requires df.Rectangular()
    ensures var c := Contribution(TrendFollowingSetup, market, df);
            |c| == 1 &&
            (c[0].name == TrendFollowingName <==> TrendFollowing(market, df).Ok?) &&
            (c[0] == FailedSetup(IndexOutOfBounds) <==> TrendFollowing(market, df).Err?)
  {
    assert TrendFollowingName[0] != "<lambda>"[0];
  }

  /** The list holds two to four entries: trend following (or its
      failure) first, RSI rebound second. */
  lemma SetupsLayout(market: Market, df: Frame)
    requires df.Rectangular()
    ensures var r := Evaluations(Setups(), market, df);
            2 <= |r| <= 4 &&
            (r[0].name == TrendFollowingName || r[0] == FailedSetup(IndexOutOfBounds)) &&
            r[1].name == RsiReboundName
  {
    SetupsOrder(market, df);
    TrendFollowingContribution(market, df);
    LayoutOfParts(Contribution(TrendFollowingSetup, market, df), RsiRebound(market, df),
                  EmaCross(market, df, "EMA_9", "EMA_21"), EmaCross(market, df, "EMA_21", "EMA_72"));
  }

  lemma LayoutOfParts(first: seq<SetupResult>, second: SetupResult, third: seq<SetupResult>, fourth: seq<SetupResult>)
    requires |first| == 1 && |third| <= 1 && |fourth| <= 1
    ensures var r := first + [second] + third + fourth;
            2 <= |r| <= 4 && r[0] == first[0] && r[1] == second
  {
  }

  // ---------------------------------------------------------------------
  // As written, against the snapshot type of quantfinance/reporting/insights.py

  /** The exceptions raised by reading a field that snapshot type does not
      declare. */
  const NoLatestPrice := "'MarketSnapshot' object has no attribute 'latest_price'"
  const NoTrendMulti := "'MarketSnapshot' object has no attribute 'trend_multi'"

  /** `_setup_trend_following` given a snapshot without `latest_price`: after
      reading EMA_21 and Volume_Ratio (either of which raises when present
      but empty) it always raises at the price. */
  function TrendFollowingAsWritten(df: Frame): (r: Result<SetupResult>)
    ensures r.Err?
    ensures r.error == if EmptyColumn(df, "EMA_21") || EmptyColumn(df, "Volume_Ratio") then IndexOutOfBounds else NoLatestPrice
  {
    match LastValue(df, "EMA_21")
    case Err(e) => Err(e)
    case Ok(_) =>
      match LastValue(df, "Volume_Ratio")
      case Err(e) => Err(e)
      case Ok(_) => Err(NoLatestPrice)
  }

  /** `_setup_rsi_rebound` given a snapshot without `trend_multi`: the
      short-history result with fewer than two RSI values, otherwise it
      raises at the weekly trend. */
  function RsiReboundAsWritten(df: Frame): (r: Result<SetupResult>)
    ensures r.Ok? <==> |LaggedValues(df, "RSI_14", 3)| < 2
    ensures r.Ok? ==> !r.value.active && forall market :: RsiRebound(market, df) == r.value
    ensures r.Err? ==> r.error == NoTrendMulti
  {
    var rsi := LaggedValues(df, "RSI_14", 3);
    if |rsi| < 2 then Ok(SetupResult(RsiReboundName, RsiShortDescription, false, RsiShortDetails))
    else Err(NoTrendMulti)
  }

  /** A strong uptrend one bar above EMA 21 on heavy volume: trend following
      is active with the two fields supplied, and fails as written. */
  lemma TrendFollowingLostAsWritten()
    ensures var market := Market(TrendSnapshot("uptrend", 1.0, 1.0, 1.0, "bullish_stack"), map[], 11.0);
            var df := Frame(1, map["EMA_21" := [Some(10.0)], "Volume_Ratio" := [Some(1.5)]]);
            TrendFollowing(market, df).Ok? && TrendFollowing(market, df).value.active &&
            TrendFollowingAsWritten(df) == Err(NoLatestPrice)
  {
    var market := Market(TrendSnapshot("uptrend", 1.0, 1.0, 1.0, "bullish_stack"), map[], 11.0);
    var df := Frame(1, map["EMA_21" := [Some(10.0)], "Volume_Ratio" := [Some(1.5)]]);
    assert "SMA_200" !in df.columns by {
      assert df.columns.Keys == {"EMA_21", "Volume_Ratio"};
      assert "SMA_200"[0] != "EMA_21"[0] && "SMA_200"[0] != "Volume_Ratio"[0];
    }
    assert LastValue(df, "EMA_21") == Ok(Some(10.0));
    assert LastValue(df, "Volume_Ratio") == Ok(Some(1.5));
    assert Label(market.trend, None) == StrongUp;
  }

  /** An RSI crossing 30 upwards with no weekly trend: the rebound is active
      with `trend_multi` supplied, and fails as written. */
  lemma RsiReboundLostAsWritten()
    ensures var market := Market(TrendSnapshot("sideways", 0.0, 0.0, 0.0, "mixed"), map[], 0.0);
            var df := Frame(2, map["RSI_14" := [Some(25.0), Some(35.0)]]);
            RsiRebound(market, df).active && RsiReboundAsWritten(df) == Err(NoTrendMulti)
  {
    var df := Frame(2, map["RSI_14" := [Some(25.0), Some(35.0)]]);
    var p := [Some(25.0), Some(35.0)];
    assert p[..1] == [Some(25.0)];
    assert Present(p) == [25.0, 35.0];
    assert LaggedValues(df, "RSI_14", 3) == [25.0, 35.0];
  }
}
