/**
 * What every store-writing classifier shares: its inputs (the czsc chart and
 * the call's keyword arguments), its result (a signal or the exception it
 * raises, with the records it wrote), the common opening checks, and the
 * momentum measures read off the MACD cache.
 */
module Signals {
  import opened Market
  import opened Objects
  import opened Chan
  import opened SigUtils
  import opened History

  /** What the classifiers read from a `CZSC` object. */
  datatype Chart = Chart(bis: seq<Bi>,          // c.bi_list
                         ubi: Option<Ubi>,      // c.ubi (None when there is no unfinished stroke)
                         bars: seq<RawBar>,     // c.bars_raw
                         fxs: seq<Fx>)          // c.ubi_fxs

  /** The keyword arguments: `name`, `symbol`, `ts_code`, `freq`, `industry`, and `edt` as a day number. */
  datatype Ctx = Ctx(name: string, symbol: string, tsCode: string, freq: string, industry: string, edt: int)

  /**
   * The signal a classifier returns (`v1`, then `v2` the fractal power and
   * `v3` the estimated profit when it surfaces them); or the exception it raises.
   */
  datatype Outcome = Signal(v1: Label, v2: Option<Power>, v3: Option<real>) | Raised(error: PyError)

  function Bare(v1: Label): Outcome { Signal(v1, None, None) }

  function Full(v1: Label, power: Power, profit: real): Outcome { Signal(v1, Some(power), Some(profit)) }

  /** A classifier's outcome together with the store's records after the call. */
  datatype Run = Run(out: Outcome, points: seq<BuyPoint>)

  /** The record `insert_buy_point` writes for the latest fractal. */
  function NewPoint(ctx: Ctx, signal: Label, fx: Fx, profit: real, reason: Option<string>, db: Db): (p: BuyPoint)
    ensures p.symbol == ctx.symbol && p.freq == ctx.freq && p.signal == signal && p.date == fx.dt
            && p.power == fx.power && p.profit == profit && p.db == db
  {
    BuyPoint(ctx.name, ctx.symbol, ctx.tsCode, ctx.freq, signal, fx.power, profit, ctx.industry, fx.dt, reason, db)
  }

  /** The keyword default of `fx_dt_limit` in the trend-reverse, third-buy and moving-average signals. */
  const FxDtLimitDefault: int := 5
  /** The keyword default of `fx_dt_limit` in the `macd_pzbc_*` signals. */
  const PzbcFxDtLimitDefault: int := 30

  /** A longer look-back accepts every fractal a shorter one accepts, and rejects only what the shorter one rejects. */
  lemma FreshnessMonotone(bars: seq<RawBar>, fxDt: int, a: int, b: int)
    requires a <= b
    ensures DateExceed(bars, fxDt, a) == Ok(false) ==> DateExceed(bars, fxDt, b) == Ok(false)
    ensures DateExceed(bars, fxDt, b) == Ok(true) ==> DateExceed(bars, fxDt, a) == Ok(true)
    ensures DateExceed(bars, fxDt, a).Err? <==> DateExceed(bars, fxDt, b).Err?
  {
  }

  /** Under the defaults, a fractal fresh enough for the other signals is fresh enough for `macd_pzbc_*`. */
  lemma DefaultLimitsNested(bars: seq<RawBar>, fxDt: int)
    ensures DateExceed(bars, fxDt, FxDtLimitDefault) == Ok(false) ==> DateExceed(bars, fxDt, PzbcFxDtLimitDefault) == Ok(false)
  {
    FreshnessMonotone(bars, fxDt, FxDtLimitDefault, PzbcFxDtLimitDefault);
  }

  /** How the opening checks end: with an outcome, or handing on the last bar, the latest fractal and the unfinished stroke. */
  datatype Gate = Stop(out: Outcome) | Go(last: RawBar, fx: Fx, ubi: Ubi)

  /** The chart has enough strokes and an unfinished stroke of at least three bars. */
  predicate EnoughBars(c: Chart, minBis: nat)
  {
    |c.bis| >= minBis && c.ubi.Some? && |c.ubi.value.rawBars| >= 3
  }

  /**
   * The opening checks every store-writing classifier makes, in their order:
   * the last bar and the latest fractal are read (IndexError when missing) and
   * the fractal's freshness is computed (ValueError when no bar has its date)
   * before anything is tested; then too short a chart gives 'K线不合标准', a
   * stale or non-bottom fractal '没有底分型', and a stored record for the
   * fractal '已存在'.
   */
  function PreludeGate(points: seq<BuyPoint>, c: Chart, ctx: Ctx, minBis: nat, fxDtLimit: int, db: Db): (g: Gate)
    ensures g.Go? ==> |c.bars| > 0 && |c.fxs| > 0 && g.last == c.bars[|c.bars| - 1] && g.fx == c.fxs[|c.fxs| - 1]
                      && c.ubi.Some? && g.ubi == c.ubi.value
    ensures g.Stop? ==> g.out.Raised? || g.out == Bare(BadBars) || g.out == Bare(NoBottomFx) || g.out == Bare(AlreadyExists)
  {
    if |c.bars| == 0 || |c.fxs| == 0 then Stop(Raised(IndexError))
    else
      var fx := c.fxs[|c.fxs| - 1];
      match DateExceed(c.bars, fx.dt, fxDtLimit)
      case Err(e) => Stop(Raised(e))
      case Ok(exceed) =>
        if !EnoughBars(c, minBis) then Stop(Bare(BadBars))
        else if fx.mark != D || exceed then Stop(Bare(NoBottomFx))
        else if PointExists(points, ctx.symbol, fx.dt, ctx.freq, db) then Stop(Bare(AlreadyExists))
        else Go(c.bars[|c.bars| - 1], fx, c.ubi.value)
  }

  /** The opening checks stop in their order, each with its own label or error. */
  lemma PreludeGateOrder(points: seq<BuyPoint>, c: Chart, ctx: Ctx, minBis: nat, fxDtLimit: int, db: Db)
    ensures var g := PreludeGate(points, c, ctx, minBis, fxDtLimit, db);
            |c.bars| == 0 || |c.fxs| == 0 ==> g == Stop(Raised(IndexError))
    ensures var g := PreludeGate(points, c, ctx, minBis, fxDtLimit, db);
            |c.bars| > 0 && |c.fxs| > 0 ==> (
              var fx := c.fxs[|c.fxs| - 1];
              var stale := DateExceed(c.bars, fx.dt, fxDtLimit);
              (stale.Err? ==> g == Stop(Raised(ValueError)))
              && (stale.Ok? && !EnoughBars(c, minBis) ==> g == Stop(Bare(BadBars)))
              && (stale.Ok? && EnoughBars(c, minBis) && (fx.mark != D || stale.value) ==> g == Stop(Bare(NoBottomFx)))
              && (stale == Ok(false) && EnoughBars(c, minBis) && fx.mark == D ==>
                    if PointExists(points, ctx.symbol, fx.dt, ctx.freq, db) then g == Stop(Bare(AlreadyExists))
                    else g == Go(c.bars[|c.bars| - 1], fx, c.ubi.value)))
  {
  }

  /** A classifier past its opening checks has a fresh bottom fractal with no stored record. */
  lemma GoMeansFreshBottom(points: seq<BuyPoint>, c: Chart, ctx: Ctx, minBis: nat, fxDtLimit: int, db: Db)
    requires PreludeGate(points, c, ctx, minBis, fxDtLimit, db).Go?
    ensures var g := PreludeGate(points, c, ctx, minBis, fxDtLimit, db);
            EnoughBars(c, minBis) && g.fx == c.fxs[|c.fxs| - 1] && g.fx.mark == D
            && DateExceed(c.bars, g.fx.dt, fxDtLimit) == Ok(false)
            && !PointExists(points, ctx.symbol, g.fx.dt, ctx.freq, db)
            && g.last == c.bars[|c.bars| - 1] && g.ubi == c.ubi.value
  {
  }

  /**
   * The checks read the store only to look the fractal up: once its key is
   * stored, a chart that passed them stops at '已存在'.
   */
  lemma PreludeSeesRecord(points: seq<BuyPoint>, later: seq<BuyPoint>, c: Chart, ctx: Ctx, minBis: nat, fxDtLimit: int, db: Db)
    requires PreludeGate(points, c, ctx, minBis, fxDtLimit, db).Go?
    requires PointExists(later, ctx.symbol, c.fxs[|c.fxs| - 1].dt, ctx.freq, db)
    ensures PreludeGate(later, c, ctx, minBis, fxDtLimit, db) == Stop(Bare(AlreadyExists))
  {
  }

  /** The opening checks, with the freshness scan run as the source's loop. */
  method Prelude(points: seq<BuyPoint>, c: Chart, ctx: Ctx, minBis: nat, fxDtLimit: int, db: Db) returns (g: Gate)
    ensures g == PreludeGate(points, c, ctx, minBis, fxDtLimit, db)
  {
    if |c.bars| == 0 || |c.fxs| == 0 {
      return Stop(Raised(IndexError));
    }
    var fx := c.fxs[|c.fxs| - 1];
    var stale := DateExceedRawbars(c.bars, fx.dt, fxDtLimit);
    if stale.Err? {
      return Stop(Raised(stale.error));
    }
    if !EnoughBars(c, minBis) {
      return Stop(Bare(BadBars));
    }
    if fx.mark != D || stale.value {
      return Stop(Bare(NoBottomFx));
    }
    if PointExists(points, ctx.symbol, fx.dt, ctx.freq, db) {
      return Stop(Bare(AlreadyExists));
    }
    return Go(c.bars[|c.bars| - 1], fx, c.ubi.value);
  }

  /** `(target - price) / price`, the estimated profit. */
  function Profit(target: real, price: real): (r: Result<real>)
    ensures r.Err? <==> price == 0.0
    ensures r.Ok? ==> r.value * price == target - price
  {
    Div(target - price, price)
  }

  /** The lowest dif and the negative macd area over some bars. */
  datatype Momentum = Momentum(dif: real, area: real)

  /**
   * `min(x.dif for x in bars)` and `sum(macd for x in bars if macd < 0)`;
   * `min` of no bars raises ValueError.
   */
  function MomentumOf(bars: seq<RawBar>): (r: Result<Momentum>)
    ensures r.Err? <==> |bars| == 0
    ensures r.Err? ==> r.error == ValueError
    ensures r.Ok? ==> (forall k :: 0 <= k < |bars| ==> r.value.dif <= bars[k].dif)
                      && (exists k :: 0 <= k < |bars| && r.value.dif == bars[k].dif)
                      && r.value.area == SumNegative(Macds(bars))
  {
    var difs := Difs(bars);
    match MinOf(difs)
    case Err(e) => Err(e)
    case Ok(d) =>
      assert forall k :: 0 <= k < |bars| ==> difs[k] in difs && difs[k] == bars[k].dif;
      ghost var j :| 0 <= j < |difs| && difs[j] == d;
      Ok(Momentum(d, SumNegative(Macds(bars))))
  }

  /** Both strokes' momentum, the first one's measured first. */
  function MomentumPair(a: seq<RawBar>, b: seq<RawBar>): (r: Result<(Momentum, Momentum)>)
    ensures r.Err? <==> |a| == 0 || |b| == 0
    ensures r.Err? ==> r.error == ValueError
    ensures r.Ok? ==> Ok(r.value.0) == MomentumOf(a) && Ok(r.value.1) == MomentumOf(b)
  {
    match MomentumOf(a)
    case Err(e) => Err(e)
    case Ok(ma) =>
      match MomentumOf(b)
      case Err(e) => Err(e)
      case Ok(mb) => Ok((ma, mb))
  }

  /** The later move is weaker: its lowest dif is negative but above the earlier one's. */
  predicate DifRises(a: Momentum, b: Momentum)
  {
    0.0 > b.dif > a.dif
  }

  /** The later move has the smaller negative macd area. */
  predicate AreaShrinks(a: Momentum, b: Momentum)
  {
    Abs(b.area) < Abs(a.area)
  }

  /** `[bi for bi in bis if bi.sdt.date() >= d]`: the strokes starting on or after day `d`, in order. */
  function StrokesFrom(bis: seq<Bi>, d: int): (r: seq<Bi>)
    ensures |r| <= |bis|
    ensures forall b :: b in r <==> b in bis && b.sdt >= d
  {
    if |bis| == 0 then []
    else
      var rest := StrokesFrom(bis[..|bis| - 1], d);
      assert forall b :: b in bis <==> b in bis[..|bis| - 1] || b == bis[|bis| - 1];
      if bis[|bis| - 1].sdt >= d then rest + [bis[|bis| - 1]] else rest
  }

  /** Filtering a concatenation filters each part and keeps them in order: the filter keeps order and multiplicity. */
  lemma {:induction false} StrokesFromAppend(a: seq<Bi>, b: seq<Bi>, d: int)
    ensures StrokesFrom(a + b, d) == StrokesFrom(a, d) + StrokesFrom(b, d)
    decreases |b|
  {
    if |b| == 0 {
      assert a + b == a;
    } else {
      var x := b[|b| - 1];
      var b' := b[..|b| - 1];
      assert (a + b)[..|a + b| - 1] == a + b';
      StrokesFromAppend(a, b', d);
    }
  }

  /** A single stroke is kept exactly when it starts on or after `d`. */
  lemma StrokesFromSingle(x: Bi, d: int)
    ensures StrokesFrom([x], d) == if x.sdt >= d then [x] else []
  {
    assert [x][..0] == [];
  }

  /** Nothing is kept when every stroke starts before `d`. */
  lemma {:induction false} StrokesFromNoneLater(bis: seq<Bi>, d: int)
    requires forall k :: 0 <= k < |bis| ==> bis[k].sdt < d
    ensures StrokesFrom(bis, d) == []
  {
    if |bis| > 0 {
      StrokesFromNoneLater(bis[..|bis| - 1], d);
    }
  }

  /** The first stroke kept is the first stroke of the list that starts on or after `d`. */
  lemma StrokesFromFirst(bis: seq<Bi>, d: int, k: int)
    requires 0 <= k < |bis| && bis[k].sdt >= d
    requires forall j :: 0 <= j < k ==> bis[j].sdt < d
    ensures |StrokesFrom(bis, d)| > 0 && StrokesFrom(bis, d)[0] == bis[k]
  {
    StrokesFromNoneLater(bis[..k], d);
    assert bis == bis[..k] + ([bis[k]] + bis[k + 1..]);
    StrokesFromAppend(bis[..k], [bis[k]] + bis[k + 1..], d);
    StrokesFromAppend([bis[k]], bis[k + 1..], d);
    StrokesFromSingle(bis[k], d);
  }

  /** Filtering keeps every stroke when they all start on or after `d`. */
  lemma {:induction false} StrokesFromKeepsLater(bis: seq<Bi>, d: int)
    requires forall k :: 0 <= k < |bis| ==> bis[k].sdt >= d
    ensures StrokesFrom(bis, d) == bis
  {
    if |bis| > 0 {
      StrokesFromKeepsLater(bis[..|bis| - 1], d);
      assert bis[..|bis| - 1] + [bis[|bis| - 1]] == bis;
    }
  }
}
