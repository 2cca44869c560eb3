/**
 * The trend-reversal buys ("趋势背驰"). With three pivots stepping down and a
 * weaker last move, the latest bottom fractal is a first buy ('一买'); within
 * 180 days of a stored first buy, the strokes since then are searched for a
 * second ('二买') or third ('三买') buy.
 *
 * Four copies share this chain and differ only in the knobs of
 * `TrendVariant`: `trend_reverse_bi` (stroke pivots, an extra change-ratio
 * test, two extra later tests, a power-gated third buy, database "BI" by
 * default), `trend_reverse_xd` (segment pivots, a leading down segment dropped
 * after the first buy, database "XD"), and the `trend_reverse_ubi` copies of
 * the development module (stroke pivots) and of the segment module (segment
 * pivots), both on the default database.
 */
module TrendReverse {
  import opened Market
  import opened Objects
  import opened Chan
  import AnalyzeByBreak
  import XdPivots
  import opened SigUtils
  import opened History
  import opened Signals

  // ---------------------------------------------------------------------
  // Pivots, as the tests read them.
  // ---------------------------------------------------------------------

  /**
   * What the tests read from a pivot: its band `zg`/`zd`, its lowest low `dd`,
   * its validity, how many members it has, and its last member's low, price
   * change (strokes only) and raw bars.
   */
  datatype PivotView = PivotView(zg: real, zd: real, dd: real, valid: bool, members: nat,
                                 lastLow: real, lastChange: Option<real>, lastBars: seq<RawBar>)

  /** A czsc stroke pivot, whose members are strokes. */
  function StrokePivotView(z: Zs, lib: Library): PivotView
  {
    var last := z.bis[|z.bis| - 1];
    PivotView(z.Zg(), z.Zd(), z.Dd(), lib.zsValid(z.bis), |z.bis|, last.low, Some(last.change), last.rawBars)
  }

  /** A segment pivot, whose members are segments; a segment's bars are its strokes' bars. */
  function SegmentPivotView(z: XdZs): PivotView
    requires XdPivots.GoodPivot(z)
  {
    var last := z.xds[|z.xds| - 1];
    PivotView(z.Zg(), z.Zd(), z.Dd(), z.IsValid(), |z.xds|, last.Low(), None, RawBarsOf(last.bis))
  }

  function StrokePivotViews(zs: seq<Zs>, lib: Library): (r: seq<PivotView>)
    ensures |r| == |zs| && forall i {:trigger r[i]} :: 0 <= i < |zs| ==> r[i] == StrokePivotView(zs[i], lib)
  {
    seq(|zs|, i requires 0 <= i < |zs| => StrokePivotView(zs[i], lib))
  }

  function SegmentPivotViews(zs: seq<XdZs>): (r: seq<PivotView>)
    requires XdPivots.AllGood(zs)
    ensures |r| == |zs| && forall i {:trigger r[i]} :: 0 <= i < |zs| ==> r[i] == SegmentPivotView(zs[i])
  {
    seq(|zs|, i requires 0 <= i < |zs| && XdPivots.AllGood(zs) => SegmentPivotView(zs[i]))
  }

  /** How a copy builds its pivots: `get_zs_seq` over strokes, or `get_xd_zs_seq` over detected segments. */
  datatype Family = ByStrokes | BySegments(dropLeadingDown: bool)

  /**
   * `get_xd_zs_seq(analyze_xd(bis))`, with the leading down segment popped
   * first when `drop` is set; that reads `xds[0]`, which raises IndexError
   * when no segment was detected.
   */
  function SegmentPivots(bis: seq<Bi>, drop: bool): (r: Result<seq<PivotView>>)
    ensures AnalyzeByBreak.AnalyzeXdSpec(bis).Err? ==> r == Err(AnalyzeByBreak.AnalyzeXdSpec(bis).error)
    ensures AnalyzeByBreak.AnalyzeXdSpec(bis) == Ok([]) ==> r == (if drop then Err(IndexError) else Ok([]))
    ensures r.Ok? ==> AnalyzeByBreak.AnalyzeXdSpec(bis).Ok?
  {
    match AnalyzeByBreak.AnalyzeXdSpec(bis)
    case Err(e) => Err(e)
    case Ok(xds) =>
      AnalyzeByBreak.DetectedSegmentsNonEmpty(bis);
      if drop && |xds| == 0 then Err(IndexError)
      else
        var kept := if drop && xds[0].Dir() == Down then xds[1..] else xds;
        assert forall k :: 0 <= k < |kept| ==> |kept[k].bis| > 0;
        XdPivots.GroupGood(kept);
        XdPivots.GroupEmpty();
        Ok(SegmentPivotViews(XdPivots.Group(kept)))
  }

  /** The copy's pivots of `bis`; `afterBuy` marks the later search, where `trend_reverse_xd` drops a down segment. */
  function PivotsOf(f: Family, bis: seq<Bi>, lib: Library, afterBuy: bool): Result<seq<PivotView>>
  {
    match f
    case ByStrokes => Ok(StrokePivotViews(lib.getZsSeq(bis), lib))
    case BySegments(drop) => SegmentPivots(bis, afterBuy && drop)
  }

  // ---------------------------------------------------------------------
  // The copies.
  // ---------------------------------------------------------------------

  /** The knobs in which the copies differ. */
  datatype TrendVariant = TrendVariant(family: Family, db: Db, changeRatio: bool, checkValid: bool,
                                       extraChecks: bool, thirdGated: bool)

  /** `sig/trend_reverse.py` `trend_reverse_bi`, with its default database. */
  const TrendReverseBi := TrendVariant(ByStrokes, NamedDb("BI"), true, false, true, true)
  /** `sig/trend_reverse.py` `trend_reverse_xd`. */
  const TrendReverseXd := TrendVariant(BySegments(true), NamedDb("XD"), false, false, false, false)
  /** `sig_dev.py` `trend_reverse_ubi`. */
  const TrendReverseDev := TrendVariant(ByStrokes, DefaultDb, false, true, false, false)
  /** `sig_xd.py` `trend_reverse_ubi`. */
  const TrendReverseSegments := TrendVariant(BySegments(false), DefaultDb, false, true, false, false)

  // ---------------------------------------------------------------------
  // The first-buy test.
  // ---------------------------------------------------------------------

  /** The last move is at least 70% as long as the one before it (strokes only). */
  predicate RatioHolds(zs2: PivotView, zs3: PivotView)
  {
    zs2.lastChange.Some? && zs3.lastChange.Some?
    && Abs(zs3.lastChange.value) >= 0.7 * Abs(zs2.lastChange.value)
  }

  /**
   * The first-buy conditions, read directly: the unfinished stroke rises with
   * fewer than two fractals from below the last band, the last band lies below
   * the one before, the last move has the higher dif and the smaller area, the
   * profit is at least 3%, the last move ends at the pivot's low, and for the
   * ratio copy the last move is long enough.
   */
  predicate TrendHolds(changeRatio: bool, ubi: Ubi, zs2: PivotView, zs3: PivotView, a: Momentum, b: Momentum, profit: real)
  {
    ubi.direction == Up && ubi.fxCount < 2 && ubi.low < zs3.zd && zs2.zd > zs3.zg
    && DifRises(a, b) && AreaShrinks(a, b) && profit >= 0.03 && zs3.lastLow == zs3.dd
    && (changeRatio ==> RatioHolds(zs2, zs3))
  }

  /** Which first-buy test a condition is; its text is the description the source logs. */
  datatype TrendCheck = RisingUbi | FewUbiFxs | UbiUnderBand | BandsFall | DifHigher | AreaSmaller
                      | ProfitAtLeast3 | EndsAtPivotLow | MovesFarEnough

  function TrendCheckText(k: TrendCheck): string
  {
    match k
    case RisingUbi => "ubi['direction'] == Direction.Up"
    case FewUbiFxs => "len(ubi['fxs']) < 2"
    case UbiUnderBand => "ubi['low'] < zs3.zd"
    case BandsFall => "zs2.zd > zs3.zg"
    case DifHigher => "{bi_b_dif=} <= {bi_a_dif=}"
    case AreaSmaller => "{abs(bi_b_macd_area)=} >= {abs(bi_a_macd_area)=}"
    case ProfitAtLeast3 => "estimated_profit >= 0.03"
    case EndsAtPivotLow => "bi_b.low == zs3.dd"
    case MovesFarEnough => "{bi_b.change=} >= 70% * {bi_a.change=}"
  }

  /** The four tests on the unfinished stroke and the bands. */
  function TrendShape(ubi: Ubi, zs2: PivotView, zs3: PivotView): seq<(bool, TrendCheck)>
  {
    [(ubi.direction == Up, RisingUbi), (ubi.fxCount < 2, FewUbiFxs),
     (ubi.low < zs3.zd, UbiUnderBand), (zs2.zd > zs3.zg, BandsFall)]
  }

  /** The four tests on momentum, profit and the last move's low. */
  function TrendMomentum(zs3: PivotView, a: Momentum, b: Momentum, profit: real): seq<(bool, TrendCheck)>
  {
    [(DifRises(a, b), DifHigher), (AreaShrinks(a, b), AreaSmaller),
     (profit >= 0.03, ProfitAtLeast3), (zs3.lastLow == zs3.dd, EndsAtPivotLow)]
  }

  /** The tuple `trend_bc_conditions`: eight tests, and the ratio test last in the ratio copy. */
  function TrendConditions(changeRatio: bool, ubi: Ubi, zs2: PivotView, zs3: PivotView, a: Momentum, b: Momentum, profit: real): seq<(bool, TrendCheck)>
  {
    TrendShape(ubi, zs2, zs3) + TrendMomentum(zs3, a, b, profit)
    + (if changeRatio then [(RatioHolds(zs2, zs3), MovesFarEnough)] else [])
  }

  /** No first-buy condition fails exactly when the first-buy conditions hold. */
  lemma TrendConditionsMeaning(changeRatio: bool, ubi: Ubi, zs2: PivotView, zs3: PivotView, a: Momentum, b: Momentum, profit: real)
    ensures SelectFailedConditions(TrendConditions(changeRatio, ubi, zs2, zs3, a, b, profit)) == []
            <==> TrendHolds(changeRatio, ubi, zs2, zs3, a, b, profit)
  {
    var shape, momentum := TrendShape(ubi, zs2, zs3), TrendMomentum(zs3, a, b, profit);
    var ratio: seq<(bool, TrendCheck)> := if changeRatio then [(RatioHolds(zs2, zs3), MovesFarEnough)] else [];
    FailedConditionsAppend(shape + momentum, ratio);
    FailedConditionsAppend(shape, momentum);
    NoFailuresIffAllHold(shape);
    NoFailuresIffAllHold(momentum);
    NoFailuresIffAllHold(ratio);
    assert shape[0].0 == (ubi.direction == Up) && shape[1].0 == (ubi.fxCount < 2);
    assert shape[2].0 == (ubi.low < zs3.zd) && shape[3].0 == (zs2.zd > zs3.zg);
    assert momentum[0].0 == DifRises(a, b) && momentum[1].0 == AreaShrinks(a, b);
    assert momentum[2].0 == (profit >= 0.03) && momentum[3].0 == (zs3.lastLow == zs3.dd);
  }

  /** Where the first-buy test leaves the call: returned, or going on with `v1` and the records so far. */
  datatype Stage = Returned(run: Run) | Proceed(v1: Label, points: seq<BuyPoint>)

  /**
   * The first-buy test of the call: only for a valid last pivot; momentum over
   * the last members of the last two pivots (ValueError when one has no bars);
   * a passing test records the first buy and returns with power and profit
   * when the fractal is strong, otherwise the call goes on with '一买'.
   */
  function FirstBuyStage(v: TrendVariant, points: seq<BuyPoint>, ctx: Ctx, fx: Fx, ubi: Ubi,
                         zs2: PivotView, zs3: PivotView, profit: real): Stage
  {
    if !zs3.valid then Proceed(Other, points)
    else
      match MomentumPair(zs2.lastBars, zs3.lastBars)
      case Err(e) => Returned(Run(Raised(e), points))
      case Ok(m) =>
        if SelectFailedConditions(TrendConditions(v.changeRatio, ubi, zs2, zs3, m.0, m.1, profit)) == [] then
          var after := points + [NewPoint(ctx, FirstBuy, fx, profit, None, v.db)];
          if fx.power == Strong then Returned(Run(Full(FirstBuy, fx.power, profit), after))
          else Proceed(FirstBuy, after)
        else Proceed(Other, points)
  }

  /** The last pivot is valid, both last members carry bars, and the first-buy conditions hold. */
  ghost predicate FirstBuyHolds(v: TrendVariant, ubi: Ubi, zs2: PivotView, zs3: PivotView, profit: real)
  {
    var m := MomentumPair(zs2.lastBars, zs3.lastBars);
    zs3.valid && m.Ok? && TrendHolds(v.changeRatio, ubi, zs2, zs3, m.value.0, m.value.1, profit)
  }

  /**
   * The first-buy test records a first buy exactly when it holds; then it
   * returns with power and profit for a strong fractal and goes on with
   * '一买' otherwise. When it does not hold it goes on with '其他', or
   * returns ValueError for a member without bars.
   */
  lemma FirstBuyStageMeaning(v: TrendVariant, points: seq<BuyPoint>, ctx: Ctx, fx: Fx, ubi: Ubi,
                             zs2: PivotView, zs3: PivotView, profit: real)
    ensures var s := FirstBuyStage(v, points, ctx, fx, ubi, zs2, zs3, profit);
            var after := points + [NewPoint(ctx, FirstBuy, fx, profit, None, v.db)];
            (FirstBuyHolds(v, ubi, zs2, zs3, profit) && fx.power == Strong ==> s == Returned(Run(Full(FirstBuy, fx.power, profit), after)))
            && (FirstBuyHolds(v, ubi, zs2, zs3, profit) && fx.power != Strong ==> s == Proceed(FirstBuy, after))
            && (!FirstBuyHolds(v, ubi, zs2, zs3, profit) ==> s == Proceed(Other, points) || s == Returned(Run(Raised(ValueError), points)))
  {
    var m := MomentumPair(zs2.lastBars, zs3.lastBars);
    if m.Ok? {
      TrendConditionsMeaning(v.changeRatio, ubi, zs2, zs3, m.value.0, m.value.1, profit);
    }
  }

  // ---------------------------------------------------------------------
  // The second and third buys.
  // ---------------------------------------------------------------------

  /** Which later test a condition is; its text is the description the source logs. */
  datatype LaterCheck = OneOrTwoPivots | LaterRisingUbi | LaterFewUbiFxs | LowerFreqPzbc | IncreaseWithinLimit | GapOrRisingMa

  function LaterCheckText(k: LaterCheck): string
  {
    match k
    case OneOrTwoPivots => "0 < len(zs_seq_after_1st_buy) < 3"
    case LaterRisingUbi => "ubi['direction'] == Direction.Up"
    case LaterFewUbiFxs => "len(ubi['fxs']) < 2"
    case LowerFreqPzbc => "is_lower_freq_pzbc"
    case IncreaseWithinLimit => "increase_break_limit"
    case GapOrRisingMa => "{_has_uncover_gap=} or {_ma_is_up=}"
  }

  /**
   * The two tests only `trend_reverse_bi` adds: the latest fractal's rise stays
   * within 8% (which raises for a fractal of fewer than two bars or a zero
   * high), and an uncovered upward gap since the first buy or a rising average.
   */
  function ExtraChecks(v: TrendVariant, after: seq<Bi>, lib: Library, fx: Fx): (r: Result<seq<(bool, LaterCheck)>>)
    ensures !v.extraChecks ==> r == Ok([])
    ensures v.extraChecks ==> (r.Err? <==> RawBarIncreaseWithinLimit(fx.rawBars, 0.08).Err?)
  {
    if !v.extraChecks then Ok([])
    else
      match RawBarIncreaseWithinLimit(fx.rawBars, 0.08)
      case Err(e) => Err(e)
      case Ok(within) => Ok([(within, IncreaseWithinLimit), (HasUncoverGap(after, true, lib) || lib.maIsUp, GapOrRisingMa)])
  }

  /** The tuple `bis_pzbc_conditions`. */
  function LaterConditions(n: nat, ubi: Ubi, pzbc: Option<bool>, extras: seq<(bool, LaterCheck)>): seq<(bool, LaterCheck)>
  {
    [(0 < n < 3, OneOrTwoPivots), (ubi.direction == Up, LaterRisingUbi),
     (ubi.fxCount < 2, LaterFewUbiFxs), (Truthy(pzbc), LowerFreqPzbc)] + extras
  }

  /**
   * The later conditions, read directly: one or two pivots since the first
   * buy, a rising unfinished stroke with fewer than two fractals, a
   * lower-level divergence in the strokes since the first buy, and for
   * `trend_reverse_bi` the rise limit and the gap-or-average test.
   */
  predicate LaterHolds(v: TrendVariant, n: nat, ubi: Ubi, pzbc: Option<bool>, after: seq<Bi>, lib: Library, fx: Fx)
  {
    0 < n < 3 && ubi.direction == Up && ubi.fxCount < 2 && Truthy(pzbc)
    && (v.extraChecks ==> RawBarIncreaseWithinLimit(fx.rawBars, 0.08) == Ok(true) && (HasUncoverGap(after, true, lib) || lib.maIsUp))
  }

  /** No later condition fails exactly when the later conditions hold. */
  lemma LaterConditionsMeaning(v: TrendVariant, n: nat, ubi: Ubi, pzbc: Option<bool>, after: seq<Bi>, lib: Library, fx: Fx)
    requires ExtraChecks(v, after, lib, fx).Ok?
    ensures SelectFailedConditions(LaterConditions(n, ubi, pzbc, ExtraChecks(v, after, lib, fx).value)) == []
            <==> LaterHolds(v, n, ubi, pzbc, after, lib, fx)
  {
    var base := LaterConditions(n, ubi, pzbc, []);
    var extras := ExtraChecks(v, after, lib, fx).value;
    assert LaterConditions(n, ubi, pzbc, extras) == base + extras;
    FailedConditionsAppend(base, extras);
    NoFailuresIffAllHold(base);
    NoFailuresIffAllHold(extras);
    assert base[0].0 == (0 < n < 3) && base[1].0 == (ubi.direction == Up);
    assert base[2].0 == (ubi.fxCount < 2) && base[3].0 == Truthy(pzbc);
    if v.extraChecks {
      assert extras[0].0 == (RawBarIncreaseWithinLimit(fx.rawBars, 0.08) == Ok(true));
      assert extras[1].0 == (HasUncoverGap(after, true, lib) || lib.maIsUp);
    }
  }

  /** How many members the first pivot since the buy needs for a second buy: more than two strokes, or at least two segments. */
  function SecondBuyMembers(f: Family): nat
  {
    if f.ByStrokes? then 3 else 2
  }

  /** The second-buy test: the fractal's low under the only pivot's `zg`, with enough members. */
  predicate SecondBuyHolds(f: Family, fx: Fx, zsAfter: seq<PivotView>)
    requires |zsAfter| > 0
  {
    fx.low < zsAfter[0].zg && |zsAfter| == 1 && zsAfter[0].members >= SecondBuyMembers(f)
  }

  /** The third-buy test: the fractal's low over the first pivot's `zg`; the segment copies also want exactly two pivots, the second of one segment. */
  predicate ThirdBuyHolds(f: Family, fx: Fx, zsAfter: seq<PivotView>)
    requires |zsAfter| >= 2
  {
    fx.low > zsAfter[0].zg && (f.BySegments? ==> |zsAfter| == 2 && zsAfter[1].members == 1)
  }

  /** The third-buy test, after the unconditional read of the second pivot. */
  function ThirdBuyStage(v: TrendVariant, points: seq<BuyPoint>, v1: Label, ctx: Ctx, fx: Fx,
                         zsAfter: seq<PivotView>, profit: real): Run
    requires |zsAfter| > 0
  {
    if |zsAfter| < 2 then Run(Raised(IndexError), points)
    else if ThirdBuyHolds(v.family, fx, zsAfter) then
      var after := points + [NewPoint(ctx, ThirdBuy, fx, profit, None, v.db)];
      if !v.thirdGated || fx.power != Weak then Run(Full(ThirdBuy, fx.power, profit), after)
      else Run(Bare(ThirdBuy), after)
    else Run(Bare(v1), points)
  }

  /** The second-buy test, then the third. */
  function BuyStage(v: TrendVariant, points: seq<BuyPoint>, v1: Label, ctx: Ctx, fx: Fx,
                    zsAfter: seq<PivotView>, profit: real): Run
    requires |zsAfter| > 0
  {
    if SecondBuyHolds(v.family, fx, zsAfter) then
      var after := points + [NewPoint(ctx, SecondBuy, fx, profit, None, v.db)];
      if fx.power != Weak then Run(Full(SecondBuy, fx.power, profit), after)
      else ThirdBuyStage(v, after, SecondBuy, ctx, fx, zsAfter, profit)
    else ThirdBuyStage(v, points, v1, ctx, fx, zsAfter, profit)
  }

  /** The later search over the strokes `after` the first buy: pivots, divergence, extra tests, then the buys. */
  function LaterTests(v: TrendVariant, points: seq<BuyPoint>, v1: Label, after: seq<Bi>, ctx: Ctx, lib: Library,
                      fx: Fx, ubi: Ubi, profit: real): Run
  {
    match PivotsOf(v.family, after, lib, true)
    case Err(e) => Run(Raised(e), points)
    case Ok(zsAfter) =>
      match DetectLowerFreqPzbc(after, lib, v.checkValid)
      case Err(e) => Run(Raised(e), points)
      case Ok(pzbc) =>
        match ExtraChecks(v, after, lib, fx)
        case Err(e) => Run(Raised(e), points)
        case Ok(extras) =>
          var conds := LaterConditions(|zsAfter|, ubi, pzbc, extras);
          if SelectFailedConditions(conds) != [] then Run(Bare(v1), points)
          else
            NoFailuresIffAllHold(conds);
            assert conds[0].0;
            BuyStage(v, points, v1, ctx, fx, zsAfter, profit)
  }

  /** The later search runs only with a first buy stored within `30 * 6` days of `edt`, on the strokes since the latest one. */
  function LaterBuys(v: TrendVariant, points: seq<BuyPoint>, v1: Label, c: Chart, ctx: Ctx, lib: Library,
                     fx: Fx, ubi: Ubi, profit: real): Run
  {
    if !HasRecent(points, ctx.symbol, ctx.edt, 30 * 6, FirstBuy, v.db) then Run(Bare(v1), points)
    else
      match LatestDate(points, ctx.symbol, FirstBuy, v.db)
      case None => Run(Raised(AttributeError), points)
      case Some(d) => LaterTests(v, points, v1, StrokesFrom(c.bis, d), ctx, lib, fx, ubi, profit)
  }

  /** Where a call stands once the opening checks, the pivots and the profit are done: finished, or at the first-buy test with its inputs. */
  datatype Entry = Done(run: Run) | AtFirstBuy(fx: Fx, ubi: Ubi, zs2: PivotView, zs3: PivotView, profit: real)

  /**
   * The opening checks, fewer than three pivots '中枢<3', and the profit
   * `(zs3.zd - price) / price` of the last pivot and the last bar's close,
   * computed before any test. A call that finishes here writes nothing and
   * names no buy.
   */
  function TrendEntry(v: TrendVariant, points: seq<BuyPoint>, c: Chart, ctx: Ctx, lib: Library, fxDtLimit: int): (e: Entry)
    ensures e.Done? ==> e.run.points == points && (e.run.out.Signal? ==> !BuyLabel(e.run.out.v1))
    ensures e.AtFirstBuy? ==> |c.fxs| > 0 && e.fx == c.fxs[|c.fxs| - 1] && c.ubi.Some? && e.ubi == c.ubi.value
  {
    match PreludeGate(points, c, ctx, 4, fxDtLimit, v.db)
    case Stop(o) => Done(Run(o, points))
    case Go(last, fx, ubi) => PivotEntry(v, points, c, lib, last, fx, ubi)
  }

  /** Past the opening checks: the pivots, then the profit. */
  function PivotEntry(v: TrendVariant, points: seq<BuyPoint>, c: Chart, lib: Library, last: RawBar, fx: Fx, ubi: Ubi): (e: Entry)
    ensures e.Done? ==> e.run.points == points && (e.run.out.Signal? ==> !BuyLabel(e.run.out.v1))
    ensures e.AtFirstBuy? ==>
              var zs := PivotsOf(v.family, c.bis, lib, false);
              zs.Ok? && |zs.value| >= 3 && e.zs2 == zs.value[|zs.value| - 2] && e.zs3 == zs.value[|zs.value| - 1]
              && e.fx == fx && e.ubi == ubi && Profit(e.zs3.zd, last.close) == Ok(e.profit)
  {
    match PivotsOf(v.family, c.bis, lib, false)
    case Err(e) => Done(Run(Raised(e), points))
    case Ok(zs) =>
      if |zs| < 3 then Done(Run(Bare(FewPivots), points))
      else
        match Profit(zs[|zs| - 1].zd, last.close)
        case Err(e) => Done(Run(Raised(e), points))
        case Ok(profit) => AtFirstBuy(fx, ubi, zs[|zs| - 2], zs[|zs| - 1], profit)
  }

  /** The call reaches the first-buy test exactly when the opening checks pass, three or more pivots are found and the profit is defined. */
  lemma TrendEntryReaches(v: TrendVariant, points: seq<BuyPoint>, c: Chart, ctx: Ctx, lib: Library, fxDtLimit: int)
    ensures var e := TrendEntry(v, points, c, ctx, lib, fxDtLimit);
            var g := PreludeGate(points, c, ctx, 4, fxDtLimit, v.db);
            var zs := PivotsOf(v.family, c.bis, lib, false);
            e.AtFirstBuy? <==> g.Go? && zs.Ok? && |zs.value| >= 3 && Profit(zs.value[|zs.value| - 1].zd, g.last.close).Ok?
  {
  }

  /** A call stops with the opening checks' outcome, the pivot error, or '中枢<3'. */
  lemma TrendEntryStops(v: TrendVariant, points: seq<BuyPoint>, c: Chart, ctx: Ctx, lib: Library, fxDtLimit: int)
    ensures var e := TrendEntry(v, points, c, ctx, lib, fxDtLimit);
            var g := PreludeGate(points, c, ctx, 4, fxDtLimit, v.db);
            var zs := PivotsOf(v.family, c.bis, lib, false);
            (g.Stop? ==> e == Done(Run(g.out, points)))
            && (g.Go? && zs.Err? ==> e == Done(Run(Raised(zs.error), points)))
            && (g.Go? && zs.Ok? && |zs.value| < 3 ==> e == Done(Run(Bare(FewPivots), points)))
  {
  }


  /**
   * `trend_reverse_bi` / `trend_reverse_xd` / `trend_reverse_ubi`, as a
   * function of the stored records: up to the first-buy test, then the test
   * and the later search.
   */
  function TrendRun(v: TrendVariant, points: seq<BuyPoint>, c: Chart, ctx: Ctx, lib: Library, fxDtLimit: int): Run
  {
    match TrendEntry(v, points, c, ctx, lib, fxDtLimit)
    case Done(r) => r
    case AtFirstBuy(fx, ubi, zs2, zs3, profit) => FirstBuyOrLater(v, points, c, ctx, lib, fx, ubi, zs2, zs3, profit)
  }

  /** The first-buy test on the last two pivots, then the later search unless it returned. */
  function FirstBuyOrLater(v: TrendVariant, points: seq<BuyPoint>, c: Chart, ctx: Ctx, lib: Library,
                           fx: Fx, ubi: Ubi, zs2: PivotView, zs3: PivotView, profit: real): Run
  {
    match FirstBuyStage(v, points, ctx, fx, ubi, zs2, zs3, profit)
    case Returned(r) => r
    case Proceed(v1, after) => LaterBuys(v, after, v1, c, ctx, lib, fx, ubi, profit)
  }

  // ---------------------------------------------------------------------
  // What a call writes and what it signals.
  // ---------------------------------------------------------------------

  predicate BuyLabel(l: Label)
  {
    l == FirstBuy || l == SecondBuy || l == ThirdBuy
  }

  /** `after` is `points` followed only by buy records of the latest fractal `fx`, with this profit. */
  predicate AppendsBuys(points: seq<BuyPoint>, after: seq<BuyPoint>, ctx: Ctx, fx: Fx, profit: real, db: Db)
  {
    |points| <= |after| && after[..|points|] == points
    && forall k :: |points| <= k < |after| ==>
         BuyLabel(after[k].signal) && after[k] == NewPoint(ctx, after[k].signal, fx, profit, None, db)
  }

  lemma AppendsBuysTrans(a: seq<BuyPoint>, b: seq<BuyPoint>, c: seq<BuyPoint>, ctx: Ctx, fx: Fx, profit: real, db: Db)
    requires AppendsBuys(a, b, ctx, fx, profit, db) && AppendsBuys(b, c, ctx, fx, profit, db)
    ensures AppendsBuys(a, c, ctx, fx, profit, db)
  {
    assert c[..|a|] == c[..|b|][..|a|];
    forall k | |a| <= k < |b| ensures c[k] == b[k] {
      assert c[..|b|][k] == c[k];
    }
  }

  /**
   * What the later search returns and writes: nothing written and `v1`
   * reported unchanged, or one second or third buy written and named by the
   * signal, whose power and profit, when surfaced, are the fractal's.
   */
  predicate LaterOutcome(points: seq<BuyPoint>, v1: Label, r: Run, ctx: Ctx, fx: Fx, profit: real, db: Db)
  {
    AppendsBuys(points, r.points, ctx, fx, profit, db) && |r.points| <= |points| + 1
    && (r.out.Signal? ==>
          (r.points == points && r.out == Bare(v1))
          || (r.points != points && (r.out.v1 == SecondBuy || r.out.v1 == ThirdBuy)
              && r.points[|points|].signal == r.out.v1
              && (r.out.v2.Some? ==> r.out == Full(r.out.v1, fx.power, profit))))
    && (r.points != points ==> r.points[|points|].signal != FirstBuy)
  }

  /**
   * The third-buy test raises IndexError with a single pivot; a third buy is
   * surfaced with power and profit whatever the power in the ungated copies,
   * and unless the fractal is weak in the gated one.
   */
  lemma ThirdBuyStageOutcome(v: TrendVariant, points: seq<BuyPoint>, v1: Label, ctx: Ctx, fx: Fx,
                             zsAfter: seq<PivotView>, profit: real)
    requires |zsAfter| > 0
    ensures var r := ThirdBuyStage(v, points, v1, ctx, fx, zsAfter, profit);
            LaterOutcome(points, v1, r, ctx, fx, profit, v.db)
            && (|zsAfter| == 1 ==> r == Run(Raised(IndexError), points))
            && (r.points != points <==> |zsAfter| >= 2 && ThirdBuyHolds(v.family, fx, zsAfter))
            && (r.points != points && !v.thirdGated ==> r.out == Full(ThirdBuy, fx.power, profit))
            && (r.points != points && v.thirdGated ==> (r.out.v2.Some? <==> fx.power != Weak))
  {
    var after := points + [NewPoint(ctx, ThirdBuy, fx, profit, None, v.db)];
    assert after[..|points|] == points;
  }

  /**
   * The second- and third-buy tests write at most one record. With a single
   * pivot since the first buy the call either returns a non-weak second buy
   * or raises IndexError.
   */
  lemma BuyStageOutcome(v: TrendVariant, points: seq<BuyPoint>, v1: Label, ctx: Ctx, fx: Fx,
                        zsAfter: seq<PivotView>, profit: real)
    requires |zsAfter| > 0
    ensures var r := BuyStage(v, points, v1, ctx, fx, zsAfter, profit);
            LaterOutcome(points, v1, r, ctx, fx, profit, v.db)
            && (|zsAfter| == 1 ==> r.out == Raised(IndexError) || r.out == Full(SecondBuy, fx.power, profit))
  {
    var after := points + [NewPoint(ctx, SecondBuy, fx, profit, None, v.db)];
    assert after[..|points|] == points;
    ThirdBuyStageOutcome(v, points, v1, ctx, fx, zsAfter, profit);
    ThirdBuyStageOutcome(v, after, SecondBuy, ctx, fx, zsAfter, profit);
  }

  /**
   * A second buy is written exactly when its test holds; it is returned with
   * power and profit unless the fractal is weak, in which case the
   * unconditional read of the second pivot raises IndexError after the
   * write. A third buy is written exactly when the second-buy test fails and
   * the third-buy test holds on two or more pivots.
   */
  lemma SecondBuyStageMeaning(v: TrendVariant, points: seq<BuyPoint>, v1: Label, ctx: Ctx, fx: Fx,
                              zsAfter: seq<PivotView>, profit: real)
    requires |zsAfter| > 0
    ensures var r := BuyStage(v, points, v1, ctx, fx, zsAfter, profit);
            |r.points| <= |points| + 1
            && (r.points != points && r.points[|points|].signal == SecondBuy <==> SecondBuyHolds(v.family, fx, zsAfter))
            && (SecondBuyHolds(v.family, fx, zsAfter) && fx.power != Weak
                ==> r == Run(Full(SecondBuy, fx.power, profit), points + [NewPoint(ctx, SecondBuy, fx, profit, None, v.db)]))
            && (SecondBuyHolds(v.family, fx, zsAfter) && fx.power == Weak
                ==> r == Run(Raised(IndexError), points + [NewPoint(ctx, SecondBuy, fx, profit, None, v.db)]))
            && (r.points != points && r.points[|points|].signal == ThirdBuy
                <==> !SecondBuyHolds(v.family, fx, zsAfter) && |zsAfter| >= 2 && ThirdBuyHolds(v.family, fx, zsAfter))
            && (!SecondBuyHolds(v.family, fx, zsAfter) ==> r == ThirdBuyStage(v, points, v1, ctx, fx, zsAfter, profit))
  {
    BuyStageOutcome(v, points, v1, ctx, fx, zsAfter, profit);
  }

  /** The later tests keep the shape of their outcome. */
  lemma LaterTestsOutcome(v: TrendVariant, points: seq<BuyPoint>, v1: Label, after: seq<Bi>, ctx: Ctx, lib: Library,
                          fx: Fx, ubi: Ubi, profit: real)
    ensures LaterOutcome(points, v1, LaterTests(v, points, v1, after, ctx, lib, fx, ubi, profit), ctx, fx, profit, v.db)
  {
    assert points[..|points|] == points;
    var zsAfter := PivotsOf(v.family, after, lib, true);
    if zsAfter.Ok? && |zsAfter.value| > 0 {
      BuyStageOutcome(v, points, v1, ctx, fx, zsAfter.value, profit);
    }
  }

  /** The later search keeps the shape of its outcome. */
  lemma LaterBuysOutcome(v: TrendVariant, points: seq<BuyPoint>, v1: Label, c: Chart, ctx: Ctx, lib: Library,
                         fx: Fx, ubi: Ubi, profit: real)
    ensures LaterOutcome(points, v1, LaterBuys(v, points, v1, c, ctx, lib, fx, ubi, profit), ctx, fx, profit, v.db)
  {
    assert points[..|points|] == points;
    var d := LatestDate(points, ctx.symbol, FirstBuy, v.db);
    if HasRecent(points, ctx.symbol, ctx.edt, 30 * 6, FirstBuy, v.db) && d.Some? {
      LaterTestsOutcome(v, points, v1, StrokesFrom(c.bis, d.value), ctx, lib, fx, ubi, profit);
    }
  }

  /**
   * What the first-buy test and the later search write and return: at most
   * two buy records of this fractal with this profit; a signal names a buy
   * exactly when something was written, names the last record, and
   * surfaces the fractal's power and this profit.
   */
  predicate CallOutcome(points: seq<BuyPoint>, r: Run, ctx: Ctx, fx: Fx, profit: real, db: Db)
  {
    AppendsBuys(points, r.points, ctx, fx, profit, db) && |r.points| <= |points| + 2
    && (r.out.Signal? ==>
          (r.points != points <==> BuyLabel(r.out.v1))
          && (r.points != points ==>
                r.points[|r.points| - 1].signal == r.out.v1
                && (r.out.v2.Some? ==> r.out == Full(r.out.v1, fx.power, profit))))
  }

  /** How the outcome of the first-buy test and of the later search combine, whatever the later search did. */
  lemma CombineOutcome(points: seq<BuyPoint>, s: Stage, r: Run, ctx: Ctx, fx: Fx, profit: real, db: Db)
    requires var after := points + [NewPoint(ctx, FirstBuy, fx, profit, None, db)];
             s == Returned(Run(Full(FirstBuy, fx.power, profit), after)) || s == Proceed(FirstBuy, after)
             || s == Proceed(Other, points) || (s.Returned? && s.run.points == points && s.run.out.Raised?)
    requires s.Returned? ==> r == s.run
    requires s.Proceed? ==> LaterOutcome(s.points, s.v1, r, ctx, fx, profit, db)
    ensures CallOutcome(points, r, ctx, fx, profit, db)
  {
    var after := points + [NewPoint(ctx, FirstBuy, fx, profit, None, db)];
    assert after[..|points|] == points;
    if s == Proceed(FirstBuy, after) {
      AppendsBuysTrans(points, after, r.points, ctx, fx, profit, db);
    }
  }

  lemma FirstBuyOrLaterOutcome(v: TrendVariant, points: seq<BuyPoint>, c: Chart, ctx: Ctx, lib: Library,
                               fx: Fx, ubi: Ubi, zs2: PivotView, zs3: PivotView, profit: real)
    ensures CallOutcome(points, FirstBuyOrLater(v, points, c, ctx, lib, fx, ubi, zs2, zs3, profit), ctx, fx, profit, v.db)
  {
    FirstBuyStageMeaning(v, points, ctx, fx, ubi, zs2, zs3, profit);
    var s := FirstBuyStage(v, points, ctx, fx, ubi, zs2, zs3, profit);
    var r := FirstBuyOrLater(v, points, c, ctx, lib, fx, ubi, zs2, zs3, profit);
    if s.Proceed? {
      LaterBuysOutcome(v, s.points, s.v1, c, ctx, lib, fx, ubi, profit);
    }
    CombineOutcome(points, s, r, ctx, fx, profit, v.db);
  }

  /**
   * The first buy is written exactly when its test holds, as the first
   * record; it is returned with power and profit exactly when the fractal is
   * also strong, and otherwise the later search runs with '一买' on the
   * records including it.
   */
  lemma FirstBuyOrLaterIff(v: TrendVariant, points: seq<BuyPoint>, c: Chart, ctx: Ctx, lib: Library,
                           fx: Fx, ubi: Ubi, zs2: PivotView, zs3: PivotView, profit: real)
    ensures var r := FirstBuyOrLater(v, points, c, ctx, lib, fx, ubi, zs2, zs3, profit);
            (|r.points| > |points| && r.points[|points|].signal == FirstBuy) <==> FirstBuyHolds(v, ubi, zs2, zs3, profit)
    ensures var r := FirstBuyOrLater(v, points, c, ctx, lib, fx, ubi, zs2, zs3, profit);
            (r.out.Signal? && r.out.v1 == FirstBuy && r.out.v2.Some?) <==> FirstBuyHolds(v, ubi, zs2, zs3, profit) && fx.power == Strong
    ensures FirstBuyHolds(v, ubi, zs2, zs3, profit) && fx.power != Strong ==>
              var after := points + [NewPoint(ctx, FirstBuy, fx, profit, None, v.db)];
              FirstBuyOrLater(v, points, c, ctx, lib, fx, ubi, zs2, zs3, profit) == LaterBuys(v, after, FirstBuy, c, ctx, lib, fx, ubi, profit)
  {
    FirstBuyStageMeaning(v, points, ctx, fx, ubi, zs2, zs3, profit);
    var s := FirstBuyStage(v, points, ctx, fx, ubi, zs2, zs3, profit);
    if s.Proceed? {
      LaterBuysOutcome(v, s.points, s.v1, c, ctx, lib, fx, ubi, profit);
      var r := LaterBuys(v, s.points, s.v1, c, ctx, lib, fx, ubi, profit);
      if s.v1 == FirstBuy {
        assert r.points[|points|] == r.points[..|s.points|][|points|];
      }
    }
  }

  /**
   * A call that finishes before the first-buy test writes nothing and names
   * no buy; one that reaches it writes and returns what the test and the
   * later search allow, for the latest fractal and the computed profit.
   */
  lemma TrendWritesLatestFractal(v: TrendVariant, points: seq<BuyPoint>, c: Chart, ctx: Ctx, lib: Library, fxDtLimit: int)
    ensures var r := TrendRun(v, points, c, ctx, lib, fxDtLimit);
            var e := TrendEntry(v, points, c, ctx, lib, fxDtLimit);
            (e.Done? && r == e.run && r.points == points && (r.out.Signal? ==> !BuyLabel(r.out.v1)))
            || (e.AtFirstBuy? && CallOutcome(points, r, ctx, e.fx, e.profit, v.db))
  {
    var e := TrendEntry(v, points, c, ctx, lib, fxDtLimit);
    if e.AtFirstBuy? {
      FirstBuyOrLaterOutcome(v, points, c, ctx, lib, e.fx, e.ubi, e.zs2, e.zs3, e.profit);
    }
  }

  /** The call's first-buy test passes: it reaches the test and the first-buy conditions hold. */
  ghost predicate TrendFirstBuyFires(v: TrendVariant, points: seq<BuyPoint>, c: Chart, ctx: Ctx, lib: Library, fxDtLimit: int)
  {
    var e := TrendEntry(v, points, c, ctx, lib, fxDtLimit);
    e.AtFirstBuy? && FirstBuyHolds(v, e.ubi, e.zs2, e.zs3, e.profit)
  }

  /**
   * Over a whole call: a first buy is written, as the first record, exactly
   * when the first-buy test passes; it is returned with power and profit
   * exactly when the fractal is also strong; otherwise the call is the later
   * search on the records including it.
   */
  lemma TrendFirstBuyIff(v: TrendVariant, points: seq<BuyPoint>, c: Chart, ctx: Ctx, lib: Library, fxDtLimit: int)
    ensures var r := TrendRun(v, points, c, ctx, lib, fxDtLimit);
            (|r.points| > |points| && r.points[|points|].signal == FirstBuy) <==> TrendFirstBuyFires(v, points, c, ctx, lib, fxDtLimit)
    ensures var r := TrendRun(v, points, c, ctx, lib, fxDtLimit);
            var e := TrendEntry(v, points, c, ctx, lib, fxDtLimit);
            (r.out.Signal? && r.out.v1 == FirstBuy && r.out.v2.Some?)
            <==> TrendFirstBuyFires(v, points, c, ctx, lib, fxDtLimit) && e.fx.power == Strong
    ensures var e := TrendEntry(v, points, c, ctx, lib, fxDtLimit);
            TrendFirstBuyFires(v, points, c, ctx, lib, fxDtLimit) && e.fx.power != Strong ==>
              var after := points + [NewPoint(ctx, FirstBuy, e.fx, e.profit, None, v.db)];
              TrendRun(v, points, c, ctx, lib, fxDtLimit) == LaterBuys(v, after, FirstBuy, c, ctx, lib, e.fx, e.ubi, e.profit)
  {
    var e := TrendEntry(v, points, c, ctx, lib, fxDtLimit);
    if e.AtFirstBuy? {
      FirstBuyOrLaterIff(v, points, c, ctx, lib, e.fx, e.ubi, e.zs2, e.zs3, e.profit);
    }
  }

  /**
   * Once a first buy dated inside the 180-day window is written, the later
   * search runs, on the strokes since the latest stored first buy, which is
   * no earlier than this one.
   */
  lemma FirstBuySearchesSince(v: TrendVariant, points: seq<BuyPoint>, c: Chart, ctx: Ctx, lib: Library,
                              fx: Fx, ubi: Ubi, profit: real)
    requires ctx.edt - 30 * 6 <= fx.dt <= ctx.edt
    ensures var after := points + [NewPoint(ctx, FirstBuy, fx, profit, None, v.db)];
            var d := LatestDate(after, ctx.symbol, FirstBuy, v.db);
            d.Some? && d.value >= fx.dt
            && LaterBuys(v, after, FirstBuy, c, ctx, lib, fx, ubi, profit)
               == LaterTests(v, after, FirstBuy, StrokesFrom(c.bis, d.value), ctx, lib, fx, ubi, profit)
  {
    InsertedIsRecent(points, NewPoint(ctx, FirstBuy, fx, profit, None, v.db), ctx.edt, 30 * 6);
  }

  /** A call that wrote a record stops at '已存在' when repeated on the same chart. */
  lemma TrendRecordsOnce(v: TrendVariant, points: seq<BuyPoint>, c: Chart, ctx: Ctx, lib: Library, fxDtLimit: int)
    requires TrendRun(v, points, c, ctx, lib, fxDtLimit).points != points
    ensures var later := TrendRun(v, points, c, ctx, lib, fxDtLimit).points;
            TrendRun(v, later, c, ctx, lib, fxDtLimit) == Run(Bare(AlreadyExists), later)
  {
    TrendWritesLatestFractal(v, points, c, ctx, lib, fxDtLimit);
    var later := TrendRun(v, points, c, ctx, lib, fxDtLimit).points;
    assert later[|points|] == NewPoint(ctx, later[|points|].signal, c.fxs[|c.fxs| - 1], later[|points|].profit, None, v.db);
    assert SameKey(later[|points|], ctx.symbol, c.fxs[|c.fxs| - 1].dt, ctx.freq, v.db);
    PreludeSeesRecord(points, later, c, ctx, 4, fxDtLimit, v.db);
  }

  /**
   * With no stroke since the first buy, `trend_reverse_xd` raises IndexError
   * popping a segment it never found, while the segment module's copy, which
   * pops nothing, reports `v1` (the library finding no stroke pivot in no strokes).
   */
  lemma NoStrokesSinceBuy(points: seq<BuyPoint>, v1: Label, ctx: Ctx, lib: Library, fx: Fx, ubi: Ubi, profit: real)
    requires lib.getZsSeq([]) == []
    ensures LaterTests(TrendReverseXd, points, v1, [], ctx, lib, fx, ubi, profit) == Run(Raised(IndexError), points)
    ensures LaterTests(TrendReverseSegments, points, v1, [], ctx, lib, fx, ubi, profit) == Run(Bare(v1), points)
  {
    AnalyzeByBreak.EmptyInputNoSegments();
  }

  // ---------------------------------------------------------------------
  // The classifiers on the store object.
  // ---------------------------------------------------------------------

  /** The copy's pivots, with the segments detected by the detector's loop. */
  method ComputePivots(f: Family, bis: seq<Bi>, lib: Library, afterBuy: bool) returns (r: Result<seq<PivotView>>)
    ensures r == PivotsOf(f, bis, lib, afterBuy)
  {
    if f.ByStrokes? {
      return Ok(StrokePivotViews(lib.getZsSeq(bis), lib));
    }
    var xds := AnalyzeByBreak.AnalyzeXd(bis);
    if xds.Err? {
      return Err(xds.error);
    }
    AnalyzeByBreak.DetectedSegmentsNonEmpty(bis);
    var kept := xds.value;
    if afterBuy && f.dropLeadingDown {
      if |kept| == 0 {
        return Err(IndexError);
      }
      if kept[0].Dir() == Down {
        kept := kept[1..];
      }
    }
    assert forall k :: 0 <= k < |kept| ==> |kept[k].bis| > 0;
    XdPivots.GroupGood(kept);
    return Ok(SegmentPivotViews(XdPivots.Group(kept)));
  }

  /** The later search on the store, when a recent first buy is stored. */
  method LaterBuysOn(v: TrendVariant, store: Store, v1: Label, c: Chart, ctx: Ctx, lib: Library,
                     fx: Fx, ubi: Ubi, profit: real) returns (out: Outcome)
    modifies store
    ensures Run(out, store.points) == LaterBuys(v, old(store.points), v1, c, ctx, lib, fx, ubi, profit)
  {
    if !HasRecent(store.points, ctx.symbol, ctx.edt, 30 * 6, FirstBuy, v.db) {
      return Bare(v1);
    }
    var latest := LatestDate(store.points, ctx.symbol, FirstBuy, v.db);
    if latest.None? {
      return Raised(AttributeError);
    }
    out := LaterTestsOn(v, store, v1, StrokesFrom(c.bis, latest.value), ctx, lib, fx, ubi, profit);
  }

  /** The later tests on the strokes since the first buy. */
  method LaterTestsOn(v: TrendVariant, store: Store, v1: Label, after: seq<Bi>, ctx: Ctx, lib: Library,
                      fx: Fx, ubi: Ubi, profit: real) returns (out: Outcome)
    modifies store
    ensures Run(out, store.points) == LaterTests(v, old(store.points), v1, after, ctx, lib, fx, ubi, profit)
  {
    var zsAfter := ComputePivots(v.family, after, lib, true);
    if zsAfter.Err? {
      return Raised(zsAfter.error);
    }
    var pzbc := DetectLowerFreqPzbc(after, lib, v.checkValid);
    if pzbc.Err? {
      return Raised(pzbc.error);
    }
    var extras := ExtraChecks(v, after, lib, fx);
    if extras.Err? {
      return Raised(extras.error);
    }
    var conds := LaterConditions(|zsAfter.value|, ubi, pzbc.value, extras.value);
    if SelectFailedConditions(conds) != [] {
      return Bare(v1);
    }
    NoFailuresIffAllHold(conds);
    assert conds[0].0;
    out := BuyStageOn(v, store, v1, ctx, fx, zsAfter.value, profit);
  }

  /** The second-buy test, then the third, each writing its record when it holds. */
  method BuyStageOn(v: TrendVariant, store: Store, v1: Label, ctx: Ctx, fx: Fx, zs: seq<PivotView>, profit: real)
    returns (out: Outcome)
    requires |zs| > 0
    modifies store
    ensures Run(out, store.points) == BuyStage(v, old(store.points), v1, ctx, fx, zs, profit)
  {
    var signal := v1;
    if SecondBuyHolds(v.family, fx, zs) {
      signal := SecondBuy;
      store.Insert(NewPoint(ctx, SecondBuy, fx, profit, None, v.db));
      if fx.power != Weak {
        return Full(SecondBuy, fx.power, profit);
      }
    }
    if |zs| < 2 {
      return Raised(IndexError);
    }
    if ThirdBuyHolds(v.family, fx, zs) {
      signal := ThirdBuy;
      store.Insert(NewPoint(ctx, ThirdBuy, fx, profit, None, v.db));
      if !v.thirdGated || fx.power != Weak {
        return Full(ThirdBuy, fx.power, profit);
      }
    }
    return Bare(signal);
  }

  /** The steps up to the first-buy test, on the store's records. */
  method TrendEntryOn(v: TrendVariant, store: Store, c: Chart, ctx: Ctx, lib: Library, fxDtLimit: int) returns (e: Entry)
    ensures e == TrendEntry(v, store.points, c, ctx, lib, fxDtLimit)
  {
    var g := Prelude(store.points, c, ctx, 4, fxDtLimit, v.db);
    if g.Stop? {
      return Done(Run(g.out, store.points));
    }
    e := PivotEntryOn(v, store, c, lib, g.last, g.fx, g.ubi);
  }

  method PivotEntryOn(v: TrendVariant, store: Store, c: Chart, lib: Library, last: RawBar, fx: Fx, ubi: Ubi) returns (e: Entry)
    ensures e == PivotEntry(v, store.points, c, lib, last, fx, ubi)
  {
    var zsSeq := ComputePivots(v.family, c.bis, lib, false);
    if zsSeq.Err? {
      return Done(Run(Raised(zsSeq.error), store.points));
    }
    var zs := zsSeq.value;
    if |zs| < 3 {
      return Done(Run(Bare(FewPivots), store.points));
    }
    var estimated := Profit(zs[|zs| - 1].zd, last.close);
    if estimated.Err? {
      return Done(Run(Raised(estimated.error), store.points));
    }
    return AtFirstBuy(fx, ubi, zs[|zs| - 2], zs[|zs| - 1], estimated.value);
  }

  /** The classifier on the store: the same outcome and the same records as `TrendRun`. */
  method TrendReverseSignal(v: TrendVariant, store: Store, c: Chart, ctx: Ctx, lib: Library, fxDtLimit: int) returns (out: Outcome)
    modifies store
    ensures Run(out, store.points) == TrendRun(v, old(store.points), c, ctx, lib, fxDtLimit)
  {
    var e := TrendEntryOn(v, store, c, ctx, lib, fxDtLimit);
    if e.Done? {
      return e.run.out;
    }
    out := FirstBuyThenLaterOn(v, store, c, ctx, lib, e.fx, e.ubi, e.zs2, e.zs3, e.profit);
  }

  /** The first-buy test on the store, then the later search unless it returned. */
  method FirstBuyThenLaterOn(v: TrendVariant, store: Store, c: Chart, ctx: Ctx, lib: Library,
                             fx: Fx, ubi: Ubi, zs2: PivotView, zs3: PivotView, profit: real) returns (out: Outcome)
    modifies store
    ensures Run(out, store.points) == FirstBuyOrLater(v, old(store.points), c, ctx, lib, fx, ubi, zs2, zs3, profit)
  {
    var v1 := Other;
    if zs3.valid {
      var m := MomentumPair(zs2.lastBars, zs3.lastBars);
      if m.Err? {
        return Raised(m.error);
      }
      if SelectFailedConditions(TrendConditions(v.changeRatio, ubi, zs2, zs3, m.value.0, m.value.1, profit)) == [] {
        v1 := FirstBuy;
        store.Insert(NewPoint(ctx, FirstBuy, fx, profit, None, v.db));
        if fx.power == Strong {
          return Full(FirstBuy, fx.power, profit);
        }
      }
    }
    out := LaterBuysOn(v, store, v1, c, ctx, lib, fx, ubi, profit);
  }
}
