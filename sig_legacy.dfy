/**
 * The older `trend_reverse_ubi` of the top-level signal module. It runs the
 * first-buy / later-buy chain of the trend-reversal copies on stroke pivots
 * and the default database, with four differences: fifteen strokes are
 * required; the momentum of the last two moves is measured only once the
 * shape of the pivots passes; a first buy is returned unless the fractal is
 * weak; and the later search is gated on the MACD of the last two bars
 * instead of a lower-level divergence, with both later buys returned
 * whatever the fractal's power.
 */
module SigLegacy {
  import opened Market
  import opened Chan
  import opened History
  import opened Signals
  import TrendReverse

  /** `len(bis) < 15` gives 'K线不合标准'. */
  const LegacyMinBis: nat := 15

  // ---------------------------------------------------------------------
  // The first-buy test.
  // ---------------------------------------------------------------------

  /** The outer test: a rising unfinished stroke with fewer than two fractals from below the last band, and the last band below the one before. */
  predicate LegacyShape(ubi: Ubi, zs2: TrendReverse.PivotView, zs3: TrendReverse.PivotView)
  {
    ubi.direction == Up && ubi.fxCount < 2 && ubi.low < zs3.zd && zs2.zd > zs3.zg
  }

  /**
   * The nested first-buy test: a valid last pivot and the shape; then the
   * momentum of the last members of the last two pivots (ValueError when one
   * has no bars), the higher dif, the smaller area and a 3% profit; then the
   * last move ending at the pivot's low. A first buy is recorded and returned
   * with power and profit unless the fractal is weak, in which case the call
   * goes on with '一买'.
   */
  function LegacyFirstBuy(points: seq<BuyPoint>, ctx: Ctx, fx: Fx, ubi: Ubi,
                          zs2: TrendReverse.PivotView, zs3: TrendReverse.PivotView, profit: real): TrendReverse.Stage
  {
    if !(zs3.valid && LegacyShape(ubi, zs2, zs3)) then TrendReverse.Proceed(Other, points)
    else
      match MomentumPair(zs2.lastBars, zs3.lastBars)
      case Err(e) => TrendReverse.Returned(Run(Raised(e), points))
      case Ok(m) =>
        if DifRises(m.0, m.1) && AreaShrinks(m.0, m.1) && profit >= 0.03 && zs3.lastLow == zs3.dd then
          var after := points + [NewPoint(ctx, FirstBuy, fx, profit, None, DefaultDb)];
          if fx.power != Weak then TrendReverse.Returned(Run(Full(FirstBuy, fx.power, profit), after))
          else TrendReverse.Proceed(FirstBuy, after)
        else TrendReverse.Proceed(Other, points)
  }

  /**
   * The nested test accepts exactly the first buys the flat test of the
   * development copy accepts; it returns one unless the fractal is weak. It
   * raises ValueError exactly when the last pivot is valid, the shape passes
   * and a last member has no bars.
   */
  lemma LegacyFirstBuyMeaning(points: seq<BuyPoint>, ctx: Ctx, fx: Fx, ubi: Ubi,
                              zs2: TrendReverse.PivotView, zs3: TrendReverse.PivotView, profit: real)
    ensures var s := LegacyFirstBuy(points, ctx, fx, ubi, zs2, zs3, profit);
            var after := points + [NewPoint(ctx, FirstBuy, fx, profit, None, DefaultDb)];
            var holds := TrendReverse.FirstBuyHolds(TrendReverse.TrendReverseDev, ubi, zs2, zs3, profit);
            (holds && fx.power != Weak ==> s == TrendReverse.Returned(Run(Full(FirstBuy, fx.power, profit), after)))
            && (holds && fx.power == Weak ==> s == TrendReverse.Proceed(FirstBuy, after))
            && (!holds ==> s == TrendReverse.Proceed(Other, points) || s == TrendReverse.Returned(Run(Raised(ValueError), points)))
            && ((s.Returned? && s.run.out.Raised?)
                <==> zs3.valid && LegacyShape(ubi, zs2, zs3) && (|zs2.lastBars| == 0 || |zs3.lastBars| == 0))
  {
  }

  /**
   * Where the development copy measures momentum as soon as the last pivot is
   * valid, this copy measures it only after the shape passes: a last member
   * without bars raises there and not here.
   */
  lemma LegacyMomentumIsLazy(points: seq<BuyPoint>, ctx: Ctx, fx: Fx, ubi: Ubi,
                             zs2: TrendReverse.PivotView, zs3: TrendReverse.PivotView, profit: real)
    requires zs3.valid && !LegacyShape(ubi, zs2, zs3) && |zs3.lastBars| == 0
    ensures LegacyFirstBuy(points, ctx, fx, ubi, zs2, zs3, profit) == TrendReverse.Proceed(Other, points)
    ensures TrendReverse.FirstBuyStage(TrendReverse.TrendReverseDev, points, ctx, fx, ubi, zs2, zs3, profit)
            == TrendReverse.Returned(Run(Raised(ValueError), points))
  {
  }

  // ---------------------------------------------------------------------
  // The second and third buys.
  // ---------------------------------------------------------------------

  /**
   * The later gate, read directly: one or two pivots since the first buy, a
   * rising unfinished stroke with fewer than two fractals, and on the last
   * bar a macd under a third of `peak` in size, above the bar before's, and a
   * positive dif and dea.
   */
  predicate LegacyLaterHolds(n: nat, ubi: Ubi, bars: seq<RawBar>, peak: real)
    requires |bars| >= 2
  {
    var b := bars[|bars| - 1];
    0 < n < 3 && ubi.direction == Up && ubi.fxCount < 2 && Abs(b.macd) < peak / 3.0
    && b.macd > bars[|bars| - 2].macd && b.dif > 0.0 && b.dea > 0.0
  }

  /**
   * The gate as the source's `and` chain evaluates it: the last bar is read
   * only once the pivot count and the unfinished stroke pass, and the bar
   * before only once the macd is small enough; a missing bar raises IndexError.
   */
  function LegacyGate(n: nat, ubi: Ubi, bars: seq<RawBar>, peak: real): (r: Result<bool>)
    ensures r.Err? ==> r == Err(IndexError)
    ensures r.Err? <==> 0 < n < 3 && ubi.direction == Up && ubi.fxCount < 2
                        && (|bars| == 0 || (|bars| == 1 && Abs(bars[0].macd) < peak / 3.0))
    ensures r == Ok(true) <==> |bars| >= 2 && LegacyLaterHolds(n, ubi, bars, peak)
  {
    if !(0 < n < 3 && ubi.direction == Up && ubi.fxCount < 2) then Ok(false)
    else if |bars| == 0 then Err(IndexError)
    else
      var b := bars[|bars| - 1];
      if !(Abs(b.macd) < peak / 3.0) then Ok(false)
      else if |bars| < 2 then Err(IndexError)
      else Ok(b.macd > bars[|bars| - 2].macd && b.dif > 0.0 && b.dea > 0.0)
  }

  /** The third-buy test: the fractal's low over the first pivot's `zg`, and a second pivot of fewer than three strokes. */
  predicate LegacyThirdHolds(fx: Fx, zs: seq<TrendReverse.PivotView>)
    requires |zs| >= 2
  {
    fx.low > zs[0].zg && zs[1].members < 3
  }

  /** The second-buy test, then the unconditional read of the second pivot, then the third-buy test; a buy is returned whatever its power. */
  function LegacyBuys(points: seq<BuyPoint>, v1: Label, ctx: Ctx, fx: Fx, zs: seq<TrendReverse.PivotView>, profit: real): Run
    requires |zs| > 0
  {
    if TrendReverse.SecondBuyHolds(TrendReverse.ByStrokes, fx, zs) then
      Run(Full(SecondBuy, fx.power, profit), points + [NewPoint(ctx, SecondBuy, fx, profit, None, DefaultDb)])
    else if |zs| < 2 then Run(Raised(IndexError), points)
    else if LegacyThirdHolds(fx, zs) then
      Run(Full(ThirdBuy, fx.power, profit), points + [NewPoint(ctx, ThirdBuy, fx, profit, None, DefaultDb)])
    else Run(Bare(v1), points)
  }

  /**
   * The buys write at most one record, exactly when the second-buy test or
   * (with two pivots) the third-buy test holds, and return it with power and
   * profit; with a single pivot and no second buy the read of the second
   * pivot raises IndexError.
   */
  lemma LegacyBuysOutcome(points: seq<BuyPoint>, v1: Label, ctx: Ctx, fx: Fx, zs: seq<TrendReverse.PivotView>, profit: real)
    requires |zs| > 0
    ensures var r := LegacyBuys(points, v1, ctx, fx, zs, profit);
            TrendReverse.LaterOutcome(points, v1, r, ctx, fx, profit, DefaultDb)
            && (r.points != points <==> TrendReverse.SecondBuyHolds(TrendReverse.ByStrokes, fx, zs) || (|zs| >= 2 && LegacyThirdHolds(fx, zs)))
            && (r.points != points ==> r.out == Full(r.points[|points|].signal, fx.power, profit))
            && (|zs| == 1 ==> r.out == Raised(IndexError) || r.out == Full(SecondBuy, fx.power, profit))
            && (TrendReverse.SecondBuyHolds(TrendReverse.ByStrokes, fx, zs) ==> r.points[|points|].signal == SecondBuy)
            && (!TrendReverse.SecondBuyHolds(TrendReverse.ByStrokes, fx, zs) && |zs| >= 2 && LegacyThirdHolds(fx, zs)
                ==> r.points[|points|].signal == ThirdBuy)
  {
    var second := points + [NewPoint(ctx, SecondBuy, fx, profit, None, DefaultDb)];
    var third := points + [NewPoint(ctx, ThirdBuy, fx, profit, None, DefaultDb)];
    assert second[..|points|] == points && third[..|points|] == points;
  }

  /**
   * The later search over the strokes `after` the first buy: their pivots,
   * the largest macd size over the first stroke's bars (IndexError with no
   * stroke, ValueError with no bar), the gate on the chart's last bars, then
   * the buys.
   */
  function LegacySince(points: seq<BuyPoint>, v1: Label, after: seq<Bi>, bars: seq<RawBar>, ctx: Ctx, lib: Library,
                       fx: Fx, ubi: Ubi, profit: real): Run
  {
    var zs := TrendReverse.StrokePivotViews(lib.getZsSeq(after), lib);
    if |after| == 0 then Run(Raised(IndexError), points)
    else
      match MaxOf(AbsMacds(after[0].rawBars))
      case Err(e) => Run(Raised(e), points)
      case Ok(peak) =>
        match LegacyGate(|zs|, ubi, bars, peak)
        case Err(e) => Run(Raised(e), points)
        case Ok(pass) => if pass then LegacyBuys(points, v1, ctx, fx, zs, profit) else Run(Bare(v1), points)
  }

  /**
   * The later search keeps the shape of its outcome; it raises IndexError
   * with no stroke since the buy and ValueError when the first has no bars;
   * and it writes only when the gate holds, with the largest macd size of the
   * first stroke as `peak`.
   */
  lemma LegacySinceOutcome(points: seq<BuyPoint>, v1: Label, after: seq<Bi>, bars: seq<RawBar>, ctx: Ctx, lib: Library,
                           fx: Fx, ubi: Ubi, profit: real)
    ensures var r := LegacySince(points, v1, after, bars, ctx, lib, fx, ubi, profit);
            TrendReverse.LaterOutcome(points, v1, r, ctx, fx, profit, DefaultDb)
            && (|after| == 0 ==> r == Run(Raised(IndexError), points))
            && (|after| > 0 && |after[0].rawBars| == 0 ==> r == Run(Raised(ValueError), points))
    ensures var r := LegacySince(points, v1, after, bars, ctx, lib, fx, ubi, profit);
            var zs := TrendReverse.StrokePivotViews(lib.getZsSeq(after), lib);
            r.points != points ==>
              |after| > 0 && |after[0].rawBars| > 0 && |bars| >= 2
              && LegacyLaterHolds(|zs|, ubi, bars, Max(AbsMacds(after[0].rawBars)))
  {
    assert points[..|points|] == points;
    var zs := TrendReverse.StrokePivotViews(lib.getZsSeq(after), lib);
    if |after| > 0 && |after[0].rawBars| > 0 {
      var peak := Max(AbsMacds(after[0].rawBars));
      if LegacyGate(|zs|, ubi, bars, peak) == Ok(true) {
        LegacyBuysOutcome(points, v1, ctx, fx, zs, profit);
      }
    }
  }

  /** The later search runs only with a first buy stored within `30 * 6` days of `edt`, on the strokes since the latest one. */
  function LegacyLater(points: seq<BuyPoint>, v1: Label, c: Chart, ctx: Ctx, lib: Library, fx: Fx, ubi: Ubi, profit: real): Run
  {
    if !HasRecent(points, ctx.symbol, ctx.edt, 30 * 6, FirstBuy, DefaultDb) then Run(Bare(v1), points)
    else
      match LatestDate(points, ctx.symbol, FirstBuy, DefaultDb)
      case None => Run(Raised(AttributeError), points)
      case Some(d) => LegacySince(points, v1, StrokesFrom(c.bis, d), c.bars, ctx, lib, fx, ubi, profit)
  }

  /** The later search keeps the shape of its outcome; without a recent first buy it reports `v1` and writes nothing. */
  lemma LegacyLaterOutcome(points: seq<BuyPoint>, v1: Label, c: Chart, ctx: Ctx, lib: Library, fx: Fx, ubi: Ubi, profit: real)
    ensures var r := LegacyLater(points, v1, c, ctx, lib, fx, ubi, profit);
            TrendReverse.LaterOutcome(points, v1, r, ctx, fx, profit, DefaultDb)
            && (!HasRecent(points, ctx.symbol, ctx.edt, 30 * 6, FirstBuy, DefaultDb) ==> r == Run(Bare(v1), points))
  {
    assert points[..|points|] == points;
    var d := LatestDate(points, ctx.symbol, FirstBuy, DefaultDb);
    if HasRecent(points, ctx.symbol, ctx.edt, 30 * 6, FirstBuy, DefaultDb) {
      RecentHasLatest(points, ctx.symbol, ctx.edt, 30 * 6, FirstBuy, DefaultDb);
      LegacySinceOutcome(points, v1, StrokesFrom(c.bis, d.value), c.bars, ctx, lib, fx, ubi, profit);
    }
  }

  // ---------------------------------------------------------------------
  // The whole call.
  // ---------------------------------------------------------------------

  /**
   * The opening checks with fifteen strokes, on the default database; then,
   * as in the development copy, fewer than three stroke pivots '中枢<3' and
   * the profit of the last pivot's `zd` over the last close.
   */
  function LegacyEntry(points: seq<BuyPoint>, c: Chart, ctx: Ctx, lib: Library, fxDtLimit: int): (e: TrendReverse.Entry)
    ensures e.Done? ==> e.run.points == points && (e.run.out.Signal? ==> !TrendReverse.BuyLabel(e.run.out.v1))
    ensures e.AtFirstBuy? ==> PreludeGate(points, c, ctx, LegacyMinBis, fxDtLimit, DefaultDb).Go? && e.fx == c.fxs[|c.fxs| - 1]
  {
    match PreludeGate(points, c, ctx, LegacyMinBis, fxDtLimit, DefaultDb)
    case Stop(o) => TrendReverse.Done(Run(o, points))
    case Go(last, fx, ubi) => TrendReverse.PivotEntry(TrendReverse.TrendReverseDev, points, c, lib, last, fx, ubi)
  }

  /**
   * With fifteen strokes or more the call reaches the same place as the
   * development copy; with fewer it stops in its opening checks, with an
   * error or 'K线不合标准'.
   */
  lemma LegacyEntryAgainstDev(points: seq<BuyPoint>, c: Chart, ctx: Ctx, lib: Library, fxDtLimit: int)
    ensures |c.bis| >= LegacyMinBis ==>
              LegacyEntry(points, c, ctx, lib, fxDtLimit) == TrendReverse.TrendEntry(TrendReverse.TrendReverseDev, points, c, ctx, lib, fxDtLimit)
    ensures |c.bis| < LegacyMinBis ==>
              var e := LegacyEntry(points, c, ctx, lib, fxDtLimit);
              e.Done? && e.run.points == points && (e.run.out.Raised? || e.run.out == Bare(BadBars))
  {
    PreludeGateOrder(points, c, ctx, LegacyMinBis, fxDtLimit, DefaultDb);
    PreludeGateOrder(points, c, ctx, 4, fxDtLimit, DefaultDb);
  }

  /** `trend_reverse_ubi` as a function of the stored records. */
  function LegacyRun(points: seq<BuyPoint>, c: Chart, ctx: Ctx, lib: Library, fxDtLimit: int): Run
  {
    match LegacyEntry(points, c, ctx, lib, fxDtLimit)
    case Done(r) => r
    case AtFirstBuy(fx, ubi, zs2, zs3, profit) => LegacyFirstBuyOrLater(points, c, ctx, lib, fx, ubi, zs2, zs3, profit)
  }

  /** The first-buy test, then the later search unless it returned. */
  function LegacyFirstBuyOrLater(points: seq<BuyPoint>, c: Chart, ctx: Ctx, lib: Library, fx: Fx, ubi: Ubi,
                                 zs2: TrendReverse.PivotView, zs3: TrendReverse.PivotView, profit: real): Run
  {
    match LegacyFirstBuy(points, ctx, fx, ubi, zs2, zs3, profit)
    case Returned(r) => r
    case Proceed(v1, after) => LegacyLater(after, v1, c, ctx, lib, fx, ubi, profit)
  }

  /** The first-buy test and the later search write at most two buy records of the fractal and signal what they wrote. */
  lemma LegacyFirstBuyOrLaterOutcome(points: seq<BuyPoint>, c: Chart, ctx: Ctx, lib: Library, fx: Fx, ubi: Ubi,
                                     zs2: TrendReverse.PivotView, zs3: TrendReverse.PivotView, profit: real)
    ensures TrendReverse.CallOutcome(points, LegacyFirstBuyOrLater(points, c, ctx, lib, fx, ubi, zs2, zs3, profit), ctx, fx, profit, DefaultDb)
  {
    LegacyFirstBuyMeaning(points, ctx, fx, ubi, zs2, zs3, profit);
    var s := LegacyFirstBuy(points, ctx, fx, ubi, zs2, zs3, profit);
    var r := LegacyFirstBuyOrLater(points, c, ctx, lib, fx, ubi, zs2, zs3, profit);
    if s.Proceed? {
      LegacyLaterOutcome(s.points, s.v1, c, ctx, lib, fx, ubi, profit);
    }
    TrendReverse.CombineOutcome(points, s, r, ctx, fx, profit, DefaultDb);
  }

  /**
   * A call that finishes before the first-buy test writes nothing and names
   * no buy; one that reaches it writes and returns what the test and the
   * later search allow, for the latest fractal and the computed profit.
   */
  lemma LegacyWritesLatestFractal(points: seq<BuyPoint>, c: Chart, ctx: Ctx, lib: Library, fxDtLimit: int)
    ensures var r := LegacyRun(points, c, ctx, lib, fxDtLimit);
            var e := LegacyEntry(points, c, ctx, lib, fxDtLimit);
            (e.Done? && r == e.run && r.points == points && (r.out.Signal? ==> !TrendReverse.BuyLabel(r.out.v1)))
            || (e.AtFirstBuy? && TrendReverse.CallOutcome(points, r, ctx, e.fx, e.profit, DefaultDb))
  {
    var e := LegacyEntry(points, c, ctx, lib, fxDtLimit);
    if e.AtFirstBuy? {
      LegacyFirstBuyOrLaterOutcome(points, c, ctx, lib, e.fx, e.ubi, e.zs2, e.zs3, e.profit);
    }
  }

  /**
   * From the first-buy test on: a first buy is written, as the first record,
   * exactly when the development copy's conditions hold; it is returned
   * exactly when the fractal is also not weak; otherwise the later search
   * runs on the records including it.
   */
  lemma LegacyFirstBuyOrLaterIff(points: seq<BuyPoint>, c: Chart, ctx: Ctx, lib: Library, fx: Fx, ubi: Ubi,
                                 zs2: TrendReverse.PivotView, zs3: TrendReverse.PivotView, profit: real)
    ensures var r := LegacyFirstBuyOrLater(points, c, ctx, lib, fx, ubi, zs2, zs3, profit);
            (|r.points| > |points| && r.points[|points|].signal == FirstBuy)
            <==> TrendReverse.FirstBuyHolds(TrendReverse.TrendReverseDev, ubi, zs2, zs3, profit)
    ensures var r := LegacyFirstBuyOrLater(points, c, ctx, lib, fx, ubi, zs2, zs3, profit);
            (r.out.Signal? && r.out.v1 == FirstBuy && r.out.v2.Some?)
            <==> TrendReverse.FirstBuyHolds(TrendReverse.TrendReverseDev, ubi, zs2, zs3, profit) && fx.power != Weak
    ensures TrendReverse.FirstBuyHolds(TrendReverse.TrendReverseDev, ubi, zs2, zs3, profit) && fx.power == Weak ==>
              var after := points + [NewPoint(ctx, FirstBuy, fx, profit, None, DefaultDb)];
              LegacyFirstBuyOrLater(points, c, ctx, lib, fx, ubi, zs2, zs3, profit) == LegacyLater(after, FirstBuy, c, ctx, lib, fx, ubi, profit)
  {
    LegacyFirstBuyMeaning(points, ctx, fx, ubi, zs2, zs3, profit);
    var s := LegacyFirstBuy(points, ctx, fx, ubi, zs2, zs3, profit);
    if s.Proceed? {
      LegacyLaterOutcome(s.points, s.v1, c, ctx, lib, fx, ubi, profit);
      var r := LegacyLater(s.points, s.v1, c, ctx, lib, fx, ubi, profit);
      if s.v1 == FirstBuy {
        assert r.points[|points|] == r.points[..|s.points|][|points|];
      }
    }
  }

  /** The call's first-buy test passes: it reaches the test and the development copy's first-buy conditions hold. */
  ghost predicate LegacyFirstBuyFires(points: seq<BuyPoint>, c: Chart, ctx: Ctx, lib: Library, fxDtLimit: int)
  {
    var e := LegacyEntry(points, c, ctx, lib, fxDtLimit);
    e.AtFirstBuy? && TrendReverse.FirstBuyHolds(TrendReverse.TrendReverseDev, e.ubi, e.zs2, e.zs3, e.profit)
  }

  /**
   * Over a whole call: a first buy is written, as the first record, exactly
   * when the first-buy test passes; it is returned with power and profit
   * exactly when the fractal is also not weak; otherwise the call is the
   * later search on the records including it.
   */
  lemma LegacyFirstBuyIff(points: seq<BuyPoint>, c: Chart, ctx: Ctx, lib: Library, fxDtLimit: int)
    ensures var r := LegacyRun(points, c, ctx, lib, fxDtLimit);
            (|r.points| > |points| && r.points[|points|].signal == FirstBuy) <==> LegacyFirstBuyFires(points, c, ctx, lib, fxDtLimit)
    ensures var r := LegacyRun(points, c, ctx, lib, fxDtLimit);
            var e := LegacyEntry(points, c, ctx, lib, fxDtLimit);
            (r.out.Signal? && r.out.v1 == FirstBuy && r.out.v2.Some?)
            <==> LegacyFirstBuyFires(points, c, ctx, lib, fxDtLimit) && e.fx.power != Weak
    ensures var e := LegacyEntry(points, c, ctx, lib, fxDtLimit);
            LegacyFirstBuyFires(points, c, ctx, lib, fxDtLimit) && e.fx.power == Weak ==>
              var after := points + [NewPoint(ctx, FirstBuy, e.fx, e.profit, None, DefaultDb)];
              LegacyRun(points, c, ctx, lib, fxDtLimit) == LegacyLater(after, FirstBuy, c, ctx, lib, e.fx, e.ubi, e.profit)
  {
    var e := LegacyEntry(points, c, ctx, lib, fxDtLimit);
    if e.AtFirstBuy? {
      LegacyFirstBuyOrLaterIff(points, c, ctx, lib, e.fx, e.ubi, e.zs2, e.zs3, e.profit);
    }
  }

  /** A call that wrote a record stops at '已存在' when repeated on the same chart. */
  lemma LegacyRecordsOnce(points: seq<BuyPoint>, c: Chart, ctx: Ctx, lib: Library, fxDtLimit: int)
    requires LegacyRun(points, c, ctx, lib, fxDtLimit).points != points
    ensures var later := LegacyRun(points, c, ctx, lib, fxDtLimit).points;
            LegacyRun(later, c, ctx, lib, fxDtLimit) == Run(Bare(AlreadyExists), later)
  {
    LegacyWritesLatestFractal(points, c, ctx, lib, fxDtLimit);
    var later := LegacyRun(points, c, ctx, lib, fxDtLimit).points;
    assert later[|points|] == NewPoint(ctx, later[|points|].signal, c.fxs[|c.fxs| - 1], later[|points|].profit, None, DefaultDb);
    assert SameKey(later[|points|], ctx.symbol, c.fxs[|c.fxs| - 1].dt, ctx.freq, DefaultDb);
    PreludeSeesRecord(points, later, c, ctx, LegacyMinBis, fxDtLimit, DefaultDb);
  }

  // ---------------------------------------------------------------------
  // The classifier on the store object.
  // ---------------------------------------------------------------------

  /** The steps up to the first-buy test, on the store's records. */
  method LegacyEntryOn(store: Store, c: Chart, ctx: Ctx, lib: Library, fxDtLimit: int) returns (e: TrendReverse.Entry)
    ensures e == LegacyEntry(store.points, c, ctx, lib, fxDtLimit)
  {
    var g := Prelude(store.points, c, ctx, LegacyMinBis, fxDtLimit, DefaultDb);
    if g.Stop? {
      return TrendReverse.Done(Run(g.out, store.points));
    }
    e := TrendReverse.PivotEntryOn(TrendReverse.TrendReverseDev, store, c, lib, g.last, g.fx, g.ubi);
  }

  /** The classifier on the store: the same outcome and the same records as `LegacyRun`. */
  method TrendReverseLegacy(store: Store, c: Chart, ctx: Ctx, lib: Library, fxDtLimit: int) returns (out: Outcome)
    modifies store
    ensures Run(out, store.points) == LegacyRun(old(store.points), c, ctx, lib, fxDtLimit)
  {
    var e := LegacyEntryOn(store, c, ctx, lib, fxDtLimit);
    if e.Done? {
      return e.run.out;
    }
    out := LegacyFirstBuyThenLaterOn(store, c, ctx, lib, e.fx, e.ubi, e.zs2, e.zs3, e.profit);
  }

  /** The nested first-buy test on the store, then the later search unless it returned. */
  method LegacyFirstBuyThenLaterOn(store: Store, c: Chart, ctx: Ctx, lib: Library, fx: Fx, ubi: Ubi,
                                   zs2: TrendReverse.PivotView, zs3: TrendReverse.PivotView, profit: real) returns (out: Outcome)
    modifies store
    ensures Run(out, store.points) == LegacyFirstBuyOrLater(old(store.points), c, ctx, lib, fx, ubi, zs2, zs3, profit)
  {
    var v1 := Other;
    if zs3.valid && LegacyShape(ubi, zs2, zs3) {
      var m := MomentumPair(zs2.lastBars, zs3.lastBars);
      if m.Err? {
        return Raised(m.error);
      }
      if DifRises(m.value.0, m.value.1) && AreaShrinks(m.value.0, m.value.1) && profit >= 0.03 {
        if zs3.lastLow == zs3.dd {
          v1 := FirstBuy;
          store.Insert(NewPoint(ctx, FirstBuy, fx, profit, None, DefaultDb));
          if fx.power != Weak {
            return Full(FirstBuy, fx.power, profit);
          }
        }
      }
    }
    out := LegacyLaterOn(store, v1, c, ctx, lib, fx, ubi, profit);
  }

  /** The later search on the store, when a recent first buy is stored. */
  method LegacyLaterOn(store: Store, v1: Label, c: Chart, ctx: Ctx, lib: Library, fx: Fx, ubi: Ubi, profit: real)
    returns (out: Outcome)
    modifies store
    ensures Run(out, store.points) == LegacyLater(old(store.points), v1, c, ctx, lib, fx, ubi, profit)
  {
    if !HasRecent(store.points, ctx.symbol, ctx.edt, 30 * 6, FirstBuy, DefaultDb) {
      return Bare(v1);
    }
    var latest := LatestDate(store.points, ctx.symbol, FirstBuy, DefaultDb);
    if latest.None? {
      return Raised(AttributeError);
    }
    var after := StrokesFrom(c.bis, latest.value);
    var zs := TrendReverse.StrokePivotViews(lib.getZsSeq(after), lib);
    if |after| == 0 {
      return Raised(IndexError);
    }
    var peak := MaxOf(AbsMacds(after[0].rawBars));
    if peak.Err? {
      return Raised(peak.error);
    }
    var pass := LegacyGate(|zs|, ubi, c.bars, peak.value);
    if pass.Err? {
      return Raised(pass.error);
    }
    if !pass.value {
      return Bare(v1);
    }
    out := LegacyBuysOn(store, v1, ctx, fx, zs, profit);
  }

  /** The second-buy test, the read of the second pivot, then the third-buy test, writing the record of the buy found. */
  method LegacyBuysOn(store: Store, v1: Label, ctx: Ctx, fx: Fx, zs: seq<TrendReverse.PivotView>, profit: real)
    returns (out: Outcome)
    requires |zs| > 0
    modifies store
    ensures Run(out, store.points) == LegacyBuys(old(store.points), v1, ctx, fx, zs, profit)
  {
    if TrendReverse.SecondBuyHolds(TrendReverse.ByStrokes, fx, zs) {
      store.Insert(NewPoint(ctx, SecondBuy, fx, profit, None, DefaultDb));
      return Full(SecondBuy, fx.power, profit);
    }
    if |zs| < 2 {
      return Raised(IndexError);
    }
    if LegacyThirdHolds(fx, zs) {
      store.Insert(NewPoint(ctx, ThirdBuy, fx, profit, None, DefaultDb));
      return Full(ThirdBuy, fx.power, profit);
    }
    return Bare(v1);
  }
}
