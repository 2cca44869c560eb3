/**
 * The consolidation-divergence first buy ("盘整背驰"): when the last pivot's
 * leg falls in two down strokes and the second one shows weaker momentum,
 * the latest bottom fractal is recorded as a first buy.
 *
 * The same classifier appears four times in the repository with small
 * differences, captured by `PzbcVariant`: `macd_pzbc_bi` (at least four
 * strokes, an extra change-ratio test, database "BI"), the `macd_pzbc_ubi`
 * copies of the segment and development modules (no ratio test, default
 * database), and the older `macd_pzbc_ubi` (fifteen strokes). The boolean
 * core without the store, `is_macd_pzbc_bi`, is the last member here.
 */
module Pzbc {
  import opened Market
  import opened Chan
  import opened SigUtils
  import opened History
  import opened Signals

  /** The knobs in which the copies differ. */
  datatype PzbcVariant = PzbcVariant(minBis: nat, changeRatio: bool, db: Db)

  /** `sig/pzbc.py` `macd_pzbc_bi`. */
  const PzbcBi := PzbcVariant(4, true, NamedDb("BI"))
  /** `sig_xd.py` and `sig_dev.py` `macd_pzbc_ubi`. */
  const PzbcUbi := PzbcVariant(4, false, DefaultDb)
  /** `sig.py` `macd_pzbc_ubi`. */
  const PzbcLegacy := PzbcVariant(15, false, DefaultDb)

  /**
   * The first-buy conditions, read directly: a valid pivot leg that starts
   * and ends with a down stroke, the last stroke at the leg's low, the
   * unfinished stroke rising with fewer than two fractals, optionally the
   * last stroke moving at least 70% as far as the first, and weaker momentum
   * in the last stroke (a higher negative dif or a smaller negative area).
   */
  predicate PzbcHolds(changeRatio: bool, zs: Zs, ubi: Ubi, lib: Library, a: Momentum, b: Momentum)
  {
    var first, last := zs.bis[0], zs.bis[|zs.bis| - 1];
    lib.zsValid(zs.bis)
    && ubi.direction == Up
    && ubi.fxCount < 2
    && zs.Sdir() == Down
    && zs.Edir() == Down
    && zs.Dd() == last.low
    && (changeRatio ==> Abs(last.change) >= 0.7 * Abs(first.change))
    && (DifRises(a, b) || AreaShrinks(a, b))
  }

  /** Which test a condition is; its text is the description the source logs. */
  datatype PzbcCheck = ZsValid | UbiUp | UbiFewFxs | StartsDown | EndsDown | EndsAtLow | ChangeRatio | WeakerMomentum

  function PzbcCheckText(k: PzbcCheck): string
  {
    match k
    case ZsValid => "zs2.is_valid"
    case UbiUp => "ubi['direction'] == Direction.Up"
    case UbiFewFxs => "len(ubi['fxs']) < 2"
    case StartsDown => "zs2.sdir == Direction.Down"
    case EndsDown => "zs2.edir == Direction.Down"
    case EndsAtLow => "zs2.dd == bi_b.low"
    case ChangeRatio => "bi_b.change >= 70% * bi_a.change"
    case WeakerMomentum => "0 > bi_b_dif > bi_a_dif or abs(bi_a_macd_area) > abs(bi_b_macd_area)"
  }

  /** The six structural tests every copy makes first. */
  function PzbcShape(zs: Zs, ubi: Ubi, lib: Library): seq<(bool, PzbcCheck)>
  {
    [(lib.zsValid(zs.bis), ZsValid),
     (ubi.direction == Up, UbiUp),
     (ubi.fxCount < 2, UbiFewFxs),
     (zs.Sdir() == Down, StartsDown),
     (zs.Edir() == Down, EndsDown),
     (zs.Dd() == zs.bis[|zs.bis| - 1].low, EndsAtLow)]
  }

  /** The optional ratio test and the momentum test that close the tuple. */
  function PzbcTail(changeRatio: bool, zs: Zs, a: Momentum, b: Momentum): seq<(bool, PzbcCheck)>
  {
    var first, last := zs.bis[0], zs.bis[|zs.bis| - 1];
    var momentum := (DifRises(a, b) || AreaShrinks(a, b), WeakerMomentum);
    if changeRatio then [(Abs(last.change) >= 0.7 * Abs(first.change), ChangeRatio), momentum]
    else [momentum]
  }

  /** The tuple `pzbc_conditions`. */
  function PzbcConditions(changeRatio: bool, zs: Zs, ubi: Ubi, lib: Library, a: Momentum, b: Momentum): seq<(bool, PzbcCheck)>
  {
    PzbcShape(zs, ubi, lib) + PzbcTail(changeRatio, zs, a, b)
  }

  /** None of the six structural tests fails exactly when all six hold. */
  lemma PzbcShapeMeaning(zs: Zs, ubi: Ubi, lib: Library)
    ensures SelectFailedConditions(PzbcShape(zs, ubi, lib)) == []
            <==> lib.zsValid(zs.bis) && ubi.direction == Up && ubi.fxCount < 2 && zs.Sdir() == Down
                 && zs.Edir() == Down && zs.Dd() == zs.bis[|zs.bis| - 1].low
  {
    var shape := PzbcShape(zs, ubi, lib);
    NoFailuresIffAllHold(shape);
    assert shape[0].0 == lib.zsValid(zs.bis) && shape[1].0 == (ubi.direction == Up) && shape[2].0 == (ubi.fxCount < 2);
    assert shape[3].0 == (zs.Sdir() == Down) && shape[4].0 == (zs.Edir() == Down);
    assert shape[5].0 == (zs.Dd() == zs.bis[|zs.bis| - 1].low);
  }

  /** No condition fails exactly when the first-buy conditions hold. */
  lemma PzbcConditionsMeaning(changeRatio: bool, zs: Zs, ubi: Ubi, lib: Library, a: Momentum, b: Momentum)
    ensures SelectFailedConditions(PzbcConditions(changeRatio, zs, ubi, lib, a, b)) == []
            <==> PzbcHolds(changeRatio, zs, ubi, lib, a, b)
  {
    var tail := PzbcTail(changeRatio, zs, a, b);
    FailedConditionsAppend(PzbcShape(zs, ubi, lib), tail);
    PzbcShapeMeaning(zs, ubi, lib);
    NoFailuresIffAllHold(tail);
  }

  /** Fail-fast evaluation of the conditions, the form of the older copy's `and` chain. */
  function PzbcChain(changeRatio: bool, zs: Zs, ubi: Ubi, lib: Library, a: Momentum, b: Momentum): bool
  {
    SelectFailedConditions(PzbcConditions(changeRatio, zs, ubi, lib, a, b)) == []
  }

  /**
   * `after` is `points` with one more record: a first buy for the latest
   * fractal, whose key was not yet stored.
   */
  predicate AppendsNewFirstBuy(points: seq<BuyPoint>, after: seq<BuyPoint>, c: Chart, ctx: Ctx, db: Db)
  {
    |c.fxs| > 0 && |after| == |points| + 1 && after[..|points|] == points
    && var p := after[|points|];
       p.signal == FirstBuy && p.db == db && p.date == c.fxs[|c.fxs| - 1].dt
       && p.symbol == ctx.symbol && p.freq == ctx.freq
       && !PointExists(points, ctx.symbol, p.date, ctx.freq, db)
  }

  /** `ZS(select_pzbc_bis(bis))` when the selected leg is not empty. */
  function PzbcLeg(bis: seq<Bi>, lib: Library): (r: Option<Zs>)
    ensures r.None? <==> !NonEmptyLeg(SelectPzbcBis(bis, lib))
    ensures r.Some? ==> r.value.bis == SelectPzbcBis(bis, lib).value
  {
    var remaining := SelectPzbcBis(bis, lib);
    if !NonEmptyLeg(remaining) then None else Some(Zs(remaining.value))
  }

  /** The momentum of the leg's first stroke `bi_a` and of its last stroke `bi_b`. */
  function LegMomentum(zs: Zs): Result<(Momentum, Momentum)>
  {
    MomentumPair(zs.bis[0].rawBars, zs.bis[|zs.bis| - 1].rawBars)
  }

  /** What follows the leg: profit, momentum, conditions, and the record when they hold. */
  function PzbcStage(v: PzbcVariant, points: seq<BuyPoint>, ctx: Ctx, lib: Library, zs2: Zs, last: RawBar, fx: Fx, ubi: Ubi): Run
  {
    match Profit(zs2.Zd(), last.close)
    case Err(e) => Run(Raised(e), points)
    case Ok(profit) =>
      match LegMomentum(zs2)
      case Err(e) => Run(Raised(e), points)
      case Ok(m) =>
        if PzbcChain(v.changeRatio, zs2, ubi, lib, m.0, m.1) then
          var p := NewPoint(ctx, FirstBuy, fx, profit, None, v.db);
          Run(if fx.power != Weak then Full(FirstBuy, fx.power, profit) else Bare(FirstBuy), points + [p])
        else Run(Bare(Other), points)
  }

  /**
   * `macd_pzbc_bi` / `macd_pzbc_ubi`, as a function of the stored records:
   * the outcome and the records afterwards.
   */
  function PzbcRun(v: PzbcVariant, points: seq<BuyPoint>, c: Chart, ctx: Ctx, lib: Library, fxDtLimit: int): Run
  {
    match PreludeGate(points, c, ctx, v.minBis, fxDtLimit, v.db)
    case Stop(o) => Run(o, points)
    case Go(last, fx, ubi) =>
      match PzbcLeg(c.bis, lib)
      case None => Run(Bare(NoPivot), points)
      case Some(zs2) => PzbcStage(v, points, ctx, lib, zs2, last, fx, ubi)
  }

  /** The price allows a profit, the strokes carry bars, and the conditions hold. */
  ghost predicate StageFires(changeRatio: bool, lib: Library, zs2: Zs, last: RawBar, ubi: Ubi)
  {
    var m := LegMomentum(zs2);
    Profit(zs2.Zd(), last.close).Ok? && m.Ok? && PzbcHolds(changeRatio, zs2, ubi, lib, m.value.0, m.value.1)
  }

  /** The stage writes a record exactly when it fires, and then it is the first buy with the estimated profit. */
  lemma PzbcStageMeaning(v: PzbcVariant, points: seq<BuyPoint>, ctx: Ctx, lib: Library, zs2: Zs, last: RawBar, fx: Fx, ubi: Ubi)
    ensures var r := PzbcStage(v, points, ctx, lib, zs2, last, fx, ubi);
            (r.points != points <==> StageFires(v.changeRatio, lib, zs2, last, ubi))
            && ((r.out.Signal? && r.out.v1 == FirstBuy) <==> StageFires(v.changeRatio, lib, zs2, last, ubi))
    ensures var r := PzbcStage(v, points, ctx, lib, zs2, last, fx, ubi);
            var profit := Profit(zs2.Zd(), last.close);
            StageFires(v.changeRatio, lib, zs2, last, ubi) ==>
              r.points == points + [NewPoint(ctx, FirstBuy, fx, profit.value, None, v.db)]
              && r.out == (if fx.power != Weak then Full(FirstBuy, fx.power, profit.value) else Bare(FirstBuy))
  {
    var m := LegMomentum(zs2);
    if m.Ok? {
      PzbcConditionsMeaning(v.changeRatio, zs2, ubi, lib, m.value.0, m.value.1);
    }
  }

  /** The run gets past every gate and meets the conditions: the fractal is a first buy. */
  ghost predicate PzbcFires(v: PzbcVariant, points: seq<BuyPoint>, c: Chart, ctx: Ctx, lib: Library, fxDtLimit: int)
  {
    var g := PreludeGate(points, c, ctx, v.minBis, fxDtLimit, v.db);
    var leg := PzbcLeg(c.bis, lib);
    g.Go? && leg.Some? && StageFires(v.changeRatio, lib, leg.value, g.last, g.ubi)
  }

  /** The first buy is signalled exactly when it fires, and a record is written exactly then. */
  lemma PzbcFirstBuyIff(v: PzbcVariant, points: seq<BuyPoint>, c: Chart, ctx: Ctx, lib: Library, fxDtLimit: int)
    ensures var r := PzbcRun(v, points, c, ctx, lib, fxDtLimit);
            (r.out.Signal? && r.out.v1 == FirstBuy) <==> PzbcFires(v, points, c, ctx, lib, fxDtLimit)
    ensures var r := PzbcRun(v, points, c, ctx, lib, fxDtLimit);
            r.points != points <==> PzbcFires(v, points, c, ctx, lib, fxDtLimit)
  {
    var g := PreludeGate(points, c, ctx, v.minBis, fxDtLimit, v.db);
    var leg := PzbcLeg(c.bis, lib);
    if g.Go? && leg.Some? {
      PzbcStageMeaning(v, points, ctx, lib, leg.value, g.last, g.fx, g.ubi);
    }
  }

  /**
   * When it fires, the one record written is the latest fractal's, with the
   * estimated profit `(zs2.zd - price) / price`; the power and the profit are
   * surfaced unless the fractal is weak.
   */
  lemma PzbcFirstBuyRecord(v: PzbcVariant, points: seq<BuyPoint>, c: Chart, ctx: Ctx, lib: Library, fxDtLimit: int)
    requires PzbcFires(v, points, c, ctx, lib, fxDtLimit)
    ensures var r := PzbcRun(v, points, c, ctx, lib, fxDtLimit);
            var g := PreludeGate(points, c, ctx, v.minBis, fxDtLimit, v.db);
            var zs2 := PzbcLeg(c.bis, lib).value;
            |r.points| == |points| + 1
            && r.points[|points|] == NewPoint(ctx, FirstBuy, g.fx, r.points[|points|].profit, None, v.db)
            && Profit(zs2.Zd(), g.last.close) == Ok(r.points[|points|].profit)
            && (r.out.v2.Some? <==> g.fx.power != Weak)
            && (r.out.v2.Some? ==> r.out.v2 == Some(g.fx.power) && r.out.v3 == Some(r.points[|points|].profit))
  {
    var g := PreludeGate(points, c, ctx, v.minBis, fxDtLimit, v.db);
    PzbcStageMeaning(v, points, ctx, lib, PzbcLeg(c.bis, lib).value, g.last, g.fx, g.ubi);
  }

  /** A run changes the store only by appending a first buy for the latest fractal whose key was not stored. */
  lemma PzbcWritesOnlyNewFirstBuy(v: PzbcVariant, points: seq<BuyPoint>, c: Chart, ctx: Ctx, lib: Library, fxDtLimit: int)
    ensures var r := PzbcRun(v, points, c, ctx, lib, fxDtLimit);
            r.points == points || AppendsNewFirstBuy(points, r.points, c, ctx, v.db)
  {
    PzbcFirstBuyIff(v, points, c, ctx, lib, fxDtLimit);
    if PzbcFires(v, points, c, ctx, lib, fxDtLimit) {
      PzbcFirstBuyRecord(v, points, c, ctx, lib, fxDtLimit);
      GoMeansFreshBottom(points, c, ctx, v.minBis, fxDtLimit, v.db);
      var r := PzbcRun(v, points, c, ctx, lib, fxDtLimit);
      assert r.points == points + [r.points[|points|]];
      assert r.points[..|points|] == points;
    }
  }

  /**
   * Running the classifier again on the same chart after it recorded a first
   * buy stops at '已存在' and writes nothing: a fractal is recorded once.
   */
  lemma PzbcRecordsOnce(v: PzbcVariant, points: seq<BuyPoint>, c: Chart, ctx: Ctx, lib: Library, fxDtLimit: int)
    requires PzbcRun(v, points, c, ctx, lib, fxDtLimit).points != points
    ensures var again := PzbcRun(v, PzbcRun(v, points, c, ctx, lib, fxDtLimit).points, c, ctx, lib, fxDtLimit);
            again == Run(Bare(AlreadyExists), PzbcRun(v, points, c, ctx, lib, fxDtLimit).points)
  {
    var r := PzbcRun(v, points, c, ctx, lib, fxDtLimit);
    PzbcFirstBuyIff(v, points, c, ctx, lib, fxDtLimit);
    PzbcWritesOnlyNewFirstBuy(v, points, c, ctx, lib, fxDtLimit);
    var p := r.points[|points|];
    assert r.points == points + [p];
    InsertedIsFound(points, p);
    PreludeSeesRecord(points, r.points, c, ctx, v.minBis, fxDtLimit, v.db);
  }

  /**
   * The older copy tests `len(zs_seq) == 0` where the others test the sliced
   * leg's truthiness: the two agree, since a leg of an existing pivot is never empty.
   */
  lemma LegPresentIffPivots(bis: seq<Bi>, lib: Library)
    ensures NonEmptyLeg(SelectPzbcBis(bis, lib)) <==> |lib.getZsSeq(bis)| > 0
  {
    if |lib.getZsSeq(bis)| > 0 {
      LegIsPivotSuffix(bis, lib);
    }
  }

  /** The store-writing classifier, on the store object. */
  method MacdPzbc(v: PzbcVariant, store: Store, c: Chart, ctx: Ctx, lib: Library, fxDtLimit: int) returns (out: Outcome)
    modifies store
    ensures Run(out, store.points) == PzbcRun(v, old(store.points), c, ctx, lib, fxDtLimit)
  {
    var g := Prelude(store.points, c, ctx, v.minBis, fxDtLimit, v.db);
    if g.Stop? {
      return g.out;
    }
    var leg := PzbcLeg(c.bis, lib);
    if leg.None? {
      return Bare(NoPivot);
    }
    var zs2 := leg.value;
    var profit := Profit(zs2.Zd(), g.last.close);
    if profit.Err? {
      return Raised(profit.error);
    }
    var m := LegMomentum(zs2);
    if m.Err? {
      return Raised(m.error);
    }
    var failed := SelectFailedConditions(PzbcConditions(v.changeRatio, zs2, g.ubi, lib, m.value.0, m.value.1));
    out := Bare(Other);
    if failed == [] {
      store.Insert(NewPoint(ctx, FirstBuy, g.fx, profit.value, None, v.db));
      out := Bare(FirstBuy);
      if g.fx.power != Weak {
        return Full(FirstBuy, g.fx.power, profit.value);
      }
    }
  }

  /**
   * `is_macd_pzbc_bi`: the same leg and conditions without the ratio test,
   * no store and no gates. No leg gives False; a stroke without bars raises
   * ValueError from `min`; a chart without an unfinished stroke raises
   * TypeError when the conditions read it.
   */
  function IsMacdPzbcBi(c: Chart, lib: Library): (r: Result<bool>)
    ensures !NonEmptyLeg(SelectPzbcBis(c.bis, lib)) ==> r == Ok(false)
    ensures r.Err? ==> r.error == ValueError || r.error == TypeError
    ensures r.Err? <==> PzbcLeg(c.bis, lib).Some? && (LegMomentum(PzbcLeg(c.bis, lib).value).Err? || c.ubi.None?)
    ensures PzbcLeg(c.bis, lib).Some? && LegMomentum(PzbcLeg(c.bis, lib).value).Err? ==> r == Err(ValueError)
    ensures PzbcLeg(c.bis, lib).Some? && LegMomentum(PzbcLeg(c.bis, lib).value).Ok? && c.ubi.None? ==> r == Err(TypeError)
  {
    match PzbcLeg(c.bis, lib)
    case None => Ok(false)
    case Some(zs2) =>
      match LegMomentum(zs2)
      case Err(e) => Err(e)
      case Ok(m) =>
        if c.ubi.None? then Err(TypeError)
        else Ok(PzbcChain(false, zs2, c.ubi.value, lib, m.0, m.1))
  }

  /** The core's conditions hold for the leg and the unfinished stroke. */
  ghost predicate CoreFires(c: Chart, lib: Library)
  {
    var leg := PzbcLeg(c.bis, lib);
    leg.Some? && c.ubi.Some?
    && (var m := LegMomentum(leg.value);
        m.Ok? && PzbcHolds(false, leg.value, c.ubi.value, lib, m.value.0, m.value.1))
  }

  /** `is_macd_pzbc_bi` is True exactly when its conditions hold. */
  lemma IsMacdPzbcBiMeaning(c: Chart, lib: Library)
    ensures IsMacdPzbcBi(c, lib) == Ok(true) <==> CoreFires(c, lib)
  {
    var leg := PzbcLeg(c.bis, lib);
    if leg.Some? && c.ubi.Some? {
      var m := LegMomentum(leg.value);
      if m.Ok? {
        PzbcConditionsMeaning(false, leg.value, c.ubi.value, lib, m.value.0, m.value.1);
      }
    }
  }

  /**
   * The boolean core agrees with the store-writing copies without a ratio
   * test: once their gates pass and the price is not zero, they record a
   * first buy exactly when `is_macd_pzbc_bi` is True.
   */
  lemma PzbcAgreesWithCore(v: PzbcVariant, points: seq<BuyPoint>, c: Chart, ctx: Ctx, lib: Library, fxDtLimit: int)
    requires !v.changeRatio
    requires PreludeGate(points, c, ctx, v.minBis, fxDtLimit, v.db).Go?
    requires c.bars[|c.bars| - 1].close != 0.0
    ensures PzbcRun(v, points, c, ctx, lib, fxDtLimit).points != points <==> IsMacdPzbcBi(c, lib) == Ok(true)
  {
    PzbcFirstBuyIff(v, points, c, ctx, lib, fxDtLimit);
    IsMacdPzbcBiMeaning(c, lib);
    GoMeansFreshBottom(points, c, ctx, v.minBis, fxDtLimit, v.db);
  }
}
