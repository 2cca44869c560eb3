/**
 * The pivot-elevation third buy ("中枢上移三买"): the last pivot sits above the
 * one before it and the latest bottom fractal stays above the earlier pivot's
 * band. `third_buy_bi` reads czsc stroke pivots and writes to database "BI";
 * `third_buy_xd` reads segment pivots and writes to database "XD". Both record
 * the buy with reason "zs_elevate" before deciding whether to surface its
 * power and profit.
 */
module ZsElevate {
  import opened Market
  import opened Objects
  import opened Chan
  import AnalyzeByBreak
  import XdPivots
  import opened SigUtils
  import opened History
  import opened Signals

  const ElevateBiDb := NamedDb("BI")
  const ElevateXdDb := NamedDb("XD")

  /** The reason both copies store with the record. */
  const ElevateReason := "zs_elevate"

  /** Which third-buy test a condition is; its text is the description the source logs. */
  datatype ElevateCheck = ElevRisingUbi | ElevFewUbiFxs | FirstStrokeDown | LastStrokeDown
                        | SegmentDown | OneSegment | LongSegment | AboveLowerBand

  function ElevateCheckText(k: ElevateCheck): string
  {
    match k
    case ElevRisingUbi => "ubi['direction'] == Direction.Up"
    case ElevFewUbiFxs => "len(ubi['fxs']) < 2"
    case FirstStrokeDown => "zs2_bi_a == Direction.Down"
    case LastStrokeDown => "zs2_bi_c == Direction.Down"
    case SegmentDown => "last_xd == Direction.Down"
    case OneSegment => "len(zs2.xds) == 1"
    case LongSegment => "2 < len(last_xd.bis)"
    case AboveLowerBand => "zs1.zg < latest_fx.low"
  }

  /**
   * Where the opening checks and the pivot count leave a call: finished, or at
   * the last bar, the latest fractal, the unfinished stroke and the last two
   * pivots.
   */
  datatype Entry<Z> = Done(run: Run) | At(last: RawBar, fx: Fx, ubi: Ubi, zs1: Z, zs2: Z)

  /**
   * The ending both copies share: a passing test records the third buy for the
   * latest fractal and returns it with power and profit unless the fractal is
   * weak; a failing test returns '其他' and writes nothing.
   */
  function Emit(points: seq<BuyPoint>, ctx: Ctx, fx: Fx, profit: real, db: Db, pass: bool): (r: Run)
    ensures !pass <==> r == Run(Bare(Other), points)
    ensures pass ==> r.points == points + [NewPoint(ctx, ThirdBuy, fx, profit, Some(ElevateReason), db)]
    ensures pass ==> r.out.Signal? && r.out.v1 == ThirdBuy && (r.out.v2.Some? <==> fx.power != Weak)
    ensures pass && fx.power != Weak ==> r.out == Full(ThirdBuy, fx.power, profit)
  {
    if !pass then Run(Bare(Other), points)
    else
      var after := points + [NewPoint(ctx, ThirdBuy, fx, profit, Some(ElevateReason), db)];
      if fx.power != Weak then Run(Full(ThirdBuy, fx.power, profit), after) else Run(Bare(ThirdBuy), after)
  }

  /** An outcome that is neither a third buy nor a surfaced power. */
  predicate Quiet(o: Outcome)
  {
    !(o.Signal? && (o.v1 == ThirdBuy || o.v2.Some?))
  }

  // ---------------------------------------------------------------------
  // `third_buy_bi`: czsc stroke pivots.
  // ---------------------------------------------------------------------

  /**
   * The tuple `third_buy_conditions` of the stroke copy. The first and last
   * strokes of the last pivot are compared, as objects, with
   * `Direction.Down`; what that comparison yields is the library's equality
   * of a stroke with a direction.
   */
  function BiConditions(ubi: Ubi, zs1: Zs, zs2: Zs, fx: Fx, lib: Library): seq<(bool, ElevateCheck)>
  {
    [(ubi.direction == Up, ElevRisingUbi), (ubi.fxCount < 2, ElevFewUbiFxs),
     (lib.biEqualsDown(zs2.bis[0]), FirstStrokeDown), (lib.biEqualsDown(zs2.bis[|zs2.bis| - 1]), LastStrokeDown),
     (zs1.Zg() < fx.low, AboveLowerBand)]
  }

  /** The stroke copy's conditions, read directly. */
  predicate BiElevates(ubi: Ubi, zs1: Zs, zs2: Zs, fx: Fx, lib: Library)
  {
    ubi.direction == Up && ubi.fxCount < 2 && lib.biEqualsDown(zs2.bis[0])
    && lib.biEqualsDown(zs2.bis[|zs2.bis| - 1]) && zs1.Zg() < fx.low
  }

  /** No condition of the stroke copy fails exactly when all of them hold. */
  lemma BiConditionsMeaning(ubi: Ubi, zs1: Zs, zs2: Zs, fx: Fx, lib: Library)
    ensures SelectFailedConditions(BiConditions(ubi, zs1, zs2, fx, lib)) == [] <==> BiElevates(ubi, zs1, zs2, fx, lib)
  {
    var conds := BiConditions(ubi, zs1, zs2, fx, lib);
    NoFailuresIffAllHold(conds);
    assert conds[0].0 == (ubi.direction == Up) && conds[1].0 == (ubi.fxCount < 2);
    assert conds[2].0 == lib.biEqualsDown(zs2.bis[0]) && conds[3].0 == lib.biEqualsDown(zs2.bis[|zs2.bis| - 1]);
    assert conds[4].0 == (zs1.Zg() < fx.low);
  }

  /** Both pivots have enough strokes: nine in the earlier one, three in the last. */
  predicate BiPivotsLong(zs1: Zs, zs2: Zs)
  {
    |zs1.bis| >= 9 && |zs2.bis| >= 3
  }

  /** The stroke copy up to its last two pivots: the opening checks, then '中枢不够' for fewer than two pivots. */
  function BiEntry(points: seq<BuyPoint>, c: Chart, ctx: Ctx, lib: Library, fxDtLimit: int): (e: Entry<Zs>)
    ensures e.Done? ==> e.run.points == points && Quiet(e.run.out)
  {
    match PreludeGate(points, c, ctx, 5, fxDtLimit, ElevateBiDb)
    case Stop(o) => Done(Run(o, points))
    case Go(last, fx, ubi) =>
      var zs := lib.getZsSeq(c.bis);
      if |zs| < 2 then Done(Run(Bare(TooFewPivots), points))
      else At(last, fx, ubi, zs[|zs| - 2], zs[|zs| - 1])
  }

  /**
   * The stroke copy reaches its pivots exactly when the opening checks pass
   * and there are two pivots; it then holds the last bar, the latest fractal
   * (a bottom with no record under its key), the unfinished stroke and the
   * last two pivots of `get_zs_seq`.
   */
  lemma BiEntryMeaning(points: seq<BuyPoint>, c: Chart, ctx: Ctx, lib: Library, fxDtLimit: int)
    ensures var e := BiEntry(points, c, ctx, lib, fxDtLimit);
            var g := PreludeGate(points, c, ctx, 5, fxDtLimit, ElevateBiDb);
            var zs := lib.getZsSeq(c.bis);
            (e.At? <==> g.Go? && |zs| >= 2)
            && (g.Stop? ==> e == Done(Run(g.out, points)))
            && (g.Go? && |zs| < 2 ==> e == Done(Run(Bare(TooFewPivots), points)))
            && (e.At? ==> e == At(c.bars[|c.bars| - 1], c.fxs[|c.fxs| - 1], c.ubi.value, zs[|zs| - 2], zs[|zs| - 1])
                          && e.fx.mark == D && !PointExists(points, ctx.symbol, e.fx.dt, ctx.freq, ElevateBiDb))
  {
    if PreludeGate(points, c, ctx, 5, fxDtLimit, ElevateBiDb).Go? {
      GoMeansFreshBottom(points, c, ctx, 5, fxDtLimit, ElevateBiDb);
    }
  }

  /** The stroke copy past its pivot count: the stroke counts, the profit against the last band's top, the test. */
  function BiStage(points: seq<BuyPoint>, ctx: Ctx, lib: Library, last: RawBar, fx: Fx, ubi: Ubi, zs1: Zs, zs2: Zs): Run
  {
    if !BiPivotsLong(zs1, zs2) then Run(Bare(PivotStrokesShort), points)
    else
      match Profit(zs2.Zg(), last.close)
      case Err(e) => Run(Raised(e), points)
      case Ok(profit) =>
        Emit(points, ctx, fx, profit, ElevateBiDb, SelectFailedConditions(BiConditions(ubi, zs1, zs2, fx, lib)) == [])
  }

  /** `third_buy_bi`, as a function of the stored records. */
  function ThirdBuyBiRun(points: seq<BuyPoint>, c: Chart, ctx: Ctx, lib: Library, fxDtLimit: int): Run
  {
    match BiEntry(points, c, ctx, lib, fxDtLimit)
    case Done(r) => r
    case At(last, fx, ubi, zs1, zs2) => BiStage(points, ctx, lib, last, fx, ubi, zs1, zs2)
  }

  /**
   * Past the pivot count the stroke copy stops at '中枢笔不足' for short
   * pivots, raises ZeroDivisionError for a zero close, and otherwise records
   * the third buy exactly when its conditions hold.
   */
  lemma BiStageMeaning(points: seq<BuyPoint>, ctx: Ctx, lib: Library, last: RawBar, fx: Fx, ubi: Ubi, zs1: Zs, zs2: Zs)
    ensures var r := BiStage(points, ctx, lib, last, fx, ubi, zs1, zs2);
            (!BiPivotsLong(zs1, zs2) ==> r == Run(Bare(PivotStrokesShort), points))
            && (BiPivotsLong(zs1, zs2) && last.close == 0.0 ==> r == Run(Raised(ZeroDivisionError), points))
            && (BiPivotsLong(zs1, zs2) && last.close != 0.0 ==>
                  var profit := Profit(zs2.Zg(), last.close).value;
                  r == Emit(points, ctx, fx, profit, ElevateBiDb, BiElevates(ubi, zs1, zs2, fx, lib)))
  {
    if BiPivotsLong(zs1, zs2) {
      BiConditionsMeaning(ubi, zs1, zs2, fx, lib);
    }
  }

  /** The stroke copy's test passes: it reaches two long enough pivots with a nonzero close, and the conditions hold. */
  predicate BiFires(points: seq<BuyPoint>, c: Chart, ctx: Ctx, lib: Library, fxDtLimit: int)
  {
    var e := BiEntry(points, c, ctx, lib, fxDtLimit);
    e.At? && BiPivotsLong(e.zs1, e.zs2) && e.last.close != 0.0 && BiElevates(e.ubi, e.zs1, e.zs2, e.fx, lib)
  }

  /**
   * The stroke copy writes exactly when its test passes. It then appends one
   * third-buy record for the latest fractal with the profit
   * `(zs2.zg - close) / close` and surfaces power and profit unless the
   * fractal is weak; otherwise it returns neither '三买' nor a power.
   */
  lemma ThirdBuyBiFires(points: seq<BuyPoint>, c: Chart, ctx: Ctx, lib: Library, fxDtLimit: int)
    ensures var r := ThirdBuyBiRun(points, c, ctx, lib, fxDtLimit);
            var e := BiEntry(points, c, ctx, lib, fxDtLimit);
            (r.points != points <==> BiFires(points, c, ctx, lib, fxDtLimit))
            && (!BiFires(points, c, ctx, lib, fxDtLimit) ==> Quiet(r.out))
            && (BiFires(points, c, ctx, lib, fxDtLimit) ==>
                  r == Emit(points, ctx, e.fx, Profit(e.zs2.Zg(), e.last.close).value, ElevateBiDb, true))
  {
    var e := BiEntry(points, c, ctx, lib, fxDtLimit);
    if e.At? {
      BiStageMeaning(points, ctx, lib, e.last, e.fx, e.ubi, e.zs1, e.zs2);
    }
  }

  /**
   * The stroke copy's stops in their order, past the opening checks: fewer
   * than two pivots gives '中枢不够', then short pivots '中枢笔不足', then a
   * zero close ZeroDivisionError.
   */
  lemma ThirdBuyBiStops(points: seq<BuyPoint>, c: Chart, ctx: Ctx, lib: Library, fxDtLimit: int)
    requires PreludeGate(points, c, ctx, 5, fxDtLimit, ElevateBiDb).Go?
    ensures var r := ThirdBuyBiRun(points, c, ctx, lib, fxDtLimit);
            var zs := lib.getZsSeq(c.bis);
            (|zs| < 2 ==> r == Run(Bare(TooFewPivots), points))
            && (|zs| >= 2 && !BiPivotsLong(zs[|zs| - 2], zs[|zs| - 1]) ==> r == Run(Bare(PivotStrokesShort), points))
            && (|zs| >= 2 && BiPivotsLong(zs[|zs| - 2], zs[|zs| - 1]) && c.bars[|c.bars| - 1].close == 0.0 ==>
                  r == Run(Raised(ZeroDivisionError), points))
  {
    BiEntryMeaning(points, c, ctx, lib, fxDtLimit);
    var e := BiEntry(points, c, ctx, lib, fxDtLimit);
    if e.At? {
      BiStageMeaning(points, ctx, lib, e.last, e.fx, e.ubi, e.zs1, e.zs2);
    }
  }

  // ---------------------------------------------------------------------
  // `third_buy_xd`: segment pivots.
  // ---------------------------------------------------------------------

  /**
   * How `last_xd == Direction.Down` is read. As written it compares a segment
   * object with an enum member, which is never equal; the evident intent is
   * the segment's direction.
   */
  datatype Reading = AsWritten | Intended

  function LastSegmentDown(reading: Reading, x: Xd): (r: bool)
    ensures reading == AsWritten ==> !r
    ensures reading == Intended ==> (r <==> x.Dir() == Down)
  {
    match reading
    case AsWritten => false
    case Intended => x.Dir() == Down
  }

  /** `get_xd_zs_seq(analyze_xd(bis))`: the detector's error, or the pivots of the detected segments, each well formed. */
  function ElevatePivots(bis: seq<Bi>): (r: Result<seq<XdZs>>)
    ensures AnalyzeByBreak.AnalyzeXdSpec(bis).Err? <==> r.Err?
    ensures r.Err? ==> r.error == AnalyzeByBreak.AnalyzeXdSpec(bis).error
    ensures r.Ok? ==> forall j :: 0 <= j < |r.value| ==> r.value[j].WellFormed()
  {
    match AnalyzeByBreak.AnalyzeXdSpec(bis)
    case Err(e) => Err(e)
    case Ok(xds) =>
      AnalyzeByBreak.DetectedSegmentsNonEmpty(bis);
      XdPivots.GroupGood(xds);
      Ok(XdPivots.Group(xds))
  }

  /** The tuple `third_buy_conditions` of the segment copy; `last_xd` is the last pivot's first segment. */
  function XdConditions(reading: Reading, ubi: Ubi, zs1: XdZs, zs2: XdZs, fx: Fx): seq<(bool, ElevateCheck)>
    requires zs1.WellFormed() && zs2.WellFormed()
  {
    var lastXd := zs2.xds[0];
    [(ubi.direction == Up, ElevRisingUbi), (ubi.fxCount < 2, ElevFewUbiFxs),
     (LastSegmentDown(reading, lastXd), SegmentDown), (|zs2.xds| == 1, OneSegment),
     (2 < |lastXd.bis|, LongSegment), (zs1.Zg() < fx.low, AboveLowerBand)]
  }

  /** The segment copy's conditions, read directly. */
  predicate XdElevates(reading: Reading, ubi: Ubi, zs1: XdZs, zs2: XdZs, fx: Fx)
    requires zs1.WellFormed() && zs2.WellFormed()
  {
    ubi.direction == Up && ubi.fxCount < 2 && LastSegmentDown(reading, zs2.xds[0])
    && |zs2.xds| == 1 && 2 < |zs2.xds[0].bis| && zs1.Zg() < fx.low
  }

  /** No condition of the segment copy fails exactly when all of them hold. */
  lemma XdConditionsMeaning(reading: Reading, ubi: Ubi, zs1: XdZs, zs2: XdZs, fx: Fx)
    requires zs1.WellFormed() && zs2.WellFormed()
    ensures SelectFailedConditions(XdConditions(reading, ubi, zs1, zs2, fx)) == [] <==> XdElevates(reading, ubi, zs1, zs2, fx)
  {
    var conds := XdConditions(reading, ubi, zs1, zs2, fx);
    NoFailuresIffAllHold(conds);
    assert conds[0].0 == (ubi.direction == Up) && conds[1].0 == (ubi.fxCount < 2);
    assert conds[2].0 == LastSegmentDown(reading, zs2.xds[0]) && conds[3].0 == (|zs2.xds| == 1);
    assert conds[4].0 == (2 < |zs2.xds[0].bis|) && conds[5].0 == (zs1.Zg() < fx.low);
  }

  /**
   * The segment copy up to its last two pivots: the opening checks, the
   * detector's error, then '中枢不够' for fewer than two pivots.
   */
  function XdEntry(points: seq<BuyPoint>, c: Chart, ctx: Ctx, fxDtLimit: int): (e: Entry<XdZs>)
    ensures e.Done? ==> e.run.points == points && Quiet(e.run.out)
    ensures e.At? ==> e.zs1.WellFormed() && e.zs2.WellFormed()
  {
    match PreludeGate(points, c, ctx, 5, fxDtLimit, ElevateXdDb)
    case Stop(o) => Done(Run(o, points))
    case Go(last, fx, ubi) =>
      match ElevatePivots(c.bis)
      case Err(err) => Done(Run(Raised(err), points))
      case Ok(zs) =>
        if |zs| < 2 then Done(Run(Bare(TooFewPivots), points))
        else At(last, fx, ubi, zs[|zs| - 2], zs[|zs| - 1])
  }

  /**
   * The segment copy reaches its pivots exactly when the opening checks pass,
   * the detector succeeds and there are two pivots; it then holds the last
   * bar, the latest fractal (a bottom with no record under its key), the
   * unfinished stroke and the last two segment pivots.
   */
  lemma XdEntryMeaning(points: seq<BuyPoint>, c: Chart, ctx: Ctx, fxDtLimit: int)
    ensures var e := XdEntry(points, c, ctx, fxDtLimit);
            var g := PreludeGate(points, c, ctx, 5, fxDtLimit, ElevateXdDb);
            var zs := ElevatePivots(c.bis);
            (e.At? <==> g.Go? && zs.Ok? && |zs.value| >= 2)
            && (g.Stop? ==> e == Done(Run(g.out, points)))
            && (g.Go? && zs.Err? ==> e == Done(Run(Raised(zs.error), points)))
            && (g.Go? && zs.Ok? && |zs.value| < 2 ==> e == Done(Run(Bare(TooFewPivots), points)))
            && (e.At? ==> e == At(c.bars[|c.bars| - 1], c.fxs[|c.fxs| - 1], c.ubi.value,
                                  zs.value[|zs.value| - 2], zs.value[|zs.value| - 1])
                          && e.fx.mark == D && !PointExists(points, ctx.symbol, e.fx.dt, ctx.freq, ElevateXdDb))
  {
    if PreludeGate(points, c, ctx, 5, fxDtLimit, ElevateXdDb).Go? {
      GoMeansFreshBottom(points, c, ctx, 5, fxDtLimit, ElevateXdDb);
    }
  }

  /** The segment copy past its pivot count: the earlier pivot's segments, the profit against the last band's top, the test. */
  function XdStage(reading: Reading, points: seq<BuyPoint>, ctx: Ctx, last: RawBar, fx: Fx, ubi: Ubi, zs1: XdZs, zs2: XdZs): Run
    requires zs1.WellFormed() && zs2.WellFormed()
  {
    if |zs1.xds| < 3 then Run(Bare(Zs1Invalid), points)
    else
      match Profit(zs2.Zg(), last.close)
      case Err(e) => Run(Raised(e), points)
      case Ok(profit) =>
        Emit(points, ctx, fx, profit, ElevateXdDb, SelectFailedConditions(XdConditions(reading, ubi, zs1, zs2, fx)) == [])
  }

  /** `third_buy_xd` under a reading of its direction test, as a function of the stored records. */
  function ThirdBuyXdRun(reading: Reading, points: seq<BuyPoint>, c: Chart, ctx: Ctx, fxDtLimit: int): Run
  {
    match XdEntry(points, c, ctx, fxDtLimit)
    case Done(r) => r
    case At(last, fx, ubi, zs1, zs2) => XdStage(reading, points, ctx, last, fx, ubi, zs1, zs2)
  }

  /**
   * Past the pivot count the segment copy stops at 'zs1不成立' when the
   * earlier pivot has fewer than three segments, raises ZeroDivisionError for
   * a zero close, and otherwise records the third buy exactly when its
   * conditions hold.
   */
  lemma XdStageMeaning(reading: Reading, points: seq<BuyPoint>, ctx: Ctx, last: RawBar, fx: Fx, ubi: Ubi, zs1: XdZs, zs2: XdZs)
    requires zs1.WellFormed() && zs2.WellFormed()
    ensures var r := XdStage(reading, points, ctx, last, fx, ubi, zs1, zs2);
            (|zs1.xds| < 3 ==> r == Run(Bare(Zs1Invalid), points))
            && (|zs1.xds| >= 3 && last.close == 0.0 ==> r == Run(Raised(ZeroDivisionError), points))
            && (|zs1.xds| >= 3 && last.close != 0.0 ==>
                  var profit := Profit(zs2.Zg(), last.close).value;
                  r == Emit(points, ctx, fx, profit, ElevateXdDb, XdElevates(reading, ubi, zs1, zs2, fx)))
  {
    if |zs1.xds| >= 3 {
      XdConditionsMeaning(reading, ubi, zs1, zs2, fx);
    }
  }

  /** The segment copy's test passes under a reading: it reaches two pivots, the earlier with three segments, a nonzero close, and the conditions hold. */
  predicate XdFires(reading: Reading, points: seq<BuyPoint>, c: Chart, ctx: Ctx, fxDtLimit: int)
  {
    var e := XdEntry(points, c, ctx, fxDtLimit);
    e.At? && |e.zs1.xds| >= 3 && e.last.close != 0.0 && XdElevates(reading, e.ubi, e.zs1, e.zs2, e.fx)
  }

  /**
   * Under either reading, the segment copy writes exactly when its test
   * passes. It then appends one third-buy record for the latest fractal with
   * the profit `(zs2.zg - close) / close` and surfaces power and profit unless
   * the fractal is weak; otherwise it returns neither '三买' nor a power.
   */
  lemma ThirdBuyXdFires(reading: Reading, points: seq<BuyPoint>, c: Chart, ctx: Ctx, fxDtLimit: int)
    ensures var r := ThirdBuyXdRun(reading, points, c, ctx, fxDtLimit);
            var e := XdEntry(points, c, ctx, fxDtLimit);
            (r.points != points <==> XdFires(reading, points, c, ctx, fxDtLimit))
            && (!XdFires(reading, points, c, ctx, fxDtLimit) ==> Quiet(r.out))
            && (XdFires(reading, points, c, ctx, fxDtLimit) ==>
                  r == Emit(points, ctx, e.fx, Profit(e.zs2.Zg(), e.last.close).value, ElevateXdDb, true))
  {
    var e := XdEntry(points, c, ctx, fxDtLimit);
    if e.At? {
      XdStageMeaning(reading, points, ctx, e.last, e.fx, e.ubi, e.zs1, e.zs2);
    }
  }

  /**
   * As written, the segment copy never records anything and never returns
   * '三买' or a power: its direction test compares a segment object with
   * `Direction.Down`.
   */
  lemma XdNeverBuys(points: seq<BuyPoint>, c: Chart, ctx: Ctx, fxDtLimit: int)
    ensures var r := ThirdBuyXdRun(AsWritten, points, c, ctx, fxDtLimit);
            r.points == points && Quiet(r.out)
  {
    ThirdBuyXdFires(AsWritten, points, c, ctx, fxDtLimit);
  }

  /**
   * Read as intended, the segment copy writes exactly when it reaches two
   * pivots with a nonzero close, the earlier pivot has three segments, the
   * last pivot holds one down segment of more than two strokes, the
   * unfinished stroke rises with fewer than two fractals, and the fractal's
   * low is above the earlier pivot's band.
   */
  lemma XdIntendedFires(points: seq<BuyPoint>, c: Chart, ctx: Ctx, fxDtLimit: int)
    ensures var r := ThirdBuyXdRun(Intended, points, c, ctx, fxDtLimit);
            var e := XdEntry(points, c, ctx, fxDtLimit);
            r.points != points
            <==> e.At? && |e.zs1.xds| >= 3 && e.last.close != 0.0
                 && |e.zs2.xds| == 1 && e.zs2.xds[0].Dir() == Down && 2 < |e.zs2.xds[0].bis|
                 && e.ubi.direction == Up && e.ubi.fxCount < 2 && e.zs1.Zg() < e.fx.low
  {
    ThirdBuyXdFires(Intended, points, c, ctx, fxDtLimit);
  }

  // ---------------------------------------------------------------------
  // Both copies.
  // ---------------------------------------------------------------------

  /**
   * A call that wrote has stored the latest fractal under its key, so the same
   * call on the new records stops at '已存在'.
   */
  lemma BiRecordsOnce(points: seq<BuyPoint>, c: Chart, ctx: Ctx, lib: Library, fxDtLimit: int)
    requires ThirdBuyBiRun(points, c, ctx, lib, fxDtLimit).points != points
    ensures var later := ThirdBuyBiRun(points, c, ctx, lib, fxDtLimit).points;
            ThirdBuyBiRun(later, c, ctx, lib, fxDtLimit) == Run(Bare(AlreadyExists), later)
  {
    ThirdBuyBiFires(points, c, ctx, lib, fxDtLimit);
    BiEntryMeaning(points, c, ctx, lib, fxDtLimit);
    var later := ThirdBuyBiRun(points, c, ctx, lib, fxDtLimit).points;
    var fx := c.fxs[|c.fxs| - 1];
    assert SameKey(later[|points|], ctx.symbol, fx.dt, ctx.freq, ElevateBiDb);
    PreludeSeesRecord(points, later, c, ctx, 5, fxDtLimit, ElevateBiDb);
    BiEntryMeaning(later, c, ctx, lib, fxDtLimit);
  }

  /** The same for the segment copy, under either reading. */
  lemma XdRecordsOnce(reading: Reading, points: seq<BuyPoint>, c: Chart, ctx: Ctx, fxDtLimit: int)
    requires ThirdBuyXdRun(reading, points, c, ctx, fxDtLimit).points != points
    ensures var later := ThirdBuyXdRun(reading, points, c, ctx, fxDtLimit).points;
            ThirdBuyXdRun(reading, later, c, ctx, fxDtLimit) == Run(Bare(AlreadyExists), later)
  {
    ThirdBuyXdFires(reading, points, c, ctx, fxDtLimit);
    XdEntryMeaning(points, c, ctx, fxDtLimit);
    var later := ThirdBuyXdRun(reading, points, c, ctx, fxDtLimit).points;
    var fx := c.fxs[|c.fxs| - 1];
    assert SameKey(later[|points|], ctx.symbol, fx.dt, ctx.freq, ElevateXdDb);
    PreludeSeesRecord(points, later, c, ctx, 5, fxDtLimit, ElevateXdDb);
    XdEntryMeaning(later, c, ctx, fxDtLimit);
  }

  // ---------------------------------------------------------------------
  // The copies on the store object.
  // ---------------------------------------------------------------------

  /** The stroke copy up to its last two pivots, on the store's records. */
  method BiEntryOn(store: Store, c: Chart, ctx: Ctx, lib: Library, fxDtLimit: int) returns (e: Entry<Zs>)
    ensures e == BiEntry(store.points, c, ctx, lib, fxDtLimit)
  {
    var g := Prelude(store.points, c, ctx, 5, fxDtLimit, ElevateBiDb);
    if g.Stop? {
      return Done(Run(g.out, store.points));
    }
    var zs := lib.getZsSeq(c.bis);
    if |zs| < 2 {
      return Done(Run(Bare(TooFewPivots), store.points));
    }
    return At(g.last, g.fx, g.ubi, zs[|zs| - 2], zs[|zs| - 1]);
  }

  /** The stroke copy past its pivot count, on the store. */
  method BiStageOn(store: Store, ctx: Ctx, lib: Library, last: RawBar, fx: Fx, ubi: Ubi, zs1: Zs, zs2: Zs) returns (out: Outcome)
    modifies store
    ensures Run(out, store.points) == BiStage(old(store.points), ctx, lib, last, fx, ubi, zs1, zs2)
  {
    if |zs1.bis| < 9 || |zs2.bis| < 3 {
      return Bare(PivotStrokesShort);
    }
    var profit := Profit(zs2.Zg(), last.close);
    if profit.Err? {
      return Raised(profit.error);
    }
    out := Bare(Other);
    if SelectFailedConditions(BiConditions(ubi, zs1, zs2, fx, lib)) == [] {
      store.Insert(NewPoint(ctx, ThirdBuy, fx, profit.value, Some(ElevateReason), ElevateBiDb));
      out := if fx.power != Weak then Full(ThirdBuy, fx.power, profit.value) else Bare(ThirdBuy);
    }
  }

  /** `third_buy_bi` on the store. */
  method ThirdBuyBi(store: Store, c: Chart, ctx: Ctx, lib: Library, fxDtLimit: int) returns (out: Outcome)
    modifies store
    ensures Run(out, store.points) == ThirdBuyBiRun(old(store.points), c, ctx, lib, fxDtLimit)
  {
    var e := BiEntryOn(store, c, ctx, lib, fxDtLimit);
    if e.Done? {
      return e.run.out;
    }
    out := BiStageOn(store, ctx, lib, e.last, e.fx, e.ubi, e.zs1, e.zs2);
  }

  /** `get_xd_zs_seq(analyze_xd(bis))`, with the detector run as its loop. */
  method ComputeElevatePivots(bis: seq<Bi>) returns (r: Result<seq<XdZs>>)
    ensures r == ElevatePivots(bis)
  {
    var xds := AnalyzeByBreak.AnalyzeXd(bis);
    if xds.Err? {
      return Err(xds.error);
    }
    AnalyzeByBreak.DetectedSegmentsNonEmpty(bis);
    XdPivots.GroupGood(xds.value);
    return Ok(XdPivots.Group(xds.value));
  }

  /** The segment copy up to its last two pivots, on the store's records. */
  method XdEntryOn(store: Store, c: Chart, ctx: Ctx, fxDtLimit: int) returns (e: Entry<XdZs>)
    ensures e == XdEntry(store.points, c, ctx, fxDtLimit)
  {
    var g := Prelude(store.points, c, ctx, 5, fxDtLimit, ElevateXdDb);
    if g.Stop? {
      return Done(Run(g.out, store.points));
    }
    var zs := ComputeElevatePivots(c.bis);
    if zs.Err? {
      return Done(Run(Raised(zs.error), store.points));
    }
    if |zs.value| < 2 {
      return Done(Run(Bare(TooFewPivots), store.points));
    }
    return At(g.last, g.fx, g.ubi, zs.value[|zs.value| - 2], zs.value[|zs.value| - 1]);
  }

  /** The segment copy past its pivot count, on the store. */
  method XdStageOn(reading: Reading, store: Store, ctx: Ctx, last: RawBar, fx: Fx, ubi: Ubi, zs1: XdZs, zs2: XdZs) returns (out: Outcome)
    requires zs1.WellFormed() && zs2.WellFormed()
    modifies store
    ensures Run(out, store.points) == XdStage(reading, old(store.points), ctx, last, fx, ubi, zs1, zs2)
  {
    if |zs1.xds| < 3 {
      return Bare(Zs1Invalid);
    }
    var profit := Profit(zs2.Zg(), last.close);
    if profit.Err? {
      return Raised(profit.error);
    }
    out := Bare(Other);
    if SelectFailedConditions(XdConditions(reading, ubi, zs1, zs2, fx)) == [] {
      store.Insert(NewPoint(ctx, ThirdBuy, fx, profit.value, Some(ElevateReason), ElevateXdDb));
      out := if fx.power != Weak then Full(ThirdBuy, fx.power, profit.value) else Bare(ThirdBuy);
    }
  }

  /** `third_buy_xd` on the store, under a reading of its direction test. */
  method ThirdBuyXd(reading: Reading, store: Store, c: Chart, ctx: Ctx, fxDtLimit: int) returns (out: Outcome)
    modifies store
    ensures Run(out, store.points) == ThirdBuyXdRun(reading, old(store.points), c, ctx, fxDtLimit)
  {
    var e := XdEntryOn(store, c, ctx, fxDtLimit);
    if e.Done? {
      return e.run.out;
    }
    out := XdStageOn(reading, store, ctx, e.last, e.fx, e.ubi, e.zs1, e.zs2);
  }
}
