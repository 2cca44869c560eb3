/**
 * The two store-free classifiers of the example signal module: the MACD
 * divergence of the unfinished stroke against the stroke before it
 * (`macd_pzbc_ubi`, '空头' at a top, '多头' at a bottom), and a trend
 * reversal on the last three stroke pivots (`trend_reverse_ubi`, a third or
 * first buy reported as '多头'). Neither reads or writes the buy-point store.
 */
module HjwSig {
  import opened Market
  import opened Chan
  import opened History
  import opened Signals
  import opened Reflection

  /** The signal's `v1` and `v2`; `v2` is '任意' unless a value is given. */
  datatype Pair = Pair(v1: Label, v2: Label)

  // ---------------------------------------------------------------------
  // macd_pzbc_ubi
  // ---------------------------------------------------------------------

  /** `max(dif for x in bars)` and `sum(macd for x in bars if macd > 0)`; `max` of no bars raises ValueError. */
  function RiseMomentum(bars: seq<RawBar>): (r: Result<Momentum>)
    ensures r.Err? <==> |bars| == 0
    ensures r.Err? ==> r.error == ValueError
    ensures r.Ok? ==> r.value == Momentum(Max(Difs(bars)), SumPositive(Macds(bars)))
  {
    match MaxOf(Difs(bars))
    case Err(e) => Err(e)
    case Ok(d) => Ok(Momentum(d, SumPositive(Macds(bars))))
  }

  /** The rising move `c` peaks at a positive dif under the earlier move's, with the smaller positive area. */
  predicate TopDiverges(a: Momentum, c: Momentum)
  {
    0.0 < c.dif < a.dif && Abs(c.area) < Abs(a.area)
  }

  /** The falling move `c` bottoms at a negative dif over the earlier move's, with the smaller negative area. */
  predicate BottomDiverges(a: Momentum, c: Momentum)
  {
    DifRises(a, c) && AreaShrinks(a, c)
  }

  /** At least three strokes and an unfinished stroke of at least seven bars. */
  predicate PzbcInputs(c: Chart)
  {
    |c.bis| >= 3 && c.ubi.Some? && |c.ubi.value.rawBars| >= 7
  }

  /**
   * The classifier: nothing to say about a short chart; otherwise the
   * unfinished stroke against the stroke before the last one.
   */
  function MacdPzbcUbi(c: Chart): Result<Pair>
  {
    if !PzbcInputs(c) then Ok(Pair(Other, AnyValue))
    else StrokeDivergence(c.ubi.value, c.bis[|c.bis| - 2])
  }

  /**
   * A rising unfinished stroke above the earlier stroke's high is tested for
   * a top divergence, a falling one below its low for a bottom divergence;
   * the earlier stroke's momentum is read only then, and raises ValueError
   * when that stroke has no bars.
   */
  function StrokeDivergence(u: Ubi, a: Bi): (r: Result<Pair>)
    ensures r.Ok? ==> r.value.v2 == AnyValue && (r.value.v1 == Other || r.value.v1 == Bear || r.value.v1 == Bull)
    ensures r.Err? ==> r == Err(ValueError)
  {
    if u.direction == Up && u.high > a.high then
      match RiseMomentum(u.rawBars)
      case Err(e) => Err(e)
      case Ok(mc) =>
        match RiseMomentum(a.rawBars)
        case Err(e) => Err(e)
        case Ok(ma) => Ok(Pair(if TopDiverges(ma, mc) then Bear else Other, AnyValue))
    else if u.direction == Down && u.low < a.low then
      match MomentumOf(u.rawBars)
      case Err(e) => Err(e)
      case Ok(mc) =>
        match MomentumOf(a.rawBars)
        case Err(e) => Err(e)
        case Ok(ma) => Ok(Pair(if BottomDiverges(ma, mc) then Bull else Other, AnyValue))
    else Ok(Pair(Other, AnyValue))
  }

  /** The rising measures of some bars: their highest dif and their positive area. */
  function RiseOf(bars: seq<RawBar>): Momentum
    requires |bars| > 0
  {
    Momentum(Max(Difs(bars)), SumPositive(Macds(bars)))
  }

  /** The falling measures of some bars: their lowest dif and their negative area. */
  function FallOf(bars: seq<RawBar>): Momentum
    requires |bars| > 0
  {
    Momentum(Min(Difs(bars)), SumNegative(Macds(bars)))
  }

  /** The top test on the unfinished stroke `u` and the earlier stroke `a`. */
  predicate BearTest(u: Ubi, a: Bi)
    requires |u.rawBars| > 0
  {
    u.direction == Up && u.high > a.high && |a.rawBars| > 0 && TopDiverges(RiseOf(a.rawBars), RiseOf(u.rawBars))
  }

  /** The bottom test on the unfinished stroke `u` and the earlier stroke `a`. */
  predicate BullTest(u: Ubi, a: Bi)
    requires |u.rawBars| > 0
  {
    u.direction == Down && u.low < a.low && |a.rawBars| > 0 && BottomDiverges(FallOf(a.rawBars), FallOf(u.rawBars))
  }

  /** The earlier stroke's momentum is read, and found missing. */
  predicate StrokeRaises(u: Ubi, a: Bi)
  {
    ((u.direction == Up && u.high > a.high) || (u.direction == Down && u.low < a.low)) && |a.rawBars| == 0
  }

  /** `MomentumOf` of some bars is their falling measures. */
  lemma FallMomentum(bars: seq<RawBar>)
    requires |bars| > 0
    ensures MomentumOf(bars) == Ok(FallOf(bars))
  {
    var m := MomentumOf(bars);
    var k :| 0 <= k < |bars| && m.value.dif == bars[k].dif;
    assert Difs(bars)[k] in Difs(bars);
    var j :| 0 <= j < |bars| && Difs(bars)[j] == Min(Difs(bars));
  }

  /** On two strokes, each value of `v1` is given exactly by its own test, and ValueError exactly when the earlier stroke is read and has no bars. */
  lemma StrokeDivergenceMeaning(u: Ubi, a: Bi)
    requires |u.rawBars| > 0
    ensures StrokeDivergence(u, a).Err? <==> StrokeRaises(u, a)
    ensures StrokeDivergence(u, a) == Ok(Pair(Bear, AnyValue)) <==> BearTest(u, a)
    ensures StrokeDivergence(u, a) == Ok(Pair(Bull, AnyValue)) <==> BullTest(u, a)
  {
    FallMomentum(u.rawBars);
    if |a.rawBars| > 0 {
      FallMomentum(a.rawBars);
    }
  }

  /** '空头': a rising unfinished stroke above the earlier stroke's high, whose dif peaks lower and whose positive area is smaller. */
  ghost predicate BearFires(c: Chart)
  {
    PzbcInputs(c) && BearTest(c.ubi.value, c.bis[|c.bis| - 2])
  }

  /** '多头': a falling unfinished stroke below the earlier stroke's low, whose dif bottoms higher and whose negative area is smaller. */
  ghost predicate BullFires(c: Chart)
  {
    PzbcInputs(c) && BullTest(c.ubi.value, c.bis[|c.bis| - 2])
  }

  /** Each value of `v1` is given exactly by its own test; ValueError exactly when a tested stroke before has no bars. */
  lemma MacdPzbcUbiMeaning(c: Chart)
    ensures MacdPzbcUbi(c).Err? <==> PzbcInputs(c) && StrokeRaises(c.ubi.value, c.bis[|c.bis| - 2])
    ensures MacdPzbcUbi(c) == Ok(Pair(Bear, AnyValue)) <==> BearFires(c)
    ensures MacdPzbcUbi(c) == Ok(Pair(Bull, AnyValue)) <==> BullFires(c)
    ensures MacdPzbcUbi(c).Ok? && !BearFires(c) && !BullFires(c) ==> MacdPzbcUbi(c) == Ok(Pair(Other, AnyValue))
  {
    if PzbcInputs(c) {
      StrokeDivergenceMeaning(c.ubi.value, c.bis[|c.bis| - 2]);
    }
  }

  /** The chart upside down: strokes and the unfinished stroke mirrored, bars mirrored. */
  function MirrorChart(c: Chart): (m: Chart)
    ensures |m.bis| == |c.bis| && forall i {:trigger m.bis[i]} :: 0 <= i < |c.bis| ==> m.bis[i] == MirrorBi(c.bis[i])
    ensures m.ubi.Some? <==> c.ubi.Some?
    ensures c.ubi.Some? ==> m.ubi.value == MirrorUbi(c.ubi.value)
  {
    Chart(seq(|c.bis|, i requires 0 <= i < |c.bis| => MirrorBi(c.bis[i])),
          if c.ubi.None? then None else Some(MirrorUbi(c.ubi.value)),
          Mirrored(c.bars), c.fxs)
  }

  /** '空头' and '多头' exchanged. */
  function SwapSides(r: Result<Pair>): Result<Pair>
  {
    if r.Ok? && r.value.v1 == Bear then Ok(r.value.(v1 := Bull))
    else if r.Ok? && r.value.v1 == Bull then Ok(r.value.(v1 := Bear))
    else r
  }

  /** The rising measures of mirrored bars are the falling measures of the bars, negated, and the other way round. */
  lemma MirroredMomentum(bars: seq<RawBar>)
    requires |bars| > 0
    ensures RiseOf(Mirrored(bars)) == Momentum(-FallOf(bars).dif, -FallOf(bars).area)
    ensures FallOf(Mirrored(bars)) == Momentum(-RiseOf(bars).dif, -RiseOf(bars).area)
  {
    MirroredColumns(bars);
    MaxOfNeg(Difs(bars));
    MinOfNeg(Difs(bars));
    SumPositiveOfNeg(Macds(bars));
    SumNegativeOfNeg(Macds(bars));
  }

  /** On momentum values: negated, a weaker fall is a weaker rise, and the other way round. */
  lemma NegatedDivergence(a: Momentum, c: Momentum)
    ensures TopDiverges(Momentum(-a.dif, -a.area), Momentum(-c.dif, -c.area)) <==> BottomDiverges(a, c)
    ensures BottomDiverges(Momentum(-a.dif, -a.area), Momentum(-c.dif, -c.area)) <==> TopDiverges(a, c)
  {
  }

  /** Turned upside down, the bottom test on two strokes is the top test. */
  lemma BullTestMirror(u: Ubi, a: Bi)
    requires |u.rawBars| > 0
    ensures BullTest(u, a) <==> BearTest(MirrorUbi(u), MirrorBi(a))
  {
    if |a.rawBars| > 0 {
      MirroredMomentum(u.rawBars);
      MirroredMomentum(a.rawBars);
      NegatedDivergence(FallOf(a.rawBars), FallOf(u.rawBars));
    }
  }

  /** Turned upside down, the top test on two strokes is the bottom test. */
  lemma BearTestMirror(u: Ubi, a: Bi)
    requires |u.rawBars| > 0
    ensures BearTest(u, a) <==> BullTest(MirrorUbi(u), MirrorBi(a))
  {
    if |a.rawBars| > 0 {
      MirroredMomentum(u.rawBars);
      MirroredMomentum(a.rawBars);
      NegatedDivergence(RiseOf(a.rawBars), RiseOf(u.rawBars));
    }
  }

  /** On two strokes turned upside down, the result is the same with '空头' and '多头' exchanged. */
  lemma StrokeDivergenceMirror(u: Ubi, a: Bi)
    requires |u.rawBars| > 0
    ensures StrokeDivergence(MirrorUbi(u), MirrorBi(a)) == SwapSides(StrokeDivergence(u, a))
  {
    StrokeDivergenceMeaning(u, a);
    StrokeDivergenceMeaning(MirrorUbi(u), MirrorBi(a));
    BullTestMirror(u, a);
    BearTestMirror(u, a);
  }

  /**
   * The two tests are mirror images: on the chart turned upside down the
   * classifier gives the same result with '空头' and '多头' exchanged.
   */
  lemma MacdPzbcUbiMirror(c: Chart)
    ensures MacdPzbcUbi(MirrorChart(c)) == SwapSides(MacdPzbcUbi(c))
  {
    if PzbcInputs(c) {
      var m := MirrorChart(c);
      assert m.ubi.value == MirrorUbi(c.ubi.value) && m.bis[|m.bis| - 2] == MirrorBi(c.bis[|c.bis| - 2]);
      StrokeDivergenceMirror(c.ubi.value, c.bis[|c.bis| - 2]);
    }
  }

  // ---------------------------------------------------------------------
  // trend_reverse_ubi
  // ---------------------------------------------------------------------

  /** At least fifteen strokes and an unfinished stroke of at least three bars. */
  predicate TrendInputs(c: Chart)
  {
    |c.bis| >= 15 && c.ubi.Some? && |c.ubi.value.rawBars| >= 3
  }

  /** One pivot's band lies above the next one's, among the last three. */
  predicate Downtrend(zs1: Zs, zs2: Zs, zs3: Zs)
  {
    zs1.Zd() > zs2.Zg() || zs2.Zd() > zs3.Zg()
  }

  /**
   * The third-buy test: a valid last pivot; a falling unfinished stroke with
   * fewer than three fractals that stays above the pivot's `zg`; and the last
   * stroke of the pivot dipping below its `zd`.
   */
  predicate ThirdBuyTest(zs3: Zs, u: Ubi, lib: Library)
  {
    lib.zsValid(zs3.bis) && u.direction == Down && u.fxCount < 3 && u.low > zs3.Zg()
    && zs3.bis[|zs3.bis| - 1].low < zs3.Zd()
  }

  /** The outer first-buy test: a valid last pivot and a falling unfinished stroke of more than two fractals under the pivot's lowest low. */
  predicate FirstBuyShape(zs3: Zs, u: Ubi, lib: Library)
  {
    lib.zsValid(zs3.bis) && u.direction == Down && u.fxCount > 2 && u.low < zs3.Dd()
  }

  /**
   * The reversal on the last three stroke pivots of a downtrend: the
   * third-buy test first, then the first-buy test, whose momentum compares
   * the unfinished stroke with the last stroke of the middle pivot (ValueError
   * when that stroke has no bars).
   */
  function TrendReverseUbi(c: Chart, lib: Library): (r: Result<Pair>)
    ensures r.Err? ==> r == Err(ValueError)
    ensures r.Ok? && r.value.v1 == Bull ==> r.value.v2 == ThirdBuy || r.value.v2 == FirstBuy
    ensures r.Ok? && r.value.v1 != Bull ==> r.value.v2 == AnyValue
  {
    if !TrendInputs(c) then Ok(Pair(BadBars, AnyValue))
    else
      var zs := lib.getZsSeq(c.bis);
      if |zs| < 3 then Ok(Pair(FewPivots, AnyValue))
      else
        var zs1, zs2, zs3, u := zs[|zs| - 3], zs[|zs| - 2], zs[|zs| - 1], c.ubi.value;
        if !Downtrend(zs1, zs2, zs3) then Ok(Pair(NotDowntrend, AnyValue))
        else if ThirdBuyTest(zs3, u, lib) then Ok(Pair(Bull, ThirdBuy))
        else if FirstBuyShape(zs3, u, lib) then
          match MomentumPair(u.rawBars, zs2.bis[|zs2.bis| - 1].rawBars)
          case Err(e) => Err(e)
          case Ok(m) =>
            if DifRises(m.1, m.0) && AreaShrinks(m.1, m.0) then Ok(Pair(Bull, FirstBuy))
            else Ok(Pair(Other, AnyValue))
        else Ok(Pair(Other, AnyValue))
  }

  /** The call reaches the buy tests: enough strokes and bars, three pivots, a downtrend. */
  predicate TrendReaches(c: Chart, lib: Library)
  {
    TrendInputs(c)
    && var zs := lib.getZsSeq(c.bis);
       |zs| >= 3 && Downtrend(zs[|zs| - 3], zs[|zs| - 2], zs[|zs| - 1])
  }

  /** The first buy: the outer test, and a weaker fall than the middle pivot's last stroke. */
  predicate FirstBuyFires(c: Chart, lib: Library)
    requires TrendReaches(c, lib)
  {
    var zs := lib.getZsSeq(c.bis);
    var zs2, zs3, u := zs[|zs| - 2], zs[|zs| - 1], c.ubi.value;
    var m := MomentumPair(u.rawBars, zs2.bis[|zs2.bis| - 1].rawBars);
    FirstBuyShape(zs3, u, lib) && m.Ok? && DifRises(m.value.1, m.value.0) && AreaShrinks(m.value.1, m.value.0)
  }

  /** The third-buy and first-buy tests exclude each other: one needs fewer than three fractals, the other more than two. */
  lemma BuyTestsExclusive(zs3: Zs, u: Ubi, lib: Library)
    ensures !(ThirdBuyTest(zs3, u, lib) && FirstBuyShape(zs3, u, lib))
  {
  }

  /**
   * Each outcome in its own terms: the early labels in their order; then
   * '三买' exactly when its test holds, '一买' exactly when its test holds
   * (whatever the order of the two tests), and ValueError exactly when the
   * outer first-buy test holds and the middle pivot's last stroke has no bars.
   */
  lemma TrendReverseUbiMeaning(c: Chart, lib: Library)
    ensures !TrendInputs(c) ==> TrendReverseUbi(c, lib) == Ok(Pair(BadBars, AnyValue))
    ensures TrendInputs(c) && |lib.getZsSeq(c.bis)| < 3 ==> TrendReverseUbi(c, lib) == Ok(Pair(FewPivots, AnyValue))
    ensures TrendInputs(c) && |lib.getZsSeq(c.bis)| >= 3 && !TrendReaches(c, lib) ==>
              TrendReverseUbi(c, lib) == Ok(Pair(NotDowntrend, AnyValue))
    ensures TrendReaches(c, lib) ==>
              var zs := lib.getZsSeq(c.bis);
              var zs2, zs3, u := zs[|zs| - 2], zs[|zs| - 1], c.ubi.value;
              (TrendReverseUbi(c, lib) == Ok(Pair(Bull, ThirdBuy)) <==> ThirdBuyTest(zs3, u, lib))
              && (TrendReverseUbi(c, lib) == Ok(Pair(Bull, FirstBuy)) <==> FirstBuyFires(c, lib))
              && (TrendReverseUbi(c, lib).Err? <==> FirstBuyShape(zs3, u, lib) && |zs2.bis[|zs2.bis| - 1].rawBars| == 0)
  {
    if TrendReaches(c, lib) {
      var zs := lib.getZsSeq(c.bis);
      BuyTestsExclusive(zs[|zs| - 1], c.ubi.value, lib);
    }
  }
}
