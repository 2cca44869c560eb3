/**
 * The long-term moving-average signal ("强势盘整背驰"): a bottom fractal above
 * a rising long moving average, with a consolidation divergence in the
 * strokes, is recorded in database "MA250".
 */
module Powers {
  import opened Market
  import opened Chan
  import opened SigUtils
  import opened History
  import opened Signals
  import opened Pzbc

  /** Each of the first `n` bars has a moving average no lower than the one before it. */
  predicate MaRisesOver(w: seq<RawBar>, n: int)
  {
    forall i :: 1 <= i < n && i < |w| ==> w[i - 1].ma <= w[i].ma
  }

  /**
   * `ma_is_up_and_support(c, last_n, ...)`: at least `last_n` bars, the price
   * not below the last bar's average, and the average not falling over the
   * last `last_n` bars. With `last_n <= 0` and no bars the last bar is read
   * from an empty list (IndexError).
   */
  function MaSupport(bars: seq<RawBar>, lastN: int, curPrice: real): (r: Result<bool>)
    ensures r.Err? <==> |bars| == 0 && lastN <= 0
    ensures r.Err? ==> r.error == IndexError
    ensures |bars| < lastN ==> r == Ok(false)
    ensures |bars| >= lastN && |bars| > 0 && curPrice < bars[|bars| - 1].ma ==> r == Ok(false)
  {
    if |bars| < lastN then Ok(false)
    else if |bars| == 0 then Err(IndexError)
    else if curPrice < bars[|bars| - 1].ma then Ok(false)
    else Ok(MaRisesOver(From(bars, -lastN), lastN))
  }

  /** The test as the source runs it: the early exits, then the loop over the window. */
  method MaIsUpAndSupport(bars: seq<RawBar>, lastN: int, curPrice: real) returns (r: Result<bool>)
    ensures r == MaSupport(bars, lastN, curPrice)
  {
    if |bars| < lastN {
      return Ok(false);
    }
    if |bars| == 0 {
      return Err(IndexError);
    }
    if curPrice < bars[|bars| - 1].ma {
      return Ok(false);
    }
    var w := From(bars, -lastN);
    var i := 1;
    while i < lastN
      invariant 1 <= i
      invariant lastN >= 2 ==> i <= lastN
      invariant MaRisesOver(w, i)
    {
      assert |w| == lastN;
      if w[i].ma < w[i - 1].ma {
        return Ok(false);
      }
      i := i + 1;
    }
    return Ok(true);
  }

  /** A window rising step by step rises between any two of its bars. */
  lemma {:induction false} RisingWindowIsMonotone(w: seq<RawBar>, n: int, i: int, j: int)
    requires MaRisesOver(w, n)
    requires 0 <= i <= j < n && j < |w|
    ensures w[i].ma <= w[j].ma
    decreases j - i
  {
    if i < j {
      RisingWindowIsMonotone(w, n, i, j - 1);
      assert w[j - 1].ma <= w[j].ma;
    }
  }

  /**
   * A passing support test puts the latest average at or above every average
   * among the last `n` bars, and the price at or above the latest average.
   */
  lemma SupportMeansRisingWindow(bars: seq<RawBar>, n: int, curPrice: real, i: int)
    requires n >= 1
    requires MaSupport(bars, n, curPrice) == Ok(true)
    requires |bars| - n <= i < |bars|
    ensures |bars| >= n
    ensures bars[i].ma <= bars[|bars| - 1].ma <= curPrice
  {
    var w := From(bars, -n);
    assert w == bars[|bars| - n..];
    RisingWindowIsMonotone(w, n, i - (|bars| - n), n - 1);
  }

  /**
   * With a window of `n >= 1` bars that fits, the test passes exactly when
   * the price is at or above the last average and the average never falls
   * between two bars of the window.
   */
  lemma MaSupportIff(bars: seq<RawBar>, n: int, curPrice: real)
    requires 1 <= n <= |bars|
    ensures MaSupport(bars, n, curPrice) == Ok(true)
            <==> curPrice >= bars[|bars| - 1].ma
                 && forall i, j :: |bars| - n <= i <= j < |bars| ==> bars[i].ma <= bars[j].ma
  {
    var w := From(bars, -n);
    assert w == bars[|bars| - n..];
    if MaSupport(bars, n, curPrice) == Ok(true) {
      forall i, j | |bars| - n <= i <= j < |bars|
        ensures bars[i].ma <= bars[j].ma
      {
        RisingWindowIsMonotone(w, n, i - (|bars| - n), j - (|bars| - n));
      }
    }
    if curPrice >= bars[|bars| - 1].ma && forall i, j :: |bars| - n <= i <= j < |bars| ==> bars[i].ma <= bars[j].ma {
      forall k | 1 <= k < n && k < |w|
        ensures w[k - 1].ma <= w[k].ma
      {
        assert w[k - 1] == bars[|bars| - n + k - 1] && w[k] == bars[|bars| - n + k];
      }
    }
  }

  const Ma250 := NamedDb("MA250")

  /** `long_term_ma_support`, as a function of the stored records. */
  function LongTermMaRun(points: seq<BuyPoint>, c: Chart, ctx: Ctx, lib: Library, fxDtLimit: int): Run
  {
    match PreludeGate(points, c, ctx, 4, fxDtLimit, Ma250)
    case Stop(o) => Run(o, points)
    case Go(last, fx, ubi) =>
      if MaSupport(c.bars, 2, last.high) != Ok(true) then Run(Bare(MaFailed), points)
      else
        match IsMacdPzbcBi(c, lib)
        case Err(e) => Run(Raised(e), points)
        case Ok(pzbc) =>
          if pzbc then Run(Full(StrongPzbc, fx.power, 0.0), points + [NewPoint(ctx, StrongPzbc, fx, 0.0, None, Ma250)])
          else Run(Bare(Other), points)
  }

  /**
   * The signal fires exactly when the gates pass, the price (the last bar's
   * high) is supported by a two-bar rising average and the divergence holds;
   * it then records the fractal with zero profit and surfaces its power
   * whatever it is. Nothing else writes.
   */
  lemma LongTermMaFires(points: seq<BuyPoint>, c: Chart, ctx: Ctx, lib: Library, fxDtLimit: int)
    ensures var r := LongTermMaRun(points, c, ctx, lib, fxDtLimit);
            var g := PreludeGate(points, c, ctx, 4, fxDtLimit, Ma250);
            var fires := g.Go? && MaSupport(c.bars, 2, g.last.high) == Ok(true) && CoreFires(c, lib);
            (r.points != points <==> fires)
            && (fires ==> r == Run(Full(StrongPzbc, g.fx.power, 0.0), points + [NewPoint(ctx, StrongPzbc, g.fx, 0.0, None, Ma250)]))
  {
    IsMacdPzbcBiMeaning(c, lib);
  }

  /** The store-writing signal, on the store object. */
  method LongTermMaSupport(store: Store, c: Chart, ctx: Ctx, lib: Library, fxDtLimit: int) returns (out: Outcome)
    modifies store
    ensures Run(out, store.points) == LongTermMaRun(old(store.points), c, ctx, lib, fxDtLimit)
  {
    var g := Prelude(store.points, c, ctx, 4, fxDtLimit, Ma250);
    if g.Stop? {
      return g.out;
    }
    var support := MaIsUpAndSupport(c.bars, 2, g.last.high);
    if support != Ok(true) {
      return Bare(MaFailed);
    }
    var pzbc := IsMacdPzbcBi(c, lib);
    if pzbc.Err? {
      return Raised(pzbc.error);
    }
    out := Bare(Other);
    if pzbc.value {
      store.Insert(NewPoint(ctx, StrongPzbc, g.fx, 0.0, None, Ma250));
      return Full(StrongPzbc, g.fx.power, 0.0);
    }
  }
}
