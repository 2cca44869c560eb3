/**
 * The signal utilities shared by the classifiers: the strong-bottom-fractal
 * test, fractal freshness counted in raw bars, isolation of the last
 * consolidation leg, the lower-level consolidation divergence test, the
 * uncovered-gap search, the intraday increase limit and the failed-condition
 * filter.
 */
module SigUtils {
  import opened Market
  import opened Objects
  import opened Chan

  /**
   * `is_strong_bot_fx`: all five conditions are evaluated before they are
   * combined, so a missing unfinished stroke raises TypeError whatever the
   * fractal is.
   */
  function IsStrongBotFx(fx: Fx, edt: int, ubi: Option<Ubi>): (r: Result<bool>)
    ensures r.Err? <==> ubi.None?
    ensures r.Err? ==> r.error == TypeError
    ensures r.Ok? ==> (r.value <==>
              fx.mark == D && edt - fx.dt < 15 && fx.power == Strong
              && ubi.value.direction == Up && ubi.value.fxCount < 2)
  {
    var markCond := fx.mark == D;
    var deltaCond := edt - fx.dt < 15;
    var powerCond := fx.power == Strong;
    if ubi.None? then Err(TypeError)
    else
      var dirCond := ubi.value.direction == Up;
      var fxCntCond := ubi.value.fxCount < 2;
      Ok(markCond && deltaCond && powerCond && dirCond && fxCntCond)
  }

  /** The index of the last bar dated `d`, if any. */
  function LastBarOn(bars: seq<RawBar>, d: int): (r: Option<nat>)
    ensures r.None? <==> forall k :: 0 <= k < |bars| ==> bars[k].dt != d
    ensures r.Some? ==> r.value < |bars| && bars[r.value].dt == d
                        && forall k :: r.value < k < |bars| ==> bars[k].dt != d
  {
    if |bars| == 0 then None
    else if bars[|bars| - 1].dt == d then Some(|bars| - 1)
    else LastBarOn(bars[..|bars| - 1], d)
  }

  /**
   * What `date_exceed_rawbars` computes: how many bars lie after the last bar
   * of the fractal's date, compared strictly with the look-back; raises
   * ValueError if no bar has that date (so also on an empty list).
   */
  function DateExceed(bars: seq<RawBar>, fxDt: int, lookback: int): (r: Result<bool>)
    ensures r.Err? <==> forall k :: 0 <= k < |bars| ==> bars[k].dt != fxDt
    ensures r.Err? ==> r.error == ValueError
    ensures r.Ok? ==> exists idx :: 0 <= idx < |bars| && bars[idx].dt == fxDt
                        && (forall k :: idx < k < |bars| ==> bars[k].dt != fxDt)
                        && (r.value <==> |bars| - 1 - idx > lookback)
  {
    match LastBarOn(bars, fxDt)
    case None => Err(ValueError)
    case Some(idx) => Ok(|bars| - 1 - idx > lookback)
  }

  /** `date_exceed_rawbars`: the backward scan that stops at the first match. */
  method DateExceedRawbars(bars: seq<RawBar>, fxDt: int, lookback: int) returns (r: Result<bool>)
    ensures r == DateExceed(bars, fxDt, lookback)
  {
    var n := |bars|;
    var edtIndex := n - 1;
    var fxDtIndex: Option<nat> := None;
    var i := edtIndex;
    while i >= 0
      invariant -1 <= i < n
      invariant fxDtIndex.None? ==> forall k :: i < k < n ==> bars[k].dt != fxDt
      invariant fxDtIndex.Some? ==> fxDtIndex == LastBarOn(bars, fxDt)
      decreases i + 1
    {
      if bars[i].dt == fxDt && fxDtIndex.None? {
        fxDtIndex := Some(i);
        UniqueLastBar(bars, fxDt, i);
      }
      if fxDtIndex.Some? {
        break;
      }
      i := i - 1;
    }
    if fxDtIndex.None? {
      return Err(ValueError);
    }
    return Ok(edtIndex - fxDtIndex.value > lookback);
  }

  /** A bar dated `d` with no later bar of that date is the one `LastBarOn` finds. */
  lemma UniqueLastBar(bars: seq<RawBar>, d: int, i: nat)
    requires i < |bars| && bars[i].dt == d
    requires forall k :: i < k < |bars| ==> bars[k].dt != d
    ensures LastBarOn(bars, d) == Some(i)
  {
  }

  /** Python truthiness of a stroke list that may be `None`. */
  predicate NonEmptyLeg(leg: Option<seq<Bi>>)
  {
    leg.Some? && |leg.value| > 0
  }

  /** Stroke `k` is a down stroke reaching `gg`. */
  predicate IsLegStart(bis: seq<Bi>, gg: real, k: nat)
    requires k < |bis|
  {
    bis[k].high == gg && bis[k].direction == Down
  }

  /** The first down stroke whose high equals `gg`, the generator `next(...)` searches for. */
  function FirstDownAtHigh(bis: seq<Bi>, gg: real): (r: Option<nat>)
    ensures r.None? <==> forall k :: 0 <= k < |bis| ==> !IsLegStart(bis, gg, k)
    ensures r.Some? ==> r.value < |bis| && IsLegStart(bis, gg, r.value)
                        && forall k :: 0 <= k < r.value ==> !IsLegStart(bis, gg, k)
  {
    if |bis| == 0 then None
    else if IsLegStart(bis, gg, 0) then Some(0)
    else
      assert forall j :: 1 <= j < |bis| ==> (IsLegStart(bis, gg, j) <==> IsLegStart(bis[1..], gg, j - 1));
      match FirstDownAtHigh(bis[1..], gg)
      case None => None
      case Some(k) =>
        assert IsLegStart(bis, gg, k + 1);
        Some(k + 1)
  }

  /**
   * The pivot `select_pzbc_bis` slices: the last library pivot, merged with the
   * one before it when it is invalid, ends with a down stroke and is not alone.
   */
  function TargetPivot(zsSeq: seq<Zs>, lib: Library): (z: Zs)
    requires |zsSeq| > 0
    ensures var last := zsSeq[|zsSeq| - 1];
            if !lib.zsValid(last.bis) && last.Edir() == Down && |zsSeq| > 1
            then z.bis == zsSeq[|zsSeq| - 2].bis + last.bis
            else z == last
  {
    var zs1 := zsSeq[|zsSeq| - 1];
    if !lib.zsValid(zs1.bis) && zs1.Edir() == Down && |zsSeq| > 1 then Zs(zsSeq[|zsSeq| - 2].bis + zs1.bis)
    else zs1
  }

  /**
   * `select_pzbc_bis`: `None` without pivots; otherwise the target pivot's
   * strokes from the first down stroke reaching its highest high, or all of
   * them when there is no such stroke (`bis[None:]`).
   */
  function SelectPzbcBis(bis: seq<Bi>, lib: Library): (r: Option<seq<Bi>>)
    ensures r.None? <==> |lib.getZsSeq(bis)| == 0
    ensures r.Some? ==>
              var z := TargetPivot(lib.getZsSeq(bis), lib);
              ((forall k :: 0 <= k < |z.bis| ==> !IsLegStart(z.bis, z.Gg(), k)) ==> r.value == z.bis)
              && ((exists k :: 0 <= k < |z.bis| && IsLegStart(z.bis, z.Gg(), k)) ==>
                    exists start :: 0 <= start < |z.bis| && r.value == z.bis[start..] && IsLegStart(z.bis, z.Gg(), start)
                      && forall k :: 0 <= k < start ==> !IsLegStart(z.bis, z.Gg(), k))
  {
    var zsSeq := lib.getZsSeq(bis);
    if |zsSeq| == 0 then None
    else
      var z := TargetPivot(zsSeq, lib);
      match FirstDownAtHigh(z.bis, z.Gg())
      case None => Some(z.bis)
      case Some(k) => Some(z.bis[k..])
  }

  /** The isolated leg starts with a down stroke reaching the target pivot's high, when there is one. */
  lemma LegStartsAtPivotHigh(bis: seq<Bi>, lib: Library)
    requires |lib.getZsSeq(bis)| > 0
    ensures var z := TargetPivot(lib.getZsSeq(bis), lib);
            var leg := SelectPzbcBis(bis, lib).value;
            (exists k :: 0 <= k < |z.bis| && IsLegStart(z.bis, z.Gg(), k))
            ==> |leg| > 0 && leg[0].high == z.Gg() && leg[0].direction == Down
  {
    var z := TargetPivot(lib.getZsSeq(bis), lib);
    var f := FirstDownAtHigh(z.bis, z.Gg());
    if f.Some? {
      assert SelectPzbcBis(bis, lib).value == z.bis[f.value..];
    }
  }

  /** The isolated leg always ends with the target pivot's last stroke. */
  lemma LegIsPivotSuffix(bis: seq<Bi>, lib: Library)
    requires |lib.getZsSeq(bis)| > 0
    ensures var z := TargetPivot(lib.getZsSeq(bis), lib);
            var leg := SelectPzbcBis(bis, lib).value;
            |leg| > 0 && leg[|leg| - 1] == z.bis[|z.bis| - 1] && leg == z.bis[|z.bis| - |leg|..]
  {
  }

  /**
   * The dea/dif test of `detect_lower_freq_pzbc` on a leg's chained bars:
   * the last dea is at most half the largest |dea|, or the last dif is at
   * least the last dea.
   */
  predicate DeaDifTurn(raw: seq<RawBar>)
    requires |raw| > 0
  {
    Abs(raw[|raw| - 1].dea) <= 0.5 * Max(AbsDeas(raw)) || raw[|raw| - 1].dif >= raw[|raw| - 1].dea
  }

  /**
   * `detect_lower_freq_pzbc`. `checkValid` selects the copies that also demand
   * a valid pivot (the segment and development modules); the utilities
   * version, used by the trend-reversal signals, does not. `None` when the
   * isolated leg is missing or empty; ValueError when the leg's strokes carry no
   * raw bars (`max` of an empty sequence).
   */
  function DetectLowerFreqPzbc(bis: seq<Bi>, lib: Library, checkValid: bool): (r: Result<Option<bool>>)
    ensures !NonEmptyLeg(SelectPzbcBis(bis, lib)) ==> r == Ok(None)
    ensures NonEmptyLeg(SelectPzbcBis(bis, lib)) ==>
              var leg := SelectPzbcBis(bis, lib).value;
              var raw := RawBarsOf(leg);
              (|raw| == 0 ==> r == Err(ValueError))
              && (|raw| > 0 ==>
                    r.Ok? && r.value.Some?
                    && (r.value.value <==>
                          (checkValid ==> lib.zsValid(leg))
                          && leg[0].direction == Down && leg[|leg| - 1].direction == Down
                          && DeaDifTurn(raw)))
  {
    var remaining := SelectPzbcBis(bis, lib);
    if !NonEmptyLeg(remaining) then Ok(None)
    else
      var zs := Zs(remaining.value);
      var raw := RawBarsOf(remaining.value);
      match MaxOf(AbsDeas(raw))
      case Err(e) => Err(e)
      case Ok(maxAbsDea) =>
        var latestDea := raw[|raw| - 1].dea;
        var latestDif := raw[|raw| - 1].dif;
        Ok(Some((!checkValid || lib.zsValid(zs.bis)) && zs.Sdir() == Down && zs.Edir() == Down
                && (Abs(latestDea) <= 0.5 * maxAbsDea || latestDif >= latestDea)))
  }

  /** Python truthiness of the optional boolean `detect_lower_freq_pzbc` returns. */
  predicate Truthy(o: Option<bool>)
  {
    o == Some(true)
  }

  /** The validity-checking copies are strictly more demanding than the utilities version. */
  lemma CheckedPzbcImpliesUnchecked(bis: seq<Bi>, lib: Library)
    requires DetectLowerFreqPzbc(bis, lib, true).Ok? && Truthy(DetectLowerFreqPzbc(bis, lib, true).value)
    ensures DetectLowerFreqPzbc(bis, lib, false).Ok? && Truthy(DetectLowerFreqPzbc(bis, lib, false).value)
  {
  }

  /** The text `check_gap_info` uses for the wanted gap direction. */
  function GapKind(kindIsUp: bool): string
  {
    if kindIsUp then "向上缺口" else "向下缺口"
  }

  /** Whether one entry is an uncovered gap of the given kind. */
  predicate IsUncovered(g: GapInfo, kind: string)
  {
    g.kind == Some(kind) && g.cover == Some("未补")
  }

  /** The newest-first search over the gap list. */
  function SearchNewestFirst(gaps: seq<GapInfo>, kind: string): (r: bool)
    ensures r <==> exists k :: 0 <= k < |gaps| && IsUncovered(gaps[k], kind)
  {
    if |gaps| == 0 then false
    else if IsUncovered(gaps[|gaps| - 1], kind) then true
    else SearchNewestFirst(gaps[..|gaps| - 1], kind)
  }

  /** What `check_gap_info` reports over the raw bars of the strokes. */
  function GapsOf(bis: seq<Bi>, lib: Library): seq<GapInfo>
  {
    lib.checkGapInfo(RawBarsOf(bis))
  }

  /** `has_uncover_gap`: some gap of the wanted direction over the strokes' raw bars is still uncovered. */
  function HasUncoverGap(bis: seq<Bi>, kindIsUp: bool, lib: Library): (r: bool)
    ensures r <==> exists k :: 0 <= k < |GapsOf(bis, lib)| && IsUncovered(GapsOf(bis, lib)[k], GapKind(kindIsUp))
  {
    SearchNewestFirst(GapsOf(bis, lib), GapKind(kindIsUp))
  }

  /**
   * `raw_bar_increase_within_limit`: the rise from the lower of the last open
   * and the previous close to the last high, relative to that high. Fewer than
   * two bars raise IndexError; a zero last high raises ZeroDivisionError.
   */
  function RawBarIncreaseWithinLimit(bars: seq<RawBar>, percentage: real): (r: Result<bool>)
    ensures r.Err? <==> |bars| < 2 || bars[|bars| - 1].high == 0.0
    ensures |bars| < 2 ==> r == Err(IndexError)
    ensures |bars| >= 2 && bars[|bars| - 1].high == 0.0 ==> r == Err(ZeroDivisionError)
  {
    if |bars| < 2 then Err(IndexError)
    else
      var last, prev := bars[|bars| - 1], bars[|bars| - 2];
      var begin := if last.open <= prev.close then last.open else prev.close;
      match Div(last.high - begin, last.high)
      case Err(e) => Err(e)
      case Ok(change) => Ok(change <= percentage)
  }

  /** With a positive last high the ratio test is the plain inequality `high - begin <= percentage * high`. */
  lemma IncreaseLimitForPositiveHigh(bars: seq<RawBar>, percentage: real)
    requires |bars| >= 2 && bars[|bars| - 1].high > 0.0
    ensures var last, prev := bars[|bars| - 1], bars[|bars| - 2];
            var begin := if last.open <= prev.close then last.open else prev.close;
            RawBarIncreaseWithinLimit(bars, percentage) == Ok(last.high - begin <= percentage * last.high)
  {
    var last, prev := bars[|bars| - 1], bars[|bars| - 2];
    var begin := if last.open <= prev.close then last.open else prev.close;
    var c := (last.high - begin) / last.high;
    assert c * last.high == last.high - begin;
    if c <= percentage {
      assert c * last.high <= percentage * last.high;
    } else {
      assert c * last.high > percentage * last.high;
    }
  }

  /** `select_failed_conditions`: the descriptions of the conditions that do not hold, in order. */
  function SelectFailedConditions<D>(conds: seq<(bool, D)>): (r: seq<D>)
    ensures |r| <= |conds|
    ensures forall d :: d in r ==> exists k :: 0 <= k < |conds| && !conds[k].0 && conds[k].1 == d
    ensures forall k :: 0 <= k < |conds| && !conds[k].0 ==> conds[k].1 in r
  {
    if |conds| == 0 then []
    else
      var rest := SelectFailedConditions(conds[1..]);
      if conds[0].0 then rest else [conds[0].1] + rest
  }

  /** Every condition holds exactly when the failure list is empty. */
  lemma {:induction false} NoFailuresIffAllHold<D>(conds: seq<(bool, D)>)
    ensures SelectFailedConditions(conds) == [] <==> forall k :: 0 <= k < |conds| ==> conds[k].0
  {
    if |conds| > 0 {
      NoFailuresIffAllHold(conds[1..]);
      assert forall k :: 1 <= k < |conds| ==> conds[1..][k - 1] == conds[k];
    }
  }

  /** Filtering distributes over concatenation, so input order is kept. */
  lemma {:induction false} FailedConditionsAppend<D>(a: seq<(bool, D)>, b: seq<(bool, D)>)
    ensures SelectFailedConditions(a + b) == SelectFailedConditions(a) + SelectFailedConditions(b)
  {
    if |a| > 0 {
      assert (a + b)[1..] == a[1..] + b;
      FailedConditionsAppend(a[1..], b);
    } else {
      assert a + b == b;
    }
  }
}
