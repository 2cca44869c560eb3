/**
 * The two bar filters of the screening scripts (the third-buy and first-buy
 * daily scans carry identical copies): a recent close-to-close move beyond a
 * threshold (`_break_out_threshold`), and a recent bar whose traded amount
 * is below a limit (`stock_amount_below_limit`).
 */
module Screening {
  import opened Market

  /** The relative change of the close at position `p` against the close before it. */
  function Move(bars: seq<RawBar>, p: nat): real
    requires 1 <= p < |bars| && bars[p - 1].close != 0.0
  {
    (bars[p].close - bars[p - 1].close) / bars[p - 1].close
  }

  /**
   * The break-out scan from position `p` (that is, Python index `p - len`) to
   * the end: position 0 has no bar before it and is skipped, a position
   * before the list raises IndexError, a zero previous close raises
   * ZeroDivisionError, and the first change beyond the threshold answers true.
   */
  function BreakOutFrom(bars: seq<RawBar>, p: int, threshold: real): (r: Result<bool>)
    requires p <= |bars|
    decreases |bars| - p
  {
    if p == |bars| then Ok(false)
    else if p < 0 then Err(IndexError)
    else if p == 0 then BreakOutFrom(bars, 1, threshold)
    else if bars[p - 1].close == 0.0 then Err(ZeroDivisionError)
    else if Abs(Move(bars, p)) > threshold then Ok(true)
    else BreakOutFrom(bars, p + 1, threshold)
  }

  /** `_break_out_threshold(stock_data, last_n_days, threshold)`: `range(-last_n_days, 0)` is empty unless `last_n_days > 0`. */
  function BreakOutThreshold(bars: seq<RawBar>, lastNDays: int, threshold: real): (r: Result<bool>)
  {
    if lastNDays <= 0 then Ok(false) else BreakOutFrom(bars, |bars| - lastNDays, threshold)
  }

  /** The loop as the scripts run it, with `i` the negative Python index. */
  method BreakOut(bars: seq<RawBar>, lastNDays: int, threshold: real) returns (r: Result<bool>)
    ensures r == BreakOutThreshold(bars, lastNDays, threshold)
  {
    if lastNDays <= 0 {
      return Ok(false);
    }
    var i := -lastNDays;
    while i < 0
      invariant -lastNDays <= i <= 0
      invariant BreakOutThreshold(bars, lastNDays, threshold) == BreakOutFrom(bars, |bars| + i, threshold)
    {
      if i == -|bars| {
        i := i + 1;
        continue;
      }
      var cur := At(bars, i);
      if cur.Err? {
        return Err(IndexError);
      }
      var prev := bars[|bars| + i - 1];
      if prev.close == 0.0 {
        return Err(ZeroDivisionError);
      }
      var change := (cur.value.close - prev.close) / prev.close;
      assert change == Move(bars, |bars| + i);
      if Abs(change) > threshold {
        return Ok(true);
      }
      i := i + 1;
    }
    r := Ok(false);
  }

  /** Asking for more days than there are bars raises IndexError at the very first index `-last_n_days`. */
  lemma TooManyDaysRaises(bars: seq<RawBar>, lastNDays: int, threshold: real)
    requires lastNDays > |bars|
    ensures BreakOutThreshold(bars, lastNDays, threshold) == Err(IndexError)
  {
  }

  /** Some step-to-step change at or after position `p` (never position 0) goes beyond the threshold. */
  predicate ExceedsFrom(bars: seq<RawBar>, p: int, threshold: real)
    requires forall k :: 0 <= k < |bars| ==> bars[k].close != 0.0
  {
    exists q :: 1 <= q < |bars| && p <= q && Abs(Move(bars, q)) > threshold
  }

  /**
   * With every close non-zero and the window inside the list, the scan raises
   * nothing and answers whether some move in the window (the first bar's
   * never counted) goes beyond the threshold.
   */
  lemma {:induction false} BreakOutFromIff(bars: seq<RawBar>, p: int, threshold: real)
    requires 0 <= p <= |bars|
    requires forall k :: 0 <= k < |bars| ==> bars[k].close != 0.0
    ensures BreakOutFrom(bars, p, threshold) == Ok(ExceedsFrom(bars, p, threshold))
    decreases |bars| - p
  {
    if p == |bars| {
    } else if p == 0 {
      BreakOutFromIff(bars, 1, threshold);
      if ExceedsFrom(bars, 0, threshold) {
        var q :| 1 <= q < |bars| && 0 <= q && Abs(Move(bars, q)) > threshold;
        assert 1 <= q;
      }
    } else {
      BreakOutFromIff(bars, p + 1, threshold);
      if Abs(Move(bars, p)) <= threshold && ExceedsFrom(bars, p, threshold) {
        var q :| 1 <= q < |bars| && p <= q && Abs(Move(bars, q)) > threshold;
        assert q != p;
      }
    }
  }

  /** `_break_out_threshold` over a window that fits: true iff some move among the last `n` (the first bar's excluded) exceeds the threshold. */
  lemma BreakOutIff(bars: seq<RawBar>, lastNDays: int, threshold: real)
    requires 0 < lastNDays <= |bars|
    requires forall k :: 0 <= k < |bars| ==> bars[k].close != 0.0
    ensures BreakOutThreshold(bars, lastNDays, threshold) == Ok(ExceedsFrom(bars, |bars| - lastNDays, threshold))
  {
    BreakOutFromIff(bars, |bars| - lastNDays, threshold);
  }

  /** `bars[-days:]`, the bars `stock_amount_below_limit` looks at. */
  function RecentBars(bars: seq<RawBar>, days: int): (r: seq<RawBar>)
    ensures 0 < days <= |bars| ==> r == bars[|bars| - days..]
    ensures days == 0 ==> r == bars
  {
    From(bars, -days)
  }

  /** `stock_amount_below_limit(bars, days, threshold)`: the loop over the recent bars, stopping at the first small amount. */
  method AmountBelowLimit(bars: seq<RawBar>, days: int, threshold: real) returns (r: bool)
    ensures r <==> exists k :: 0 <= k < |RecentBars(bars, days)| && RecentBars(bars, days)[k].amount < threshold
  {
    var recent := RecentBars(bars, days);
    var k := 0;
    while k < |recent|
      invariant 0 <= k <= |recent|
      invariant forall j :: 0 <= j < k ==> recent[j].amount >= threshold
    {
      if recent[k].amount < threshold {
        return true;
      }
      k := k + 1;
    }
    r := false;
  }

  /** Some recent bar traded below the limit. */
  predicate AmountBelow(bars: seq<RawBar>, days: int, threshold: real)
  {
    exists k :: 0 <= k < |RecentBars(bars, days)| && RecentBars(bars, days)[k].amount < threshold
  }

  /** `days = 0` slices `bars[-0:]`, which is the whole list: every bar is examined. */
  lemma ZeroDaysExaminesAll(bars: seq<RawBar>, threshold: real)
    ensures AmountBelow(bars, 0, threshold) <==> exists k :: 0 <= k < |bars| && bars[k].amount < threshold
  {
    assert RecentBars(bars, 0) == bars;
  }

  /** A window of `days` bars that fits examines exactly the last `days` bars. */
  lemma WindowExaminesLastDays(bars: seq<RawBar>, days: int, threshold: real)
    requires 0 < days <= |bars|
    ensures AmountBelow(bars, days, threshold) <==> exists k :: |bars| - days <= k < |bars| && bars[k].amount < threshold
  {
    var recent := RecentBars(bars, days);
    if exists k :: |bars| - days <= k < |bars| && bars[k].amount < threshold {
      var k :| |bars| - days <= k < |bars| && bars[k].amount < threshold;
      assert recent[k - (|bars| - days)] == bars[k];
    }
  }
}
