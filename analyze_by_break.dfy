/**
 * Break-based segment detection: a single left-to-right scan over the stroke
 * list that opens a segment where one can start, extends it stroke by stroke,
 * closes it when an opposite stroke breaks it, and finally trims the trailing
 * segment. This is the detector the signal classifiers use.
 */
module AnalyzeByBreak {
  import opened Market
  import opened Objects

  /** `bi_has_gap`: a gap in the direction the first stroke points away from. */
  predicate BiHasGap(b1: Bi, b2: Bi)
  {
    if b1.direction == Down then b2.low > b1.high else b2.high < b1.low
  }

  /** `bi_has_gap` finds one of the two gaps `has_gap` looks for, chosen by the first stroke's direction. */
  lemma BiHasGapIsDirectedGap(b1: Bi, b2: Bi)
    ensures BiHasGap(b1, b2) ==> HasGap(b1.Extent(), b2.Extent())
    ensures HasGap(b1.Extent(), b2.Extent()) ==>
              BiHasGap(b1, b2) || BiHasGap(b1.(direction := if b1.direction == Up then Down else Up), b2)
  {
  }

  /** `is_broken_by_bi`: the stroke reaches back into the segment's second-to-last stroke. */
  predicate IsBrokenByBi(x: Xd, b: Bi)
    requires |x.bis| >= 2
  {
    if x.Dir() == Up then b.low <= x.bis[|x.bis| - 2].high
    else b.high >= x.bis[|x.bis| - 2].low
  }

  /** `is_broken_by_xd`: stroke `i` breaks the segment and can itself lead a reverse segment. */
  predicate IsBrokenByXd(x: Xd, i: nat, bis: seq<Bi>)
    requires i < |bis| && |x.bis| >= 2
  {
    if bis[i].direction == x.Dir() || i >= |bis| - 2 then false
    else IsBrokenByBi(x, bis[i]) && !HasGap(bis[i].Extent(), bis[i + 2].Extent())
  }

  /** `is_broken_by_xd`, stated case by case. */
  lemma IsBrokenByXdCases(x: Xd, i: nat, bis: seq<Bi>)
    requires i < |bis| && |x.bis| >= 2
    ensures bis[i].direction == x.Dir() ==> !IsBrokenByXd(x, i, bis)
    ensures i + 2 >= |bis| ==> !IsBrokenByXd(x, i, bis)
    ensures bis[i].direction != x.Dir() && i + 2 < |bis| ==>
              (IsBrokenByXd(x, i, bis) <==>
                 (if x.Dir() == Up then bis[i].low <= x.bis[|x.bis| - 2].high
                  else bis[i].high >= x.bis[|x.bis| - 2].low)
                 && !HasGap(bis[i].Extent(), bis[i + 2].Extent()))
  {
  }

  /** `can_start_xd`: stroke i+2 goes at least as far as stroke i; reading i+2 past the end raises. */
  function CanStartXd(i: nat, bis: seq<Bi>): (r: Result<bool>)
    ensures r.Err? <==> i + 2 >= |bis|
    ensures r.Err? ==> r.error == IndexError
    ensures r.Ok? ==> (r.value <==>
              (bis[i].direction == Up && bis[i + 2].high >= bis[i].high)
              || (bis[i].direction == Down && bis[i].low >= bis[i + 2].low))
  {
    if i + 2 >= |bis| then Err(IndexError)
    else Ok((bis[i].direction == Up && bis[i + 2].high >= bis[i].high)
            || (bis[i].direction == Down && bis[i].low >= bis[i + 2].low))
  }

  /** `XD(bis=[bi], start_bi=bi, start_bi_index=i)`. */
  function OpenXd(bis: seq<Bi>, i: nat): Xd
    requires i < |bis|
  {
    Xd([bis[i]], bis[i], i, None, None, None, None)
  }

  /** The segment under construction, if any, started before stroke `i`. */
  predicate Started(cur: Option<Xd>, i: nat)
  {
    cur.Some? ==> 0 <= cur.value.startBiIndex < i
  }

  /** One iteration of the scan loop at stroke `i`; an error is the IndexError of `can_start_xd`. */
  function Step(bis: seq<Bi>, i: nat, cur: Option<Xd>, xds: seq<Xd>): (r: Result<(Option<Xd>, seq<Xd>)>)
    requires i < |bis| && Started(cur, i)
    ensures r.Ok? ==> Started(r.value.0, i + 1)
  {
    match cur
    case None =>
      (match CanStartXd(i, bis)
       case Err(e) => Err(e)
       case Ok(b) => if b then Ok((Some(OpenXd(bis, i)), xds)) else Ok((None, xds)))
    case Some(x) =>
      if x.Dir() == bis[i].direction then Ok((Some(x.(bis := x.bis + [bis[i]])), xds))
      else if |x.bis| > 2 && IsBrokenByXd(x, i, bis) then
        Ok((Some(OpenXd(bis, i)), xds + [x.(endBi := Some(bis[i - 1]), endBiIndex := Some(i - 1))]))
      else Ok((Some(x.(bis := x.bis + [bis[i]])), xds))
  }

  /** The scan loop of `analyze_xd` from stroke `i` on. */
  function ScanFrom(bis: seq<Bi>, i: nat, cur: Option<Xd>, xds: seq<Xd>): Result<(Option<Xd>, seq<Xd>)>
    requires i <= |bis| && Started(cur, i)
    decreases |bis| - i
  {
    if i == |bis| then Ok((cur, xds))
    else
      match Step(bis, i, cur, xds)
      case Err(e) => Err(e)
      case Ok(st) => ScanFrom(bis, i + 1, st.0, st.1)
  }

  /** The closing of the trailing segment after the loop. */
  function Finish(bis: seq<Bi>, cur: Option<Xd>, xds: seq<Xd>): seq<Xd>
  {
    match cur
    case None => xds
    case Some(x) =>
      if x.endBi.None? && |x.bis| >= 3 then
        var last := |bis| - 1;
        var y := if x.bis[|x.bis| - 1].direction != x.Dir()
                 then x.(bis := x.bis[..|x.bis| - 1], endBiIndex := Some(last - 1))
                 else x.(endBiIndex := Some(last));
        xds + [y.(endBi := Some(y.bis[|y.bis| - 1]))]
      else xds
  }

  /** `analyze_xd`, as a function of the stroke list. */
  function AnalyzeXdSpec(bis: seq<Bi>): Result<seq<Xd>>
  {
    match ScanFrom(bis, 0, None, [])
    case Err(e) => Err(e)
    case Ok(st) => Ok(Finish(bis, st.0, st.1))
  }

  /** `analyze_xd`: the scan, with the segment under construction updated stroke by stroke. */
  method AnalyzeXd(bis: seq<Bi>) returns (r: Result<seq<Xd>>)
    ensures r == AnalyzeXdSpec(bis)
  {
    var xds: seq<Xd> := [];
    var cur: Option<Xd> := None;
    var i := 0;
    while i < |bis|
      invariant i <= |bis| && Started(cur, i)
      invariant ScanFrom(bis, 0, None, []) == ScanFrom(bis, i, cur, xds)
    {
      var bi := bis[i];
      if cur.None? {
        if i + 2 >= |bis| {
          return Err(IndexError);
        }
        if (bi.direction == Up && bis[i + 2].high >= bi.high) || (bi.direction == Down && bi.low >= bis[i + 2].low) {
          cur := Some(Xd([bi], bi, i, None, None, None, None));
        }
      } else {
        var x := cur.value;
        if x.Dir() == bi.direction {
          cur := Some(x.(bis := x.bis + [bi]));
        } else if |x.bis| > 2 && IsBrokenByXd(x, i, bis) {
          xds := xds + [x.(endBi := Some(bis[i - 1]), endBiIndex := Some(i - 1))];
          cur := Some(Xd([bi], bi, i, None, None, None, None));
        } else {
          cur := Some(x.(bis := x.bis + [bi]));
        }
      }
      i := i + 1;
    }
    if cur.Some? && cur.value.endBi.None? && |cur.value.bis| >= 3 {
      var x := cur.value;
      var endIndex := |bis| - 1;
      if x.bis[|x.bis| - 1].direction != x.Dir() {
        x := x.(bis := x.bis[..|x.bis| - 1]);
        endIndex := endIndex - 1;
      }
      x := x.(endBi := Some(x.bis[|x.bis| - 1]), endBiIndex := Some(endIndex));
      xds := xds + [x];
    }
    return Ok(xds);
  }

  // ---------------------------------------------------------------------
  // What the scan guarantees.
  // ---------------------------------------------------------------------

  /** A finished segment is exactly the run of input strokes from its start index to its end index. */
  ghost predicate IsSlice(bis: seq<Bi>, x: Xd)
  {
    x.endBiIndex.Some? && 0 <= x.startBiIndex <= x.endBiIndex.value < |bis|
    && x.bis == bis[x.startBiIndex..x.endBiIndex.value + 1]
    && x.startBi == bis[x.startBiIndex]
    && x.endBi == Some(bis[x.endBiIndex.value])
  }

  /** The first stroke from which a segment can start is `s`. */
  ghost predicate FirstStart(bis: seq<Bi>, s: int)
  {
    0 <= s && CanStartXd(s, bis) == Ok(true) && forall j :: 0 <= j < s ==> CanStartXd(j, bis) == Ok(false)
  }

  /** A segment closed inside the loop: at least three strokes, broken by the stroke after its end. */
  ghost predicate ClosedInLoop(bis: seq<Bi>, x: Xd)
  {
    IsSlice(bis, x) && |x.bis| >= 3 && x.endBiIndex.value + 1 < |bis|
    && IsBrokenByXd(x, x.endBiIndex.value + 1, bis)
  }

  ghost predicate Contiguous(xds: seq<Xd>)
  {
    forall k :: 0 <= k < |xds| - 1 ==>
      xds[k].endBiIndex.Some? && xds[k].endBiIndex.value + 1 == xds[k + 1].startBiIndex
  }

  ghost predicate AllClosed(bis: seq<Bi>, xds: seq<Xd>)
  {
    forall k :: 0 <= k < |xds| ==> ClosedInLoop(bis, xds[k])
  }

  /** No segment can start at any stroke before `i`. */
  ghost predicate NoStartBefore(bis: seq<Bi>, i: int)
  {
    forall j :: 0 <= j < i ==> CanStartXd(j, bis) == Ok(false)
  }

  /** The open segment holds exactly the strokes from its start up to, not including, stroke `i`. */
  ghost predicate OpenRun(bis: seq<Bi>, i: nat, x: Xd)
  {
    x.endBi.None? && 0 <= x.startBiIndex < i && x.startBiIndex + 2 < |bis| && i <= |bis|
    && x.bis == bis[x.startBiIndex..i] && x.startBi == bis[x.startBiIndex]
  }

  /** The state of the loop before stroke `i`. */
  ghost predicate ScanInv(bis: seq<Bi>, i: nat, cur: Option<Xd>, xds: seq<Xd>)
  {
    i <= |bis| && Started(cur, i) && AllClosed(bis, xds) && Contiguous(xds)
    && (|xds| > 0 ==> FirstStart(bis, xds[0].startBiIndex))
    && (cur.None? ==> xds == [] && NoStartBefore(bis, i) && (i == 0 || i + 2 <= |bis|))
    && (cur.Some? ==>
          OpenRun(bis, i, cur.value)
          && (|xds| == 0 ==> FirstStart(bis, cur.value.startBiIndex))
          && (|xds| > 0 ==> xds[|xds| - 1].endBiIndex == Some(cur.value.startBiIndex - 1)))
  }

  lemma StartKeepsInv(bis: seq<Bi>, i: nat)
    requires i < |bis| && ScanInv(bis, i, None, []) && CanStartXd(i, bis).Ok?
    ensures CanStartXd(i, bis).value ==> ScanInv(bis, i + 1, Some(OpenXd(bis, i)), [])
    ensures !CanStartXd(i, bis).value ==> ScanInv(bis, i + 1, None, [])
  {
    assert bis[i..i + 1] == [bis[i]];
  }

  lemma ExtendKeepsInv(bis: seq<Bi>, i: nat, x: Xd, xds: seq<Xd>)
    requires i < |bis| && ScanInv(bis, i, Some(x), xds)
    ensures ScanInv(bis, i + 1, Some(x.(bis := x.bis + [bis[i]])), xds)
  {
    var s := x.startBiIndex;
    assert bis[s..i + 1] == bis[s..i] + [bis[i]];
  }

  lemma CloseKeepsInv(bis: seq<Bi>, i: nat, x: Xd, xds: seq<Xd>)
    requires i < |bis| && ScanInv(bis, i, Some(x), xds)
    requires |x.bis| > 2 && IsBrokenByXd(x, i, bis)
    ensures ScanInv(bis, i + 1, Some(OpenXd(bis, i)),
                    xds + [x.(endBi := Some(bis[i - 1]), endBiIndex := Some(i - 1))])
  {
    var c := x.(endBi := Some(bis[i - 1]), endBiIndex := Some(i - 1));
    assert c.bis == x.bis && c.Dir() == x.Dir();
    assert IsBrokenByXd(c, i, bis);
    assert IsSlice(bis, c);
    assert ClosedInLoop(bis, c);
    var xds' := xds + [c];
    assert forall k :: 0 <= k < |xds| ==> xds'[k] == xds[k];
    assert AllClosed(bis, xds');
    assert Contiguous(xds');
    assert i + 2 < |bis|;
    assert bis[i..i + 1] == [bis[i]];
  }

  lemma StepKeepsInv(bis: seq<Bi>, i: nat, cur: Option<Xd>, xds: seq<Xd>)
    requires i < |bis| && ScanInv(bis, i, cur, xds)
    ensures Step(bis, i, cur, xds).Ok? ==>
              ScanInv(bis, i + 1, Step(bis, i, cur, xds).value.0, Step(bis, i, cur, xds).value.1)
    ensures Step(bis, i, cur, xds).Err? ==>
              Step(bis, i, cur, xds).error == IndexError && cur.None? && i + 2 >= |bis| && NoStartBefore(bis, i)
  {
    match cur
    case None =>
      if CanStartXd(i, bis).Ok? {
        StartKeepsInv(bis, i);
      }
    case Some(x) =>
      if x.Dir() == bis[i].direction {
        ExtendKeepsInv(bis, i, x, xds);
      } else if |x.bis| > 2 && IsBrokenByXd(x, i, bis) {
        CloseKeepsInv(bis, i, x, xds);
      } else {
        ExtendKeepsInv(bis, i, x, xds);
      }
  }

  lemma {:induction false} ScanKeepsInv(bis: seq<Bi>, i: nat, cur: Option<Xd>, xds: seq<Xd>)
    requires ScanInv(bis, i, cur, xds)
    ensures ScanFrom(bis, i, cur, xds).Ok? ==>
              ScanInv(bis, |bis|, ScanFrom(bis, i, cur, xds).value.0, ScanFrom(bis, i, cur, xds).value.1)
    ensures ScanFrom(bis, i, cur, xds).Err? ==>
              ScanFrom(bis, i, cur, xds).error == IndexError
              && forall j :: 0 <= j && j + 2 < |bis| ==> CanStartXd(j, bis) == Ok(false)
    decreases |bis| - i
  {
    if i < |bis| {
      StepKeepsInv(bis, i, cur, xds);
      match Step(bis, i, cur, xds)
      case Err(e) =>
      case Ok(st) => ScanKeepsInv(bis, i + 1, st.0, st.1);
    }
  }

  /** The last segment a successful detection returns ends at the final stroke, or one before it. */
  ghost predicate ReachesEnd(bis: seq<Bi>, y: Xd)
  {
    |bis| > 0 &&
    ((y.endBiIndex == Some(|bis| - 1) && bis[|bis| - 1].direction == y.Dir())
     || (y.endBiIndex == Some(|bis| - 2) && bis[|bis| - 1].direction != y.Dir()))
  }

  /** What a successful detection returns, for a non-empty stroke list. */
  ghost predicate Segmentation(bis: seq<Bi>, xs: seq<Xd>)
  {
    |xs| > 0
    && FirstStart(bis, xs[0].startBiIndex)
    && (forall k :: 0 <= k < |xs| ==> IsSlice(bis, xs[k]) && |xs[k].bis| >= 2)
    && (forall k :: 0 <= k < |xs| - 1 ==> ClosedInLoop(bis, xs[k]))
    && Contiguous(xs)
    && ReachesEnd(bis, xs[|xs| - 1])
  }

  /** The trailing segment after trimming. */
  lemma FinishLast(bis: seq<Bi>, x: Xd)
    requires |bis| > 0 && OpenRun(bis, |bis|, x)
    ensures var xs := Finish(bis, Some(x), []);
            |xs| == 1 && IsSlice(bis, xs[0]) && |xs[0].bis| >= 2 && ReachesEnd(bis, xs[0])
            && xs[0].startBiIndex == x.startBiIndex
  {
    var s := x.startBiIndex;
    var n := |bis|;
    assert |x.bis| == n - s >= 3;
    if x.bis[|x.bis| - 1].direction != x.Dir() {
      assert x.bis[..|x.bis| - 1] == bis[s..n - 1];
    }
  }

  /** Closed segments followed by the trimmed trailing segment form a segmentation. */
  lemma AppendTrailing(bis: seq<Bi>, xds: seq<Xd>, y: Xd)
    requires AllClosed(bis, xds) && Contiguous(xds)
    requires IsSlice(bis, y) && |y.bis| >= 2 && ReachesEnd(bis, y)
    requires |xds| > 0 ==> FirstStart(bis, xds[0].startBiIndex) && xds[|xds| - 1].endBiIndex == Some(y.startBiIndex - 1)
    requires |xds| == 0 ==> FirstStart(bis, y.startBiIndex)
    ensures Segmentation(bis, xds + [y])
  {
    var xs := xds + [y];
    assert forall k :: 0 <= k < |xds| ==> xs[k] == xds[k];
    forall k | 0 <= k < |xs|
      ensures IsSlice(bis, xs[k]) && |xs[k].bis| >= 2
    {
      if k < |xds| {
        assert ClosedInLoop(bis, xds[k]);
      }
    }
    assert Contiguous(xs);
  }

  lemma FinishGivesSegmentation(bis: seq<Bi>, cur: Option<Xd>, xds: seq<Xd>)
    requires |bis| > 0 && ScanInv(bis, |bis|, cur, xds)
    ensures Segmentation(bis, Finish(bis, cur, xds))
  {
    var x := cur.value;
    FinishLast(bis, x);
    var y := Finish(bis, Some(x), [])[0];
    assert Finish(bis, cur, xds) == xds + [y];
    AppendTrailing(bis, xds, y);
  }

  /** `analyze_xd` returns `[]` for an empty stroke list. */
  lemma EmptyInputNoSegments()
    ensures AnalyzeXdSpec([]) == Ok([])
  {
  }

  /**
   * On a non-empty stroke list, the detector either raises IndexError because
   * no segment can start before the last two strokes, or it returns a
   * segmentation: segments are contiguous runs of the input starting at the
   * first stroke where a segment can start, every segment but the last was
   * closed by a breaking stroke and has at least three strokes, and the last
   * one reaches the final stroke, or the one before when the final stroke
   * opposes it.
   */
  lemma AnalyzeXdResult(bis: seq<Bi>)
    requires |bis| > 0
    ensures AnalyzeXdSpec(bis).Err? <==> forall j :: 0 <= j && j + 2 < |bis| ==> CanStartXd(j, bis) == Ok(false)
    ensures AnalyzeXdSpec(bis).Err? ==> AnalyzeXdSpec(bis).error == IndexError
    ensures AnalyzeXdSpec(bis).Ok? ==> Segmentation(bis, AnalyzeXdSpec(bis).value)
  {
    assert ScanInv(bis, 0, None, []);
    ScanKeepsInv(bis, 0, None, []);
    match ScanFrom(bis, 0, None, [])
    case Err(e) =>
    case Ok(st) =>
      FinishGivesSegmentation(bis, st.0, st.1);
      var xs := Finish(bis, st.0, st.1);
      var s := xs[0].startBiIndex;
      assert CanStartXd(s, bis) == Ok(true) && s + 2 < |bis|;
  }

  /** The trailing segment can never be dropped: it always has at least three strokes before trimming. */
  lemma TrailingSegmentAlwaysKept(bis: seq<Bi>)
    requires |bis| > 0 && AnalyzeXdSpec(bis).Ok?
    ensures |AnalyzeXdSpec(bis).value| > 0
    ensures var y := AnalyzeXdSpec(bis).value[|AnalyzeXdSpec(bis).value| - 1];
            y.endBiIndex.Some? && y.endBiIndex.value >= |bis| - 2
  {
    AnalyzeXdResult(bis);
  }

  /** Every segment the detector returns holds at least two strokes. */
  lemma DetectedSegmentsNonEmpty(bis: seq<Bi>)
    requires AnalyzeXdSpec(bis).Ok?
    ensures forall k :: 0 <= k < |AnalyzeXdSpec(bis).value| ==> |AnalyzeXdSpec(bis).value[k].bis| >= 2
    ensures AllNonEmpty(AnalyzeXdSpec(bis).value)
  {
    if |bis| > 0 {
      AnalyzeXdResult(bis);
    }
  }

  /** Strokes alternate in direction, as a stroke list built from fractals does. */
  ghost predicate Alternating(bis: seq<Bi>)
  {
    forall k :: 0 <= k < |bis| - 1 ==> bis[k].direction != bis[k + 1].direction
  }

  /** For alternating strokes a segment of a segmentation ends in its own direction and has at least three strokes. */
  lemma AlternatingSegmentShape(bis: seq<Bi>, xs: seq<Xd>, k: nat)
    requires |bis| > 0 && Alternating(bis) && Segmentation(bis, xs) && k < |xs|
    ensures |xs[k].bis| >= 3 && xs[k].bis[|xs[k].bis| - 1].direction == xs[k].Dir()
  {
    var x := xs[k];
    assert IsSlice(bis, x);
    var s, e := x.startBiIndex, x.endBiIndex.value;
    assert x.bis[|x.bis| - 1] == bis[e] && x.Dir() == bis[s].direction;
    if k < |xs| - 1 {
      assert ClosedInLoop(bis, x);
      assert bis[e + 1].direction != x.Dir();
    } else {
      assert ReachesEnd(bis, x);
      if e == |bis| - 2 {
        assert bis[e + 1].direction != x.Dir();
      }
    }
    assert bis[e].direction == x.Dir();
    AlternatingParity(bis, s, e);
  }

  /**
   * For alternating strokes every segment ends with a stroke in its own
   * direction and has at least three strokes, trimmed or not.
   */
  lemma AlternatingSegmentsEndInDirection(bis: seq<Bi>)
    requires |bis| > 0 && Alternating(bis) && AnalyzeXdSpec(bis).Ok?
    ensures forall k :: 0 <= k < |AnalyzeXdSpec(bis).value| ==>
              |AnalyzeXdSpec(bis).value[k].bis| >= 3
              && AnalyzeXdSpec(bis).value[k].bis[|AnalyzeXdSpec(bis).value[k].bis| - 1].direction
                 == AnalyzeXdSpec(bis).value[k].Dir()
  {
    AnalyzeXdResult(bis);
    var xs := AnalyzeXdSpec(bis).value;
    forall k | 0 <= k < |xs|
      ensures |xs[k].bis| >= 3 && xs[k].bis[|xs[k].bis| - 1].direction == xs[k].Dir()
    {
      AlternatingSegmentShape(bis, xs, k);
    }
  }

  /** In an alternating list, stroke e has stroke s's direction exactly when e - s is even. */
  lemma {:induction false} AlternatingParity(bis: seq<Bi>, s: nat, e: nat)
    requires Alternating(bis) && s <= e < |bis|
    ensures (bis[e].direction == bis[s].direction) <==> (e - s) % 2 == 0
    decreases e - s
  {
    if e > s {
      AlternatingParity(bis, s, e - 1);
    }
  }
}
