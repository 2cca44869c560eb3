/**
 * The feature-sequence segment detector: inclusion handling of feature
 * elements, turning-fractal recognition, the extreme-stroke search used for
 * forced splits, and the driver's entry guards.
 */
module AnalyzeFeature {
  import opened Market
  import opened Objects

  /** `is_included`: one element's price range contains the other's, endpoints inclusive. */
  predicate IsIncluded(e1: FeatureElement, e2: FeatureElement)
  {
    (e1.low <= e2.low && e1.high >= e2.high) || (e2.low <= e1.low && e2.high >= e1.high)
  }

  /** Range `a` contains range `b`: every price inside `b` is inside `a`. */
  ghost predicate Contains(a: Span, b: Span)
  {
    forall p :: InSpan(p, b) ==> InSpan(p, a)
  }

  /** Inclusion is symmetric, and for well-formed elements it is containment of price ranges. */
  lemma IsIncludedMeansContainment(e1: FeatureElement, e2: FeatureElement)
    requires e1.low <= e1.high && e2.low <= e2.high
    ensures IsIncluded(e1, e2) == IsIncluded(e2, e1)
    ensures IsIncluded(e1, e2) <==> Contains(e1.Extent(), e2.Extent()) || Contains(e2.Extent(), e1.Extent())
  {
    if Contains(e1.Extent(), e2.Extent()) {
      assert InSpan(e2.low, e2.Extent()) && InSpan(e2.high, e2.Extent());
    }
    if Contains(e2.Extent(), e1.Extent()) {
      assert InSpan(e1.low, e1.Extent()) && InSpan(e1.high, e1.Extent());
    }
  }

  /**
   * `merge_elements`: the surviving element is one of the two inputs with one
   * bound overwritten. Led by an up element the merge keeps the lower low and
   * the lower high; otherwise the higher high and the higher low.
   */
  function MergeElements(e1: FeatureElement, e2: FeatureElement): (r: FeatureElement)
    ensures e1.direction == Up ==>
              r.low == (if e1.low <= e2.low then e1.low else e2.low)
              && r.high == (if e1.high <= e2.high then e1.high else e2.high)
    ensures e1.direction != Up ==>
              r.high == (if e1.high >= e2.high then e1.high else e2.high)
              && r.low == (if e1.low >= e2.low then e1.low else e2.low)
    ensures r.(high := e1.high, low := e1.low) == e1 || r.(high := e2.high, low := e2.low) == e2
  {
    if e1.direction == Up then
      var remain := if e1.low < e2.low then e1 else e2;
      remain.(high := if e1.high <= e2.high then e1.high else e2.high)
    else
      var remain := if e1.high > e2.high then e1 else e2;
      remain.(low := if e1.low >= e2.low then e1.low else e2.low)
  }

  /**
   * `process_inclusion` on a list value: an empty list raises; otherwise the new
   * element is appended, or, when the last element and the new one are in
   * inclusion, the last element is replaced by their merge.
   */
  function Inclusion(s: seq<FeatureElement>, e: FeatureElement): (r: Result<seq<FeatureElement>>)
    ensures r.Err? <==> |s| == 0
    ensures r.Err? ==> r.error == IndexError
    ensures r.Ok? ==> |s| > 0 && |r.value| >= |s| && r.value[..|s| - 1] == s[..|s| - 1]
    ensures r.Ok? && !IsIncluded(s[|s| - 1], e) ==> r.value == s + [e]
    ensures r.Ok? && IsIncluded(s[|s| - 1], e) ==>
              |r.value| == |s| && r.value[|s| - 1] == MergeElements(s[|s| - 1], e)
  {
    if |s| == 0 then Err(IndexError)
    else if !IsIncluded(s[|s| - 1], e) then Ok(s + [e])
    else Ok(s[|s| - 1 := MergeElements(s[|s| - 1], e)])
  }

  /** `is_top_tzfx`: the middle element is strictly above both neighbours in high and in low. */
  predicate IsTopTzfx(els: seq<FeatureElement>)
    requires |els| >= 3
  {
    els[1].high > els[0].high && els[1].high > els[2].high && els[1].low > els[0].low && els[1].low > els[2].low
  }

  /** `is_bottom_tzfx`: the middle element is strictly below both neighbours in low and in high. */
  predicate IsBottomTzfx(els: seq<FeatureElement>)
    requires |els| >= 3
  {
    els[1].low < els[0].low && els[1].low < els[2].low && els[1].high < els[0].high && els[1].high < els[2].high
  }

  /** Reflect an element through price zero: its high becomes minus its low and back. */
  function Mirror(e: FeatureElement): FeatureElement
  {
    e.(high := -e.low, low := -e.high)
  }

  /** Top and bottom fractals are mirror images, and no triple is both. */
  lemma TopBottomDuality(els: seq<FeatureElement>)
    requires |els| >= 3
    ensures IsTopTzfx(els) <==> IsBottomTzfx(seq(|els|, i requires 0 <= i < |els| => Mirror(els[i])))
    ensures !(IsTopTzfx(els) && IsBottomTzfx(els))
  {
  }

  /**
   * `identify_tzfxs` on a sequence of at least three elements: only a top for
   * an up segment, only a bottom for a down one, built from the last three.
   */
  function IdentifyTzfxs(s: seq<FeatureElement>, xdDirection: Direction): (r: Option<Tzfx>)
    requires |s| >= 3
    ensures r.Some? <==> (xdDirection == Up && IsTopTzfx(s[|s| - 3..])) || (xdDirection == Down && IsBottomTzfx(s[|s| - 3..]))
    ensures r.Some? ==> r.value.mark == (if xdDirection == Up then G else D)
    ensures r.Some? ==> r.value.fxBiIndex == s[|s| - 2].biIndex && r.value.dt == s[|s| - 2].bi.sdt
    ensures r.Some? ==> r.value.elements == s[|s| - 3..]
    ensures r.Some? && xdDirection == Up ==>
              r.value.high == r.value.fx == s[|s| - 2].high
              && (forall k :: |s| - 3 <= k < |s| ==> r.value.low <= s[k].low)
              && (exists k :: |s| - 3 <= k < |s| && r.value.low == s[k].low)
    ensures r.Some? && xdDirection == Down ==>
              r.value.low == r.value.fx == s[|s| - 2].low
              && (forall k :: |s| - 3 <= k < |s| ==> s[k].high <= r.value.high)
              && (exists k :: |s| - 3 <= k < |s| && r.value.high == s[k].high)
  {
    var t := s[|s| - 3..];
    var m := s[|s| - 2];
    assert t[0] == s[|s| - 3] && t[1] == m && t[2] == s[|s| - 1];
    if xdDirection == Up && IsTopTzfx(t) then
      var lo := Min3(t[0].low, t[1].low, t[2].low);
      Some(Tzfx(m.bi.sdt, G, m.high, lo, m.high, m.biIndex, t))
    else if xdDirection == Down && IsBottomTzfx(t) then
      var hi := Max3(t[0].high, t[1].high, t[2].high);
      Some(Tzfx(m.bi.sdt, D, hi, m.low, m.low, m.biIndex, t))
    else None
  }

  function Min3(a: real, b: real, c: real): real
  {
    if a <= b && a <= c then a else if b <= c then b else c
  }

  function Max3(a: real, b: real, c: real): real
  {
    if a >= b && a >= c then a else if b >= c then b else c
  }

  /** Whether stroke `k` beats stroke `j` as the extreme for direction `d` (strictly). */
  predicate Beats(bis: seq<Bi>, k: nat, j: nat, d: Direction)
    requires k < |bis| && j < |bis|
  {
    if d == Up then bis[k].high > bis[j].high else bis[k].low < bis[j].low
  }

  /** The first position in [lo, hi) holding a stroke of direction `d` that no stroke of that direction beats. */
  function FirstExtreme(bis: seq<Bi>, lo: nat, hi: nat, d: Direction): (r: Option<nat>)
    requires lo <= hi <= |bis|
    ensures r.None? <==> forall k :: lo <= k < hi ==> bis[k].direction != d
    ensures r.Some? ==> lo <= r.value < hi && bis[r.value].direction == d
    ensures r.Some? ==> forall k :: lo <= k < hi && bis[k].direction == d ==> !Beats(bis, k, r.value, d)
    ensures r.Some? ==> forall k :: lo <= k < r.value && bis[k].direction == d ==> Beats(bis, r.value, k, d)
    decreases hi - lo
  {
    if lo == hi then None
    else
      var rest := FirstExtreme(bis, lo + 1, hi, d);
      if bis[lo].direction != d then rest
      else if rest.None? then Some(lo)
      else if Beats(bis, rest.value, lo, d) then rest
      else Some(lo)
  }

  /**
   * `find_extreme_bi`: raises ValueError unless the window is at least six
   * strokes wide, the stroke list reaches `end_index - 2`, and a stroke of
   * the segment's direction lies in positions `start_index + 2 ..
   * end_index - 4`; otherwise returns the first highest (up) or lowest (down)
   * such stroke and its index.
   */
  function FindExtremeBi(bis: seq<Bi>, startIndex: nat, endIndex: int, xdDirection: Direction): (r: Result<(Bi, nat)>)
    ensures r.Err? ==> r.error == ValueError
    ensures r.Err? <==>
              endIndex - startIndex < 6 || |bis| < endIndex - 2
              || forall k :: startIndex + 2 <= k < endIndex - 3 && k < |bis| ==> bis[k].direction != xdDirection
    ensures r.Ok? ==>
              var (b, idx) := r.value;
              startIndex + 2 <= idx < endIndex - 3 && idx < |bis| && b == bis[idx] && b.direction == xdDirection
              && (forall k :: startIndex + 2 <= k < endIndex - 3 && bis[k].direction == xdDirection ==>
                    !Beats(bis, k, idx, xdDirection))
              && (forall k :: startIndex + 2 <= k < idx && bis[k].direction == xdDirection ==>
                    Beats(bis, idx, k, xdDirection))
  {
    if endIndex - startIndex < 6 then Err(ValueError)
    else if |bis| < endIndex - 3 + 1 then Err(ValueError)
    else
      var start, end := startIndex + 2, endIndex - 3;
      if start >= end then Err(ValueError)
      else
        match FirstExtreme(bis, start, end, xdDirection)
        case None => Err(ValueError)
        case Some(idx) => Ok((bis[idx], idx))
  }

  /**
   * The same-mark forced split calls `find_extreme_bi(bis, start, fx, ...)`
   * only when `start - fx >= 6`, while the callee raises unless `fx - start >= 6`:
   * entering that branch always raises.
   */
  lemma ForcedSplitAlwaysRaises(bis: seq<Bi>, startBiIndex: nat, fxBiIndex: int, d: Direction)
    requires startBiIndex - fxBiIndex >= 6
    ensures FindExtremeBi(bis, startBiIndex, fxBiIndex, d) == Err(ValueError)
  {
  }

  /** A feature sequence of one segment direction; `sequence` is updated in place. */
  class FeatureSequence {
    const xdDirection: Direction
    const elemDirection: Direction
    var sequence: seq<FeatureElement>
    var lastTzfx: Option<Tzfx>

    constructor (xdDirection: Direction, elemDirection: Direction)
      ensures this.xdDirection == xdDirection && this.elemDirection == elemDirection
      ensures sequence == [] && lastTzfx == None
    {
      this.xdDirection := xdDirection;
      this.elemDirection := elemDirection;
      sequence := [];
      lastTzfx := None;
    }

    /** `process_inclusion` applied to this sequence's list; raises on an empty list. */
    method ProcessInclusion(e: FeatureElement) returns (r: Result<()>)
      modifies this`sequence
      ensures r.Err? <==> Inclusion(old(sequence), e).Err?
      ensures r.Ok? ==> sequence == Inclusion(old(sequence), e).value
      ensures r.Err? ==> r.error == IndexError && sequence == old(sequence)
    {
      if |sequence| == 0 {
        return Err(IndexError);
      }
      var last := sequence[|sequence| - 1];
      if !IsIncluded(last, e) {
        sequence := sequence + [e];
      } else {
        sequence := sequence[|sequence| - 1 := MergeElements(last, e)];
      }
      return Ok(());
    }

    /** The first two steps of `process_sequence`: seed an empty sequence, then handle inclusion. */
    method Feed(bis: seq<Bi>, biIndex: nat)
      requires biIndex < |bis|
      modifies this`sequence
      ensures sequence == FeedSpec(old(sequence), NewFeatureElement(bis[biIndex], biIndex))
    {
      var e := NewFeatureElement(bis[biIndex], biIndex);
      if |sequence| == 0 {
        sequence := sequence + [e];
      }
      var r := ProcessInclusion(e);
    }
  }

  /** What `process_sequence` does to the list before looking for a fractal. */
  function FeedSpec(s: seq<FeatureElement>, e: FeatureElement): seq<FeatureElement>
  {
    var seeded := if |s| == 0 then [e] else s;
    Inclusion(seeded, e).value
  }

  /** Feeding a stroke into an empty sequence leaves exactly that stroke's element. */
  lemma FeedEmptyGivesOne(e: FeatureElement)
    ensures FeedSpec([], e) == [e]
  {
    assert IsIncluded(e, e);
    assert MergeElements(e, e) == e;
  }

  /** Feeding never shortens the sequence and never touches any element but the last one or two. */
  lemma FeedKeepsPrefix(s: seq<FeatureElement>, e: FeatureElement)
    requires |s| > 0
    ensures |s| <= |FeedSpec(s, e)| <= |s| + 1
    ensures FeedSpec(s, e)[..|s| - 1] == s[..|s| - 1]
  {
  }

  /**
   * The driver's loop while no segment exists yet: at a stroke whose next and
   * next-but-two strokes are gapped it builds `XD(symbol, [bi], bi, i)`, which
   * binds the symbol string to the `bis` field, so `__post_init__` fails on
   * `bis[0].symbol` (AttributeError, or IndexError for an empty symbol).
   * Reading past the end raises IndexError, and so does `xds[-1]` when the loop
   * ends with no segment.
   */
  function DriverError(bis: seq<Bi>, i: nat): PyError
    decreases |bis| - i
  {
    if i >= |bis| then IndexError
    else if i + 3 >= |bis| then IndexError
    else if HasGap(bis[i + 1].Extent(), bis[i + 3].Extent()) then
      (if |bis[i].symbol| == 0 then IndexError else AttributeError)
    else DriverError(bis, i + 1)
  }

  /** `analyze_xd` of the feature-sequence detector. */
  function FeatureAnalyzeXd(bis: seq<Bi>): Result<seq<Xd>>
  {
    Err(DriverError(bis, 0))
  }

  /** The driver's guard fires at position `j`: strokes `j + 1` and `j + 3` exist and are gapped. */
  predicate GapAt(bis: seq<Bi>, j: nat)
  {
    j + 3 < |bis| && HasGap(bis[j + 1].Extent(), bis[j + 3].Extent())
  }

  /** The first gapped position the driver's guard finds from `i` on. */
  ghost predicate FirstGapFrom(bis: seq<Bi>, i: nat, g: nat)
  {
    i <= g && GapAt(bis, g) && forall j: nat :: i <= j < g ==> !GapAt(bis, j)
  }

  /**
   * The feature-sequence driver never returns segments. It fails with
   * AttributeError exactly when its guard finds a gapped position whose stroke
   * has a non-empty symbol, and with IndexError otherwise.
   */
  lemma {:induction false} DriverAlwaysRaises(bis: seq<Bi>, i: nat)
    ensures DriverError(bis, i) == AttributeError <==>
              exists g: nat :: FirstGapFrom(bis, i, g) && |bis[g].symbol| > 0
    decreases |bis| - i
  {
    if i < |bis| && i + 3 < |bis| {
      if HasGap(bis[i + 1].Extent(), bis[i + 3].Extent()) {
        assert FirstGapFrom(bis, i, i);
        forall g: nat | FirstGapFrom(bis, i, g) ensures g == i { }
      } else {
        DriverAlwaysRaises(bis, i + 1);
        if exists g: nat :: FirstGapFrom(bis, i, g) && |bis[g].symbol| > 0 {
          var g: nat :| FirstGapFrom(bis, i, g) && |bis[g].symbol| > 0;
          assert FirstGapFrom(bis, i + 1, g);
        }
        if exists g: nat :: FirstGapFrom(bis, i + 1, g) && |bis[g].symbol| > 0 {
          var g: nat :| FirstGapFrom(bis, i + 1, g) && |bis[g].symbol| > 0;
          assert FirstGapFrom(bis, i, g);
        }
      }
    }
  }

  /** The driver's result is always an error. */
  lemma FeatureAnalyzeXdNeverSucceeds(bis: seq<Bi>)
    ensures FeatureAnalyzeXd(bis).Err?
    ensures FeatureAnalyzeXd(bis).error == AttributeError <==>
              exists g: nat :: FirstGapFrom(bis, 0, g) && |bis[g].symbol| > 0
  {
    DriverAlwaysRaises(bis, 0);
  }
}
