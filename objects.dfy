/**
 * The structure objects of the repository: the gap test, feature elements,
 * turning fractals (TZFX), segments (XD) and segment pivots (XDZS).
 * Every object here is read-only once built, so each is a datatype; the one
 * place a segment's stroke list is changed in place (pivot grouping) is
 * modelled on the heap in module XdPivots.
 */
module Objects {
  import opened Market

  /** `has_gap`: the two price intervals are disjoint. */
  predicate HasGap(a: Span, b: Span)
  {
    a.low > b.high || b.low > a.high
  }

  predicate InSpan(p: real, s: Span)
  {
    s.low <= p <= s.high
  }

  /** A gap between two well-formed intervals means there is no price both contain. */
  lemma HasGapIffNoCommonPrice(a: Span, b: Span)
    requires a.low <= a.high && b.low <= b.high
    ensures HasGap(a, b) <==> !exists p :: InSpan(p, a) && InSpan(p, b)
  {
    if !HasGap(a, b) {
      var p := if a.low >= b.low then a.low else b.low;
      assert InSpan(p, a) && InSpan(p, b);
    }
  }

  /** The gap test does not depend on the order of its arguments. */
  lemma HasGapSymmetric(a: Span, b: Span)
    ensures HasGap(a, b) == HasGap(b, a)
  {
  }

  /** A feature element wraps one stroke and remembers its index in the stroke list. */
  datatype FeatureElement = FeatureElement(bi: Bi, high: real, low: real, direction: Direction, biIndex: int)
  {
    function Extent(): Span { Span(high, low) }
  }

  /** `FeatureElement(bi, bi_index)`: the element starts with the stroke's own prices. */
  function NewFeatureElement(bi: Bi, biIndex: int): (e: FeatureElement)
    ensures e.Extent() == bi.Extent() && e.direction == bi.direction && e.bi == bi && e.biIndex == biIndex
  {
    FeatureElement(bi, bi.high, bi.low, bi.direction, biIndex)
  }

  /** A turning fractal of a feature sequence. */
  datatype Tzfx = Tzfx(dt: int, mark: Mark, high: real, low: real, fx: real, fxBiIndex: int,
                       elements: seq<FeatureElement>)
  {
    /** `TZFX.has_gap`: only the first two elements are compared. */
    predicate HasElementGap()
      requires |elements| >= 2
    {
      HasGap(elements[0].Extent(), elements[1].Extent())
    }
  }

  /** The third element of a turning fractal never affects its gap test. */
  lemma TzfxGapIgnoresThirdElement(t: Tzfx, e: FeatureElement)
    requires |t.elements| >= 3
    ensures t.HasElementGap() == t.(elements := t.elements[2 := e]).HasElementGap()
  {
  }

  /** The highest stroke high of a non-empty stroke list. */
  function MaxHigh(bis: seq<Bi>): (h: real)
    requires |bis| > 0
    ensures forall i :: 0 <= i < |bis| ==> bis[i].high <= h
    ensures exists i :: 0 <= i < |bis| && bis[i].high == h
  {
    var hs := Highs(bis);
    var h := Max(hs);
    assert forall i :: 0 <= i < |bis| ==> hs[i] in hs && hs[i] == bis[i].high;
    ghost var k :| 0 <= k < |bis| && hs[k] == h;
    h
  }

  /** The lowest stroke low of a non-empty stroke list. */
  function MinLow(bis: seq<Bi>): (l: real)
    requires |bis| > 0
    ensures forall i :: 0 <= i < |bis| ==> l <= bis[i].low
    ensures exists i :: 0 <= i < |bis| && bis[i].low == l
  {
    var ls := Lows(bis);
    var l := Min(ls);
    assert forall i :: 0 <= i < |bis| ==> ls[i] in ls && ls[i] == bis[i].low;
    ghost var k :| 0 <= k < |bis| && ls[k] == l;
    l
  }

  /** The lowest high of a non-empty stroke list. */
  function MinHigh(bis: seq<Bi>): (m: real)
    requires |bis| > 0
    ensures forall i :: 0 <= i < |bis| ==> m <= bis[i].high
    ensures exists i :: 0 <= i < |bis| && m == bis[i].high
  {
    var h := Highs(bis);
    var m := Min(h);
    assert forall i :: 0 <= i < |h| ==> h[i] in h && h[i] == bis[i].high;
    ghost var k :| 0 <= k < |h| && h[k] == m;
    m
  }

  /** The highest low of a non-empty stroke list. */
  function MaxLow(bis: seq<Bi>): (m: real)
    requires |bis| > 0
    ensures forall i :: 0 <= i < |bis| ==> bis[i].low <= m
    ensures exists i :: 0 <= i < |bis| && m == bis[i].low
  {
    var l := Lows(bis);
    var m := Max(l);
    assert forall i :: 0 <= i < |l| ==> l[i] in l && l[i] == bis[i].low;
    ghost var k :| 0 <= k < |l| && l[k] == m;
    m
  }

  /**
   * A segment (XD). `bis` is never empty for a segment the engine builds:
   * the dataclass reads `bis[0]` when it is created.
   */
  datatype Xd = Xd(bis: seq<Bi>, startBi: Bi, startBiIndex: int,
                   endBi: Option<Bi>, endBiIndex: Option<int>,
                   startFx: Option<Tzfx>, endFx: Option<Tzfx>)
  {
    /** `XD.direction`: the direction of the segment's first stroke. */
    function Dir(): Direction { startBi.direction }

    /** `XD.is_valid`. */
    predicate IsValid()
    {
      endBi.Some? && endBiIndex.Some? && |bis| >= 3
      && !HasGap(bis[0].Extent(), bis[2].Extent())
    }

    /** `XD.high`: the highest high of the segment's strokes. */
    function High(): real
      requires |bis| > 0
    {
      MaxHigh(bis)
    }

    /** `XD.low`: the lowest low of the segment's strokes. */
    function Low(): real
      requires |bis| > 0
    {
      MinLow(bis)
    }
  }

  /** A segment is valid only when its first and third strokes overlap. */
  lemma XdValidNeedsOverlap(x: Xd)
    requires |x.bis| >= 3 && WellFormedBis(x.bis)
    ensures x.IsValid() ==> exists p :: InSpan(p, x.bis[0].Extent()) && InSpan(p, x.bis[2].Extent())
    ensures x.endBi.Some? && x.endBiIndex.Some? && (exists p :: InSpan(p, x.bis[0].Extent()) && InSpan(p, x.bis[2].Extent()))
            ==> x.IsValid()
  {
    HasGapIffNoCommonPrice(x.bis[0].Extent(), x.bis[2].Extent());
  }

  /** The segment's range contains every stroke's range. */
  lemma XdRangeCoversStrokes(x: Xd)
    requires |x.bis| > 0 && WellFormedBis(x.bis)
    ensures x.Low() <= x.High()
    ensures forall i :: 0 <= i < |x.bis| ==> x.Low() <= x.bis[i].low && x.bis[i].high <= x.High()
  {
    assert x.bis[0].low <= x.bis[0].high;
  }

  predicate AllNonEmpty(xds: seq<Xd>)
  {
    forall i :: 0 <= i < |xds| ==> |xds[i].bis| > 0
  }

  /** The highs of a list of non-empty segments. */
  function XdHighs(xds: seq<Xd>): (r: seq<real>)
    requires AllNonEmpty(xds)
    ensures |r| == |xds| && forall i {:trigger r[i]} :: 0 <= i < |xds| ==> r[i] == xds[i].High()
  {
    seq(|xds|, i requires 0 <= i < |xds| && AllNonEmpty(xds) => xds[i].High())
  }

  /** The lows of a list of non-empty segments. */
  function XdLows(xds: seq<Xd>): (r: seq<real>)
    requires AllNonEmpty(xds)
    ensures |r| == |xds| && forall i {:trigger r[i]} :: 0 <= i < |xds| ==> r[i] == xds[i].Low()
  {
    seq(|xds|, i requires 0 <= i < |xds| && AllNonEmpty(xds) => xds[i].Low())
  }

  /** A segment pivot (XDZS): its member segments and the strokes it spans. */
  datatype XdZs = XdZs(xds: seq<Xd>, bis: seq<Bi>)
  {
    /** What the properties need: a member, no empty segment, a stroke (read by `__post_init__`). */
    predicate WellFormed()
    {
      |xds| > 0 && AllNonEmpty(xds) && |bis| > 0
    }

    /** `zg`: the lowest high among the first three segments. */
    function Zg(): (zg: real)
      requires WellFormed()
      ensures forall i :: 0 <= i < |xds| && i < 3 ==> zg <= xds[i].High()
      ensures exists i :: 0 <= i < |xds| && i < 3 && zg == xds[i].High()
    {
      var h := XdHighs(xds[..if |xds| < 3 then |xds| else 3]);
      var m := Min(h);
      assert forall i :: 0 <= i < |h| ==> h[i] in h && h[i] == xds[i].High();
      ghost var k :| 0 <= k < |h| && h[k] == m;
      m
    }

    /** `zd`: the highest low among the first three segments. */
    function Zd(): (zd: real)
      requires WellFormed()
      ensures forall i :: 0 <= i < |xds| && i < 3 ==> xds[i].Low() <= zd
      ensures exists i :: 0 <= i < |xds| && i < 3 && zd == xds[i].Low()
    {
      var l := XdLows(xds[..if |xds| < 3 then |xds| else 3]);
      var m := Max(l);
      assert forall i :: 0 <= i < |l| ==> l[i] in l && l[i] == xds[i].Low();
      ghost var k :| 0 <= k < |l| && l[k] == m;
      m
    }

    /** `zz`: the midpoint of the band. */
    function Zz(): (zz: real)
      requires WellFormed()
      ensures zz - Zd() == Zg() - zz
    {
      Zd() + (Zg() - Zd()) / 2.0
    }

    /** `gg`: the highest high of the pivot's strokes (not of its segments). */
    function Gg(): real
      requires WellFormed()
    {
      MaxHigh(bis)
    }

    /** `dd`: the lowest low of the pivot's strokes (not of its segments). */
    function Dd(): real
      requires WellFormed()
    {
      MinLow(bis)
    }

    function Sdir(): Direction
      requires WellFormed()
    {
      bis[0].direction
    }

    function Edir(): Direction
      requires WellFormed()
    {
      bis[|bis| - 1].direction
    }

    /** The membership test of `is_valid` for one segment. */
    predicate Touches(x: Xd)
      requires WellFormed() && |x.bis| > 0
    {
      (Zg() >= x.High() >= Zd()) || (Zg() >= x.Low() >= Zd()) || (x.High() >= Zg() > Zd() >= x.Low())
    }

    /** `XDZS.is_valid`: at least three segments, a non-inverted band, and every member touches it. */
    predicate IsValid()
      requires WellFormed()
    {
      !(Zg() < Zd() || |xds| < 3) && forall i :: 0 <= i < |xds| ==> Touches(xds[i])
    }
  }

  /** On a valid pivot every member segment's price range meets the band [zd, zg]. */
  lemma ValidPivotMembersMeetBand(z: XdZs, i: nat) returns (p: real)
    requires z.WellFormed() && z.IsValid() && i < |z.xds|
    requires WellFormedBis(z.xds[i].bis)
    ensures z.Zd() <= p <= z.Zg() && z.xds[i].Low() <= p <= z.xds[i].High()
  {
    var x := z.xds[i];
    var zg, zd, hi, lo := z.Zg(), z.Zd(), x.High(), x.Low();
    assert lo <= x.bis[0].low <= x.bis[0].high <= hi;
    assert z.Touches(x);
    if zg >= hi >= zd {
      p := hi;
    } else if zg >= lo >= zd {
      p := lo;
    } else {
      p := zd;
    }
  }

  /**
   * The third membership case needs `zg > zd` strictly: on a single-price band
   * a member that passes straight through it does not count as touching it.
   */
  lemma PointBandRejectsStraddle(z: XdZs, i: nat)
    requires z.WellFormed() && i < |z.xds|
    requires z.Zg() == z.Zd() && z.xds[i].High() > z.Zg() && z.xds[i].Low() < z.Zd()
    ensures !z.IsValid()
  {
    assert !z.Touches(z.xds[i]);
  }

  /** A valid pivot's band is never inverted. */
  lemma ValidPivotBandOrdered(z: XdZs)
    requires z.WellFormed() && z.IsValid()
    ensures z.Zd() <= z.Zg() && |z.xds| >= 3
  {
  }

  /** With fewer than three segments a pivot is never valid, whatever its prices. */
  lemma ShortPivotInvalid(z: XdZs)
    requires z.WellFormed() && |z.xds| < 3
    ensures !z.IsValid()
  {
  }
}
