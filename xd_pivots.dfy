/**
 * Grouping segments into segment pivots (`get_xd_zs_seq`).
 *
 * A new pivot is built as `XDZS(xds=[xd], bis=xd.bis)`, so the pivot's stroke
 * list is the very list object of its first segment (its lead). Every later
 * `zs.bis += xd.bis` extends that shared list in place: the lead segment ends
 * up holding the strokes of the whole pivot, which changes its high and low
 * and hence the pivot's `zg`/`zd` seen by the next segments.
 *
 * `Group` states the result on values, with the sharing written out: the lead's
 * stroke list is always the pivot's. `GetXdZsSeq` is the loop over segment
 * objects on the heap, proved to produce exactly `Group` of the segments'
 * values at entry.
 */
module XdPivots {
  import opened Market
  import opened Objects

  /** Whether segment `x` opens a new pivot after pivot `p` (otherwise it joins `p`). */
  predicate Opens(p: XdZs, x: Xd)
    requires p.WellFormed() && |x.bis| > 0
  {
    (x.Dir() == Up && x.High() < p.Zd()) || (x.Dir() == Down && x.Low() > p.Zg())
  }

  /** `XDZS(xds=[xd], bis=xd.bis)`. */
  function Open(x: Xd): XdZs
  {
    XdZs([x], x.bis)
  }

  /** `zs.xds.append(xd); zs.bis += xd.bis`, the extension landing in the lead's list too. */
  function Join(p: XdZs, x: Xd): XdZs
    requires |p.xds| > 0
  {
    var nb := p.bis + x.bis;
    XdZs(p.xds[0 := p.xds[0].(bis := nb)] + [x], nb)
  }

  /** The lead segment's stroke list is the pivot's stroke list. */
  predicate Shared(p: XdZs)
  {
    |p.xds| > 0 && p.xds[0].bis == p.bis
  }

  /** Every member's range lies inside the pivot's stroke range. */
  predicate MembersInside(p: XdZs)
    requires p.WellFormed()
  {
    forall m :: 0 <= m < |p.xds| ==> p.Dd() <= p.xds[m].Low() && p.xds[m].High() <= p.Gg()
  }

  /** The well-formed pivots the grouping builds. */
  predicate GoodPivot(p: XdZs)
  {
    p.WellFormed() && Shared(p) && MembersInside(p)
  }

  /** Extending a stroke list never lowers its highest high nor raises its lowest low. */
  lemma ExtremesOfAppend(a: seq<Bi>, b: seq<Bi>)
    requires |a| > 0 && |b| > 0
    ensures MaxHigh(a) <= MaxHigh(a + b) && MaxHigh(b) <= MaxHigh(a + b)
    ensures MinLow(a + b) <= MinLow(a) && MinLow(a + b) <= MinLow(b)
  {
    var ia :| 0 <= ia < |a| && a[ia].high == MaxHigh(a);
    assert (a + b)[ia] == a[ia];
    var ib :| 0 <= ib < |b| && b[ib].high == MaxHigh(b);
    assert (a + b)[|a| + ib] == b[ib];
    var ja :| 0 <= ja < |a| && a[ja].low == MinLow(a);
    assert (a + b)[ja] == a[ja];
    var jb :| 0 <= jb < |b| && b[jb].low == MinLow(b);
    assert (a + b)[|a| + jb] == b[jb];
  }

  /** Joining keeps a pivot good. */
  lemma JoinKeepsGood(p: XdZs, x: Xd)
    requires GoodPivot(p) && |x.bis| > 0
    ensures GoodPivot(Join(p, x))
  {
    var q := Join(p, x);
    assert AllNonEmpty(q.xds) by {
      forall m | 0 <= m < |q.xds| ensures |q.xds[m].bis| > 0 {
        if m > 0 && m < |p.xds| { assert q.xds[m] == p.xds[m]; }
      }
    }
    ExtremesOfAppend(p.bis, x.bis);
    forall m | 0 <= m < |q.xds|
      ensures q.Dd() <= q.xds[m].Low() && q.xds[m].High() <= q.Gg()
    {
      if m == 0 {
      } else if m < |p.xds| {
        assert q.xds[m] == p.xds[m];
        assert p.Dd() <= p.xds[m].Low() && p.xds[m].High() <= p.Gg();
      } else {
        assert q.xds[m] == x;
      }
    }
  }

  /** A one-segment pivot is good. */
  lemma OpenGood(x: Xd)
    requires |x.bis| > 0
    ensures GoodPivot(Open(x))
  {
  }

  lemma InitNonEmpty(xds: seq<Xd>)
    requires AllNonEmpty(xds) && |xds| > 0
    ensures AllNonEmpty(xds[..|xds| - 1]) && |xds[|xds| - 1].bis| > 0
  {
    assert forall i :: 0 <= i < |xds| - 1 ==> xds[..|xds| - 1][i] == xds[i];
  }

  predicate AllGood(zs: seq<XdZs>)
  {
    forall j :: 0 <= j < |zs| ==> GoodPivot(zs[j])
  }

  /** What the next grouping step reads: the last pivot, if any, is well formed. */
  predicate LastWellFormed(zs: seq<XdZs>)
  {
    |zs| > 0 ==> zs[|zs| - 1].WellFormed()
  }

  lemma JoinWellFormed(p: XdZs, x: Xd)
    requires p.WellFormed() && |x.bis| > 0
    ensures Join(p, x).WellFormed()
  {
    var q := Join(p, x);
    forall m | 0 <= m < |q.xds| ensures |q.xds[m].bis| > 0 {
      if 0 < m < |p.xds| { assert q.xds[m] == p.xds[m]; }
    }
  }

  /** One iteration of the grouping loop: segment `x` opens a pivot or joins the last one. */
  function AddSegment(prev: seq<XdZs>, x: Xd): (r: seq<XdZs>)
    requires LastWellFormed(prev) && |x.bis| > 0
    ensures |r| > 0 && LastWellFormed(r)
  {
    if |prev| == 0 then [Open(x)]
    else
      var p := prev[|prev| - 1];
      if Opens(p, x) then prev + [Open(x)]
      else
        JoinWellFormed(p, x);
        prev[..|prev| - 1] + [Join(p, x)]
  }

  /** `get_xd_zs_seq` on values, one segment at a time from the left. */
  function Group(xds: seq<Xd>): (r: seq<XdZs>)
    requires AllNonEmpty(xds)
    ensures |r| == 0 <==> |xds| == 0
    ensures LastWellFormed(r)
  {
    if |xds| == 0 then []
    else
      InitNonEmpty(xds);
      AddSegment(Group(xds[..|xds| - 1]), xds[|xds| - 1])
  }

  /** A grouping step keeps every pivot good. */
  lemma AddSegmentGood(prev: seq<XdZs>, x: Xd)
    requires AllGood(prev) && |x.bis| > 0
    ensures LastWellFormed(prev) && AllGood(AddSegment(prev, x))
  {
    assert LastWellFormed(prev) by {
      if |prev| > 0 { assert GoodPivot(prev[|prev| - 1]); }
    }
    OpenGood(x);
    if |prev| > 0 {
      var p := prev[|prev| - 1];
      if Opens(p, x) {
        AllGoodAppend(prev, Open(x));
      } else {
        JoinKeepsGood(p, x);
        AllGoodAppend(prev[..|prev| - 1], Join(p, x));
      }
    }
  }

  lemma AllGoodAppend(zs: seq<XdZs>, z: XdZs)
    requires forall j :: 0 <= j < |zs| ==> GoodPivot(zs[j])
    requires GoodPivot(z)
    ensures AllGood(zs + [z])
  {
  }

  /**
   * Every pivot the grouping builds is well formed, its lead's stroke list is
   * the pivot's own, and each member's range lies within the pivot's strokes.
   */
  lemma {:induction false} GroupGood(xds: seq<Xd>)
    requires AllNonEmpty(xds)
    ensures AllGood(Group(xds))
  {
    if |xds| > 0 {
      InitNonEmpty(xds);
      GroupGood(xds[..|xds| - 1]);
      AddSegmentGood(Group(xds[..|xds| - 1]), xds[|xds| - 1]);
    }
  }

  /** The member segments of all pivots, in order. */
  function Members(zs: seq<XdZs>): seq<Xd>
  {
    if |zs| == 0 then [] else Members(zs[..|zs| - 1]) + zs[|zs| - 1].xds
  }

  /** A segment with its stroke list cleared: what grouping never changes. */
  function Key(x: Xd): Xd
  {
    x.(bis := [])
  }

  function Keys(xds: seq<Xd>): (r: seq<Xd>)
    ensures |r| == |xds| && forall k :: 0 <= k < |xds| ==> r[k] == Key(xds[k])
  {
    seq(|xds|, k requires 0 <= k < |xds| => Key(xds[k]))
  }

  /** All strokes of a list of segments (or of pivots), in order. */
  function SegmentStrokes(xds: seq<Xd>): seq<Bi>
  {
    if |xds| == 0 then [] else SegmentStrokes(xds[..|xds| - 1]) + xds[|xds| - 1].bis
  }

  function PivotStrokes(zs: seq<XdZs>): seq<Bi>
  {
    if |zs| == 0 then [] else PivotStrokes(zs[..|zs| - 1]) + zs[|zs| - 1].bis
  }

  lemma KeysAppend(a: seq<Xd>, b: seq<Xd>)
    ensures Keys(a + b) == Keys(a) + Keys(b)
  {
  }

  lemma PushPartition(prev: seq<XdZs>, z: XdZs)
    ensures Members(prev + [z]) == Members(prev) + z.xds
    ensures PivotStrokes(prev + [z]) == PivotStrokes(prev) + z.bis
  {
    assert (prev + [z])[..|prev|] == prev;
  }

  /** Joining changes only the lead's stroke list, which a key ignores. */
  lemma JoinKeys(p: XdZs, x: Xd)
    requires |p.xds| > 0
    ensures Keys(Join(p, x).xds) == Keys(p.xds) + [Key(x)]
  {
    var q := Join(p, x);
    assert Key(q.xds[0]) == Key(p.xds[0]);
    assert forall k :: 0 < k < |p.xds| ==> q.xds[k] == p.xds[k];
  }

  lemma OpenPartition(prev: seq<XdZs>, x: Xd)
    ensures Keys(Members(prev + [Open(x)])) == Keys(Members(prev)) + [Key(x)]
    ensures PivotStrokes(prev + [Open(x)]) == PivotStrokes(prev) + x.bis
  {
    PushPartition(prev, Open(x));
    KeysAppend(Members(prev), [x]);
  }

  lemma JoinPartition(front: seq<XdZs>, p: XdZs, x: Xd)
    requires |p.xds| > 0
    ensures Keys(Members(front + [Join(p, x)])) == Keys(Members(front + [p])) + [Key(x)]
    ensures PivotStrokes(front + [Join(p, x)]) == PivotStrokes(front + [p]) + x.bis
  {
    PushPartition(front, p);
    PushPartition(front, Join(p, x));
    JoinKeys(p, x);
    KeysAppend(Members(front), Join(p, x).xds);
    KeysAppend(Members(front), p.xds);
  }

  /** One grouping step adds exactly the new segment to the members and its strokes to the pivots' strokes. */
  lemma AddSegmentPartition(prev: seq<XdZs>, x: Xd)
    requires LastWellFormed(prev) && |x.bis| > 0
    ensures Keys(Members(AddSegment(prev, x))) == Keys(Members(prev)) + [Key(x)]
    ensures PivotStrokes(AddSegment(prev, x)) == PivotStrokes(prev) + x.bis
  {
    if |prev| == 0 {
      assert AddSegment(prev, x) == prev + [Open(x)];
      OpenPartition(prev, x);
    } else if Opens(prev[|prev| - 1], x) {
      OpenPartition(prev, x);
    } else {
      var p := prev[|prev| - 1];
      var front := prev[..|prev| - 1];
      assert prev == front + [p];
      JoinPartition(front, p, x);
    }
  }

  /**
   * Grouping partitions the input: the pivots' member lists, read in order,
   * are the input segments (each a lead whose stroke list was extended, or
   * untouched), and the pivots' stroke lists, read in order, are the input's
   * strokes.
   */
  lemma {:induction false} GroupPartitions(xds: seq<Xd>)
    requires AllNonEmpty(xds)
    ensures Keys(Members(Group(xds))) == Keys(xds)
    ensures PivotStrokes(Group(xds)) == SegmentStrokes(xds)
  {
    if |xds| > 0 {
      var init := xds[..|xds| - 1];
      var x := xds[|xds| - 1];
      assert init + [x] == xds;
      InitNonEmpty(xds);
      GroupPartitions(init);
      AddSegmentPartition(Group(init), x);
      KeysAppend(init, [x]);
    }
  }

  /** Grouping nothing gives no pivot. */
  lemma GroupEmpty()
    ensures Group([]) == []
  {
  }

  /**
   * One more segment either opens a new pivot, exactly when the rule fires
   * against the current last pivot (or there is none yet), or becomes the
   * last member of the current last pivot, which keeps its place.
   */
  lemma GroupStep(xds: seq<Xd>, x: Xd)
    requires AllNonEmpty(xds) && |x.bis| > 0
    ensures AllNonEmpty(xds + [x])
    ensures var before, after := Group(xds), Group(xds + [x]);
            (|after| == |before| + 1 <==> |before| == 0 || Opens(before[|before| - 1], x))
            && (|after| == |before| + 1 ==> after[..|before|] == before && after[|before|] == Open(x))
            && (|after| != |before| + 1 ==>
                  |after| == |before| && after[..|before| - 1] == before[..|before| - 1]
                  && after[|before| - 1] == Join(before[|before| - 1], x))
  {
    var ys := xds + [x];
    assert ys[..|xds|] == xds;
    InitNonEmpty(ys);
    assert Group(ys) == AddSegment(Group(xds), x);
  }

  /**
   * The sharing in numbers: once a second segment has joined, the lead segment's
   * own high and low are the pivot's `gg` and `dd`, so they no longer bound
   * `zg`/`zd`; the band is set by the next members alone.
   */
  lemma AliasedBandOf(p: XdZs)
    requires GoodPivot(p) && |p.xds| >= 2
    ensures p.xds[0].High() == p.Gg() && p.xds[0].Low() == p.Dd()
    ensures p.Zg() == (if |p.xds| == 2 || p.xds[1].High() <= p.xds[2].High() then p.xds[1].High() else p.xds[2].High())
    ensures p.Zd() == (if |p.xds| == 2 || p.xds[1].Low() >= p.xds[2].Low() then p.xds[1].Low() else p.xds[2].Low())
  {
    AliasedZg(p);
    AliasedZd(p);
  }

  lemma AliasedZg(p: XdZs)
    requires GoodPivot(p) && |p.xds| >= 2
    ensures p.Zg() == (if |p.xds| == 2 || p.xds[1].High() <= p.xds[2].High() then p.xds[1].High() else p.xds[2].High())
  {
    var h0, h1 := p.xds[0].High(), p.xds[1].High();
    assert h0 == p.Gg() && h1 <= p.Gg();
    var zg := p.Zg();
    assert zg <= h1;
    var k :| 0 <= k < |p.xds| && k < 3 && zg == p.xds[k].High();
    if |p.xds| >= 3 {
      var h2 := p.xds[2].High();
      assert h2 <= h0 && zg <= h2;
      if k == 0 { assert zg == h0; } else if k == 1 { assert zg == h1; } else { assert k == 2; }
    } else if k == 0 {
      assert zg == h0;
    }
  }

  lemma AliasedZd(p: XdZs)
    requires GoodPivot(p) && |p.xds| >= 2
    ensures p.Zd() == (if |p.xds| == 2 || p.xds[1].Low() >= p.xds[2].Low() then p.xds[1].Low() else p.xds[2].Low())
  {
    var l0, l1 := p.xds[0].Low(), p.xds[1].Low();
    assert l0 == p.Dd() && p.Dd() <= l1;
    var zd := p.Zd();
    assert l1 <= zd;
    var k :| 0 <= k < |p.xds| && k < 3 && zd == p.xds[k].Low();
    if |p.xds| >= 3 {
      var l2 := p.xds[2].Low();
      assert l0 <= l2 && l2 <= zd;
      if k == 0 { assert zd == l0; } else if k == 1 { assert zd == l1; } else { assert k == 2; }
    } else if k == 0 {
      assert zd == l0;
    }
  }

  /** The same for every pivot the grouping builds with two or more members. */
  lemma AliasedBand(xds: seq<Xd>, j: nat)
    requires AllNonEmpty(xds) && j < |Group(xds)| && |Group(xds)[j].xds| >= 2
    ensures GoodPivot(Group(xds)[j])
    ensures var p := Group(xds)[j];
            p.xds[0].High() == p.Gg() && p.xds[0].Low() == p.Dd()
            && p.Zg() == (if |p.xds| == 2 || p.xds[1].High() <= p.xds[2].High() then p.xds[1].High() else p.xds[2].High())
            && p.Zd() == (if |p.xds| == 2 || p.xds[1].Low() >= p.xds[2].Low() then p.xds[1].Low() else p.xds[2].Low())
  {
    GroupGood(xds);
    AliasedBandOf(Group(xds)[j]);
  }

  /** A one-stroke segment, for the example below. */
  function Seg(d: Direction, high: real, low: real, i: int): Xd
  {
    var b := Bi("s", d, high, low, i, i + 1, high - low, []);
    Xd([b], b, i, Some(b), Some(i), None, None)
  }

  lemma SegBounds(d: Direction, high: real, low: real, i: int)
    ensures var x := Seg(d, high, low, i); |x.bis| == 1 && x.Dir() == d && x.High() == high && x.Low() == low
  {
    var x := Seg(d, high, low, i);
    assert MaxHigh(x.bis) == x.bis[0].high && MinLow(x.bis) == x.bis[0].low;
  }

  /** The first two segments of the example below share one pivot. */
  lemma ExampleFirstJoin(a: Xd, b: Xd)
    requires a == Seg(Up, 10.0, 7.0, 0) && b == Seg(Down, 9.0, 5.0, 1)
    ensures Group([a, b]) == [Join(Open(a), b)]
  {
    SegBounds(Up, 10.0, 7.0, 0);
    SegBounds(Down, 9.0, 5.0, 1);
    assert [a, b][..1] == [a] && [a][..0] == [];
    assert Open(a).Zg() == 10.0;
  }

  /**
   * The sharing decides grouping. A down segment joins an up one; the third,
   * rising only to 6, stays in the same pivot because the lead's low is now 5,
   * although a pivot holding the two segments as they were built (lowest lows
   * 7 and 5, so `zd` = 7) would have made it open a new pivot.
   */
  lemma AliasingChangesGrouping()
    ensures var a, b, c := Seg(Up, 10.0, 7.0, 0), Seg(Down, 9.0, 5.0, 1), Seg(Up, 6.0, 5.5, 2);
            |Group([a, b, c])| == 1
            && Opens(XdZs([a, b], a.bis + b.bis), c)
  {
    var a, b, c := Seg(Up, 10.0, 7.0, 0), Seg(Down, 9.0, 5.0, 1), Seg(Up, 6.0, 5.5, 2);
    ExampleFirstJoin(a, b);
    SegBounds(Down, 9.0, 5.0, 1);
    SegBounds(Up, 6.0, 5.5, 2);
    ThirdAfterJoin(a, b, c);
    ExampleBuiltBand(a, b);
  }

  /**
   * Once a second segment has joined a lead, the band is the second segment's
   * own range, so a third segment joins exactly when it reaches that range.
   */
  lemma ThirdAfterJoin(a: Xd, b: Xd, c: Xd)
    requires |a.bis| > 0 && |b.bis| > 0 && |c.bis| > 0
    requires Group([a, b]) == [Join(Open(a), b)]
    ensures AllNonEmpty([a, b, c])
    ensures !((c.Dir() == Up && c.High() < b.Low()) || (c.Dir() == Down && c.Low() > b.High()))
            ==> Group([a, b, c]) == [Join(Join(Open(a), b), c)]
  {
    var q := Join(Open(a), b);
    TwoMemberBand(a, b);
    var xs := [a, b, c];
    ThreeNonEmpty(a, b, c);
    GroupNext(xs, 2, [q], Opens(q, c));
  }

  /** A lead joined by one segment: the band is that segment's range. */
  lemma TwoMemberBand(a: Xd, b: Xd)
    requires |a.bis| > 0 && |b.bis| > 0
    ensures var q := Join(Open(a), b); GoodPivot(q) && q.Zd() == b.Low() && q.Zg() == b.High()
  {
    var q := Join(Open(a), b);
    OpenGood(a);
    JoinKeepsGood(Open(a), b);
    AliasedBandOf(q);
    assert q.xds[1] == b;
  }

  lemma ThreeNonEmpty(a: Xd, b: Xd, c: Xd)
    requires |a.bis| > 0 && |b.bis| > 0 && |c.bis| > 0
    ensures AllNonEmpty([a, b, c]) && AllNonEmpty([a, b])
    ensures [a, b, c][..2] == [a, b] && [a, b, c][..3] == [a, b, c]
  {
    var xs := [a, b, c];
    assert xs[0] == a && xs[1] == b && xs[2] == c;
  }

  /** The band of the first two segments of the example as they were built. */
  lemma ExampleBuiltBand(a: Xd, b: Xd)
    requires a == Seg(Up, 10.0, 7.0, 0) && b == Seg(Down, 9.0, 5.0, 1)
    ensures XdZs([a, b], a.bis + b.bis).WellFormed() && XdZs([a, b], a.bis + b.bis).Zd() == 7.0
  {
    SegBounds(Up, 10.0, 7.0, 0);
    SegBounds(Down, 9.0, 5.0, 1);
    var z := XdZs([a, b], a.bis + b.bis);
    assert z.xds[0] == a && z.xds[1] == b;
    var zd := z.Zd();
    assert 7.0 <= zd;
    var k :| 0 <= k < |z.xds| && k < 3 && zd == z.xds[k].Low();
    assert k == 0;
  }

  /** A segment object: its stroke list can be extended in place; its other fields never change. */
  class XdRef {
    var bis: seq<Bi>
    const startBi: Bi
    const startBiIndex: int
    const endBi: Option<Bi>
    const endBiIndex: Option<int>
    const startFx: Option<Tzfx>
    const endFx: Option<Tzfx>

    constructor (x: Xd)
      ensures Value() == x
    {
      bis := x.bis;
      startBi := x.startBi;
      startBiIndex := x.startBiIndex;
      endBi := x.endBi;
      endBiIndex := x.endBiIndex;
      startFx := x.startFx;
      endFx := x.endFx;
    }

    /** The segment this object currently describes. */
    function Value(): Xd
      reads this
    {
      Xd(bis, startBi, startBiIndex, endBi, endBiIndex, startFx, endFx)
    }
  }

  /** A pivot object: its member segments; its stroke list is its lead's. */
  datatype PivotRefs = PivotRefs(xds: seq<XdRef>)

  /** The current values of a list of segment objects. */
  function Values(refs: seq<XdRef>): (r: seq<Xd>)
    reads set x | x in refs
    ensures |r| == |refs| && forall k {:trigger r[k]} :: 0 <= k < |refs| ==> r[k] == refs[k].Value()
  {
    if |refs| == 0 then [] else Values(refs[..|refs| - 1]) + [refs[|refs| - 1].Value()]
  }

  /** The pivot a pivot object currently describes. */
  function View(p: PivotRefs): XdZs
    requires |p.xds| > 0
    reads set x | x in p.xds
  {
    XdZs(Values(p.xds), p.xds[0].bis)
  }

  predicate NonEmptyPivots(zs: seq<PivotRefs>)
  {
    forall j :: 0 <= j < |zs| ==> |zs[j].xds| > 0
  }

  function Views(zs: seq<PivotRefs>): (r: seq<XdZs>)
    requires NonEmptyPivots(zs)
    reads set p, x | p in zs && x in p.xds :: x
    ensures |r| == |zs| && forall j {:trigger r[j]} :: 0 <= j < |zs| ==> r[j] == View(zs[j])
  {
    if |zs| == 0 then []
    else
      assert NonEmptyPivots(zs[..|zs| - 1]);
      Views(zs[..|zs| - 1]) + [View(zs[|zs| - 1])]
  }

  /** The member objects of all pivots, in order. */
  function Flatten(zs: seq<PivotRefs>): seq<XdRef>
  {
    if |zs| == 0 then [] else Flatten(zs[..|zs| - 1]) + zs[|zs| - 1].xds
  }

  predicate Distinct(xds: seq<XdRef>)
  {
    forall i, j :: 0 <= i < j < |xds| ==> xds[i] != xds[j]
  }

  /** Every member of pivot `j` among the first pivots occurs in their flattening. */
  lemma {:induction false} MemberInFlatten(zs: seq<PivotRefs>, j: nat, r: XdRef)
    requires j < |zs| && r in zs[j].xds
    ensures r in Flatten(zs)
    decreases |zs|
  {
    if j < |zs| - 1 {
      assert zs[..|zs| - 1][j] == zs[j];
      MemberInFlatten(zs[..|zs| - 1], j, r);
    }
  }

  /**
   * Where the last pivot's lead sits among the input objects: it is none of the
   * earlier pivots' members, none of the later members of its own pivot, and
   * none of the segments not yet grouped.
   */
  lemma LeadIsUnshared(xds: seq<XdRef>, zs: seq<PivotRefs>, i: nat)
    requires Distinct(xds) && i <= |xds| && Flatten(zs) == xds[..i]
    requires |zs| > 0 && |zs[|zs| - 1].xds| > 0
    ensures var p := zs[|zs| - 1]; var lead := p.xds[0];
            (forall j, r :: 0 <= j < |zs| - 1 && r in zs[j].xds ==> r != lead)
            && (forall k :: 1 <= k < |p.xds| ==> p.xds[k] != lead)
            && (forall k :: i <= k < |xds| ==> xds[k] != lead)
            && lead in xds
  {
    var front := zs[..|zs| - 1];
    var p := zs[|zs| - 1];
    assert zs == front + [p];
    var m := |Flatten(front)|;
    assert Flatten(zs) == Flatten(front) + p.xds;
    assert Flatten(front) == xds[..m];
    assert p.xds == xds[m..i];
    assert p.xds[0] == xds[m];
    forall j, r | 0 <= j < |zs| - 1 && r in zs[j].xds ensures r != p.xds[0] {
      assert front[j] == zs[j];
      MemberInFlatten(front, j, r);
    }
  }

  /** The pivot objects describe the pivot values, one by one. */
  predicate Describes(zs: seq<PivotRefs>, views: seq<XdZs>)
    reads set p, x | p in zs && x in p.xds :: x
  {
    |zs| == |views| && forall j :: 0 <= j < |zs| ==> |zs[j].xds| > 0 && View(zs[j]) == views[j]
  }

  lemma DescribesViews(zs: seq<PivotRefs>, views: seq<XdZs>)
    requires Describes(zs, views)
    ensures NonEmptyPivots(zs) && Views(zs) == views
  {
  }

  /** The members of all pivots but the last, then the last one's, then `x`. */
  lemma FlattenJoin(zs: seq<PivotRefs>, x: XdRef)
    requires |zs| > 0
    ensures Flatten(zs[..|zs| - 1] + [PivotRefs(zs[|zs| - 1].xds + [x])]) == Flatten(zs) + [x]
  {
    var front := zs[..|zs| - 1];
    var p := zs[|zs| - 1];
    var r := front + [PivotRefs(p.xds + [x])];
    assert r[..|r| - 1] == front && r[|r| - 1].xds == p.xds + [x];
    assert Flatten(r) == Flatten(front) + (p.xds + [x]);
    assert Flatten(zs) == Flatten(front) + p.xds;
  }

  lemma FlattenPush(zs: seq<PivotRefs>, x: XdRef)
    ensures Flatten(zs + [PivotRefs([x])]) == Flatten(zs) + [x]
  {
    assert (zs + [PivotRefs([x])])[..|zs|] == zs;
  }

  /**
   * The heap step of a join: `zs.xds.append(xd)` on the last pivot, and
   * `zs.bis += xd.bis`, which extends its lead segment's list in place.
   */
  method JoinLast(xds: seq<XdRef>, zs: seq<PivotRefs>, i: nat, ghost views: seq<XdZs>)
      returns (r: seq<PivotRefs>)
    requires Distinct(xds) && i < |xds| && Flatten(zs) == xds[..i]
    requires |zs| > 0 && Describes(zs, views)
    modifies zs[|zs| - 1].xds[0]
    ensures r == zs[..|zs| - 1] + [PivotRefs(zs[|zs| - 1].xds + [xds[i]])]
    ensures Describes(r, views[..|views| - 1] + [Join(views[|views| - 1], old(xds[i].Value()))])
  {
    var p := zs[|zs| - 1];
    var front := zs[..|zs| - 1];
    var x := xds[i];
    var lead := p.xds[0];
    LeadIsUnshared(xds, zs, i);
    ghost var pv := View(p);
    ghost var xv := x.Value();
    lead.bis := lead.bis + x.bis;
    var q := PivotRefs(p.xds + [x]);
    r := front + [q];
    assert Values(q.xds) == Join(pv, xv).xds;
    assert forall j :: 0 <= j < |front| ==> front[j] == zs[j];
  }

  /** Opening a new pivot with segment object `x`. */
  lemma DescribesPush(zs: seq<PivotRefs>, views: seq<XdZs>, x: XdRef)
    requires Describes(zs, views)
    ensures Describes(zs + [PivotRefs([x])], views + [Open(x.Value())])
  {
    assert Values([x]) == [x.Value()];
    assert forall j :: 0 <= j < |zs| ==> (zs + [PivotRefs([x])])[j] == zs[j];
  }

  /** One more non-empty segment keeps the prefix non-empty. */
  lemma PrefixNonEmpty(orig: seq<Xd>, i: nat)
    requires i < |orig| && AllNonEmpty(orig[..i]) && |orig[i].bis| > 0
    ensures AllNonEmpty(orig[..i + 1])
  {
    var ys, xs := orig[..i + 1], orig[..i];
    forall k | 0 <= k < |ys|
      ensures |ys[k].bis| > 0
    {
      if k < i {
        assert ys[k] == xs[k];
      }
    }
  }

  /** The next value-level grouping step, with the opening rule's verdict given. */
  lemma GroupNext(orig: seq<Xd>, i: nat, views: seq<XdZs>, opens: bool)
    requires i < |orig| && AllNonEmpty(orig[..i]) && |orig[i].bis| > 0
    requires views == Group(orig[..i]) && |views| > 0
    requires opens == Opens(views[|views| - 1], orig[i])
    ensures AllNonEmpty(orig[..i + 1])
    ensures opens ==> Group(orig[..i + 1]) == views + [Open(orig[i])]
    ensures !opens ==> Group(orig[..i + 1]) == views[..|views| - 1] + [Join(views[|views| - 1], orig[i])]
  {
    var ys := orig[..i + 1];
    assert ys[..i] == orig[..i] && ys[i] == orig[i];
    PrefixNonEmpty(orig, i);
    assert Group(ys) == AddSegment(views, orig[i]);
  }

  lemma GroupFirst(orig: seq<Xd>, i: nat)
    requires i < |orig| && AllNonEmpty(orig[..i]) && |orig[i].bis| > 0
    requires |Group(orig[..i])| == 0
    ensures AllNonEmpty(orig[..i + 1])
    ensures Group(orig[..i + 1]) == [Open(orig[i])]
  {
    var ys := orig[..i + 1];
    assert ys[..i] == orig[..i] && ys[i] == orig[i];
    PrefixNonEmpty(orig, i);
    assert Group(ys) == AddSegment([], orig[i]);
  }

  lemma TakeOneMore<T>(s: seq<T>, i: nat)
    requires i < |s|
    ensures s[..i + 1] == s[..i] + [s[i]]
  {
  }

  /**
   * One pass of the loop of `get_xd_zs_seq`: segment `xds[i]` either opens a new
   * pivot or joins the last one, and what the pivots describe moves on from
   * `Group` of the first `i` segment values to `Group` of the first `i + 1`.
   */
  method Step(xds: seq<XdRef>, zs: seq<PivotRefs>, i: nat, ghost orig: seq<Xd>, ghost views: seq<XdZs>)
      returns (r: seq<PivotRefs>, ghost next: seq<XdZs>)
    requires Distinct(xds) && i < |xds| == |orig| && Flatten(zs) == xds[..i]
    requires forall k :: i <= k < |xds| ==> xds[k].Value() == orig[k]
    requires AllNonEmpty(orig[..i]) && |orig[i].bis| > 0
    requires views == Group(orig[..i]) && Describes(zs, views)
    modifies set x | x in xds
    ensures Flatten(r) == xds[..i + 1]
    ensures forall k :: i < k < |xds| ==> xds[k].Value() == orig[k]
    ensures AllNonEmpty(orig[..i + 1])
    ensures next == Group(orig[..i + 1]) && Describes(r, next)
  {
    var x := xds[i];
    assert x.Value() == orig[i];
    TakeOneMore(xds, i);
    if |zs| == 0 {
      GroupFirst(orig, i);
      FlattenPush(zs, x);
      DescribesPush(zs, views, x);
      r := zs + [PivotRefs([x])];
      next := views + [Open(orig[i])];
    } else {
      var p := zs[|zs| - 1];
      var opens := Opens(View(p), x.Value());
      GroupNext(orig, i, views, opens);
      if opens {
        FlattenPush(zs, x);
        DescribesPush(zs, views, x);
        r := zs + [PivotRefs([x])];
        next := views + [Open(orig[i])];
      } else {
        LeadIsUnshared(xds, zs, i);
        FlattenJoin(zs, x);
        r := JoinLast(xds, zs, i, views);
        next := views[..|views| - 1] + [Join(views[|views| - 1], orig[i])];
      }
    }
  }

  /**
   * `get_xd_zs_seq` on segment objects. Requires the segments to be distinct
   * objects, each with at least one stroke, as the detectors build them. The
   * pivots' member lists, read in order, are exactly the input objects; what
   * the pivots then describe is `Group` of the segments' values at entry.
   */
  method GetXdZsSeq(xds: seq<XdRef>) returns (zs: seq<PivotRefs>)
    requires Distinct(xds)
    requires forall i :: 0 <= i < |xds| ==> |xds[i].bis| > 0
    modifies set x | x in xds
    ensures NonEmptyPivots(zs)
    ensures Flatten(zs) == xds
    ensures AllNonEmpty(old(Values(xds)))
    ensures Views(zs) == Group(old(Values(xds)))
  {
    ghost var orig := Values(xds);
    ghost var views: seq<XdZs> := [];
    zs := [];
    var i := 0;
    while i < |xds|
      invariant 0 <= i <= |xds|
      invariant Flatten(zs) == xds[..i]
      invariant forall k :: i <= k < |xds| ==> xds[k].Value() == orig[k]
      invariant AllNonEmpty(orig[..i])
      invariant views == Group(orig[..i]) && Describes(zs, views)
    {
      zs, views := Step(xds, zs, i, orig, views);
      i := i + 1;
    }
    assert xds[..i] == xds && orig[..i] == orig;
    DescribesViews(zs, views);
  }
}
