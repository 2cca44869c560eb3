/**
 * Turning a chart upside down: every price and every indicator value negated,
 * highs and lows exchanged, directions reversed. The divergence tests of the
 * example classifiers come in top/bottom pairs that are meant to be each
 * other's mirror image; this module gives the reflection and the facts about
 * `min`, `max` and the signed sums it needs.
 */
module Reflection {
  import opened Market

  /** Every entry negated. */
  function Neg(s: seq<real>): (r: seq<real>)
    ensures |r| == |s| && forall i {:trigger r[i]} :: 0 <= i < |s| ==> r[i] == -s[i]
  {
    seq(|s|, i requires 0 <= i < |s| => -s[i])
  }

  /** The largest negated entry is the negated smallest entry. */
  lemma MaxOfNeg(s: seq<real>)
    requires |s| > 0
    ensures Max(Neg(s)) == -Min(s)
  {
    var n := Neg(s);
    var hi, lo := Max(n), Min(s);
    var i :| 0 <= i < |n| && n[i] == hi;
    assert s[i] in s;
    var j :| 0 <= j < |s| && s[j] == lo;
    assert n[j] in n;
  }

  /** The smallest negated entry is the negated largest entry. */
  lemma MinOfNeg(s: seq<real>)
    requires |s| > 0
    ensures Min(Neg(s)) == -Max(s)
  {
    var n := Neg(s);
    var lo, hi := Min(n), Max(s);
    var i :| 0 <= i < |n| && n[i] == lo;
    assert s[i] in s;
    var j :| 0 <= j < |s| && s[j] == hi;
    assert n[j] in n;
  }

  /** The positive entries of the negated list total the negated total of the negative entries. */
  lemma {:induction false} SumPositiveOfNeg(s: seq<real>)
    ensures SumPositive(Neg(s)) == -SumNegative(s)
  {
    if |s| > 0 {
      var t := s[..|s| - 1];
      SumPositiveOfNeg(t);
      assert Neg(s)[..|s| - 1] == Neg(t);
    }
  }

  /** The negative entries of the negated list total the negated total of the positive entries. */
  lemma {:induction false} SumNegativeOfNeg(s: seq<real>)
    ensures SumNegative(Neg(s)) == -SumPositive(s)
  {
    if |s| > 0 {
      var t := s[..|s| - 1];
      SumNegativeOfNeg(t);
      assert Neg(s)[..|s| - 1] == Neg(t);
    }
  }

  function Flip(d: Direction): Direction
  {
    if d == Up then Down else Up
  }

  /** A bar upside down: prices and indicators negated, its high and low exchanged; its date and amount kept. */
  function MirrorBar(b: RawBar): RawBar
  {
    RawBar(b.dt, -b.open, -b.close, -b.low, -b.high, b.amount, -b.dif, -b.dea, -b.macd, -b.ma)
  }

  function Mirrored(bars: seq<RawBar>): (r: seq<RawBar>)
    ensures |r| == |bars| && forall i {:trigger r[i]} :: 0 <= i < |bars| ==> r[i] == MirrorBar(bars[i])
  {
    seq(|bars|, i requires 0 <= i < |bars| => MirrorBar(bars[i]))
  }

  /** Mirroring twice gives the bars back. */
  lemma MirroredTwice(bars: seq<RawBar>)
    ensures Mirrored(Mirrored(bars)) == bars
  {
  }

  /** The mirrored bars' closes, difs and macds are the originals negated. */
  lemma MirroredColumns(bars: seq<RawBar>)
    ensures Closes(Mirrored(bars)) == Neg(Closes(bars))
    ensures Difs(Mirrored(bars)) == Neg(Difs(bars))
    ensures Macds(Mirrored(bars)) == Neg(Macds(bars))
  {
  }

  /** A stroke upside down: reversed, its high and low exchanged and negated, its bars mirrored. */
  function MirrorBi(b: Bi): Bi
  {
    Bi(b.symbol, Flip(b.direction), -b.low, -b.high, b.sdt, b.edt, -b.change, Mirrored(b.rawBars))
  }

  /** The unfinished stroke upside down; its fractal count is kept. */
  function MirrorUbi(u: Ubi): Ubi
  {
    Ubi(Flip(u.direction), -u.low, -u.high, u.fxCount, Mirrored(u.rawBars))
  }
}
