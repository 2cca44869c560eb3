/**
 * The MACD consolidation-divergence helper `pzbc_macd_bc_V231221`: over the
 * last `n + m` bars, the recent `n` bars make a new closing low (high) against
 * the older `m` bars while the macd bars do not, with the macd turning at the
 * last bar: '底部' ('顶部'); `v2` says whether the last macd bar is red or green.
 */
module HjwCxt {
  import opened Market
  import opened History
  import opened Reflection
  import HjwSig

  /**
   * The czsc helper `get_sub_elements(elements, di, n)`: the `n` elements
   * ending `di - 1` places before the end, as Python slices take them
   * (`elements[-n:]` for `di == 1`, `elements[-n-di+1:-di+1]` otherwise).
   */
  function SubElements<T>(s: seq<T>, di: int, n: int): (r: seq<T>)
    ensures |r| <= |s|
  {
    if di == 1 then From(s, -n)
    else
      var lo, hi := SliceBound(|s|, -n - di + 1), SliceBound(|s|, -di + 1);
      if lo <= hi then s[lo..hi] else []
  }

  /** With enough elements, the window is exactly the `n` elements ending `di - 1` places before the end. */
  lemma SubElementsWindow<T>(s: seq<T>, di: int, n: int)
    requires di >= 1 && n >= 1 && |s| >= n + di - 1
    ensures SubElements(s, di, n) == s[|s| - n - di + 1..|s| - di + 1]
  {
  }

  /** With too few elements, fewer than `n` come back. */
  lemma SubElementsShort<T>(s: seq<T>, di: int, n: int)
    requires di >= 1 && n >= 1 && |s| < n + di - 1
    ensures |SubElements(s, di, n)| < n
  {
  }

  /** '底部': the macd rises at the last bar, the recent bars close lower and their macd stays higher than the older bars'. */
  predicate BottomHolds(nb: seq<RawBar>, mb: seq<RawBar>)
    requires |nb| >= 2 && |mb| > 0
  {
    nb[|nb| - 1].macd > nb[|nb| - 2].macd
    && Min(Closes(nb)) < Min(Closes(mb)) && Min(Macds(nb)) > Min(Macds(mb))
  }

  /** '顶部': the macd falls at the last bar, the recent bars close higher and their macd stays lower than the older bars'. */
  predicate TopHolds(nb: seq<RawBar>, mb: seq<RawBar>)
    requires |nb| >= 2 && |mb| > 0
  {
    nb[|nb| - 1].macd < nb[|nb| - 2].macd
    && Max(Closes(nb)) > Max(Closes(mb)) && Max(Macds(nb)) < Max(Macds(mb))
  }

  /**
   * The `if`/`elif` over the recent bars `nb` and the older bars `mb`: each
   * branch is entered on the direction of the last macd step, and its `min`
   * or `max` of the older closes raises ValueError when there are none.
   */
  function Divergence(nb: seq<RawBar>, mb: seq<RawBar>): (r: Result<Label>)
    requires |nb| >= 2
    ensures r.Err? <==> |mb| == 0 && nb[|nb| - 1].macd != nb[|nb| - 2].macd
    ensures r.Err? ==> r.error == ValueError
    ensures r.Ok? && |mb| > 0 ==> (r.value == Bottom <==> BottomHolds(nb, mb)) && (r.value == Top <==> TopHolds(nb, mb))
    ensures r.Ok? ==> r.value == Other || r.value == Bottom || r.value == Top
    ensures r.Ok? && |mb| == 0 ==> r.value == Other
  {
    var last, prev := nb[|nb| - 1].macd, nb[|nb| - 2].macd;
    if last > prev then
      if |mb| == 0 then Err(ValueError)
      else if Min(Closes(nb)) < Min(Closes(mb)) && Min(Macds(nb)) > Min(Macds(mb)) then Ok(Bottom)
      else Ok(Other)
    else if last < prev then
      if |mb| == 0 then Err(ValueError)
      else if Max(Closes(nb)) > Max(Closes(mb)) && Max(Macds(nb)) < Max(Macds(mb)) then Ok(Top)
      else Ok(Other)
    else Ok(Other)
  }

  /** `'红柱'` for a positive last macd bar, `'绿柱'` otherwise. */
  function BarColour(b: RawBar): Label
  {
    if b.macd > 0.0 then RedBar else GreenBar
  }

  /**
   * `pzbc_macd_bc_V231221(c, di=di, n=n, m=m)` on the chart's raw bars: the
   * window of `n + m` bars; AssertionError unless `n >= 3`; '其他'/'任意'
   * without a full window; then the tests on the full window.
   */
  function PzbcMacdBc(bars: seq<RawBar>, di: int, n: int, m: int): (r: Result<HjwSig.Pair>)
  {
    var w := SubElements(bars, di, n + m);
    if n < 3 then Err(AssertionError)
    else if |w| != n + m then Ok(HjwSig.Pair(Other, AnyValue))
    else FullWindow(w, n, m)
  }

  /** The keyword defaults of `pzbc_macd_bc_V231221`: `di=1`, `n=3`, `m=50`. */
  const DefaultDi: int := 1
  const DefaultN: int := 3
  const DefaultM: int := 50

  /**
   * Under the defaults the window assertions never fail: with fewer than
   * `n + m` bars the answer is '其他'/'任意', and otherwise the tests run on
   * the last `n + m` bars.
   */
  lemma DefaultWindow(bars: seq<RawBar>)
    ensures PzbcMacdBc(bars, DefaultDi, DefaultN, DefaultM) != Err(AssertionError)
    ensures |bars| < DefaultN + DefaultM ==> PzbcMacdBc(bars, DefaultDi, DefaultN, DefaultM) == Ok(HjwSig.Pair(Other, AnyValue))
    ensures |bars| >= DefaultN + DefaultM
            ==> PzbcMacdBc(bars, DefaultDi, DefaultN, DefaultM) == FullWindow(bars[|bars| - (DefaultN + DefaultM)..], DefaultN, DefaultM)
  {
    var w := SubElements(bars, DefaultDi, DefaultN + DefaultM);
    if |bars| >= 53 {
      assert w == bars[|bars| - 53..];
      var nb, mb := From(w, -3), UpTo(w, 50);
      assert |nb| == 3 && |mb| == 50;
    }
  }

  /**
   * On a full window: its last `n` and first `m` bars, whose lengths are
   * asserted, then the divergence and colour tests.
   */
  function FullWindow(w: seq<RawBar>, n: int, m: int): (r: Result<HjwSig.Pair>)
    requires n >= 3
  {
    var nb, mb := From(w, -n), UpTo(w, m);
    if |nb| != n || |mb| != m then Err(AssertionError)
    else
      match Divergence(nb, mb)
      case Err(e) => Err(e)
      case Ok(v1) => Ok(HjwSig.Pair(v1, BarColour(nb[|nb| - 1])))
  }

  /** `n >= 3` is asserted, whatever the bars; without a full window the result is '其他' and '任意'. */
  lemma PzbcMacdBcGuards(bars: seq<RawBar>, di: int, n: int, m: int)
    ensures n < 3 ==> PzbcMacdBc(bars, di, n, m) == Err(AssertionError)
    ensures n >= 3 && |SubElements(bars, di, n + m)| != n + m ==> PzbcMacdBc(bars, di, n, m) == Ok(HjwSig.Pair(Other, AnyValue))
    ensures n >= 3 && |SubElements(bars, di, n + m)| == n + m ==> PzbcMacdBc(bars, di, n, m) == FullWindow(SubElements(bars, di, n + m), n, m)
  {
  }

  /** With a full window and `m >= 0`, the older `m` bars and the recent `n` bars split the window in two, in order. */
  lemma WindowPartition(w: seq<RawBar>, n: int, m: int)
    requires n >= 3 && m >= 0 && |w| == n + m
    ensures From(w, -n) == w[m..] && UpTo(w, m) == w[..m]
    ensures UpTo(w, m) + From(w, -n) == w
  {
  }

  /** With a negative `m`, both slices of a full window come out shorter than asked and the length assertion fails. */
  lemma NegativeOlderWindow(w: seq<RawBar>, n: int, m: int)
    requires n >= 3 && m < 0 && |w| == n + m
    ensures FullWindow(w, n, m) == Err(AssertionError)
  {
    assert |From(w, -n)| == n + m;
  }

  /**
   * With at least one older bar: '底部' exactly when the bottom test holds
   * over the last `n` against the first `m` bars of the window, '顶部' exactly
   * when the top test holds, '其他' otherwise; and '红柱' exactly when the
   * window's last macd bar is positive.
   */
  lemma FullWindowMeaning(w: seq<RawBar>, n: int, m: int)
    requires n >= 3 && m >= 1 && |w| == n + m
    ensures var r := FullWindow(w, n, m);
            r.Ok?
            && (r.value.v1 == Bottom <==> BottomHolds(w[m..], w[..m]))
            && (r.value.v1 == Top <==> TopHolds(w[m..], w[..m]))
            && (r.value.v1 == Other <==> !BottomHolds(w[m..], w[..m]) && !TopHolds(w[m..], w[..m]))
            && (r.value.v2 == RedBar <==> w[|w| - 1].macd > 0.0)
  {
    WindowPartition(w, n, m);
    var nb, mb := w[m..], w[..m];
    assert nb[|nb| - 1] == w[|w| - 1];
    BottomTopExclusive(nb, mb);
  }

  /** The bottom and the top test never both hold: they need the last macd step to go opposite ways. */
  lemma BottomTopExclusive(nb: seq<RawBar>, mb: seq<RawBar>)
    requires |nb| >= 2 && |mb| > 0
    ensures !(BottomHolds(nb, mb) && TopHolds(nb, mb))
  {
  }

  /** With no older bars, the call raises ValueError exactly when the last macd step is not flat. */
  lemma NoOlderBars(w: seq<RawBar>, n: int)
    requires n >= 3 && |w| == n
    ensures var r := FullWindow(w, n, 0);
            (r.Err? <==> w[n - 1].macd != w[n - 2].macd) && (r.Err? ==> r == Err(ValueError))
            && (r.Ok? ==> r.value.v1 == Other)
  {
    assert From(w, -n) == w;
    assert UpTo(w, 0) == [];
  }

  /** Turned upside down, the bottom test on two windows is the top test. */
  lemma BottomMirrorsTop(nb: seq<RawBar>, mb: seq<RawBar>)
    requires |nb| >= 2 && |mb| > 0
    ensures BottomHolds(nb, mb) <==> TopHolds(Mirrored(nb), Mirrored(mb))
  {
    MirroredColumns(nb);
    MirroredColumns(mb);
    MaxOfNeg(Closes(nb));
    MaxOfNeg(Closes(mb));
    MaxOfNeg(Macds(nb));
    MaxOfNeg(Macds(mb));
  }

  /** Turned upside down, the top test on two windows is the bottom test. */
  lemma TopMirrorsBottom(nb: seq<RawBar>, mb: seq<RawBar>)
    requires |nb| >= 2 && |mb| > 0
    ensures TopHolds(nb, mb) <==> BottomHolds(Mirrored(nb), Mirrored(mb))
  {
    MirroredColumns(nb);
    MirroredColumns(mb);
    MinOfNeg(Closes(nb));
    MinOfNeg(Closes(mb));
    MinOfNeg(Macds(nb));
    MinOfNeg(Macds(mb));
  }
}
