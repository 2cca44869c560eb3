/**
 * Market data shared by every part of the model: directions, fractal marks,
 * raw K-line bars, strokes (czsc BI), fractals (czsc FX), the unfinished stroke,
 * Python's failure modes, and the few list primitives (indexing from the end,
 * slices, min, max, sums) whose Python semantics the engine relies on.
 */
module Market {

  /** Direction of a stroke or a segment. */
  datatype Direction = Up | Down

  /** Fractal / turning-fractal mark: G is a top (顶), D a bottom (底). */
  datatype Mark = G | D

  /** Strength of a fractal (强 / 中 / 弱). */
  datatype Power = Strong | Medium | Weak

  /** The Python exceptions the modelled code can raise. */
  datatype PyError = IndexError | ValueError | ZeroDivisionError | TypeError | AttributeError | AssertionError

  datatype Option<T> = None | Some(value: T)

  datatype Result<T> = Ok(value: T) | Err(error: PyError)

  /** A price interval, used by every gap and inclusion test. */
  datatype Span = Span(high: real, low: real)

  /** A raw K-line bar; dif/dea/macd/ma are the cached indicator values. */
  datatype RawBar = RawBar(dt: int, open: real, close: real, high: real, low: real,
                           amount: real, dif: real, dea: real, macd: real, ma: real)

  /** A completed stroke (czsc BI). */
  datatype Bi = Bi(symbol: string, direction: Direction, high: real, low: real,
                   sdt: int, edt: int, change: real, rawBars: seq<RawBar>)
  {
    function Extent(): Span { Span(high, low) }
  }

  /** A fractal (czsc FX); `power` is the library's strength classification. */
  datatype Fx = Fx(mark: Mark, dt: int, high: real, low: real, power: Power, rawBars: seq<RawBar>)

  /** The unfinished stroke `c.ubi`; `fxCount` is `len(ubi['fxs'])`. */
  datatype Ubi = Ubi(direction: Direction, high: real, low: real, fxCount: nat, rawBars: seq<RawBar>)

  function Abs(x: real): (r: real)
    ensures r >= 0.0 && (r == x || r == -x)
  {
    if x < 0.0 then -x else x
  }

  /** Python `a / b` on floats: division by zero raises. */
  function Div(a: real, b: real): (r: Result<real>)
    ensures r.Err? <==> b == 0.0
    ensures r.Ok? ==> r.value * b == a
  {
    if b == 0.0 then Err(ZeroDivisionError) else Ok(a / b)
  }

  /** Python `s[-1]`. */
  function Last<T>(s: seq<T>): (r: Result<T>)
    ensures r.Err? <==> |s| == 0
    ensures r.Ok? ==> r.value == s[|s| - 1]
  {
    if |s| == 0 then Err(IndexError) else Ok(s[|s| - 1])
  }

  /** Python `s[i]` for a possibly negative index `i`. */
  function At<T>(s: seq<T>, i: int): (r: Result<T>)
    ensures r.Err? <==> !(-|s| <= i < |s|)
    ensures 0 <= i < |s| ==> r == Ok(s[i])
    ensures -|s| <= i < 0 ==> r == Ok(s[|s| + i])
  {
    if 0 <= i < |s| then Ok(s[i])
    else if -|s| <= i < 0 then Ok(s[|s| + i])
    else Err(IndexError)
  }

  /** Where a Python slice bound `k` lands in a list of length `n`. */
  function SliceBound(n: nat, k: int): (b: nat)
    ensures b <= n
    ensures 0 <= k <= n ==> b == k
    ensures -(n as int) <= k < 0 ==> b as int == n as int + k
    ensures k > n as int ==> b == n
    ensures k < -(n as int) ==> b == 0
  {
    if k >= 0 then (if k <= n then k else n)
    else if n + k >= 0 then n + k else 0
  }

  /** Python `s[k:]`. */
  function From<T>(s: seq<T>, k: int): (r: seq<T>)
    ensures r == s[SliceBound(|s|, k)..]
  {
    s[SliceBound(|s|, k)..]
  }

  /** Python `s[:k]`. */
  function UpTo<T>(s: seq<T>, k: int): (r: seq<T>)
    ensures r == s[..SliceBound(|s|, k)]
  {
    s[..SliceBound(|s|, k)]
  }

  /** Python `min(s)` on a non-empty list. */
  function Min(s: seq<real>): (m: real)
    requires |s| > 0
    ensures m in s
    ensures forall x :: x in s ==> m <= x
  {
    if |s| == 1 then s[0]
    else
      var t := Min(s[1..]);
      assert forall x :: x in s ==> x == s[0] || x in s[1..];
      if s[0] <= t then s[0] else t
  }

  /** Python `max(s)` on a non-empty list. */
  function Max(s: seq<real>): (m: real)
    requires |s| > 0
    ensures m in s
    ensures forall x :: x in s ==> x <= m
  {
    if |s| == 1 then s[0]
    else
      var t := Max(s[1..]);
      assert forall x :: x in s ==> x == s[0] || x in s[1..];
      if s[0] >= t then s[0] else t
  }

  /** Python `min(s)`, raising ValueError on an empty list. */
  function MinOf(s: seq<real>): (r: Result<real>)
    ensures r.Err? <==> |s| == 0
    ensures r == Err(ValueError) || (r.Ok? && r.value in s && forall x :: x in s ==> r.value <= x)
  {
    if |s| == 0 then Err(ValueError) else Ok(Min(s))
  }

  /** Python `max(s)`, raising ValueError on an empty list. */
  function MaxOf(s: seq<real>): (r: Result<real>)
    ensures r.Err? <==> |s| == 0
    ensures r == Err(ValueError) || (r.Ok? && r.value in s && forall x :: x in s ==> x <= r.value)
  {
    if |s| == 0 then Err(ValueError) else Ok(Max(s))
  }

  /** `sum(x for x in s if x < 0)`: the total of the negative entries. */
  function SumNegative(s: seq<real>): (r: real)
    ensures r <= 0.0
    ensures r == 0.0 <==> forall i :: 0 <= i < |s| ==> s[i] >= 0.0
  {
    if |s| == 0 then 0.0
    else
      var t := SumNegative(s[..|s| - 1]);
      assert forall i :: 0 <= i < |s| - 1 ==> s[..|s| - 1][i] == s[i];
      if s[|s| - 1] < 0.0 then t + s[|s| - 1] else t
  }

  /** `sum(x for x in s if x > 0)`: the total of the positive entries. */
  function SumPositive(s: seq<real>): (r: real)
    ensures r >= 0.0
    ensures r == 0.0 <==> forall i :: 0 <= i < |s| ==> s[i] <= 0.0
  {
    if |s| == 0 then 0.0
    else
      var t := SumPositive(s[..|s| - 1]);
      assert forall i :: 0 <= i < |s| - 1 ==> s[..|s| - 1][i] == s[i];
      if s[|s| - 1] > 0.0 then t + s[|s| - 1] else t
  }

  function Highs(bis: seq<Bi>): (r: seq<real>)
    ensures |r| == |bis| && forall i {:trigger r[i]} :: 0 <= i < |bis| ==> r[i] == bis[i].high
  {
    seq(|bis|, i requires 0 <= i < |bis| => bis[i].high)
  }

  function Lows(bis: seq<Bi>): (r: seq<real>)
    ensures |r| == |bis| && forall i {:trigger r[i]} :: 0 <= i < |bis| ==> r[i] == bis[i].low
  {
    seq(|bis|, i requires 0 <= i < |bis| => bis[i].low)
  }

  function Difs(bars: seq<RawBar>): (r: seq<real>)
    ensures |r| == |bars| && forall i {:trigger r[i]} :: 0 <= i < |bars| ==> r[i] == bars[i].dif
  {
    seq(|bars|, i requires 0 <= i < |bars| => bars[i].dif)
  }

  function Macds(bars: seq<RawBar>): (r: seq<real>)
    ensures |r| == |bars| && forall i {:trigger r[i]} :: 0 <= i < |bars| ==> r[i] == bars[i].macd
  {
    seq(|bars|, i requires 0 <= i < |bars| => bars[i].macd)
  }

  function AbsDeas(bars: seq<RawBar>): (r: seq<real>)
    ensures |r| == |bars| && forall i {:trigger r[i]} :: 0 <= i < |bars| ==> r[i] == Abs(bars[i].dea)
  {
    seq(|bars|, i requires 0 <= i < |bars| => Abs(bars[i].dea))
  }

  function AbsMacds(bars: seq<RawBar>): (r: seq<real>)
    ensures |r| == |bars| && forall i {:trigger r[i]} :: 0 <= i < |bars| ==> r[i] == Abs(bars[i].macd)
  {
    seq(|bars|, i requires 0 <= i < |bars| => Abs(bars[i].macd))
  }

  function Closes(bars: seq<RawBar>): (r: seq<real>)
    ensures |r| == |bars| && forall i {:trigger r[i]} :: 0 <= i < |bars| ==> r[i] == bars[i].close
  {
    seq(|bars|, i requires 0 <= i < |bars| => bars[i].close)
  }

  /** `chain.from_iterable(bi.raw_bars for bi in bis)`: the strokes' raw bars in order. */
  function RawBarsOf(bis: seq<Bi>): (r: seq<RawBar>)
    ensures |bis| == 0 ==> r == []
  {
    if |bis| == 0 then [] else RawBarsOf(bis[..|bis| - 1]) + bis[|bis| - 1].rawBars
  }

  /** Chaining distributes over concatenation of stroke lists. */
  lemma {:induction false} RawBarsOfAppend(a: seq<Bi>, b: seq<Bi>)
    ensures RawBarsOf(a + b) == RawBarsOf(a) + RawBarsOf(b)
    decreases |b|
  {
    if |b| == 0 {
      assert a + b == a;
    } else {
      assert (a + b)[..|a + b| - 1] == a + b[..|b| - 1];
      RawBarsOfAppend(a, b[..|b| - 1]);
    }
  }

  /** Every strokes' bars have low <= high. */
  predicate WellFormedBis(bis: seq<Bi>)
  {
    forall i :: 0 <= i < |bis| ==> bis[i].low <= bis[i].high
  }
}
