/**
 * What the engine takes from the czsc library, as opaque inputs.
 * The library's stroke pivot (ZS) keeps its own stroke list; its bounds are
 * read the same way the repository's segment pivot defines them, over strokes
 * instead of segments. Pivot detection, pivot validity, the gap scan, the
 * moving-average slope test and the comparison of a stroke object with a
 * direction are library code and stay functions supplied by the caller.
 */
module Chan {
  import opened Market
  import opened Objects

  /** A non-empty stroke list: every czsc pivot is built around at least one stroke. */
  type Strokes = s: seq<Bi> | |s| > 0 witness [Bi("", Up, 0.0, 0.0, 0, 0, 0.0, [])]

  /** A czsc stroke pivot (ZS). */
  datatype Zs = Zs(bis: Strokes)
  {
    /** The lowest high of the first three strokes. */
    function Zg(): (zg: real)
      ensures forall i :: 0 <= i < |bis| && i < 3 ==> zg <= bis[i].high
      ensures exists i :: 0 <= i < |bis| && i < 3 && zg == bis[i].high
    {
      var f := bis[..if |bis| < 3 then |bis| else 3];
      assert forall i :: 0 <= i < |f| ==> f[i] == bis[i];
      MinHigh(f)
    }

    /** The highest low of the first three strokes. */
    function Zd(): (zd: real)
      ensures forall i :: 0 <= i < |bis| && i < 3 ==> bis[i].low <= zd
      ensures exists i :: 0 <= i < |bis| && i < 3 && zd == bis[i].low
    {
      var f := bis[..if |bis| < 3 then |bis| else 3];
      assert forall i :: 0 <= i < |f| ==> f[i] == bis[i];
      MaxLow(f)
    }

    function Gg(): real { MaxHigh(bis) }

    function Dd(): real { MinLow(bis) }

    function Sdir(): Direction { bis[0].direction }

    function Edir(): Direction { bis[|bis| - 1].direction }
  }

  /** One entry of `check_gap_info`: a dictionary that may lack either key. */
  datatype GapInfo = GapInfo(kind: Option<string>, cover: Option<string>)

  /** The library calls the engine makes. */
  datatype Library = Library(
    getZsSeq: seq<Bi> -> seq<Zs>,          // czsc.utils.sig.get_zs_seq
    zsValid: seq<Bi> -> bool,              // ZS(bis).is_valid
    checkGapInfo: seq<RawBar> -> seq<GapInfo>,
    maIsUp: bool,                          // ma_is_up(c, last_n=3, ma_type="SMA", timeperiod=60)
    biEqualsDown: Bi -> bool               // `bi == Direction.Down` for a czsc stroke object
  )
}
