/**
 * The buy-point store the signal classifiers write to and read from
 * (`history.buy_point_exists`, `history.insert_buy_point`,
 * `history.check_duplicate`, `history.query_latest_buy_point`), and the closed
 * set of values the classifiers emit.
 *
 * The store is an object holding a sequence of records; inserting appends one.
 * The three queries are functions of the record sequence.
 */
module History {
  import opened Market

  /** Every value a classifier writes into `v1`/`v2` of its signal. */
  datatype Label =
    | Other | AnyValue | BadBars | NoBottomFx | AlreadyExists | FewPivots | NoPivot
    | FirstBuy | SecondBuy | ThirdBuy | TooFewPivots | PivotStrokesShort | Zs1Invalid
    | MaFailed | StrongPzbc | Bear | Bull | NotDowntrend | Bottom | Top | RedBar | GreenBar

  /** The text the source uses for each label. */
  function LabelText(l: Label): string
  {
    match l
    case Other => "其他"
    case AnyValue => "任意"
    case BadBars => "K线不合标准"
    case NoBottomFx => "没有底分型"
    case AlreadyExists => "已存在"
    case FewPivots => "中枢<3"
    case NoPivot => "无中枢"
    case FirstBuy => "一买"
    case SecondBuy => "二买"
    case ThirdBuy => "三买"
    case TooFewPivots => "中枢不够"
    case PivotStrokesShort => "中枢笔不足"
    case Zs1Invalid => "zs1不成立"
    case MaFailed => "均线不达标"
    case StrongPzbc => "强势盘整背驰"
    case Bear => "空头"
    case Bull => "多头"
    case NotDowntrend => "不是下行趋势"
    case Bottom => "底部"
    case Top => "顶部"
    case RedBar => "红柱"
    case GreenBar => "绿柱"
  }

  /** `FX.power_str`. */
  function PowerText(p: Power): string
  {
    match p
    case Strong => "强"
    case Medium => "中"
    case Weak => "弱"
  }

  /** Which database a call addresses: the store's default one, or a named one ("BI", "XD", "MA250"). */
  datatype Db = DefaultDb | NamedDb(name: string)

  /** One stored buy point. */
  datatype BuyPoint = BuyPoint(name: string, symbol: string, tsCode: string, freq: string,
                               signal: Label, power: Power, profit: real, industry: string,
                               date: int, reason: Option<string>, db: Db)

  /** The key `buy_point_exists` looks up: symbol, fractal date, frequency and database. */
  predicate SameKey(p: BuyPoint, symbol: string, date: int, freq: string, db: Db)
  {
    p.symbol == symbol && p.date == date && p.freq == freq && p.db == db
  }

  /** `buy_point_exists(symbol, date, freq, db)`. */
  function PointExists(points: seq<BuyPoint>, symbol: string, date: int, freq: string, db: Db): (r: bool)
    ensures r <==> exists k :: 0 <= k < |points| && SameKey(points[k], symbol, date, freq, db)
  {
    if |points| == 0 then false
    else SameKey(points[|points| - 1], symbol, date, freq, db)
         || PointExists(points[..|points| - 1], symbol, date, freq, db)
  }

  /** A record of `signal` for `symbol` in database `db`. */
  predicate SignalOf(p: BuyPoint, symbol: string, signal: Label, db: Db)
  {
    p.symbol == symbol && p.signal == signal && p.db == db
  }

  /**
   * `check_duplicate(symbol, edt, days, signals, db)`: some record of that
   * signal is dated within the `days` days up to and including `edt`.
   */
  function HasRecent(points: seq<BuyPoint>, symbol: string, edt: int, days: int, signal: Label, db: Db): (r: bool)
    ensures r <==> exists k :: 0 <= k < |points| && SignalOf(points[k], symbol, signal, db)
                                && edt - days <= points[k].date <= edt
  {
    if |points| == 0 then false
    else
      var p := points[|points| - 1];
      (SignalOf(p, symbol, signal, db) && edt - days <= p.date <= edt)
      || HasRecent(points[..|points| - 1], symbol, edt, days, signal, db)
  }

  /** `query_latest_buy_point(symbol, signals, db).date`: the latest date among the records of that signal. */
  function LatestDate(points: seq<BuyPoint>, symbol: string, signal: Label, db: Db): (r: Option<int>)
    ensures r.None? <==> forall k :: 0 <= k < |points| ==> !SignalOf(points[k], symbol, signal, db)
    ensures r.Some? ==> (exists k :: 0 <= k < |points| && SignalOf(points[k], symbol, signal, db) && points[k].date == r.value)
                        && forall k :: 0 <= k < |points| && SignalOf(points[k], symbol, signal, db) ==> points[k].date <= r.value
  {
    if |points| == 0 then None
    else
      var p := points[|points| - 1];
      var rest := LatestDate(points[..|points| - 1], symbol, signal, db);
      assert forall k :: 0 <= k < |points| - 1 ==> points[..|points| - 1][k] == points[k];
      if !SignalOf(p, symbol, signal, db) then rest
      else if rest.Some? && rest.value >= p.date then rest
      else Some(p.date)
  }

  /** A recent record guarantees a latest one, and the latest is no earlier than the window's start. */
  lemma RecentHasLatest(points: seq<BuyPoint>, symbol: string, edt: int, days: int, signal: Label, db: Db)
    requires HasRecent(points, symbol, edt, days, signal, db)
    ensures LatestDate(points, symbol, signal, db).Some?
    ensures LatestDate(points, symbol, signal, db).value >= edt - days
  {
    var k :| 0 <= k < |points| && SignalOf(points[k], symbol, signal, db) && edt - days <= points[k].date <= edt;
  }

  /** A record just inserted is found by `buy_point_exists` under its own key. */
  lemma InsertedIsFound(points: seq<BuyPoint>, p: BuyPoint)
    ensures PointExists(points + [p], p.symbol, p.date, p.freq, p.db)
  {
    assert SameKey((points + [p])[|points|], p.symbol, p.date, p.freq, p.db);
  }

  /**
   * A record just inserted counts for `check_duplicate` when it is dated inside
   * the window, and the latest date is then no earlier than its own.
   */
  lemma InsertedIsRecent(points: seq<BuyPoint>, p: BuyPoint, edt: int, days: int)
    requires edt - days <= p.date <= edt
    ensures HasRecent(points + [p], p.symbol, edt, days, p.signal, p.db)
    ensures LatestDate(points + [p], p.symbol, p.signal, p.db).Some?
    ensures LatestDate(points + [p], p.symbol, p.signal, p.db).value >= p.date
  {
    var q := points + [p];
    assert q[|points|] == p;
    assert SignalOf(q[|points|], p.symbol, p.signal, p.db);
  }

  /** The store: the records written so far. */
  class Store {
    var points: seq<BuyPoint>

    constructor ()
      ensures points == []
    {
      points := [];
    }

    /** `insert_buy_point`: the new record is added after the existing ones. */
    method Insert(p: BuyPoint)
      modifies this
      ensures points == old(points) + [p]
    {
      points := points + [p];
    }
  }
}
