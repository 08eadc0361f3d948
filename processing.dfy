/** Assembling the record of one ticker from its fundamentals and its recent price history
    (funds.py, `get_ticker_info`, `get_stock_history` and `processar_ticker`). */
module Processing {
  import opened Values
  import opened Classifier

  /** The fundamentals dictionary of a ticker, restricted to its numeric entries. */
  type Info = map<string, real>

  /** A price-history frame: its number of rows and its columns by name. */
  datatype Frame = Frame(rows: nat, columns: map<string, seq<real>>)

  /** Every column of a frame holds one value per row. */
  predicate Aligned(f: Frame) {
    forall c :: c in f.columns ==> |f.columns[c]| == f.rows
  }

  /** The frames the history provider returns. */
  type PriceFrame = f: Frame | Aligned(f) witness Frame(0, map[])

  /** `DataFrame.empty`: true when either axis has length zero. */
  predicate IsEmpty(f: Frame) {
    f.rows == 0 || |f.columns| == 0
  }

  /** `get_ticker_info` without its cache: a fetch that raises degrades to the empty dictionary. */
  function InfoOrEmpty(fetched: Result<Info>): (info: Info)
    ensures fetched.Err? ==> info == map[]
    ensures fetched.Ok? ==> info == fetched.value
  {
    match fetched
    case Ok(i) => i
    case Err(_) => map[]
  }

  /** `get_stock_history` without its cache: a fetch that raises degrades to an empty frame. */
  function HistoryOrEmpty(fetched: Result<PriceFrame>): (h: PriceFrame)
    ensures fetched.Err? ==> IsEmpty(h)
    ensures fetched.Ok? ==> h == fetched.value
  {
    match fetched
    case Ok(f) => f
    case Err(_) => Frame(0, map[])
  }

  /** `dict.get`: the value stored under a key, or `None`. */
  function Lookup(info: Info, key: string): (v: Option<real>)
    ensures v.Some? <==> key in info
    ensures v.Some? ==> v.value == info[key]
  {
    if key in info then Some(info[key]) else None
  }

  /** `hist['Close'].iloc[-1] if not hist.empty else None`. On a non-empty frame without a
      "Close" column the lookup raises `KeyError('Close')`, whose message is `'Close'`. */
  function LastClose(h: PriceFrame): (r: Result<Option<real>>)
    ensures r == Ok(None) <==> IsEmpty(h)
    ensures r.Err? <==> !IsEmpty(h) && "Close" !in h.columns
    ensures r.Err? ==> r.message == "'Close'"
    ensures r.Ok? && r.value.Some? ==>
      && "Close" in h.columns && |h.columns["Close"]| > 0
      && r.value.value == h.columns["Close"][|h.columns["Close"]| - 1]
  {
    if IsEmpty(h) then Ok(None)
    else if "Close" in h.columns then Ok(Some(h.columns["Close"][h.rows - 1]))
    else Err("'Close'")
  }

  /** One row of the screener's table. The two labels are `None` only in the collector's
      fallback record, which has no "Graham" and "Magic" cells. */
  datatype TickerRecord = TickerRecord(
    ticker: string,
    price: Option<real>,
    pl: Option<real>,
    pvp: Option<real>,
    roe: Option<real>,
    graham: Option<Label>,
    magic: Option<Label>,
    error: Option<string>)

  /** `processar_ticker`, given what the two fetches produced. */
  function ProcessTicker(ticker: string, info: Result<Info>, hist: Result<PriceFrame>): (rec: TickerRecord)
    ensures rec.ticker == ticker
    ensures rec.error.Some? <==> hist.Ok? && !IsEmpty(hist.value) && "Close" !in hist.value.columns
    ensures rec.error.None? ==>
      && rec.price == LastClose(HistoryOrEmpty(hist)).value
      && rec.pl == Lookup(InfoOrEmpty(info), "trailingPE")
      && rec.pvp == Lookup(InfoOrEmpty(info), "priceToBook")
      && rec.roe == Lookup(InfoOrEmpty(info), "returnOnEquity")
      && rec.graham == Some(GrahamLabel(rec.pl, rec.pvp))
      && rec.magic == Some(MagicLabel(rec.pl, rec.roe))
    ensures rec.error.Some? ==>
      && rec.price == None && rec.pl == None && rec.pvp == None && rec.roe == None
      && rec.graham == Some(Indefinido) && rec.magic == Some(Indefinido)
  {
    var i := InfoOrEmpty(info);
    var h := HistoryOrEmpty(hist);
    match LastClose(h)
    case Err(e) =>
      TickerRecord(ticker, None, None, None, None, Some(Indefinido), Some(Indefinido), Some(e))
    case Ok(lastClose) =>
      var pl := Lookup(i, "trailingPE");
      var pvp := Lookup(i, "priceToBook");
      var roe := Lookup(i, "returnOnEquity");
      TickerRecord(ticker, lastClose, pl, pvp, roe,
                   Some(GrahamLabel(pl, pvp)), Some(MagicLabel(pl, roe)), None)
  }

  /** A ticker whose two fetches both fail still yields a record without an error: no price,
      no ratios, both labels "Indefinido". */
  lemma FailedFetchesDegrade(ticker: string, e1: string, e2: string)
    ensures ProcessTicker(ticker, Err(e1), Err(e2))
         == TickerRecord(ticker, None, None, None, None, Some(Indefinido), Some(Indefinido), None)
  {
  }

  /** Without fundamentals both labels are "Indefinido", whatever the history holds. */
  lemma MissingInfoIsUndefined(ticker: string, e: string, hist: Result<PriceFrame>)
    ensures ProcessTicker(ticker, Err(e), hist).graham == Some(Indefinido)
    ensures ProcessTicker(ticker, Err(e), hist).magic == Some(Indefinido)
  {
  }
}
