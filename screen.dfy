/** The small list and string rules of the screener's page (funds.py, `main` and
    `destacar_linhas`): quick-search ticker normalisation, the label filters, the "cheap"
    counts and the row highlight. */
module Screen {
  import opened Values
  import opened Classifier
  import opened Processing

  // ---------------------------------------------------------------- quick search

  /** The index chosen in the sidebar. */
  datatype MarketIndex = Ibovespa | SP500

  /** The suffix of tickers listed on B3, the Brazilian exchange. */
  const SaSuffix: string := ".SA"

  predicate EndsWith(s: string, suffix: string) {
    |suffix| <= |s| && s[|s| - |suffix|..] == suffix
  }

  lemma EndsWithSaHasDot(t: string)
    requires EndsWith(t, SaSuffix)
    ensures '.' in t
  {
    assert t[|t| - 3] == SaSuffix[0];
  }

  /** The quick-search rule: a ticker without a dot gets the ".SA" suffix when the index is
      IBOVESPA; anything else is left as typed. */
  function NormalizeTicker(t: string, index: MarketIndex): (r: string)
    ensures r == (if '.' !in t && index == Ibovespa then t + SaSuffix else t)
  {
    if EndsWith(t, SaSuffix) then EndsWithSaHasDot(t); t
    else if '.' in t then t
    else if index == Ibovespa then t + SaSuffix
    else t
  }

  /** Normalising an already normalised ticker changes nothing. */
  lemma NormalizeIsIdempotent(t: string, index: MarketIndex)
    ensures NormalizeTicker(NormalizeTicker(t, index), index) == NormalizeTicker(t, index)
  {
    if '.' !in t && index == Ibovespa {
      assert (t + SaSuffix)[|t|] == '.';
    }
  }

  /** The ticker whose details a quick search opens: only a non-empty input, and only once the
      search button is pressed. */
  function QuickSearch(input: string, index: MarketIndex, pressed: bool): (target: Option<string>)
    ensures target.Some? <==> input != "" && pressed
    ensures target.Some? ==> target.value == NormalizeTicker(input, index)
    ensures target.Some? ==> |target.value| >= |input| && target.value[..|input|] == input
    ensures target.Some? && index == SP500 ==> target.value == input
  {
    if input != "" && pressed then Some(NormalizeTicker(input, index)) else None
  }

  // ---------------------------------------------------------------- filters and counts

  /** The two label columns of the table. */
  datatype Column = GrahamColumn | MagicColumn

  /** A filter selectbox: "Todos" (keep every row) or one label. */
  datatype LabelFilter = Todos | Only(wanted: Label)

  /** The label a row holds in a column; `None` is a missing cell (NaN). */
  function Cell(r: TickerRecord, c: Column): Option<Label> {
    match c
    case GrahamColumn => r.graham
    case MagicColumn => r.magic
  }

  predicate Passes(r: TickerRecord, c: Column, f: LabelFilter) {
    f.Todos? || Cell(r, c) == Some(f.wanted)
  }

  /** `df[df[col] == label]`: the rows whose cell holds the label, in their order. A missing
      cell never equals a label. */
  function Select(rows: seq<TickerRecord>, c: Column, l: Label): (kept: seq<TickerRecord>)
    ensures |kept| <= |rows|
    decreases |rows|
  {
    if rows == [] then []
    else
      var rest := Select(rows[1..], c, l);
      if Cell(rows[0], c) == Some(l) then [rows[0]] + rest else rest
  }

  /** `Select` keeps exactly the rows whose cell holds the label; a missing cell never does. */
  lemma {:induction false} SelectMembers(rows: seq<TickerRecord>, c: Column, l: Label)
    ensures forall r :: r in Select(rows, c, l) <==> r in rows && Cell(r, c) == Some(l)
    decreases |rows|
  {
    if rows != [] {
      SelectMembers(rows[1..], c, l);
      assert rows == [rows[0]] + rows[1..];
    }
  }

  /** One step of `Select`: the first row is kept exactly when its cell holds the label. */
  lemma SelectCons(x: TickerRecord, rest: seq<TickerRecord>, c: Column, l: Label)
    ensures Select([x] + rest, c, l) == (if Cell(x, c) == Some(l) then [x] else []) + Select(rest, c, l)
  {
    assert ([x] + rest)[1..] == rest;
  }

  /** Selecting from two lists one after the other selects from each in turn. */
  lemma {:induction false} SelectAppend(a: seq<TickerRecord>, b: seq<TickerRecord>, c: Column, l: Label)
    ensures Select(a + b, c, l) == Select(a, c, l) + Select(b, c, l)
    decreases |a|
  {
    if a == [] {
      assert a + b == b;
    } else {
      var x := a[0];
      assert a == [x] + a[1..];
      assert a + b == [x] + (a[1..] + b);
      SelectCons(x, a[1..] + b, c, l);
      SelectCons(x, a[1..], c, l);
      SelectAppend(a[1..], b, c, l);
    }
  }

  /** One filter selectbox applied: "Todos" leaves the rows alone. */
  function ApplyFilter(rows: seq<TickerRecord>, c: Column, f: LabelFilter): (kept: seq<TickerRecord>)
    ensures f.Todos? ==> kept == rows
    ensures forall r :: r in kept <==> r in rows && Passes(r, c, f)
  {
    if f.Todos? then rows
    else SelectMembers(rows, c, f.wanted); Select(rows, c, f.wanted)
  }

  /** Both filters, Graham first and then the magic formula, as the page applies them. */
  function ApplyFilters(rows: seq<TickerRecord>, graham: LabelFilter, magic: LabelFilter): (kept: seq<TickerRecord>)
    ensures |kept| <= |rows|
    ensures forall r :: r in kept <==> r in rows && Passes(r, GrahamColumn, graham) && Passes(r, MagicColumn, magic)
  {
    ApplyFilter(ApplyFilter(rows, GrahamColumn, graham), MagicColumn, magic)
  }

  /** The order in which the two filters are applied does not matter. */
  lemma {:induction false} FiltersCommute(rows: seq<TickerRecord>, graham: LabelFilter, magic: LabelFilter)
    ensures ApplyFilters(rows, graham, magic)
         == ApplyFilter(ApplyFilter(rows, MagicColumn, magic), GrahamColumn, graham)
    decreases |rows|
  {
    if graham.Only? && magic.Only? && rows != [] {
      FiltersCommute(rows[1..], graham, magic);
      var rest := rows[1..];
      var x := rows[0];
      assert rows == [x] + rest;
      SelectAppend([x], rest, GrahamColumn, graham.wanted);
      SelectAppend([x], rest, MagicColumn, magic.wanted);
      SelectAppend(Select([x], GrahamColumn, graham.wanted), Select(rest, GrahamColumn, graham.wanted), MagicColumn, magic.wanted);
      SelectAppend(Select([x], MagicColumn, magic.wanted), Select(rest, MagicColumn, magic.wanted), GrahamColumn, graham.wanted);
    }
  }

  /** `len(df[df[col] == "Barata"])`: how many rows are cheap in a column. */
  function CheapCount(rows: seq<TickerRecord>, c: Column): (n: nat)
    ensures n <= |rows|
  {
    |Select(rows, c, Barata)|
  }

  /** The count adds up over concatenation, and a single row counts once exactly when cheap. */
  lemma CheapCountAppend(a: seq<TickerRecord>, b: seq<TickerRecord>, c: Column)
    ensures CheapCount(a + b, c) == CheapCount(a, c) + CheapCount(b, c)
    ensures forall r :: CheapCount([r], c) == (if Cell(r, c) == Some(Barata) then 1 else 0)
  {
    SelectAppend(a, b, c, Barata);
  }

  /** Removing the row at `j` lowers the count by one exactly when that row is cheap. */
  lemma CheapCountRemove(b: seq<TickerRecord>, j: nat, c: Column)
    requires j < |b|
    ensures CheapCount(b, c)
         == CheapCount(b[..j] + b[j + 1..], c) + (if Cell(b[j], c) == Some(Barata) then 1 else 0)
  {
    assert b == b[..j] + ([b[j]] + b[j + 1..]);
    CheapCountAppend(b[..j], [b[j]] + b[j + 1..], c);
    CheapCountAppend([b[j]], b[j + 1..], c);
    CheapCountAppend(b[..j], b[j + 1..], c);
  }

  /** Taking one occurrence of `x` out of two equal multisets leaves equal multisets. */
  lemma RemoveFromBoth(a: seq<TickerRecord>, b: seq<TickerRecord>, j: nat)
    requires a != [] && j < |b| && b[j] == a[0]
    requires multiset(a) == multiset(b)
    ensures multiset(a[1..]) == multiset(b[..j] + b[j + 1..])
  {
    var x := a[0];
    assert a == [x] + a[1..];
    assert multiset(a[1..]) == multiset(a) - multiset{x};
    assert b == (b[..j] + [x]) + b[j + 1..];
    assert multiset(b) == multiset(b[..j]) + multiset{x} + multiset(b[j + 1..]);
    assert multiset(b[..j] + b[j + 1..]) == multiset(b) - multiset{x};
  }

  /** The counts do not depend on the order of the rows, so not on the order in which the
      collector's futures completed. */
  lemma {:induction false} CheapCountIgnoresOrder(a: seq<TickerRecord>, b: seq<TickerRecord>, c: Column)
    requires multiset(a) == multiset(b)
    ensures CheapCount(a, c) == CheapCount(b, c)
    decreases |a|
  {
    if a == [] {
      assert |b| == |multiset(b)| == 0;
    } else {
      assert a[0] in multiset(b);
      var j :| 0 <= j < |b| && b[j] == a[0];
      RemoveFromBoth(a, b, j);
      CheapCountIgnoresOrder(a[1..], b[..j] + b[j + 1..], c);
      CheapCountRemove(a, 0, c);
      CheapCountRemove(b, j, c);
    }
  }

  // ---------------------------------------------------------------- highlight

  /** The style of a row that both rules call cheap. */
  const HighlightStyle: string := "background-color: #d4edda; color: black"

  predicate BothCheap(r: TickerRecord) {
    r.graham == Some(Barata) && r.magic == Some(Barata)
  }

  /** `destacar_linhas`: one style per cell of the row, all highlighted when both labels are
      "Barata", all plain otherwise. */
  function RowStyles(r: TickerRecord, width: nat): (styles: seq<string>)
    ensures |styles| == width
    ensures forall k :: 0 <= k < width ==> styles[k] == styles[0]
    ensures width > 0 ==> (styles[0] == HighlightStyle <==> BothCheap(r))
    ensures width > 0 ==> (styles[0] == "" <==> !BothCheap(r))
  {
    if BothCheap(r) then seq(width, _ => HighlightStyle) else seq(width, _ => "")
  }

  /** The highlighted rows are exactly those that survive both filters set to "Barata". */
  lemma HighlightMatchesCheapFilters(rows: seq<TickerRecord>, width: nat)
    requires width > 0
    ensures forall r :: r in rows ==>
      (RowStyles(r, width)[0] == HighlightStyle <==> r in ApplyFilters(rows, Only(Barata), Only(Barata)))
  {
  }
}
