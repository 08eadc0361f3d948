# Graham & Greenblatt stock screener — a verified model of its core

The screener (`funds.py`) downloads the fundamentals and recent prices of every ticker of an
index (IBOVESPA or S&P 500), labels each ticker with two value-investing rules, and shows a
filterable table. Rows that both rules call cheap are highlighted. The page also shows counts
of cheap tickers and, for one chosen ticker, RSI and MACD charts.

This project models the computational core of that program in Dafny and proves what it
promises:

- **Classifier** (`classifier.dfy`): the two rules.
  - Graham: cheap when P/L × P/VP is below 22.5.
  - Greenblatt's "magic formula": cheap when P/L is below 15 and ROE is above 0.15.
  - Python's truthiness test is modelled exactly: a missing ratio and a ratio of zero both
    give "Indefinido".
- **Processing** (`processing.dfy`): how `processar_ticker` assembles one record.
  - The inputs are what the fundamentals fetch and the five-day history fetch produced.
  - Both fetches degrade to empty results when they raise.
  - A non-empty frame without a "Close" column raises `KeyError('Close')`; this is the one
    path that yields an error record.
- **Batching** (`batching.dfy`): the index arithmetic of `coletar_dados_paralelo`.
  - The list is cut into batches of ten.
  - Progress `(i + 1) / total_lotes` is reported after batch `i`.
- **Collector** (`collector.dfy`): the collection loop itself, as imperative code.
  - Batches run one after the other.
  - Inside a batch, the futures complete in an arbitrary order: `as_completed` is modelled
    as a nondeterministic choice among the pending tickers.
- **Indicators** (`indicators.dfy`): `calcular_rsi` and `calcular_macd`.
  - These are pandas' `diff`, `where`, `rolling(window).mean()` and
    `ewm(span, adjust=False).mean()`.
  - They are written out over sequences of reals.
- **Screen** (`screen.dfy`): the list and string rules of the page.
  - Quick-search ticker normalisation.
  - The two label filters.
  - The cheap counts.
  - The row highlight of `destacar_linhas`.

`values.dfy` holds the shared `Option`/`Result` types and the truthiness predicate.

The network, the clock and the thread pool are not modelled as such:

- `Collector.Providers` gives, per ticker:
  - the result of the fundamentals fetch;
  - the result of the history fetch for a period;
  - whether the ticker's future raised.

  The model's theorems hold for every such provider.
- The order in which futures complete is left open. It is nondeterministic in the collector
  method, and the collector's contract holds for every order.

On three points the code is easy to misread; the model follows the code:

- A failed download does not produce an error record. `get_ticker_info` and
  `get_stock_history` catch the exception and return `{}` or an empty frame, so
  `processar_ticker` yields a record with missing values and "Indefinido" labels and no
  "Erro" cell (`Processing.FailedFetchesDegrade`).
- The RSI is defined from index `window - 1` on. The first difference is `NaN`, and pandas'
  `where` turns it into a zero gain and a zero loss, so the first rolling window is already
  full at index `window - 1`.
- The collector's fallback record `{"Ticker": ticker, "Erro": str(e)}` has no "Graham" and
  "Magic" cells, and the frame fills them with `NaN`. The model gives it no labels (`None`),
  and no label filter ever keeps it.

## Model

| member | source | states |
|---|---|---|
| Classifier.GrahamLabel | funds.py:44-48 | "Indefinido" exactly when P/L or P/VP is missing or zero; otherwise "Barata" exactly when P/L × P/VP < 22.5 and "Cara" exactly when it is ≥ 22.5 |
| Classifier.MagicLabel | funds.py:50-53 | "Indefinido" exactly when P/L or ROE is missing or zero; otherwise "Barata" exactly when P/L < 15 and ROE > 0.15, "Cara" exactly when P/L ≥ 15 or ROE ≤ 0.15 |
| Classifier.MissingMeansNoneOrZero | funds.py:45-51 | a ratio fails Python's truth test exactly when it is `None` or zero |
| Classifier.LabelExamples | funds.py:44-53 | concrete tickers are labelled cheap, expensive and undefined as the two rules say |
| Classifier.GrahamCheapIsDownwardClosed | funds.py:44-48 | lowering either positive ratio keeps a Graham-cheap ticker cheap |
| Classifier.GrahamNegativePlIsCheap | funds.py:45-47 | the rule does not check signs: a negative P/L with a positive P/VP is labelled cheap |
| Classifier.MagicCheapIsMonotone | funds.py:50-53 | lowering P/L (to a non-zero value) or raising ROE keeps a magic-formula-cheap ticker cheap |
| Processing.InfoOrEmpty | funds.py:24-30 | a fundamentals fetch that raises yields the empty dictionary, otherwise the fetched one |
| Processing.HistoryOrEmpty | funds.py:32-38 | a history fetch that raises yields an empty frame, otherwise the fetched one |
| Processing.Lookup | funds.py:70-72 | `dict.get`: a value exactly when the key is present, and then the stored value |
| Processing.LastClose | funds.py:68 | no price exactly when the frame is empty; `KeyError('Close')` exactly when a non-empty frame has no "Close" column; otherwise the last close |
| Processing.ProcessTicker | funds.py:64-93 | the record carries its ticker; it is an error record exactly when the history is non-empty and lacks "Close", and then all values are missing and both labels "Indefinido"; otherwise the price is the last close, the ratios are "trailingPE", "priceToBook" and "returnOnEquity", and the labels are the two rules applied to them |
| Processing.FailedFetchesDegrade | funds.py:24-38 | when both fetches raise, the record has no values, both labels "Indefinido" and no error |
| Processing.MissingInfoIsUndefined | funds.py:66-81 | without fundamentals both labels are "Indefinido" whatever the history |
| Batching.TotalBatches | funds.py:97-98 | the number of batches is the ceiling of n / 10: they cover n tickers, one fewer would not, and there are none exactly when the list is empty |
| Batching.Covered | funds.py:105 | the number of tickers in the first k batches is the minimum of 10k and n |
| Batching.Batch | funds.py:104-106 | batch i holds one to ten consecutive tickers, starting at 10i and ending where the first i + 1 batches end |
| Batching.Batches | funds.py:103-106 | the batches, one per loop iteration, in loop order |
| Batching.BatchesPrefix | funds.py:103-106 | the first k batches, concatenated, are exactly the first min(10k, n) tickers |
| Batching.BatchesPartition | funds.py:97-106 | the batches, concatenated in order, give back the whole ticker list, and each holds one to ten tickers |
| Batching.Progress | funds.py:120 | the fraction after batch i lies in (0, 1], equals 1 exactly after the last batch, and times the number of batches is i + 1 |
| Batching.ProgressIncreases | funds.py:120 | the progress fraction strictly increases from batch to batch |
| Collector.TaskRecordCases | funds.py:111-118 | `TaskRecord`, the per-future `try`/`except`: a completed future yields a record for its own ticker: the record of `processar_ticker` over the "5d" history, or, when it raised, only the ticker and the exception's message |
| Collector.Records | funds.py:111 | one task record per ticker, in list order |
| Collector.Tickers | funds.py:75 | the "Ticker" column of a list of records |
| Collector.RecordsAppend | funds.py:111 | the records of two lists are the records of each, concatenated |
| Collector.TickersAppend | funds.py:75 | the ticker column of two lists of records is the two columns concatenated |
| Collector.RunBatch | funds.py:110-118 | whatever order the futures complete in, one record per ticker of the batch is appended: the appended records are a permutation of the batch's task records, and their tickers a permutation of the batch |
| Collector.CollectData | funds.py:95-125 | one record per ticker; the records are a permutation of the task records of the list, and their tickers a permutation of the list; the records of batch i occupy positions 10i to the end of batch i; one progress report per batch, the i-th equal to (i + 1) / total |
| Collector.EmptyListHasNoBatches | funds.py:98-103 | an empty ticker list gives no batch and no record |
| Indicators.Alpha | funds.py:143-146 | pandas' smoothing factor 2 / (span + 1) lies in (0, 1] for every span ≥ 1 |
| Indicators.Ema | funds.py:143-146 | `ewm(adjust=False).mean()` has one value per price and starts at the first price |
| Indicators.EmaStep | funds.py:143-146 | at every later index the average is (1 − α) times the previous average plus α times the price |
| Indicators.EmaPrefix | funds.py:143-146 | the average of a prefix of the prices is the prefix of the average: it never looks ahead |
| Indicators.EmaOfConstant | funds.py:143-146 | a constant series is its own average |
| Indicators.EmaBounded | funds.py:143-146 | the average stays between any lower and upper bound of the prices |
| Indicators.Macd | funds.py:142-147 | MACD is the fast EMA (span 12 by default) minus the slow EMA (span 26), the signal line is the EMA of MACD (span 9), the histogram is MACD minus signal; all three have one value per price and start at zero |
| Indicators.MacdOfConstant | funds.py:142-147 | a constant price series has MACD, signal and histogram zero throughout |
| Indicators.Gains | funds.py:132-133 | the gain at each index is non-negative, zero at the first index, and positive exactly when the price rose |
| Indicators.Losses | funds.py:132-134 | the loss at each index is non-negative, zero at the first index, and positive exactly when the price fell |
| Indicators.GainLossSplit | funds.py:132-134 | gain minus loss is the price change, and at most one of the two is non-zero |
| Indicators.RollingMean | funds.py:136-137 | one entry per value, undefined exactly before the first full window, from then on the mean of the last w values (their sum over w), and non-negative when the values are |
| Indicators.RsiOfAverages | funds.py:139-140 | the RSI formula with IEEE's special cases: defined exactly when the averages are not both zero, and then 100 × gain / (gain + loss), within [0, 100] |
| Indicators.GainShare | funds.py:139-140 | `100 − 100 / (1 + g / l)` equals 100 g / (g + l) for a positive average loss |
| Indicators.Rsi | funds.py:131-140 | one value per price, undefined before index window − 1, every defined value within [0, 100] |
| Indicators.RsiIsGainShare | funds.py:131-140 | every RSI value is 100 times the window's gains over the window's gains plus losses, and is undefined exactly when the window saw no movement |
| Indicators.ShareOfMeans | funds.py:136-139 | dividing both window sums by the window length leaves the RSI unchanged |
| Indicators.SharesAtExtremes | funds.py:139-140 | all gains give an RSI of 100, all losses an RSI of 0 |
| Indicators.RsiAfterRises | funds.py:131-140 | in a window where every price rose, the RSI is exactly 100 |
| Indicators.RsiAfterFalls | funds.py:131-140 | in a window where every price fell, the RSI is exactly 0 |
| Indicators.RsiOfRisingSeries | funds.py:131-140 | a strictly rising series has RSI 100 at every index from window − 1 on |
| Indicators.DefaultParameters | funds.py:131-147 | with the default spans 12, 26 and 9 the smoothing factors are 2/13, 2/27 and 1/5, and with the default window 14 the RSI has no value for the first 13 closes and is the gains' share of each 14-close window after that |
| Indicators.RsiOfFallingSeries | funds.py:131-140 | a strictly falling series has RSI 0 at every index from window − 1 on |
| Screen.NormalizeTicker | funds.py:344-346 | the ticker gets ".SA" appended exactly when it has no dot and the index is IBOVESPA; otherwise it is left as typed |
| Screen.NormalizeIsIdempotent | funds.py:344-346 | normalising a normalised ticker changes nothing |
| Screen.QuickSearch | funds.py:343-347 | a ticker is opened exactly when the input is non-empty and the button pressed, and it is the normalised input: the input with ".SA" appended under IBOVESPA when it has no dot, the input itself otherwise |
| Screen.Select | funds.py:368 | `df[df[col] == label]` keeps at most all rows |
| Screen.SelectMembers | funds.py:368-370 | a row is kept exactly when it is in the table and its cell holds the label; a missing cell never does |
| Screen.SelectAppend | funds.py:368-370 | selecting from two tables is selecting from each, in order |
| Screen.ApplyFilter | funds.py:367-370 | "Todos" keeps the table unchanged; otherwise a row is kept exactly when its cell holds the chosen label |
| Screen.ApplyFilters | funds.py:366-370 | a row survives exactly when it passes both the Graham and the magic-formula filter |
| Screen.FiltersCommute | funds.py:366-370 | applying the two filters in the other order gives the same table, in the same order |
| Screen.CheapCount | funds.py:385-386 | the number of cheap rows is at most the number of rows |
| Screen.CheapCountAppend | funds.py:385-386 | the cheap counts of two tables add up, and one row counts once exactly when it is cheap |
| Screen.CheapCountRemove | funds.py:385-386 | removing a row lowers the count by one exactly when the row is cheap |
| Screen.CheapCountIgnoresOrder | funds.py:384-386 | the cheap counts depend only on which records were collected, not on the order in which the futures completed |
| Screen.RowStyles | funds.py:55-58 | one style per cell, all equal, highlighted exactly when both labels are "Barata" and plain exactly otherwise |
| Screen.HighlightMatchesCheapFilters | funds.py:55-58 | the highlighted rows are exactly the rows that survive both filters set to "Barata" |

## Left out

- The Streamlit page is not modelled: widgets, layout, the spinner, the status text, the
  charts and the detail view (`mostrar_detalhes_empresa`, `plot_price_chart`,
  `plot_technical_indicators`, and the logo download (funds.py:234-241)). Widget values enter as parameters,
  e.g. `QuickSearch`'s `pressed`.
- The network is not modelled: yfinance calls are parameters (`Collector.Providers`), and so
  is whether a future raised.
- `st.warning` messages are left out; they only display the failure that the fetch functions
  then swallow.
- The thread pool is not modelled beyond its observable effect. Within a batch, any
  completion order is possible. Timing, thread interleaving inside `processar_ticker` and
  `max_workers` are left out.
- The `lru_cache` and `st.cache_data` caches are left out. They only memoise pure results
  within the model's view, and `get_stock_data` is only a cached call of the collector.
- The elapsed-time message of `main` is left out; it reads the clock.
- Sorting with `sort_values` (funds.py:373) is left out. It is a library sort on columns
  that mix numbers and `None`, and its order for missing values is pandas'.
- The static ticker lists (`IBOV_TICKERS`, `SP500_TICKERS`) are data, not logic.
- The "Selecione uma ação" selectbox is left out; it only lists the filtered tickers.
- Floating point is modelled by real numbers:
  - No rounding.
  - A `NaN` or missing ratio is `None`; a float is truthy exactly when it is non-zero, as
    Python's is, but `NaN` (truthy in Python) is not represented as a number.
  - The RSI's `NaN` (0/0) is `None`.
  - The RSI's infinite relative strength is the value it yields, 100.
- `Processing.ProcessTicker` models only the exception the code can raise on its own data,
  `KeyError('Close')`. Other exceptions, such as non-numeric ratios in the fundamentals
  dictionary, are outside the model because the dictionary holds reals only.
- `Indicators.Macd` requires spans of at least 1. pandas rejects smaller spans with an
  exception, and the code only calls it with 12, 26 and 9.
- `Indicators.Ema` and `Indicators.Rsi` take a plain series of prices. Index alignment of
  pandas series is not modelled.
