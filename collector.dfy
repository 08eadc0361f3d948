/** The batched collection of every ticker's record (funds.py, `coletar_dados_paralelo`).
    Batches run one after another; inside a batch the futures complete in any order. */
module Collector {
  import opened Values
  import opened Processing
  import opened Batching

  /** What the outside world answers for each ticker: the fundamentals fetch, the history fetch
      for a period, and whether the ticker's future raised instead of delivering the record of
      `processar_ticker` (with the exception's message). */
  datatype Providers = Providers(
    info: string -> Result<Info>,
    history: (string, string) -> Result<PriceFrame>,
    taskFault: string -> Option<string>)

  /** The history period the collector asks for. */
  const RecentPeriod: string := "5d"

  /** The record the collector appends for one completed future: the record of
      `processar_ticker`, or `{"Ticker": ticker, "Erro": str(e)}` when the future raised. */
  function TaskRecord(p: Providers, ticker: string): TickerRecord {
    match p.taskFault(ticker)
    case Some(e) => TickerRecord(ticker, None, None, None, None, None, None, Some(e))
    case None => ProcessTicker(ticker, p.info(ticker), p.history(ticker, RecentPeriod))
  }

  /** Every completed future yields a record for its own ticker: the record of
      `processar_ticker` fetched over the recent period, or, when the future raised, a record
      holding only the ticker and the exception's message (its other cells are missing). */
  lemma TaskRecordCases(p: Providers, ticker: string)
    ensures TaskRecord(p, ticker).ticker == ticker
    ensures p.taskFault(ticker).Some? ==>
      var rec := TaskRecord(p, ticker);
      && rec.error == p.taskFault(ticker)
      && rec.price == None && rec.pl == None && rec.pvp == None && rec.roe == None
      && rec.graham == None && rec.magic == None
    ensures p.taskFault(ticker).None? ==>
      TaskRecord(p, ticker) == ProcessTicker(ticker, p.info(ticker), p.history(ticker, RecentPeriod))
    ensures TaskRecord(p, ticker).error.None? ==> p.taskFault(ticker).None?
  {
  }

  /** The records of a list of tickers, one each, in list order. */
  function Records(p: Providers, s: seq<string>): (rs: seq<TickerRecord>)
    ensures |rs| == |s|
    ensures forall k :: 0 <= k < |s| ==> rs[k] == TaskRecord(p, s[k])
  {
    seq(|s|, k requires 0 <= k < |s| => TaskRecord(p, s[k]))
  }

  /** The "Ticker" column of a list of records. */
  function Tickers(rs: seq<TickerRecord>): (ts: seq<string>)
    ensures |ts| == |rs|
    ensures forall k :: 0 <= k < |rs| ==> ts[k] == rs[k].ticker
  {
    seq(|rs|, k requires 0 <= k < |rs| => rs[k].ticker)
  }

  lemma RecordsAppend(p: Providers, a: seq<string>, b: seq<string>)
    ensures Records(p, a + b) == Records(p, a) + Records(p, b)
  {
    assert forall k :: 0 <= k < |a + b| ==> Records(p, a + b)[k] == (Records(p, a) + Records(p, b))[k];
  }

  lemma TickersAppend(a: seq<TickerRecord>, b: seq<TickerRecord>)
    ensures Tickers(a + b) == Tickers(a) + Tickers(b)
  {
    assert forall k :: 0 <= k < |a + b| ==> Tickers(a + b)[k] == (Tickers(a) + Tickers(b))[k];
  }

  /** What a batch has produced so far: the records of the completed futures and the tickers
      still pending account for the whole batch, once each. */
  ghost predicate BatchAccounted(p: Providers, batch: seq<string>, done: seq<TickerRecord>, pending: seq<string>) {
    && |done| + |pending| == |batch|
    && multiset(done) + multiset(Records(p, pending)) == multiset(Records(p, batch))
    && multiset(Tickers(done)) + multiset(pending) == multiset(batch)
  }

  /** Taking the ticker at index j out of a list takes exactly its record out of the records. */
  lemma RemoveOne(p: Providers, s: seq<string>, j: nat)
    requires j < |s|
    ensures multiset(Records(p, s)) == multiset(Records(p, s[..j] + s[j + 1..])) + multiset{TaskRecord(p, s[j])}
    ensures multiset(s) == multiset(s[..j] + s[j + 1..]) + multiset{s[j]}
  {
    var front, back := s[..j], s[j + 1..];
    assert s == (front + [s[j]]) + back;
    RecordsAppend(p, front + [s[j]], back);
    RecordsAppend(p, front, [s[j]]);
    RecordsAppend(p, front, back);
    assert Records(p, [s[j]]) == [TaskRecord(p, s[j])];
  }

  /** Completing the future of the pending ticker at index j keeps the batch accounted for. */
  lemma CompleteOne(p: Providers, batch: seq<string>, done: seq<TickerRecord>, pending: seq<string>, j: nat)
    requires j < |pending|
    requires BatchAccounted(p, batch, done, pending)
    ensures BatchAccounted(p, batch, done + [TaskRecord(p, pending[j])], pending[..j] + pending[j + 1..])
  {
    var rec := TaskRecord(p, pending[j]);
    TaskRecordCases(p, pending[j]);
    RemoveOne(p, pending, j);
    TickersAppend(done, [rec]);
    assert multiset(done + [rec]) == multiset(done) + multiset{rec};
    assert multiset(Tickers(done + [rec])) == multiset(Tickers(done)) + multiset{pending[j]};
  }

  /** One batch (funds.py:110-118): every ticker's future is submitted, then each completed
      future, in whatever order they complete, appends exactly one record. */
  method RunBatch(p: Providers, batch: seq<string>) returns (done: seq<TickerRecord>)
    ensures |done| == |batch|
    ensures multiset(done) == multiset(Records(p, batch))
    ensures multiset(Tickers(done)) == multiset(batch)
  {
    done := [];
    var pending := batch;
    while pending != []
      invariant BatchAccounted(p, batch, done, pending)
      decreases |pending|
    {
      // `as_completed` yields whichever pending future finishes next
      var j :| 0 <= j < |pending|;
      CompleteOne(p, batch, done, pending, j);
      done := done + [TaskRecord(p, pending[j])];
      pending := pending[..j] + pending[j + 1..];
    }
  }

  /** The first i batches have been collected: one record per ticker of those batches. */
  ghost predicate CollectedUpTo(p: Providers, tickers: seq<string>, i: nat, results: seq<TickerRecord>) {
    && i <= TotalBatches(|tickers|)
    && |results| == Covered(i, |tickers|)
    && multiset(Tickers(results)) == multiset(tickers[..|results|])
    && multiset(results) == multiset(Records(p, tickers[..|results|]))
  }

  /** The records of each of the first i batches are contiguous and in batch order. */
  ghost predicate BatchesInOrder(p: Providers, tickers: seq<string>, i: nat, results: seq<TickerRecord>)
    requires i <= TotalBatches(|tickers|) && |results| == Covered(i, |tickers|)
  {
    forall j :: 0 <= j < i ==>
      multiset(Records(p, Batch(tickers, j))) == multiset(results[BatchStart(j)..BatchEnd(j, |tickers|)])
  }

  /** Appending the records of batch i extends what the first i batches produced. */
  lemma CollectOneBatch(p: Providers, tickers: seq<string>, i: nat, results: seq<TickerRecord>, done: seq<TickerRecord>)
    requires i < TotalBatches(|tickers|)
    requires CollectedUpTo(p, tickers, i, results)
    requires |done| == |Batch(tickers, i)|
    requires multiset(done) == multiset(Records(p, Batch(tickers, i)))
    requires multiset(Tickers(done)) == multiset(Batch(tickers, i))
    ensures CollectedUpTo(p, tickers, i + 1, results + done)
  {
    var batch := Batch(tickers, i);
    var prefix := tickers[..|results|];
    assert |results| == BatchStart(i);
    var all := results + done;
    var upto := tickers[..|all|];
    assert upto == prefix + batch;
    TickersAppend(results, done);
    JoinPermutations(Tickers(results), Tickers(done), prefix, batch);
    assert multiset(Tickers(all)) == multiset(upto);
    RecordsAppend(p, prefix, batch);
    JoinPermutations(results, done, Records(p, prefix), Records(p, batch));
    assert multiset(all) == multiset(Records(p, upto));
  }

  /** Joining two permutations gives a permutation of the joined lists. */
  lemma JoinPermutations<T>(r: seq<T>, d: seq<T>, a: seq<T>, b: seq<T>)
    requires multiset(r) == multiset(a) && multiset(d) == multiset(b)
    ensures multiset(r + d) == multiset(a + b)
  {
    assert multiset(r + d) == multiset(r) + multiset(d);
    assert multiset(a + b) == multiset(a) + multiset(b);
  }

  /** Appending the records of batch i leaves the earlier batches' records where they were. */
  lemma OrderOneBatch(p: Providers, tickers: seq<string>, i: nat, results: seq<TickerRecord>, done: seq<TickerRecord>)
    requires i < TotalBatches(|tickers|)
    requires |results| == Covered(i, |tickers|)
    requires BatchesInOrder(p, tickers, i, results)
    requires |done| == |Batch(tickers, i)|
    requires multiset(done) == multiset(Records(p, Batch(tickers, i)))
    ensures |results + done| == Covered(i + 1, |tickers|)
    ensures BatchesInOrder(p, tickers, i + 1, results + done)
  {
    var n := |tickers|;
    var all := results + done;
    forall j | 0 <= j < i + 1
      ensures multiset(Records(p, Batch(tickers, j))) == multiset(all[BatchStart(j)..BatchEnd(j, n)])
    {
      if j < i {
        var _ := Batch(tickers, j);
        assert all[BatchStart(j)..BatchEnd(j, n)] == results[BatchStart(j)..BatchEnd(j, n)];
      } else {
        assert all[BatchStart(j)..BatchEnd(j, n)] == done;
      }
    }
  }

  /** What the records of all batches add up to once every batch has run. */
  lemma AllBatchesCollected(p: Providers, tickers: seq<string>, results: seq<TickerRecord>)
    requires CollectedUpTo(p, tickers, TotalBatches(|tickers|), results)
    ensures |results| == |tickers|
    ensures multiset(Tickers(results)) == multiset(tickers)
    ensures multiset(results) == multiset(Records(p, tickers))
  {
    assert tickers[..|results|] == tickers;
  }

  /** The whole collection (funds.py:95-125): batch after batch, one record per ticker, and
      the progress fractions reported after each batch. */
  method CollectData(p: Providers, tickers: seq<string>) returns (results: seq<TickerRecord>, progress: seq<real>)
    ensures |results| == |tickers|
    ensures multiset(Tickers(results)) == multiset(tickers)
    ensures multiset(results) == multiset(Records(p, tickers))
    ensures forall i :: 0 <= i < TotalBatches(|tickers|) ==>
      multiset(Records(p, Batch(tickers, i))) == multiset(results[BatchStart(i)..BatchEnd(i, |tickers|)])
    ensures |progress| == TotalBatches(|tickers|)
    ensures forall i :: 0 <= i < |progress| ==> progress[i] == Progress(i, |progress|)
  {
    var n := |tickers|;
    var total := (n + BatchSize - 1) / BatchSize;
    results, progress := [], [];
    for i := 0 to total
      invariant CollectedUpTo(p, tickers, i, results)
      invariant BatchesInOrder(p, tickers, i, results)
      invariant |progress| == i
      invariant forall j :: 0 <= j < i ==> progress[j] == Progress(j, total)
    {
      var startIdx := i * BatchSize;
      var endIdx := if (i + 1) * BatchSize < n then (i + 1) * BatchSize else n;
      var batch := tickers[startIdx..endIdx];
      assert batch == Batch(tickers, i);
      var done := RunBatch(p, batch);
      CollectOneBatch(p, tickers, i, results, done);
      OrderOneBatch(p, tickers, i, results, done);
      results := results + done;
      progress := progress + [(i + 1) as real / total as real];
    }
    AllBatchesCollected(p, tickers, results);
  }

  /** An empty ticker list yields no batches, no records and no progress report. */
  lemma EmptyListHasNoBatches(p: Providers)
    ensures TotalBatches(0) == 0 && Batches<string>([]) == [] && Records(p, []) == []
  {
  }
}
