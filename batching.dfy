/** The index arithmetic of the batched collection (funds.py, `coletar_dados_paralelo`):
    the ticker list is cut into consecutive batches of ten and progress is reported after each. */
module Batching {

  /** `lote_size`: the number of tickers fetched concurrently. */
  const BatchSize: nat := 10

  /** `total_lotes = (len(tickers) + lote_size - 1) // lote_size`: the ceiling of n / 10. */
  function TotalBatches(n: nat): (t: nat)
    ensures n <= t * BatchSize
    ensures t > 0 ==> (t - 1) * BatchSize < n
    ensures t == 0 <==> n == 0
  {
    (n + BatchSize - 1) / BatchSize
  }

  /** `start_idx`: the index of the first ticker of batch i. */
  function BatchStart(i: nat): nat {
    i * BatchSize
  }

  /** The number of tickers in the first k batches: `min(k * lote_size, n)`. */
  function Covered(k: nat, n: nat): (c: nat)
    ensures c <= n && c <= k * BatchSize
    ensures c == n || c == k * BatchSize
  {
    if k * BatchSize < n then k * BatchSize else n
  }

  /** `end_idx`: one past the index of the last ticker of batch i. */
  function BatchEnd(i: nat, n: nat): nat {
    Covered(i + 1, n)
  }

  /** `lote_atual = tickers[start_idx:end_idx]`: between one and ten consecutive tickers. */
  function Batch<T>(s: seq<T>, i: nat): (b: seq<T>)
    requires i < TotalBatches(|s|)
    ensures 0 < |b| <= BatchSize
    ensures BatchStart(i) + |b| == BatchEnd(i, |s|)
    ensures forall k :: 0 <= k < |b| ==> b[k] == s[BatchStart(i) + k]
  {
    s[BatchStart(i)..BatchEnd(i, |s|)]
  }

  /** All batches, in the order the loop visits them. */
  function Batches<T>(s: seq<T>): (bs: seq<seq<T>>)
    ensures |bs| == TotalBatches(|s|)
    ensures forall i :: 0 <= i < |bs| ==> bs[i] == Batch(s, i)
  {
    seq(TotalBatches(|s|), i requires 0 <= i < TotalBatches(|s|) => Batch(s, i))
  }

  /** The concatenation of a sequence of sequences, in order. */
  function Concat<T>(bs: seq<seq<T>>): seq<T>
  {
    if bs == [] then [] else Concat(bs[..|bs| - 1]) + bs[|bs| - 1]
  }

  /** The first k batches, concatenated, are the first `Covered(k, n)` tickers. */
  lemma {:induction false} BatchesPrefix<T>(s: seq<T>, k: nat)
    requires k <= TotalBatches(|s|)
    ensures Concat(Batches(s)[..k]) == s[..Covered(k, |s|)]
  {
    if k > 0 {
      var bs := Batches(s);
      BatchesPrefix(s, k - 1);
      assert bs[..k][..k - 1] == bs[..k - 1];
      assert Covered(k - 1, |s|) == BatchStart(k - 1);
      var b := Batch(s, k - 1);
      assert s[..Covered(k, |s|)] == s[..Covered(k - 1, |s|)] + b;
    }
  }

  /** The batches partition the ticker list: each holds one to ten tickers, none is dropped,
      none repeated, and in order they give back the whole list. */
  lemma BatchesPartition<T>(s: seq<T>)
    ensures Concat(Batches(s)) == s
    ensures forall b :: b in Batches(s) ==> 0 < |b| <= BatchSize
  {
    var bs := Batches(s);
    BatchesPrefix(s, |bs|);
    assert bs[..|bs|] == bs;
  }

  /** `(i + 1) / total_lotes`: the fraction reported after batch i. */
  function Progress(i: nat, total: nat): (f: real)
    requires i < total
    ensures 0.0 < f <= 1.0
    ensures f == 1.0 <==> i + 1 == total
    ensures f * total as real == (i + 1) as real
  {
    FractionFacts((i + 1) as real, total as real);
    (i + 1) as real / total as real
  }

  /** A fraction a / t with 0 < a <= t lies in (0, 1], is 1 exactly when a == t, and times t
      gives back a. */
  lemma FractionFacts(a: real, t: real)
    requires 0.0 < a <= t
    ensures (a / t) * t == a
    ensures 0.0 < a / t <= 1.0
    ensures a / t == 1.0 <==> a == t
  {
  }

  /** Dividing by a positive number keeps a strict order. */
  lemma DivideMonotone(a: real, b: real, t: real)
    requires a < b && t > 0.0
    ensures a / t < b / t
  {
    assert b / t - a / t == (b - a) / t;
  }

  /** Progress strictly increases from one batch to the next. */
  lemma ProgressIncreases(i: nat, j: nat, total: nat)
    requires i < j < total
    ensures Progress(i, total) < Progress(j, total)
  {
    DivideMonotone((i + 1) as real, (j + 1) as real, total as real);
  }
}
