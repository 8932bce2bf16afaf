/** The embedding client: batches of any positive size, answers in any order. */
module Embedder {
  import opened Common
  import opened Corpus
  import opened IngestProtocol
  import opened Sorting

  datatype Datum = Datum(index: int, embedding: Vector)

  /** What the service promises for a batch: one datum per input, each naming the
      input it belongs to, in any order. */
  predicate Answers(w: World, model: Model, input: seq<Content>, data: seq<Datum>) {
    && |data| == |input|
    && (forall j :: 0 <= j < |data| ==>
          0 <= data[j].index < |input| && w.produces(model, input[data[j].index], data[j].embedding))
    && (forall i, j :: 0 <= i < |data| && 0 <= j < |data| && i != j ==> data[i].index != data[j].index)
  }

  function ByIndex(a: Datum, b: Datum): bool {
    a.index <= b.index
  }

  function Embeddings(data: seq<Datum>): (r: seq<Vector>)
    ensures |r| == |data| && forall i :: 0 <= i < |r| ==> r[i] == data[i].embedding
  {
    if data == [] then [] else [data[0].embedding] + Embeddings(data[1..])
  }

  /** n different numbers below n, in increasing order, are 0, 1, ..., n - 1. */
  lemma {:induction false} IncreasingFill(data: seq<Datum>, k: nat)
    requires k < |data|
    requires forall i, j :: 0 <= i < j < |data| ==> data[i].index < data[j].index
    requires forall i :: 0 <= i < |data| ==> 0 <= data[i].index < |data|
    ensures data[k].index == k
  {
    AtLeast(data, k);
    AtMost(data, k);
  }

  lemma {:induction false} AtLeast(data: seq<Datum>, k: nat)
    requires k < |data|
    requires forall i, j :: 0 <= i < j < |data| ==> data[i].index < data[j].index
    requires forall i :: 0 <= i < |data| ==> 0 <= data[i].index < |data|
    ensures data[k].index >= k
    decreases k
  {
    if k > 0 { AtLeast(data, k - 1); }
  }

  lemma {:induction false} AtMost(data: seq<Datum>, k: nat)
    requires k < |data|
    requires forall i, j :: 0 <= i < j < |data| ==> data[i].index < data[j].index
    requires forall i :: 0 <= i < |data| ==> 0 <= data[i].index < |data|
    ensures data[k].index <= k
    decreases |data| - k
  {
    if k + 1 < |data| { AtMost(data, k + 1); }
  }

  ghost predicate DistinctIndices(data: seq<Datum>) {
    forall i, j :: 0 <= i < |data| && 0 <= j < |data| && i != j ==> data[i].index != data[j].index
  }

  lemma SortedIncreases(data: seq<Datum>, o: seq<Datum>, i: nat, j: nat)
    requires DistinctIndices(data) && multiset(data) == multiset(o) && Sorted(ByIndex, o) && i < j < |o|
    ensures o[i].index < o[j].index
  {
    assert ByIndex(o[i], o[j]);
    if o[i].index == o[j].index {
      InPermutation(o, data, i);
      InPermutation(o, data, j);
      SameIndexSameDatum(data, o[i], o[j]);
      DistinctPermutation(data, o, i, j);
    }
  }

  /** Sorting a batch's answer by index puts every vector at the place of its text. */
  lemma OrderRestored(w: World, model: Model, input: seq<Content>, data: seq<Datum>)
    requires Answers(w, model, input, data)
    ensures var vectors := Embeddings(Sort(ByIndex, data));
            && |vectors| == |input|
            && forall k :: 0 <= k < |input| ==> w.produces(model, input[k], vectors[k])
  {
    SortSorts(ByIndex, data);
    hide Sort;
    var o := Sort(ByIndex, data);
    assert DistinctIndices(data);
    forall i, j | 0 <= i < j < |o| ensures o[i].index < o[j].index {
      SortedIncreases(data, o, i, j);
    }
    hide Sorted, DistinctIndices;
    forall i | 0 <= i < |o| ensures o[i] in data {
      InPermutation(o, data, i);
    }
    forall k | 0 <= k < |input| ensures w.produces(model, input[k], o[k].embedding) {
      IncreasingFill(o, k);
      var j :| 0 <= j < |data| && data[j] == o[k];
      assert w.produces(model, input[data[j].index], data[j].embedding);
    }
  }

  lemma SameIndexSameDatum(data: seq<Datum>, a: Datum, b: Datum)
    requires a in data && b in data && a.index == b.index
    requires forall i, j :: 0 <= i < |data| && 0 <= j < |data| && i != j ==> data[i].index != data[j].index
    ensures a == b
  {
  }

  /** The vectors so far are the model's vectors for the first texts, each at its text's place. */
  ghost predicate InPlace(w: World, model: Model, texts: seq<Content>, vectors: seq<Vector>) {
    |vectors| <= |texts| && forall k :: 0 <= k < |vectors| ==> w.produces(model, texts[k], vectors[k])
  }

  lemma NothingMisplaced(w: World, model: Model, texts: seq<Content>)
    ensures InPlace(w, model, texts, [])
  {
  }

  lemma Placed(w: World, model: Model, texts: seq<Content>, done: seq<Vector>, i: nat, end: nat, more: seq<Vector>)
    requires InPlace(w, model, texts, done) && |done| == i <= end <= |texts| && |more| == end - i
    requires forall k :: 0 <= k < |more| ==> w.produces(model, texts[i..end][k], more[k])
    ensures InPlace(w, model, texts, done + more)
  {
    forall k | 0 <= k < |done + more| ensures w.produces(model, texts[k], (done + more)[k]) {
      if k >= i { assert texts[i..end][k - i] == texts[k]; }
    }
  }

  /** The service answers with whatever it likes; only answers that keep its promise count as answers. */
  class EmbeddingsClient {
    constructor () {}

    method Create(w: World, model: Model, input: seq<Content>, dimensions: int) returns (r: Result<seq<Datum>>)
      ensures r.Ok? ==> Answers(w, model, input, r.value)
    {
      r := *;
      if r.Ok? && !Answers(w, model, input, r.value) {
        r := Err("service unavailable");
      }
    }
  }

  class OpenAIEmbedder {
    const client: EmbeddingsClient
    const model: Model
    const dimensions: int
    const batchSize: nat

    constructor (client: EmbeddingsClient, model: Model, dimensions: int, batchSize: nat)
      requires batchSize > 0
      ensures this.model == model && this.dimensions == dimensions && this.batchSize == batchSize
    {
      this.client := client;
      this.model := model;
      this.dimensions := dimensions;
      this.batchSize := batchSize;
    }

    /** One vector per text, in the order of the texts, whatever order the service answers in. */
    method Embed(w: World, texts: seq<Content>) returns (r: Result<seq<Vector>>)
      requires batchSize > 0
      ensures r.Ok? ==> |r.value| == |texts|
      ensures r.Ok? ==> InPlace(w, model, texts, r.value)
    {
      hide Answers, Sort, Embeddings, InPlace;
      assert InPlace(w, model, texts, []) by { NothingMisplaced(w, model, texts); }
      if |texts| == 0 {
        return Ok([]);
      }
      var vectors: seq<Vector> := [];
      var i := 0;
      while i < |texts|
        invariant 0 <= i
        invariant |vectors| == if i <= |texts| then i else |texts|
        invariant InPlace(w, model, texts, vectors)
        decreases |texts| - i
      {
        var end := if i + batchSize <= |texts| then i + batchSize else |texts|;
        var batch := texts[i..end];
        var res := client.Create(w, model, batch, dimensions);
        if res.Err? {
          return Err(res.error);
        }
        var ordered := Sort(ByIndex, res.value);
        OrderRestored(w, model, batch, res.value);
        Placed(w, model, texts, vectors, i, end, Embeddings(ordered));
        vectors := vectors + Embeddings(ordered);
        i := i + batchSize;
      }
      r := Ok(vectors);
    }
  }
}
