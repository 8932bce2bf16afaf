/** Retrieval as one atomic read: the argument guards, the model guard, and the
    filtered top k of the assistant's embedded rows. */
module Retrieval {
  import opened Common
  import opened Corpus
  import opened IngestProtocol
  import opened IngestSafety
  import opened IngestConvergence
  import opened Sorting

  const MAX_K := 100

  /** `assistantIsUuid` is the result of the id's format test. */
  datatype Params = Params(
    assistant: AssistantId, assistantIsUuid: bool, query: Vector, model: Model, k: Number)

  datatype Hit = Hit(id: Key, row: ChunkRow, score: real)

  predicate AllFinite(v: Vector) {
    forall i :: 0 <= i < |v| ==> v[i].Finite?
  }

  predicate HasDirection(v: Vector) {
    exists i :: 0 <= i < |v| && v[i] != Finite(0.0)
  }

  /** Rounded down, into 1..MAX_K. */
  function Clamp(k: real): (n: nat)
    ensures k < 1.0 ==> n == 1
    ensures k >= MAX_K as real ==> n == MAX_K
    ensures 1.0 <= k < MAX_K as real ==> n as real <= k < n as real + 1.0
    ensures 1 <= n <= MAX_K
  {
    var floor := k.Floor;
    var atLeastOne := if floor > 1 then floor else 1;
    if atLeastOne < MAX_K then atLeastOne else MAX_K
  }

  /** The checks made before the database is asked, in their order. */
  function CheckArguments(p: Params): (r: Result<nat>)
    ensures r.Ok? <==> p.assistantIsUuid && ValidVector(p.query) && HasDirection(p.query) && p.k.Finite?
    ensures r.Ok? && p.k.value < 1.0 ==> r.value == 1
    ensures r.Ok? && p.k.value >= 100.0 ==> r.value == 100
    ensures r.Ok? && 1.0 <= p.k.value < 100.0 ==> r.value as real <= p.k.value < r.value as real + 1.0
    ensures r.Ok? ==> 1 <= r.value <= 100
  {
    hide HasDirection, Clamp;
    if !p.assistantIsUuid then Err("assistantId must be a uuid")
    else if |p.query| != EMBEDDING_DIMENSIONS then Err("query embedding has another width")
    else if !AllFinite(p.query) then Err("query embedding contains a non-finite value")
    else if !HasDirection(p.query) then Err("query embedding is all zeros")
    else if p.k.NonFinite? then Err("k must be a finite number")
    else Ok(Clamp(p.k.value))
  }

  /** The claimed model counts only when it is set to a non-empty id. */
  predicate ModelGuardPasses(db: Db, p: Params) {
    !(p.assistant in db.claims && db.claims[p.assistant] != "" && db.claims[p.assistant] != p.model)
  }

  /** The rows the scan may return. */
  function Candidates(db: Db, a: AssistantId): set<Key> {
    set k | k in db.chunks && k.assistant == a && db.chunks[k].vector.Some?
  }

  /** `hits` are the k candidates closest to the query, closest first. */
  ghost predicate IsTopK(db: Db, p: Params, similarity: (Vector, Vector) -> real, k: nat, hits: seq<Hit>) {
    && |hits| == (if k < |Candidates(db, p.assistant)| then k else |Candidates(db, p.assistant)|)
    && (forall i :: 0 <= i < |hits| ==>
          && hits[i].id in Candidates(db, p.assistant)
          && hits[i].row == db.chunks[hits[i].id]
          && hits[i].score == similarity(p.query, hits[i].row.vector.value))
    && (forall i, j :: 0 <= i < j < |hits| ==> hits[i].id != hits[j].id && hits[i].score >= hits[j].score)
    && (forall c, i :: c in Candidates(db, p.assistant) && 0 <= i < |hits| && (forall j :: 0 <= j < |hits| ==> hits[j].id != c) ==>
          similarity(p.query, db.chunks[c].vector.value) <= hits[i].score)
  }

  /** The read `r` of retrieveChunks on the rows `db`. */
  ghost predicate Retrieves(db: Db, p: Params, similarity: (Vector, Vector) -> real, r: Result<seq<Hit>>) {
    if CheckArguments(p).Err? then r.Err?
    else if !ModelGuardPasses(db, p) then r.Err?
    else r.Ok? && IsTopK(db, p, similarity, CheckArguments(p).value, r.value)
  }

  /** A query is answered exactly if its arguments are good and the assistant's claim is
      missing, empty or its own model. The hits are as many of the assistant's embedded rows
      as there are, up to k; each scores its own row, and no row left out scores higher. */
  lemma AnsweredExactly(db: Db, p: Params, similarity: (Vector, Vector) -> real, r: Result<seq<Hit>>)
    requires Retrieves(db, p, similarity, r)
    ensures r.Ok? <==> && p.assistantIsUuid && ValidVector(p.query) && HasDirection(p.query) && p.k.Finite?
                       && (p.assistant in db.claims ==> db.claims[p.assistant] == "" || db.claims[p.assistant] == p.model)
    ensures r.Ok? ==>
              var embedded := set k | k in db.chunks && k.assistant == p.assistant && db.chunks[k].vector != None;
              && (|r.value| == |embedded| || (|r.value| < |embedded| && CheckArguments(p) == Ok(|r.value|)))
              && (forall h :: h in r.value ==>
                    h.id in embedded && h.row == db.chunks[h.id] && h.score == similarity(p.query, h.row.vector.value))
              && (forall i, j :: 0 <= i < j < |r.value| ==> r.value[i].id != r.value[j].id && r.value[i].score >= r.value[j].score)
              && (forall k, i :: k in embedded && 0 <= i < |r.value| && (forall j :: 0 <= j < |r.value| ==> r.value[j].id != k) ==>
                    similarity(p.query, db.chunks[k].vector.value) <= r.value[i].score)
  {
    hide CheckArguments, HasDirection, ValidVector;
    var embedded := set k | k in db.chunks && k.assistant == p.assistant && db.chunks[k].vector != None;
    assert embedded == Candidates(db, p.assistant);
  }

  lemma HitsAreRows(db: Db, p: Params, similarity: (Vector, Vector) -> real, r: Result<seq<Hit>>, h: nat)
    requires Retrieves(db, p, similarity, r) && r.Ok? && h < |r.value|
    ensures var hit := r.value[h];
            && ModelGuardPasses(db, p) && hit.id in db.chunks && hit.row == db.chunks[hit.id] && hit.id.assistant == p.assistant && hit.row.vector.Some?
            && hit.score == similarity(p.query, hit.row.vector.value)
  {
    hide CheckArguments;
    assert r.value[h].id in Candidates(db, p.assistant);
  }

  /** In every reachable state every hit is a row of the assistant that is embedded by
      the claimed model for the very content it stands for. */
  lemma ScoresClaimedModelOnly(
    w: World, s: seq<Sys>, acts: seq<Action>, i: nat,
    p: Params, similarity: (Vector, Vector) -> real, r: Result<seq<Hit>>, h: nat)
    requires IsRun(w, s, acts) && i < |s|
    requires Retrieves(s[i].db, p, similarity, r) && r.Ok? && h < |r.value|
    ensures var hit := r.value[h];
            && hit.id.assistant == p.assistant && p.assistant in s[i].db.claims
            && hit.row.vector.Some? && ValidVector(hit.row.vector.value)
            && w.produces(s[i].db.claims[p.assistant], hit.id.content, hit.row.vector.value)
            && hit.row.owner in s[i].db.docs && s[i].db.docs[hit.row.owner].assistant == p.assistant
  {
    hide IsRun, ValidVector, Retrieves;
    RunKeeps(w, s, acts, i);
    HitsAreRows(s[i].db, p, similarity, r, h);
    assert RowInv(w, s[i].db, r.value[h].id);
  }

  /** A retrieval that returns hits scores vectors of its own model exactly if the claimed
      id is not empty or the query's own id is empty too: the guard takes an empty claim
      for no claim. */
  lemma OwnModelExactlyUnless(
    w: World, s: seq<Sys>, acts: seq<Action>, i: nat,
    p: Params, similarity: (Vector, Vector) -> real, r: Result<seq<Hit>>)
    requires IsRun(w, s, acts) && i < |s|
    requires Retrieves(s[i].db, p, similarity, r) && r.Ok? && r.value != []
    ensures p.assistant in s[i].db.claims
    ensures s[i].db.claims[p.assistant] == p.model <==> s[i].db.claims[p.assistant] != "" || p.model == ""
  {
    hide IsRun, ValidVector, Retrieves;
    HitsAreRows(s[i].db, p, similarity, r, 0);
    ScoresClaimedModelOnly(w, s, acts, i, p, similarity, r, 0);
  }

  /** Then every hit is a vector that the query's own model produced for its content. */
  lemma ScoresOwnModelOnly(
    w: World, s: seq<Sys>, acts: seq<Action>, i: nat,
    p: Params, similarity: (Vector, Vector) -> real, r: Result<seq<Hit>>, h: nat)
    requires IsRun(w, s, acts) && i < |s|
    requires p.assistant in s[i].db.claims ==> s[i].db.claims[p.assistant] != "" || p.model == ""
    requires Retrieves(s[i].db, p, similarity, r) && r.Ok? && h < |r.value|
    ensures var hit := r.value[h];
            && hit.id.assistant == p.assistant
            && hit.row.vector.Some? && ValidVector(hit.row.vector.value)
            && w.produces(p.model, hit.id.content, hit.row.vector.value)
  {
    hide IsRun, ValidVector, Retrieves;
    OwnModelExactlyUnless(w, s, acts, i, p, similarity, r);
    ScoresClaimedModelOnly(w, s, acts, i, p, similarity, r, h);
  }

  // ----- Retrieval is possible, and so is the foreign hit -----

  function AsHit(db: Db, p: Params, similarity: (Vector, Vector) -> real, k: Key): Hit
    requires k in db.chunks && db.chunks[k].vector.Some?
  {
    Hit(k, db.chunks[k], similarity(p.query, db.chunks[k].vector.value))
  }

  function Closer(a: Hit, b: Hit): bool {
    a.score >= b.score
  }

  /** Hits for exactly the keys, each once. */
  ghost predicate HitsFor(db: Db, p: Params, similarity: (Vector, Vector) -> real, keys: set<Key>, hits: seq<Hit>) {
    && |hits| == |keys|
    && (forall i :: 0 <= i < |hits| ==>
          hits[i].id in keys && hits[i].id in db.chunks && db.chunks[hits[i].id].vector.Some?
          && hits[i] == AsHit(db, p, similarity, hits[i].id))
    && (forall i, j :: 0 <= i < j < |hits| ==> hits[i].id != hits[j].id)
    && (forall k :: k in keys ==> k in db.chunks && db.chunks[k].vector.Some? && AsHit(db, p, similarity, k) in hits)
  }

  lemma HitsExist(db: Db, p: Params, similarity: (Vector, Vector) -> real, keys: set<Key>) returns (hits: seq<Hit>)
    requires forall k :: k in keys ==> k in db.chunks && db.chunks[k].vector.Some?
    ensures HitsFor(db, p, similarity, keys, hits)
    decreases keys
  {
    hits := [];
    if keys != {} {
      var k :| k in keys;
      var rest := HitsExist(db, p, similarity, keys - {k});
      hits := [AsHit(db, p, similarity, k)] + rest;
      forall l | l in keys ensures AsHit(db, p, similarity, l) in hits {
        if l == k { assert hits[0] == AsHit(db, p, similarity, l); }
      }
    }
  }

  lemma PermutedHits(db: Db, p: Params, similarity: (Vector, Vector) -> real, keys: set<Key>, hits: seq<Hit>, sorted: seq<Hit>)
    requires HitsFor(db, p, similarity, keys, hits) && multiset(sorted) == multiset(hits)
    ensures HitsFor(db, p, similarity, keys, sorted)
  {
    assert |multiset(sorted)| == |multiset(hits)|;
    forall i | 0 <= i < |sorted| ensures sorted[i] in hits {
      InPermutation(sorted, hits, i);
    }
    forall i, j | 0 <= i < j < |sorted| ensures sorted[i].id != sorted[j].id {
      DistinctPermutation(hits, sorted, i, j);
    }
    forall k | k in keys ensures AsHit(db, p, similarity, k) in sorted {
      var i :| 0 <= i < |hits| && hits[i] == AsHit(db, p, similarity, k);
      InPermutation(hits, sorted, i);
    }
  }

  lemma BestOf(db: Db, p: Params, similarity: (Vector, Vector) -> real, sorted: seq<Hit>, k: nat)
    requires HitsFor(db, p, similarity, Candidates(db, p.assistant), sorted) && Sorted(Closer, sorted)
    ensures IsTopK(db, p, similarity, k, sorted[..if k < |sorted| then k else |sorted|])
  {
    var n := if k < |sorted| then k else |sorted|;
    var hits := sorted[..n];
    assert forall j :: 0 <= j < |hits| ==> hits[j] == sorted[j];
    forall c, i | c in Candidates(db, p.assistant) && 0 <= i < |hits| && (forall j :: 0 <= j < |hits| ==> hits[j].id != c)
      ensures similarity(p.query, db.chunks[c].vector.value) <= hits[i].score
    {
      var m :| 0 <= m < |sorted| && sorted[m] == AsHit(db, p, similarity, c);
      assert Closer(sorted[i], sorted[m]);
    }
    forall i, j | 0 <= i < j < |hits| ensures hits[i].score >= hits[j].score {
      assert Closer(sorted[i], sorted[j]);
    }
  }

  /** Whatever the rows, a query that passes the guards has an answer. */
  lemma RetrievalExists(db: Db, p: Params, similarity: (Vector, Vector) -> real) returns (hits: seq<Hit>)
    requires CheckArguments(p).Ok? && ModelGuardPasses(db, p)
    ensures Retrieves(db, p, similarity, Ok(hits))
    ensures hits == [] <==> Candidates(db, p.assistant) == {}
  {
    hide CheckArguments, IsTopK, HitsFor, Sorted, Sort;
    var all := HitsExist(db, p, similarity, Candidates(db, p.assistant));
    SortSorts(Closer, all);
    var sorted := Sort(Closer, all);
    PermutedHits(db, p, similarity, Candidates(db, p.assistant), all, sorted);
    BestOf(db, p, similarity, sorted, CheckArguments(p).value);
    hits := sorted[..if CheckArguments(p).value < |sorted| then CheckArguments(p).value else |sorted|];
    HitCount(db, p, similarity, sorted);
  }

  lemma HitCount(db: Db, p: Params, similarity: (Vector, Vector) -> real, hits: seq<Hit>)
    requires HitsFor(db, p, similarity, Candidates(db, p.assistant), hits)
    ensures |hits| == |Candidates(db, p.assistant)|
  {
  }

  /** Without a claim there is nothing to retrieve. */
  lemma NoClaimNoHits(
    w: World, s: seq<Sys>, acts: seq<Action>, i: nat,
    p: Params, similarity: (Vector, Vector) -> real, r: Result<seq<Hit>>)
    requires IsRun(w, s, acts) && i < |s| && p.assistant !in s[i].db.claims
    requires Retrieves(s[i].db, p, similarity, r) && r.Ok?
    ensures r.value == []
  {
    hide IsRun, ValidVector, CheckArguments;
    RunKeeps(w, s, acts, i);
    forall k | k in s[i].db.chunks && k.assistant == p.assistant ensures s[i].db.chunks[k].vector.None? {
      assert RowInv(w, s[i].db, k);
    }
    assert Candidates(s[i].db, p.assistant) == {};
  }

  lemma Uploaded(d: DocId, a: AssistantId)
    ensures var db := UploadTx(EMPTY_DB, d, a);
            d in db.docs && db.docs[d] == DocRow(a, UPLOADED, None, None, []) && db.claims == map[] && db.chunks == map[]
  {
  }

  /** The state after a document has been uploaded and one attempt with the model that
      is configured as the empty id has completed. */
  lemma EmptyClaimIsReachable(w: World, d: DocId, a: AssistantId, pick: Content -> Vector)
      returns (s: seq<Sys>, acts: seq<Action>)
    requires Parseable(w, d) && Drafts(w, d) != []
    requires forall c :: ValidVector(pick(c)) && w.produces("", c, pick(c))
    ensures IsRun(w, s, acts) && s != []
    ensures var db := s[|s| - 1].db; a in db.claims && db.claims[a] == "" && Candidates(db, a) != {}
  {
    hide ValidVector;
    var base := UploadTx(EMPTY_DB, d, a);
    assert DbInv(w, base);
    var run, more := CleanRunExists(w, base, d, "", pick);
    s, acts := [Sys(EMPTY_DB, map[])] + run, [Upload(d, a)] + more;
    assert Next(w, s[0], acts[0], s[1]);
    hide Next, DbInv, Attempts, ReadyAt, UploadTx;
    forall i | 0 <= i < |acts| ensures Next(w, s[i], acts[i], s[i + 1]) {
      if i > 0 { assert Next(w, run[i - 1], more[i - 1], run[i]); }
    }
    assert base.docs[d].assistant == a && base.claims == map[] && base.chunks == map[] by { Uploaded(d, a); }
    ReadyHoldsRows(w, d, "", run, more, Drafts(w, d)[0]);
  }

  /** After attempts with one model on the only document of a corpus nobody has claimed,
      READY means the claim is that model's and the document's chunks can be retrieved. */
  lemma ReadyHoldsRows(w: World, d: DocId, m: Model, s: seq<Sys>, acts: seq<Action>, c: ChunkDraft)
    requires Steps(w, s, acts) && Attempts(acts, d, m) && ReadyAt(s[|s| - 1], d)
    requires d in s[0].db.docs && DbInv(w, s[0].db) && s[0].execs == map[] && s[0].db.claims == map[] && s[0].db.chunks == map[]
    requires c in Drafts(w, d)
    ensures var db := s[|s| - 1].db; var a := s[0].db.docs[d].assistant;
            && a in db.claims && db.claims[a] == m && Key(a, c.content) in Candidates(db, a)
  {
    assert |s| == |acts| + 1;
    hide Steps, Next, ValidVector, ExecInv, DocsTouched, ChunksTouched, ClaimsTouched;
    AttemptsKeep(w, d, m, s, acts, |acts|);
    var db, a, k := s[|s| - 1].db, s[0].db.docs[d].assistant, Key(s[0].db.docs[d].assistant, c.content);
    ReadyKeys(w, s[0].db, d, m, s[|s| - 1], k);
    assert DocInv(w, db, d) && RowInv(w, db, k);
  }

  /** The failing case happens: some run of the system leaves a corpus whose retrieval by
      any other model returns hits, all of them vectors of the model with the empty id. */
  lemma ForeignHitIsReachable(w: World, d: DocId, p: Params, pick: Content -> Vector, similarity: (Vector, Vector) -> real)
      returns (s: seq<Sys>, acts: seq<Action>, hits: seq<Hit>)
    requires Parseable(w, d) && Drafts(w, d) != [] && CheckArguments(p).Ok? && p.model != ""
    requires forall c :: ValidVector(pick(c)) && w.produces("", c, pick(c))
    ensures IsRun(w, s, acts) && s != [] && Retrieves(s[|s| - 1].db, p, similarity, Ok(hits)) && hits != []
    ensures p.assistant in s[|s| - 1].db.claims && s[|s| - 1].db.claims[p.assistant] != p.model
  {
    hide CheckArguments, ValidVector, Retrieves, IsRun;
    s, acts := EmptyClaimIsReachable(w, d, p.assistant, pick);
    hits := RetrievalExists(s[|s| - 1].db, p, similarity);
  }
}
