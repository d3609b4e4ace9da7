/** The retriever of rag/querying.py (class Retriever): the dispatch on the
    retrieval method, the order of the external calls, the keyword path's
    corpus preprocessing and its assembly of ranked results. Stemming, BM25
    and the embedding request are inputs whose results the model does not
    interpret. */
module Querying {
  import opened Wrappers
  import opened PyText
  import Config

  /** A BM25 score, kept opaque. */
  type Score = real
  /** An embedding vector, kept opaque. */
  type Embedding = seq<real>
  type Metadata = map<string, string>

  const DefaultMethod := "similarity"
  const DefaultTopK := 5
  const DefaultEmbeddingModel := "text-embedding-3-small"

  /** What `collection.get(include=["documents", "metadatas"])` returns. */
  datatype StoredData = StoredData(documents: seq<string>, metadatas: seq<Metadata>)

  /** One entry of the keyword path's result list. */
  datatype RetrievedDoc = RetrievedDoc(document: string, metadata: Metadata, score: Score, rank: int)

  /** The lexical back end: the English stemmer's `stemWords`, and a BM25
      index built over the corpus tokens and queried with `k` and the query
      string (which bm25s tokenises itself, dropping English stop words),
      giving the first query's document indices and scores. */
  datatype Lexical = Lexical(
    stemWords: seq<string> -> seq<string>,
    bm25: (seq<seq<string>>, string, int) -> (seq<nat>, seq<Score>))

  /** An external call made by `retrieve`. */
  datatype Call =
    | Embed(baseUrl: string, input: string, model: string)
    | FetchAll

  /** The branch `retrieve` takes for a method string. */
  datatype Route = KeywordRoute | SemanticRoute | HybridRoute | InvalidRoute

  /** The `if`/`elif` chain of `retrieve`. */
  function RouteOf(name: string): (route: Route)
    ensures route != InvalidRoute <==> name in {"keyword_based", "semantic_search", "hybrid"}
  {
    if name == "keyword_based" then KeywordRoute
    else if name == "semantic_search" then SemanticRoute
    else if name == "hybrid" then HybridRoute
    else InvalidRoute
  }

  /** The method string that selects a route. */
  function RouteName(route: Route): string
    requires route != InvalidRoute
  {
    match route
    case KeywordRoute => "keyword_based"
    case SemanticRoute => "semantic_search"
    case HybridRoute => "hybrid"
  }

  /** Exactly three strings are accepted, one per route. */
  lemma RouteRoundTrip(name: string, route: Route)
    ensures route != InvalidRoute ==> RouteOf(RouteName(route)) == route
    ensures RouteOf(name) != InvalidRoute ==> RouteName(RouteOf(name)) == name
  {
  }

  /** The default method `"similarity"` is not accepted. */
  lemma DefaultMethodRejected()
    ensures RouteOf(DefaultMethod) == InvalidRoute
  {
  }

  /** `_preprocess_text`: lower-case, split on whitespace, stem. */
  function Preprocess(text: string, stemWords: seq<string> -> seq<string>): seq<string> {
    stemWords(Tokens(Lower(text)))
  }

  /** `[_preprocess_text(doc) for doc in documents]`: one token list per
      stored document, in the same order. */
  function CorpusTokens(documents: seq<string>, stemWords: seq<string> -> seq<string>): (corpus: seq<seq<string>>)
    ensures |corpus| == |documents|
    ensures forall i :: 0 <= i < |documents| ==> corpus[i] == Preprocess(documents[i], stemWords)
    decreases |documents|
  {
    if |documents| == 0 then []
    else [Preprocess(documents[0], stemWords)] + CorpusTokens(documents[1..], stemWords)
  }

  /** `zip(a, b)`: pairs up to the shorter list's length. */
  function Zip<A, B>(a: seq<A>, b: seq<B>): (pairs: seq<(A, B)>)
    ensures |pairs| == Min(|a|, |b|)
    ensures forall i :: 0 <= i < |pairs| ==> pairs[i] == (a[i], b[i])
    decreases |a|
  {
    if |a| == 0 || |b| == 0 then []
    else [(a[0], b[0])] + Zip(a[1..], b[1..])
  }

  /** The `(doc_idx, score)` pairs the BM25 back end returns for a query. */
  function Hits(data: StoredData, query: string, lex: Lexical, topK: int): seq<(nat, Score)> {
    var (ids, scores) := lex.bm25(CorpusTokens(data.documents, lex.stemWords), query, topK);
    Zip(ids, scores)
  }

  /** Every hit names a stored document and its metadata. */
  predicate HitsInRange(hits: seq<(nat, Score)>, data: StoredData) {
    forall i :: 0 <= i < |hits| ==> hits[i].0 < |data.documents| && hits[i].0 < |data.metadatas|
  }

  /** One entry per hit, in the back end's order: entry `i` carries the
      document and metadata at the hit's index, its score, and rank `i + 1`. */
  predicate IsRanking(out: seq<RetrievedDoc>, hits: seq<(nat, Score)>, data: StoredData)
    requires HitsInRange(hits, data)
  {
    && |out| == |hits|
    && forall i :: 0 <= i < |out| ==>
         out[i] == RetrievedDoc(data.documents[hits[i].0], data.metadatas[hits[i].0], hits[i].1, i + 1)
  }

  /** What the keyword path answers: the ranking when every hit is in range,
      and the `IndexError` of `documents[doc_idx]` otherwise. */
  predicate KeywordOutcome(r: Result<seq<RetrievedDoc>>, hits: seq<(nat, Score)>, data: StoredData) {
    && (r.Ok? <==> HitsInRange(hits, data))
    && (r.Err? ==> r.error == IndexError)
    && (r.Ok? ==> IsRanking(r.value, hits, data))
  }

  /** `_keyword_based`: preprocess the corpus, query BM25, and build the
      result list with 1-based ranks. */
  method KeywordBased(data: StoredData, query: string, lex: Lexical, topK: int)
    returns (r: Result<seq<RetrievedDoc>>)
    ensures KeywordOutcome(r, Hits(data, query, lex, topK), data)
  {
    var corpusTokens := CorpusTokens(data.documents, lex.stemWords);
    // Computed but unused: BM25 is queried with its own tokenisation below.
    var queryTokens := Preprocess(query, lex.stemWords);
    var (ids, scores) := lex.bm25(corpusTokens, query, topK);
    var hits := Zip(ids, scores);
    assert hits == Hits(data, query, lex, topK);
    var retrieved: seq<RetrievedDoc> := [];
    for i := 0 to |hits|
      invariant HitsInRange(hits[..i], data) && IsRanking(retrieved, hits[..i], data)
    {
      var (docIdx, score) := hits[i];
      if docIdx >= |data.documents| || docIdx >= |data.metadatas| {
        return Err(IndexError);
      }
      RankingExtend(retrieved, hits, data, i);
      retrieved := retrieved + [RetrievedDoc(data.documents[docIdx], data.metadatas[docIdx], score, i + 1)];
    }
    assert hits[..|hits|] == hits;
    return Ok(retrieved);
  }

  /** One loop step of `_keyword_based`: appending the entry for hit `i`
      extends a ranking of the first `i` hits to one of the first `i + 1`. */
  lemma RankingExtend(out: seq<RetrievedDoc>, hits: seq<(nat, Score)>, data: StoredData, i: nat)
    requires i < |hits| && hits[i].0 < |data.documents| && hits[i].0 < |data.metadatas|
    requires HitsInRange(hits[..i], data) && IsRanking(out, hits[..i], data)
    ensures HitsInRange(hits[..i + 1], data)
    ensures IsRanking(out + [RetrievedDoc(data.documents[hits[i].0], data.metadatas[hits[i].0], hits[i].1, i + 1)],
                      hits[..i + 1], data)
  {
    assert forall j :: 0 <= j < i ==> hits[..i + 1][j] == hits[..i][j];
  }

  /** `_semantic_search`: an unimplemented stub. */
  function SemanticSearch(data: StoredData, queryEmbedding: Embedding): (r: Option<seq<RetrievedDoc>>)
    ensures r == None
  {
    None
  }

  /** `_hybrid`: an unimplemented stub. */
  function Hybrid(data: StoredData, queryEmbedding: Embedding): (r: Option<seq<RetrievedDoc>>)
    ensures r == None
  {
    None
  }

  /** The ranks carried by a result list. */
  function Ranks(out: seq<RetrievedDoc>): set<int> {
    set i | 0 <= i < |out| :: out[i].rank
  }

  /** The ranks of a ranking are exactly `1..|out|`, each once, each one more than the last. */
  lemma RanksContiguous(out: seq<RetrievedDoc>, hits: seq<(nat, Score)>, data: StoredData)
    requires HitsInRange(hits, data) && IsRanking(out, hits, data)
    ensures forall n :: n in Ranks(out) <==> 1 <= n <= |out|
    ensures forall i :: 0 <= i < |out| - 1 ==> out[i].rank + 1 == out[i + 1].rank
  {
    forall n | 1 <= n <= |out| ensures n in Ranks(out) {
      assert out[n - 1].rank == n;
    }
  }

  /** The result has one entry per pair the back end returned, up to the
      shorter of its two lists. */
  lemma KeywordLength(r: Result<seq<RetrievedDoc>>, data: StoredData, query: string, lex: Lexical, topK: int)
    requires KeywordOutcome(r, Hits(data, query, lex, topK), data) && r.Ok?
    ensures var (ids, scores) := lex.bm25(CorpusTokens(data.documents, lex.stemWords), query, topK);
            |r.value| == Min(|ids|, |scores|)
  {
  }

  /** The stored documents' collection (the Chroma collection's contents). */
  class Collection {
    var documents: seq<string>
    var metadatas: seq<Metadata>

    constructor (documents: seq<string>, metadatas: seq<Metadata>)
      ensures this.documents == documents && this.metadatas == metadatas
    {
      this.documents := documents;
      this.metadatas := metadatas;
    }
  }

  class Retriever {
    var retrievalMethod: string
    var topK: int
    var llmClient: Config.LLMConfig
    var embeddingModel: string
    var dbClient: Collection
    /** The external calls made so far, in order. */
    ghost var calls: seq<Call>

    /** `Retriever(method="similarity", top_k=5, llm_client, embedding_model=
        "text-embedding-3-small", db_client)`: every argument is stored
        unchanged. */
    constructor (llmClient: Config.LLMConfig, dbClient: Collection,
                 retrievalMethod: string := DefaultMethod, topK: int := DefaultTopK,
                 embeddingModel: string := DefaultEmbeddingModel)
      ensures this.retrievalMethod == retrievalMethod && this.topK == topK
      ensures this.llmClient == llmClient && this.embeddingModel == embeddingModel
      ensures this.dbClient == dbClient && calls == []
    {
      this.retrievalMethod := retrievalMethod;
      this.topK := topK;
      this.llmClient := llmClient;
      this.embeddingModel := embeddingModel;
      this.dbClient := dbClient;
      calls := [];
    }

    /** `retrieve`: embed the query and fetch every stored document, both
        before looking at the method, then dispatch. `embed` stands for the
        embedding request; `None` is a failed request, which raises. */
    method Retrieve(query: string, embed: (string, string, string) -> Option<Embedding>, lex: Lexical)
      returns (r: Result<Option<seq<RetrievedDoc>>>)
      modifies this`calls
      ensures var embedded := embed(llmClient.baseUrl, query, embeddingModel);
              calls == old(calls) + [Embed(llmClient.baseUrl, query, embeddingModel)]
                                  + (if embedded.Some? then [FetchAll] else [])
      ensures embed(llmClient.baseUrl, query, embeddingModel).None? ==> r == Err(EmbeddingError)
      ensures embed(llmClient.baseUrl, query, embeddingModel).Some? ==>
              var data := StoredData(dbClient.documents, dbClient.metadatas);
              var hits := Hits(data, query, lex, topK);
              match RouteOf(retrievalMethod)
              case InvalidRoute => r == Err(ValueError("Invalid retrieval method: " + retrievalMethod))
              case SemanticRoute => r == Ok(None)
              case HybridRoute => r == Ok(None)
              case KeywordRoute =>
                && (r.Ok? ==> r.value.Some? && KeywordOutcome(Ok(r.value.value), hits, data))
                && (r.Err? ==> KeywordOutcome(Err(r.error), hits, data))
    {
      var queryEmbedding := embed(llmClient.baseUrl, query, embeddingModel);
      calls := calls + [Embed(llmClient.baseUrl, query, embeddingModel)];
      if queryEmbedding.None? {
        return Err(EmbeddingError);
      }
      var allData := StoredData(dbClient.documents, dbClient.metadatas);
      calls := calls + [FetchAll];
      if retrievalMethod == "keyword_based" {
        var docs := KeywordBased(allData, query, lex, topK);
        match docs
        case Ok(list) => return Ok(Some(list));
        case Err(e) => return Err(e);
      } else if retrievalMethod == "semantic_search" {
        return Ok(SemanticSearch(allData, queryEmbedding.value));
      } else if retrievalMethod == "hybrid" {
        return Ok(Hybrid(allData, queryEmbedding.value));
      } else {
        return Err(ValueError("Invalid retrieval method: " + retrievalMethod));
      }
    }
  }
}
