/**
 * Single-shot retrieval (rag.py): the query text is embedded, the vector
 * store is asked for its nearest chunks, and the first row of the answer is
 * returned as (content, metadata) pairs.
 */
module Rag {
  import opened Wrappers
  import opened Text
  import opened Values

  /**
   * What the store answers, one row per query embedding. A field is None
   * when the store leaves it out.
   */
  datatype QueryResult = QueryResult(documents: Option<seq<seq<string>>>,
                                     metadatas: Option<seq<seq<StoredMetadata>>>)

  /** One retrieved chunk: its text and its stored metadata. */
  datatype RetrievedSource = RetrievedSource(content: string, metadata: StoredMetadata)

  /**
   * Embedding a query text and searching the store for `n` neighbours, as
   * one step; None stands for an answer that is empty or null.
   */
  type Store = (string, nat) -> Option<QueryResult>

  /** Python's `zip` of two rows: pairs up to the shorter one's length. */
  function Zip(documents: seq<string>, metadatas: seq<StoredMetadata>): (r: seq<RetrievedSource>)
    ensures |r| == Min(|documents|, |metadatas|)
    ensures forall k :: 0 <= k < |r| ==> r[k] == RetrievedSource(documents[k], metadatas[k])
  {
    if documents == [] || metadatas == [] then []
    else [RetrievedSource(documents[0], metadatas[0])] + Zip(documents[1..], metadatas[1..])
  }

  /** Line 14: the answer holds a non-empty list of documents and of metadatas. */
  predicate HasRows(result: Option<QueryResult>) {
    && result.Some?
    && result.value.documents.Some? && result.value.documents.value != []
    && result.value.metadatas.Some? && result.value.metadatas.value != []
  }

  /** Lines 13-21: the sources an answer yields; only its first row is read. */
  function Retrieved(result: Option<QueryResult>): (r: seq<RetrievedSource>)
    ensures !HasRows(result) ==> r == []
    ensures HasRows(result) ==>
      var (documents, metadatas) := (result.value.documents.value[0], result.value.metadatas.value[0]);
      && |r| == Min(|documents|, |metadatas|)
      && forall k :: 0 <= k < |r| ==> r[k] == RetrievedSource(documents[k], metadatas[k])
  {
    if HasRows(result) then Zip(result.value.documents.value[0], result.value.metadatas.value[0])
    else []
  }

  /** Lines 1-21: the query as the script runs it. */
  method RagQuery(queryText: string, store: Store, nResults: nat) returns (sources: seq<RetrievedSource>)
    ensures sources == Retrieved(store(queryText, nResults))
  {
    var results := store(queryText, nResults);
    sources := [];
    if HasRows(results) {
      var documents := results.value.documents.value[0];
      var metadatas := results.value.metadatas.value[0];
      var n := Min(|documents|, |metadatas|);
      for k := 0 to n
        invariant |sources| == k
        invariant forall j :: 0 <= j < k ==> sources[j] == RetrievedSource(documents[j], metadatas[j])
      {
        sources := sources + [RetrievedSource(documents[k], metadatas[k])];
      }
    }
  }

  /** Rows after the first, and whatever lies beyond the shorter first row, do not matter. */
  lemma OnlyFirstRowRead(a: QueryResult, b: QueryResult)
    requires HasRows(Some(a)) && HasRows(Some(b))
    requires var (da, ma) := (a.documents.value[0], a.metadatas.value[0]);
      var (db, mb) := (b.documents.value[0], b.metadatas.value[0]);
      var n := Min(|da|, |ma|);
      && n == Min(|db|, |mb|) && da[..n] == db[..n] && ma[..n] == mb[..n]
    ensures Retrieved(Some(a)) == Retrieved(Some(b))
  {
    var (da, ma) := (a.documents.value[0], a.metadatas.value[0]);
    var (db, mb) := (b.documents.value[0], b.metadatas.value[0]);
    var n := Min(|da|, |ma|);
    var ra, rb := Retrieved(Some(a)), Retrieved(Some(b));
    forall k | 0 <= k < n
      ensures ra[k] == rb[k]
    {
      assert da[k] == da[..n][k] == db[..n][k] == db[k];
      assert ma[k] == ma[..n][k] == mb[..n][k] == mb[k];
    }
  }
}
