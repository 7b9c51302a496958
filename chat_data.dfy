/** The record-shaping helpers of later/Server/ChatDataProvider.py:
    `_process_results`, `_process_chat_history` and
    `_create_vector_search_pipeline`.

    A MongoDB document is a dictionary from field name to value; values are
    kept as their text. A missing field raises `KeyError`, which is
    modelled as an error result naming the field. */
module ChatData {
  import opened Common

  type Document = map<string, string>

  datatype Processed = Records(records: seq<Document>) | KeyError(key: string)

  /** The document holds every one of `keys`. */
  predicate Complete(doc: Document, keys: seq<string>) {
    forall k :: k in keys ==> k in doc
  }

  /** The first of `keys`, in order, that the document lacks. */
  function MissingKey(doc: Document, keys: seq<string>): (r: Option<string>)
    ensures r.None? <==> Complete(doc, keys)
    ensures r.Some? ==> r.value in keys && r.value !in doc
    decreases |keys|
  {
    if keys == [] then None
    else if keys[0] !in doc then Some(keys[0])
    else MissingKey(doc, keys[1..])
  }

  /** `{key: document[key] for key in keys}`. */
  function Projected(doc: Document, keys: seq<string>): (r: Document)
    requires Complete(doc, keys)
    ensures forall k :: k in r <==> k in keys
    ensures forall k :: k in r ==> r[k] == doc[k]
  {
    map k | k in keys :: doc[k]
  }

  /** The index of the first document missing one of `keys`. */
  function FirstIncomplete(docs: seq<Document>, keys: seq<string>): (r: Option<nat>)
    ensures r.Some? ==> r.value < |docs| && !Complete(docs[r.value], keys)
    ensures r.Some? ==> forall j :: 0 <= j < r.value ==> Complete(docs[j], keys)
    ensures r.None? ==> forall j :: 0 <= j < |docs| ==> Complete(docs[j], keys)
    decreases |docs|
  {
    if docs == [] then None
    else if !Complete(docs[0], keys) then Some(0)
    else match FirstIncomplete(docs[1..], keys)
      case None => None
      case Some(i) => Some(i + 1)
  }

  function ProjectedAll(docs: seq<Document>, keys: seq<string>): (r: seq<Document>)
    requires forall j :: 0 <= j < |docs| ==> Complete(docs[j], keys)
    ensures |r| == |docs|
    ensures forall j :: 0 <= j < |docs| ==> r[j] == Projected(docs[j], keys)
    decreases |docs|
  {
    if docs == [] then [] else [Projected(docs[0], keys)] + ProjectedAll(docs[1..], keys)
  }

  /** What a loop projecting every document yields: the projections in
      order, or the `KeyError` of the first document that lacks a key. */
  function Projection(docs: seq<Document>, keys: seq<string>): (r: Processed)
    ensures r.Records? <==> forall j :: 0 <= j < |docs| ==> Complete(docs[j], keys)
    ensures r.Records? ==> |r.records| == |docs|
    ensures r.KeyError? ==> r.key in keys
  {
    match FirstIncomplete(docs, keys)
    case Some(i) => KeyError(MissingKey(docs[i], keys).value)
    case None => Records(ProjectedAll(docs, keys))
  }

  /** The `for document in documents` loop of both helpers. */
  method ProjectEach(docs: seq<Document>, keys: seq<string>) returns (r: Processed)
    ensures r == Projection(docs, keys)
  {
    var processed: seq<Document> := [];
    var i := 0;
    while i < |docs|
      invariant 0 <= i <= |docs|
      invariant forall j :: 0 <= j < i ==> Complete(docs[j], keys)
      invariant |processed| == i
      invariant forall j :: 0 <= j < i ==> processed[j] == Projected(docs[j], keys)
    {
      var missing := MissingKey(docs[i], keys);
      if missing.Some? {
        return KeyError(missing.value);
      }
      processed := processed + [Projected(docs[i], keys)];
      i := i + 1;
    }
    r := Records(processed);
  }

  const ResultKeys: seq<string> := ["file", "page"]
  const HistoryKeys: seq<string> := ["question", "answer"]

  /** `_process_results(results)`. */
  method ProcessResults(results: seq<Document>) returns (r: Processed)
    ensures r == Projection(results, ResultKeys)
  {
    r := ProjectEach(results, ResultKeys);
  }

  /** Python's `s[start:]`: a negative start counts from the end, and is
      clipped to the ends. */
  function SliceFrom<T>(s: seq<T>, start: int): (r: seq<T>)
    ensures start >= 0 ==> r == s[if start <= |s| then start else |s|..]
    ensures start < 0 ==> r == s[if |s| + start >= 0 then |s| + start else 0..]
  {
    var from := if start < 0 then |s| + start else start;
    var clipped := if from < 0 then 0 else if from > |s| then |s| else from;
    s[clipped..]
  }

  /** The documents `_process_chat_history` keeps:
      `documents[(-1 * max):]` when there are more than `max`. */
  function KeptHistory(docs: seq<Document>, maxHistoryLength: nat): (r: seq<Document>)
    ensures |r| == if 0 < maxHistoryLength < |docs| then maxHistoryLength else |docs|
    ensures r == docs[|docs| - |r|..]
  {
    if |docs| > maxHistoryLength then SliceFrom(docs, -1 * maxHistoryLength) else docs
  }

  function ChatHistoryOf(chatHistory: seq<Document>, maxHistoryLength: nat): (r: Processed)
    ensures chatHistory == [] ==> r == Records([])
    ensures r.Records? ==> |r.records| == |KeptHistory(chatHistory, maxHistoryLength)|
    ensures r.KeyError? ==> r.key in HistoryKeys
  {
    if |chatHistory| == 0 then Records([])
    else Projection(KeptHistory(chatHistory, maxHistoryLength), HistoryKeys)
  }

  /** `_process_chat_history(chat_history)`. */
  method ProcessChatHistory(chatHistory: seq<Document>, maxHistoryLength: nat) returns (r: Processed)
    ensures r == ChatHistoryOf(chatHistory, maxHistoryLength)
  {
    var documents := chatHistory;
    if |documents| == 0 {
      return Records([]);
    }
    if |documents| > maxHistoryLength {
      documents := SliceFrom(documents, -1 * maxHistoryLength);
    }
    r := ProjectEach(documents, HistoryKeys);
  }

  /** A stage of the aggregation pipeline. */
  datatype Stage =
    | VectorSearch(index: string, path: string, queryVector: seq<real>, numCandidates: int, limit: int)
    | Project(excluded: string)

  /** `_create_vector_search_pipeline(collection, embedding)`; the two
      limits come from the configuration. The collection is not used. */
  function VectorSearchPipeline(collection: string, embedding: seq<real>, numCandidates: int, limit: int): (p: seq<Stage>)
    ensures |p| == 2 && p[0].VectorSearch? && p[1] == Project("embeddings")
    ensures p[0].queryVector == embedding && p[0].numCandidates == numCandidates && p[0].limit == limit
    ensures p[0].index == "vector_index" && p[0].path == "embedding"
  {
    [VectorSearch("vector_index", "embedding", embedding, numCandidates, limit), Project("embeddings")]
  }

  // ---------------------------------------------------------------------
  // Properties
  // ---------------------------------------------------------------------

  /** A processed record holds exactly the projected keys, copied from its
      document, in the documents' order. */
  lemma ProjectionShape(docs: seq<Document>, keys: seq<string>)
    requires Projection(docs, keys).Records?
    ensures |Projection(docs, keys).records| == |docs|
    ensures forall j :: 0 <= j < |docs| ==>
              (forall k :: k in Projection(docs, keys).records[j] <==> k in keys)
              && (forall k :: k in keys ==> Projection(docs, keys).records[j][k] == docs[j][k])
  {
  }

  /** A document lacking a key fails the whole call, with the first such
      document's first missing key. */
  lemma IncompleteDocumentFails(docs: seq<Document>, keys: seq<string>, j: nat)
    requires j < |docs| && !Complete(docs[j], keys)
    ensures Projection(docs, keys).KeyError?
    ensures Projection(docs, keys).key in keys
  {
  }

  /** With a positive limit, the history keeps the last `max` documents in
      their order, and the number of records is the smaller of the two
      counts. */
  lemma {:induction false} HistoryKeepsNewest(docs: seq<Document>, maxHistoryLength: nat)
    requires maxHistoryLength > 0
    ensures var kept := KeptHistory(docs, maxHistoryLength);
            |kept| == (if |docs| < maxHistoryLength then |docs| else maxHistoryLength)
            && kept == docs[|docs| - |kept|..]
    ensures ChatHistoryOf(docs, maxHistoryLength).Records? ==>
              |ChatHistoryOf(docs, maxHistoryLength).records| ==
                (if |docs| < maxHistoryLength then |docs| else maxHistoryLength)
  {
    var kept := KeptHistory(docs, maxHistoryLength);
    if |docs| > 0 && Projection(kept, HistoryKeys).Records? {
      ProjectionShape(kept, HistoryKeys);
    }
  }

  /** Documents cut off by the limit are never read: a history whose kept
      documents are complete is processed even when older ones lack
      fields. */
  lemma DroppedDocumentsNotRead(older: seq<Document>, newest: seq<Document>)
    requires |newest| > 0
    requires forall j :: 0 <= j < |newest| ==> Complete(newest[j], HistoryKeys)
    ensures ChatHistoryOf(older + newest, |newest|) == Records(ProjectedAll(newest, HistoryKeys))
  {
    var docs := older + newest;
    KeptSuffix(older, newest);
    NoneIncomplete(newest, HistoryKeys);
    assert Projection(newest, HistoryKeys) == Records(ProjectedAll(newest, HistoryKeys));
  }

  lemma KeptSuffix(older: seq<Document>, newest: seq<Document>)
    requires |newest| > 0
    ensures KeptHistory(older + newest, |newest|) == newest
  {
    var docs := older + newest;
    var n := |newest|;
    if |docs| > n {
      assert SliceFrom(docs, -1 * n) == docs[|docs| - n..];
      assert docs[|docs| - n..] == newest;
    }
  }

  lemma NoneIncomplete(docs: seq<Document>, keys: seq<string>)
    requires forall j :: 0 <= j < |docs| ==> Complete(docs[j], keys)
    ensures FirstIncomplete(docs, keys).None?
  {
  }

  /** A limit of 0 keeps everything: `documents[-0:]` is the whole list. */
  lemma ZeroLimitKeepsAll(docs: seq<Document>)
    ensures KeptHistory(docs, 0) == docs
  {
  }
}
