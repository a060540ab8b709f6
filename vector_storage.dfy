/** The vector store of backend/app/storage/vector_storage.py over an in-memory
    collection. The nearest-neighbour query itself is Chroma's: its response is an input
    here, and only the conversion of that response into retrieved contexts is modelled. */
module VectorStorage {
  import opened Wrappers
  import opened Strings
  import opened Models

  /** A stored document with its embedding and metadata. */
  datatype Entry = Entry(document: string, embedding: seq<real>, metadata: Metadata)

  /** Chroma's equality `where` filter: every filter key is present with that value. */
  predicate Matches(md: Metadata, filter: Metadata) {
    forall k :: k in filter ==> k in md && md[k] == filter[k]
  }

  // ---------------------------------------------------------------------------
  // Similarity scores and query results
  // ---------------------------------------------------------------------------

  /** Cosine distance 0 (identical) .. 2 (opposite) becomes similarity 1 .. 0. */
  function Similarity(distance: real): real {
    1.0 - distance / 2.0
  }

  /** The documented sample points, and the score falls as the distance grows. */
  lemma SimilarityScale(d1: real, d2: real)
    ensures Similarity(0.0) == 1.0 && Similarity(1.0) == 0.5 && Similarity(2.0) == 0.0 && Similarity(0.4) == 0.8
    ensures d1 < d2 ==> Similarity(d1) > Similarity(d2)
    ensures 0.0 <= d1 <= 2.0 ==> 0.0 <= Similarity(d1) <= 1.0
  {
  }

  /** The first query's row of a Chroma response. `None` stands for a missing or empty
      `metadatas` / `distances` list; a single metadata may be `None`. */
  datatype QueryRow = QueryRow(documents: seq<string>, metadatas: Option<seq<Option<Metadata>>>,
                               distances: Option<seq<real>>)

  function MetadataColumn(row: QueryRow): (ms: seq<Option<Metadata>>)
    ensures row.metadatas.None? ==> |ms| == |row.documents|
  {
    if row.metadatas.Some? then row.metadatas.value else seq(|row.documents|, _ => Some(map[]))
  }

  function DistanceColumn(row: QueryRow): (ds: seq<real>)
    ensures row.distances.None? ==> |ds| == |row.documents|
  {
    if row.distances.Some? then row.distances.value else seq(|row.documents|, _ => 0.0)
  }

  function Min3(a: nat, b: nat, c: nat): (m: nat)
    ensures m <= a && m <= b && m <= c && (m == a || m == b || m == c)
  {
    if a <= b && a <= c then a else if b <= c then b else c
  }

  /** How many triples `zip` produces. */
  function ZipLength(row: QueryRow): nat {
    Min3(|row.documents|, |MetadataColumn(row)|, |DistanceColumn(row)|)
  }

  /** Result `i` of the conversion: document `i`, metadata `i` (or `{}`), score of distance `i`. */
  function ContextAt(row: QueryRow, i: nat): RetrievedContext
    requires i < ZipLength(row)
  {
    RetrievedContext(row.documents[i], MetadataColumn(row)[i].GetOr(map[]), Similarity(DistanceColumn(row)[i]))
  }

  /** The contexts `similarity_search` returns for a response; a failed query gives none. */
  function SearchResults(response: Result<QueryRow, Error>): (r: seq<RetrievedContext>)
    ensures response.Failure? ==> r == []
    ensures response.Success? ==> |r| == ZipLength(response.value)
    ensures response.Success? ==> forall i :: 0 <= i < |r| ==> r[i] == ContextAt(response.value, i)
  {
    if response.Failure? then [] else seq(ZipLength(response.value), i requires 0 <= i < ZipLength(response.value) => ContextAt(response.value, i))
  }

  /** `similarity_search`: the zip loop over documents, metadatas and distances. */
  method SimilaritySearch(response: Result<QueryRow, Error>) returns (contexts: seq<RetrievedContext>)
    ensures contexts == SearchResults(response)
  {
    if response.Failure? {
      return [];
    }
    var row := response.value;
    contexts := [];
    if |row.documents| == 0 {
      return;
    }
    var metadatas := MetadataColumn(row);
    var distances := DistanceColumn(row);
    var n := Min3(|row.documents|, |metadatas|, |distances|);
    var i := 0;
    while i < n
      invariant 0 <= i <= n
      invariant |contexts| == i
      invariant forall j :: 0 <= j < i ==> contexts[j] == ContextAt(row, j)
    {
      var score := 1.0 - distances[i] / 2.0;
      contexts := contexts + [RetrievedContext(row.documents[i], metadatas[i].GetOr(map[]), score)];
      i := i + 1;
    }
  }

  /** Results align one-to-one with the returned documents; missing metadatas read as `{}`
      and missing distances as 0, i.e. a perfect score. */
  lemma SearchAlignsWithDocuments(row: QueryRow)
    requires row.metadatas.None? && row.distances.None?
    ensures |SearchResults(Success(row))| == |row.documents|
    ensures forall i :: 0 <= i < |row.documents| ==>
              SearchResults(Success(row))[i] == RetrievedContext(row.documents[i], map[], 1.0)
  {
  }

  lemma NoDocumentsNoResults(row: QueryRow)
    requires row.documents == []
    ensures SearchResults(Success(row)) == []
  {
  }

  // ---------------------------------------------------------------------------
  // The collection
  // ---------------------------------------------------------------------------

  /** The entries of one `add` call, keyed by id. */
  function Batch(ids: seq<string>, documents: seq<string>, embeddings: seq<seq<real>>, metadatas: seq<Metadata>): (b: map<string, Entry>)
    requires |ids| == |documents| == |embeddings| == |metadatas|
    requires Distinct(ids)
    ensures b.Keys == set i | 0 <= i < |ids| :: ids[i]
    ensures forall i :: 0 <= i < |ids| ==> b[ids[i]] == Entry(documents[i], embeddings[i], metadatas[i])
  {
    if |ids| == 0 then map[]
    else Batch(ids[1..], documents[1..], embeddings[1..], metadatas[1..])[ids[0] := Entry(documents[0], embeddings[0], metadatas[0])]
  }

  /** The `journal_conversations` collection. */
  class VectorCollection {
    var docs: map<string, Entry>

    constructor ()
      ensures docs == map[]
    {
      docs := map[];
    }

    /** `add_documents`: embeds the documents, then adds them. The add fails, leaving the
        collection as it was, when embedding fails or the batch is malformed (differing
        lengths, repeated ids); ids already in the collection keep their old entry. */
    method AddDocuments(documents: seq<string>, metadatas: seq<Metadata>, ids: seq<string>,
                        embed: seq<string> -> Result<seq<seq<real>>, Error>) returns (o: Outcome<Error>)
      modifies this
      ensures o.Fail? ==> o.error.StorageError? && docs == old(docs)
      ensures o.Pass? <==> embed(documents).Success? && |embed(documents).value| == |documents|
                           && |metadatas| == |documents| && |ids| == |documents| && Distinct(ids)
      ensures o.Pass? ==> docs == Batch(ids, documents, embed(documents).value, metadatas) + old(docs)
    {
      var embeddings := embed(documents);
      if embeddings.Failure? {
        return Fail(StorageError("Failed to index documents: embedding failed"));
      }
      if |embeddings.value| != |documents| || |metadatas| != |documents| || |ids| != |documents| || !Distinct(ids) {
        return Fail(StorageError("Failed to index documents: malformed batch"));
      }
      docs := Batch(ids, documents, embeddings.value, metadatas) + docs;
      return Pass;
    }

    /** `delete_by_metadata`: removes exactly the documents whose metadata matches the
        filter; `issued` tells whether a delete call was made at all. */
    method DeleteByMetadata(filter: Metadata) returns (issued: bool)
      modifies this
      ensures docs == map k | k in old(docs) && !Matches(old(docs)[k].metadata, filter) :: old(docs)[k]
      ensures issued <==> exists k :: k in old(docs) && Matches(old(docs)[k].metadata, filter)
    {
      var matching := set k | k in docs && Matches(docs[k].metadata, filter);
      issued := matching != {};
      if issued {
        var w :| w in matching;
        assert w in docs && Matches(docs[w].metadata, filter);
        docs := map k | k in docs && k !in matching :: docs[k];
      } else {
        forall k | k in docs
          ensures !Matches(docs[k].metadata, filter)
        {
          assert k !in matching;
        }
        assert docs == map k | k in docs && !Matches(docs[k].metadata, filter) :: docs[k];
      }
    }
  }

  /** After an add, every document of the batch is found under its id with its metadata,
      unless that id was already present. */
  lemma AddedDocumentsStored(before: map<string, Entry>, ids: seq<string>, documents: seq<string>,
                             embeddings: seq<seq<real>>, metadatas: seq<Metadata>, i: nat)
    requires |ids| == |documents| == |embeddings| == |metadatas| && Distinct(ids)
    requires i < |ids| && ids[i] !in before
    ensures var after := Batch(ids, documents, embeddings, metadatas) + before;
            ids[i] in after && after[ids[i]].document == documents[i] && after[ids[i]].metadata == metadatas[i]
  {
  }
}
