/**
 * The three ingestion handlers of main.py (`ingest_text`, `ingest_url`,
 * `ingest_file`). Each one turns its input into text, cuts the text with the
 * chunker's defaults, builds for every chunk an embedding, a metadata record
 * and a fresh identifier in four parallel lists, and hands the lists to the
 * store in one `add`. Any failure along the way ends the request before the
 * store is touched.
 *
 * The embedding model, the URL fetch and the UTF-8 decoding are outside the
 * model: their outcomes are parameters (`embed`, `fetched`, `decoded`).
 */
module Ingestion {
  import opened Wrappers
  import opened Store
  import Chunker

  /** Where the text of a request came from, with what the handler keeps of it. */
  datatype Origin =
    | FromText(user: Option<Metadata>)
    | FromUrl(url: string, user: Option<Metadata>)
    | FromFile(filename: string, contentType: string)

  /** Why a request failed. Every one of them surfaces as an error response. */
  datatype IngestError =
    | EmbeddingFailed            // `generate_embedding` raised (main.py:104-106)
    | MetadataNotADict           // the request's `metadata` was null, so `**request.metadata` raised
    | FetchFailed(detail: string) // `fetch_url_content` raised (main.py:151-153)
    | Rejected(detail: string)   // the content-type gate (main.py:271-285)
    | DecodeFailed               // the upload is not valid UTF-8 (main.py:279)

  /** The value of the `source_type` key. */
  function SourceType(origin: Origin): string {
    match origin
    case FromText(_) => "text"
    case FromUrl(_, _) => "url"
    case FromFile(_, _) => "file"
  }

  /**
   * `{**user, **fixed}`: the record has every key of either record, the fixed
   * record's value winning where both have a key.
   */
  predicate Spread(user: Metadata, fixed: Metadata, r: Metadata) {
    && r.Keys == user.Keys + fixed.Keys
    && (forall k :: k in fixed ==> r[k] == fixed[k])
    && (forall k :: k in user && k !in fixed ==> r[k] == user[k])
  }

  /** The keys every chunk's record ends with: its index, the chunk total and the source type. */
  function Counters(i: nat, total: nat, sourceType: string): Metadata {
    map["chunk_index" := Int(i), "total_chunks" := Int(total), "source_type" := Str(sourceType)]
  }

  /**
   * The record of chunk `i` of `total` for pasted text (main.py:181-186): the
   * caller's record with the counters written over it. A null caller record
   * makes the spread fail.
   */
  function TextMetadata(user: Option<Metadata>, i: nat, total: nat): (r: Result<Metadata, IngestError>)
    ensures user.None? ==> r == Failure(MetadataNotADict)
    ensures user.Some? ==> r.Success? && Spread(user.value, Counters(i, total, "text"), r.value)
  {
    if user.None? then Failure(MetadataNotADict)
    else Success(user.value + Counters(i, total, "text"))
  }

  /**
   * The record of chunk `i` of `total` for a fetched page (main.py:231-237):
   * the caller's record with the URL and the counters written over it.
   */
  function UrlMetadata(url: string, user: Option<Metadata>, i: nat, total: nat): (r: Result<Metadata, IngestError>)
    ensures user.None? ==> r == Failure(MetadataNotADict)
    ensures user.Some? ==>
      && r.Success?
      && Spread(user.value, map["url" := Str(url)] + Counters(i, total, "url"), r.value)
      && r.value["url"] == Str(url)
  {
    if user.None? then Failure(MetadataNotADict)
    else Success(user.value + map["url" := Str(url)] + Counters(i, total, "url"))
  }

  /**
   * The record of chunk `i` of `total` for an upload (main.py:300-306): only
   * the file's name and content type and the counters; nothing from the caller.
   */
  function FileMetadata(filename: string, contentType: string, i: nat, total: nat): (m: Metadata)
    ensures m.Keys == {"filename", "content_type", "chunk_index", "total_chunks", "source_type"}
    ensures m["filename"] == Str(filename) && m["content_type"] == Str(contentType)
    ensures forall k :: k in Counters(i, total, "file") ==> m[k] == Counters(i, total, "file")[k]
  {
    map["filename" := Str(filename), "content_type" := Str(contentType)] + Counters(i, total, "file")
  }

  /** The record the caller sent, which a file upload does not have. */
  function CallerRecord(origin: Origin): Metadata {
    match origin
    case FromText(user) => if user.Some? then user.value else map[]
    case FromUrl(_, user) => if user.Some? then user.value else map[]
    case FromFile(_, _) => map[]
  }

  /** The keys the handler writes for chunk `i` of `total`, whatever the caller sent. */
  function HandlerRecord(origin: Origin, i: nat, total: nat): Metadata {
    match origin
    case FromText(_) => Counters(i, total, "text")
    case FromUrl(url, _) => map["url" := Str(url)] + Counters(i, total, "url")
    case FromFile(filename, contentType) =>
      map["filename" := Str(filename), "content_type" := Str(contentType)] + Counters(i, total, "file")
  }

  /**
   * The record of chunk `i` of `total`, by where the text came from: the
   * caller's record with the handler's keys written over it, or a failure
   * when the caller's record is null.
   */
  function ChunkMetadata(origin: Origin, i: nat, total: nat): (r: Result<Metadata, IngestError>)
    ensures r.Failure? <==> !origin.FromFile? && origin.user.None?
    ensures r.Failure? ==> r.error == MetadataNotADict
    ensures r.Success? ==> Spread(CallerRecord(origin), HandlerRecord(origin, i, total), r.value)
  {
    match origin
    case FromText(user) => TextMetadata(user, i, total)
    case FromUrl(url, user) => UrlMetadata(url, user, i, total)
    case FromFile(filename, contentType) => Success(FileMetadata(filename, contentType, i, total))
  }

  /**
   * What the loop body makes of chunk `i`, in the order of the code: the
   * embedding, then the metadata, then the `firstId + i`-th identifier.
   */
  function EntryAt(chunks: seq<string>, origin: Origin, embed: string -> Option<Embedding>, firstId: nat, i: nat)
    : (r: Result<Entry, IngestError>)
    requires i < |chunks|
  {
    match embed(chunks[i])
    case None => Failure(EmbeddingFailed)
    case Some(embedding) =>
      match ChunkMetadata(origin, i, |chunks|)
      case Failure(error) => Failure(error)
      case Success(metadata) => Success(Entry(Uuid(firstId + i), chunks[i], embedding, metadata))
  }

  /** Every chunk gets through the loop body. */
  predicate AllEntriesOk(chunks: seq<string>, origin: Origin, embed: string -> Option<Embedding>, firstId: nat) {
    forall i :: 0 <= i < |chunks| ==> EntryAt(chunks, origin, embed, firstId, i).Success?
  }

  /** Chunk `i` is the first one that does not get through the loop body, and it fails with `error`. */
  predicate FirstFailure(chunks: seq<string>, origin: Origin, embed: string -> Option<Embedding>, firstId: nat,
                         i: nat, error: IngestError) {
    && i < |chunks|
    && EntryAt(chunks, origin, embed, firstId, i) == Failure(error)
    && forall j :: 0 <= j < i ==> EntryAt(chunks, origin, embed, firstId, j).Success?
  }

  /** `after` is `before` followed by one entry per chunk, entry `i` being what the loop made of chunk `i`. */
  predicate Appended(before: seq<Entry>, after: seq<Entry>, chunks: seq<string>, origin: Origin,
                     embed: string -> Option<Embedding>, firstId: nat) {
    && |after| == |before| + |chunks|
    && after[..|before|] == before
    && forall i :: 0 <= i < |chunks| ==> EntryAt(chunks, origin, embed, firstId, i) == Success(after[|before| + i])
  }

  /**
   * The loop body for chunk `i` (main.py:177-191): its embedding, then its
   * metadata, then a new identifier, drawn only once both have succeeded.
   */
  method PrepareEntry(chunks: seq<string>, origin: Origin, embed: string -> Option<Embedding>, uuids: UuidSource,
                      ghost firstId: nat, i: nat)
    returns (r: Result<Entry, IngestError>)
    requires i < |chunks| && uuids.next == firstId + i
    modifies uuids
    ensures r == EntryAt(chunks, origin, embed, firstId, i)
    ensures uuids.next == old(uuids.next) + (if r.Success? then 1 else 0)
  {
    var embedding := embed(chunks[i]);
    if embedding.None? {
      r := Failure(EmbeddingFailed);
      return;
    }
    var metadata := ChunkMetadata(origin, i, |chunks|);
    if metadata.Failure? {
      r := Failure(metadata.error);
      return;
    }
    var id := uuids.Fresh();
    r := Success(Entry(id, chunks[i], embedding.value, metadata.value));
  }

  /** The four parallel lists handed to `add`. */
  datatype Batch = Batch(documents: seq<string>, embeddings: seq<Embedding>, metadatas: seq<Metadata>, ids: seq<string>)

  /** A chunk that fails after all earlier ones got through gives the first error, and the batch is not complete. */
  lemma FailsFirstAt(chunks: seq<string>, origin: Origin, embed: string -> Option<Embedding>, firstId: nat, i: nat)
    requires i < |chunks| && EntryAt(chunks, origin, embed, firstId, i).Failure?
    requires forall j :: 0 <= j < i ==> EntryAt(chunks, origin, embed, firstId, j).Success?
    ensures FirstFailure(chunks, origin, embed, firstId, i, EntryAt(chunks, origin, embed, firstId, i).error)
    ensures !AllEntriesOk(chunks, origin, embed, firstId)
  {
  }

  /** Lists that hold the entry of every chunk, position by position, are the complete batch. */
  lemma BatchComplete(chunks: seq<string>, origin: Origin, embed: string -> Option<Embedding>, firstId: nat,
                      documents: seq<string>, embeddings: seq<Embedding>, metadatas: seq<Metadata>, ids: seq<string>)
    requires |documents| == |embeddings| == |metadatas| == |ids| == |chunks|
    requires forall j :: 0 <= j < |chunks| ==>
      EntryAt(chunks, origin, embed, firstId, j) == Success(Entry(ids[j], documents[j], embeddings[j], metadatas[j]))
    ensures AllEntriesOk(chunks, origin, embed, firstId)
    ensures Appended([], Zip(documents, embeddings, metadatas, ids), chunks, origin, embed, firstId)
  {
  }

  /**
   * The loop over `enumerate(chunks)` (main.py:176-191): it either fails on the
   * first chunk that cannot be embedded or given metadata, or yields four
   * lists of `|chunks|` elements whose position `i` is the entry for chunk `i`.
   * One identifier is drawn per chunk that got through.
   */
  method BuildBatch(chunks: seq<string>, origin: Origin, embed: string -> Option<Embedding>, uuids: UuidSource)
    returns (r: Result<Batch, IngestError>)
    modifies uuids
    ensures old(uuids.next) <= uuids.next <= old(uuids.next) + |chunks|
    ensures r.Success? <==> AllEntriesOk(chunks, origin, embed, old(uuids.next))
    ensures r.Failure? ==>
      FirstFailure(chunks, origin, embed, old(uuids.next), uuids.next - old(uuids.next), r.error)
    ensures r.Success? ==>
      && Aligned(r.value.documents, r.value.embeddings, r.value.metadatas, r.value.ids)
      && r.value.documents == chunks
      && Appended([], Zip(r.value.documents, r.value.embeddings, r.value.metadatas, r.value.ids),
                  chunks, origin, embed, old(uuids.next))
      && uuids.next == old(uuids.next) + |chunks|
  {
    ghost var firstId := uuids.next;
    var documents: seq<string> := [];
    var embeddings: seq<Embedding> := [];
    var metadatas: seq<Metadata> := [];
    var ids: seq<string> := [];
    var i := 0;
    while i < |chunks|
      invariant 0 <= i <= |chunks|
      invariant uuids.next == firstId + i
      invariant |documents| == |embeddings| == |metadatas| == |ids| == i
      invariant documents == chunks[..i]
      invariant forall j :: 0 <= j < i ==>
        EntryAt(chunks, origin, embed, firstId, j) == Success(Entry(ids[j], documents[j], embeddings[j], metadatas[j]))
    {
      var entry := PrepareEntry(chunks, origin, embed, uuids, firstId, i);
      if entry.Failure? {
        FailsFirstAt(chunks, origin, embed, firstId, i);
        r := Failure(entry.error);
        return;
      }
      documents := documents + [entry.value.document];
      embeddings := embeddings + [entry.value.embedding];
      metadatas := metadatas + [entry.value.metadata];
      ids := ids + [entry.value.id];
      i := i + 1;
    }
    BatchComplete(chunks, origin, embed, firstId, documents, embeddings, metadatas, ids);
    r := Success(Batch(documents, embeddings, metadatas, ids));
  }

  /**
   * The loop and the one `add` that follows it (main.py:176-205): on success
   * the store holds one new entry per chunk, after the old ones, and the
   * result is the new count; on failure the store is unchanged.
   */
  method IngestChunks(store: Collection, uuids: UuidSource, embed: string -> Option<Embedding>,
                      chunks: seq<string>, origin: Origin)
    returns (r: Result<nat, IngestError>)
    modifies store, uuids
    ensures old(uuids.next) <= uuids.next <= old(uuids.next) + |chunks|
    ensures r.Success? <==> AllEntriesOk(chunks, origin, embed, old(uuids.next))
    ensures r.Failure? ==> store.entries == old(store.entries)
    ensures r.Failure? ==>
      FirstFailure(chunks, origin, embed, old(uuids.next), uuids.next - old(uuids.next), r.error)
    ensures r.Success? ==>
      && Appended(old(store.entries), store.entries, chunks, origin, embed, old(uuids.next))
      && r.value == |store.entries| == |old(store.entries)| + |chunks|
      && uuids.next == old(uuids.next) + |chunks|
  {
    var batch := BuildBatch(chunks, origin, embed, uuids);
    if batch.Failure? {
      r := Failure(batch.error);
      return;
    }
    var b := batch.value;
    ghost var added := Zip(b.documents, b.embeddings, b.metadatas, b.ids);
    store.Add(b.documents, b.embeddings, b.metadatas, b.ids);
    assert store.entries == old(store.entries) + added;
    assert forall i :: 0 <= i < |chunks| ==> store.entries[|old(store.entries)| + i] == added[i];
    var total := store.Count();
    r := Success(total);
  }

  /** The body of a successful ingestion response. */
  datatype IngestReply = IngestReply(
    message: string,
    url: Option<string>,
    filename: Option<string>,
    chunksAdded: nat,
    totalDocuments: nat)

  /** `POST /api/ingest/text` (main.py:164-209). */
  method IngestText(store: Collection, uuids: UuidSource, embed: string -> Option<Embedding>,
                    text: string, metadata: Option<Metadata>)
    returns (r: Result<IngestReply, IngestError>)
    modifies store, uuids
    ensures old(uuids.next) <= uuids.next
    ensures r.Success? <==>
      AllEntriesOk(Chunker.Chunks(text, 1000, 200), FromText(metadata), embed, old(uuids.next))
    ensures r.Failure? ==> store.entries == old(store.entries)
    ensures r.Failure? ==>
      FirstFailure(Chunker.Chunks(text, 1000, 200), FromText(metadata), embed, old(uuids.next),
                   uuids.next - old(uuids.next), r.error)
    ensures r.Success? ==>
      && Appended(old(store.entries), store.entries, Chunker.Chunks(text, 1000, 200), FromText(metadata),
                  embed, old(uuids.next))
      && uuids.next == old(uuids.next) + |Chunker.Chunks(text, 1000, 200)|
      && r.value == IngestReply("Text added successfully", None, None,
                                |Chunker.Chunks(text, 1000, 200)|, |store.entries|)
  {
    var chunks := Chunker.ChunkText(text, Chunker.DefaultChunkSize, Chunker.DefaultOverlap);
    var total := IngestChunks(store, uuids, embed, chunks, FromText(metadata));
    if total.Failure? {
      r := Failure(total.error);
      return;
    }
    r := Success(IngestReply("Text added successfully", None, None, |chunks|, total.value));
  }

  /**
   * `POST /api/ingest/url` (main.py:211-261). `fetched` is what
   * `fetch_url_content(url)` gave: the page text, or the reason it failed.
   */
  method IngestUrl(store: Collection, uuids: UuidSource, embed: string -> Option<Embedding>,
                   url: string, metadata: Option<Metadata>, fetched: Result<string, string>)
    returns (r: Result<IngestReply, IngestError>)
    modifies store, uuids
    ensures old(uuids.next) <= uuids.next
    ensures fetched.Failure? ==>
      r == Failure(FetchFailed("URL fetch failed: " + fetched.error)) && uuids.next == old(uuids.next)
    ensures r.Failure? ==> store.entries == old(store.entries)
    ensures fetched.Success? ==>
      (r.Success? <==> AllEntriesOk(Chunker.Chunks(fetched.value, 1000, 200), FromUrl(url, metadata), embed, old(uuids.next)))
    ensures fetched.Success? && r.Failure? ==>
      FirstFailure(Chunker.Chunks(fetched.value, 1000, 200), FromUrl(url, metadata), embed, old(uuids.next),
                   uuids.next - old(uuids.next), r.error)
    ensures r.Success? ==>
      && fetched.Success?
      && Appended(old(store.entries), store.entries, Chunker.Chunks(fetched.value, 1000, 200),
                  FromUrl(url, metadata), embed, old(uuids.next))
      && uuids.next == old(uuids.next) + |Chunker.Chunks(fetched.value, 1000, 200)|
      && r.value == IngestReply("URL content added successfully", Some(url), None,
                                |Chunker.Chunks(fetched.value, 1000, 200)|, |store.entries|)
  {
    if fetched.Failure? {
      r := Failure(FetchFailed("URL fetch failed: " + fetched.error));
      return;
    }
    var chunks := Chunker.ChunkText(fetched.value, Chunker.DefaultChunkSize, Chunker.DefaultOverlap);
    var total := IngestChunks(store, uuids, embed, chunks, FromUrl(url, metadata));
    if total.Failure? {
      r := Failure(total.error);
      return;
    }
    r := Success(IngestReply("URL content added successfully", Some(url), None, |chunks|, total.value));
  }

  /** The message for an upload that is neither plain text nor PDF. */
  const OnlyTextDetail: string := "Only text (.txt) files are supported"

  /** The message for a PDF upload. */
  const PdfDetail: string := "PDF support has not been added yet"

  /**
   * The content-type gate of `ingest_file` (main.py:271-285): `None` lets the
   * upload through, otherwise the rejection message. Only plain text gets
   * through; a PDF is turned away with a message of its own.
   */
  function Rejection(contentType: string): (r: Option<string>)
    ensures r.None? <==> contentType == "text/plain"
    ensures contentType == "application/pdf" ==> r == Some(PdfDetail)
    ensures contentType != "text/plain" && contentType != "application/pdf" ==> r == Some(OnlyTextDetail)
  {
    if contentType !in ["text/plain", "application/pdf"] then Some(OnlyTextDetail)
    else if contentType == "text/plain" then None
    else Some(PdfDetail)
  }

  /**
   * `POST /api/ingest/file` (main.py:263-330). `decoded` is what
   * `content.decode('utf-8')` gave for the uploaded bytes: the text, or
   * nothing when they are not valid UTF-8.
   */
  method IngestFile(store: Collection, uuids: UuidSource, embed: string -> Option<Embedding>,
                    filename: string, contentType: string, decoded: Option<string>)
    returns (r: Result<IngestReply, IngestError>)
    modifies store, uuids
    ensures old(uuids.next) <= uuids.next
    ensures Rejection(contentType).Some? ==>
      r == Failure(Rejected(Rejection(contentType).value)) && uuids.next == old(uuids.next)
    ensures contentType == "text/plain" && decoded.None? ==>
      r == Failure(DecodeFailed) && uuids.next == old(uuids.next)
    ensures r.Failure? ==> store.entries == old(store.entries)
    ensures contentType == "text/plain" && decoded.Some? ==>
      (r.Success? <==> AllEntriesOk(Chunker.Chunks(decoded.value, 1000, 200), FromFile(filename, contentType), embed, old(uuids.next)))
    ensures contentType == "text/plain" && decoded.Some? && r.Failure? ==>
      FirstFailure(Chunker.Chunks(decoded.value, 1000, 200), FromFile(filename, contentType), embed, old(uuids.next),
                   uuids.next - old(uuids.next), r.error)
    ensures r.Success? ==>
      && contentType == "text/plain" && decoded.Some?
      && Appended(old(store.entries), store.entries, Chunker.Chunks(decoded.value, 1000, 200),
                  FromFile(filename, contentType), embed, old(uuids.next))
      && uuids.next == old(uuids.next) + |Chunker.Chunks(decoded.value, 1000, 200)|
      && r.value == IngestReply("File added successfully", None, Some(filename),
                                |Chunker.Chunks(decoded.value, 1000, 200)|, |store.entries|)
  {
    var rejection := Rejection(contentType);
    if rejection.Some? {
      r := Failure(Rejected(rejection.value));
      return;
    }
    if decoded.None? {
      r := Failure(DecodeFailed);
      return;
    }
    var chunks := Chunker.ChunkText(decoded.value, Chunker.DefaultChunkSize, Chunker.DefaultOverlap);
    var total := IngestChunks(store, uuids, embed, chunks, FromFile(filename, contentType));
    if total.Failure? {
      r := Failure(total.error);
      return;
    }
    r := Success(IngestReply("File added successfully", None, Some(filename), |chunks|, total.value));
  }

  /**
   * The identifiers of one batch are all new: entry `i` carries the
   * `firstId + i`-th identifier, so two entries of the batch never share one,
   * and none repeats an identifier handed out before the batch.
   */
  lemma BatchIdsFresh(chunks: seq<string>, origin: Origin, embed: string -> Option<Embedding>, firstId: nat, i: nat, j: nat, k: nat)
    requires i < |chunks| && j < |chunks|
    requires EntryAt(chunks, origin, embed, firstId, i).Success?
    requires EntryAt(chunks, origin, embed, firstId, j).Success?
    requires k < firstId
    ensures EntryAt(chunks, origin, embed, firstId, i).value.id != Uuid(k)
    ensures i != j ==> EntryAt(chunks, origin, embed, firstId, i).value.id != EntryAt(chunks, origin, embed, firstId, j).value.id
  {
    UuidInjective(firstId + i, k);
    UuidInjective(firstId + i, firstId + j);
  }

  /**
   * Chunk `i`'s entry carries the `firstId + i`-th identifier, the chunk
   * itself, its embedding and the record built for position `i`, which holds
   * the position, the number of chunks and the source type of the request.
   */
  lemma EntryRecordsPosition(chunks: seq<string>, origin: Origin, embed: string -> Option<Embedding>, firstId: nat, i: nat)
    requires i < |chunks|
    requires EntryAt(chunks, origin, embed, firstId, i).Success?
    ensures var e := EntryAt(chunks, origin, embed, firstId, i).value;
      && e.id == Uuid(firstId + i)
      && e.document == chunks[i]
      && e.embedding == embed(chunks[i]).value
      && e.metadata == ChunkMetadata(origin, i, |chunks|).value
      && e.metadata["chunk_index"] == Int(i)
      && e.metadata["total_chunks"] == Int(|chunks|)
      && e.metadata["source_type"] == Str(SourceType(origin))
  {
  }

  /** Chunks that cannot be embedded, or a null caller record, fail the whole request. */
  lemma EntryFailures(chunks: seq<string>, origin: Origin, embed: string -> Option<Embedding>, firstId: nat, i: nat)
    requires i < |chunks|
    ensures embed(chunks[i]).None? ==> EntryAt(chunks, origin, embed, firstId, i) == Failure(EmbeddingFailed)
    ensures embed(chunks[i]).Some? && !origin.FromFile? && origin.user.None? ==>
      EntryAt(chunks, origin, embed, firstId, i) == Failure(MetadataNotADict)
    ensures embed(chunks[i]).Some? && (origin.FromFile? || origin.user.Some?) ==>
      EntryAt(chunks, origin, embed, firstId, i).Success?
  {
  }

  /** An empty text adds nothing and cannot fail. */
  lemma EmptyTextAddsNothing(origin: Origin, embed: string -> Option<Embedding>, firstId: nat)
    ensures Chunker.Chunks("", 1000, 200) == []
    ensures AllEntriesOk(Chunker.Chunks("", 1000, 200), origin, embed, firstId)
  {
  }
}
