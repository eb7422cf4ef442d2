# Customer-support RAG backend — a Dafny model of its core

The service (`main.py`) is a FastAPI backend that keeps a knowledge base in one
Chroma collection, `customer_support_kb`, and answers customer questions with a
language model grounded in the nearest stored chunks. This project models the
logic of that backend, leaving out the libraries it calls:

- **Chunking** (`Chunker`, `PyText`): `chunk_text` slides a 1000-character window over
  the text with an overlap of 200. A window that stops short of the end of the
  text is cut back to just after its last '.' or '\n' when that break lies far
  enough in. Every chunk is stripped of surrounding whitespace. The method `ChunkText` is
  the loop itself. It is proved equal to the function `Chunks`, about which the
  lemmas state coverage, chaining, lengths and worked cases.
- **Ingestion** (`Ingestion`): the text, URL and file handlers. Each cuts its text
  into chunks and builds, chunk by chunk, an embedding, a metadata record and a new
  identifier in four parallel lists. It then stores them with one `add`, or fails
  before the store is touched. There is also the content-type gate of file uploads.
- **The store** (`Store`): the collection as a class whose entries `add` appends
  to, `count` counts and clearing empties. The identifier source `uuid.uuid4()`
  is a class that never hands out the same identifier twice.
- **Chat** (`Chat`): a 200-character preview plus "..." per hit, one source per hit in
  search order, the blank-line-joined context, the prompt, and the
  conversation-id fallback.
- **Bookkeeping** (`Admin`): health, statistics and clearing.

The chunker follows the code, including two behaviours that a reader of its
intent might not expect:

- The break index comes from `rfind` on the window, so it is relative to the
  window. It is compared with the absolute offset `start + chunk_size // 2` and
  used as an absolute slice end. A later window can therefore be cut in the middle
  of a word (`LaterWindowCutsBesideBreak`).
- A window that reaches the end of the text does not stop the loop. With the
  defaults, 2500 characters without breaks give four chunks, starting at 0, 800,
  1600 and 2400, not three (`DefaultSlidingWindow`, `TrailingChunk`).

## Model

| member | source | states |
|---|---|---|
| PyText.Strip | main.py:137 | `strip()` never lengthens a chunk |
| PyText.StripSpec | main.py:137 | `strip()` keeps the contiguous middle of a chunk; everything it removes on either side is whitespace, and a nonempty result neither starts nor ends with whitespace |
| PyText.StripIdempotent | main.py:137 | stripping an already stripped chunk changes nothing |
| PyText.RFind | main.py:129-130 | `rfind` gives -1 or an index inside the searched text |
| PyText.RFindSpec | main.py:129-130 | `rfind` gives the index of the last occurrence, or -1 when there is none |
| PyText.Slice | main.py:125 | a slice whose upper bound passes the end of the text is clamped to the text's length |
| PyText.JoinLength | main.py:363 | `sep.join(parts)` is as long as all the parts together plus one `sep` between each two neighbours |
| PyText.JoinLayout | main.py:363 | in `sep.join(parts)` every part appears whole at its offset, followed by `sep` unless it is the last, and the join ends with the last part |
| Chunker.BreakPoint | main.py:129-131 | the break point is -1 or an index inside the window |
| Chunker.BreakPointSpec | main.py:129-131 | the break point is the index of a '.' or '\n' in the window, and no break follows it |
| Chunker.BreakPointIsMaxRFind | main.py:129-131 | the break point is the larger of the last '.' and the last '\n' found by `rfind` |
| Chunker.WindowEnd | main.py:124-135 | after one pass `end` is more than half a window past `start` and at most a window past it |
| Chunker.WindowEndCut | main.py:128-135 | a snapped `end` lies right after the window's last break, counted from the start of the window; an unsnapped `end` is `start + chunk_size` |
| Chunker.RawFrom | main.py:123-141 | the loop emits a chunk exactly when it starts inside the text |
| Chunker.StripAll | main.py:137 | there is one stripped chunk per raw chunk |
| Chunker.StripAllIndex | main.py:137 | chunk `i` is raw chunk `i` stripped |
| Chunker.CutWindow | main.py:124-135 | one loop pass yields `end` as specified by `WindowEnd` and the chunk `text[start:end]` |
| Chunker.ChunkText | main.py:118-143 | the loop returns exactly the chunks the specification `Chunks` describes |
| Chunker.SpansInside | main.py:123-141 | every range the loop visits starts inside the text, is nonempty and is at most `chunk_size` long |
| Chunker.SpansChain | main.py:138-141 | the first range starts at 0; each next range starts `overlap` before the previous end and strictly after the previous start; after the last range the next start is past the end of the text |
| Chunker.RawSpans | main.py:125-137 | raw chunk `i` is the text of range `i`, one per range |
| Chunker.ChunkSpans | main.py:118-143 | chunk `i` is the stripped text of range `i`, so no chunk is longer than `chunk_size` |
| Chunker.SpansCover | main.py:123-141 | every character of the text lies inside some chunk's range |
| Chunker.Chunks | main.py:118-143 | `chunk_text` returns no chunks exactly when the text is empty |
| Chunker.ReachesEnd | main.py:128-141 | a window reaching the end of the text is taken whole, and the loop continues from `start + chunk_size - overlap` |
| Chunker.SingleChunk | main.py:123-141 | a text no longer than `chunk_size - overlap` is one chunk, the stripped text |
| Chunker.TrailingRaw | main.py:138-141 | a text longer than one step but within one window gives two raw chunks: the text and its last part from `chunk_size - overlap` |
| Chunker.TrailingChunk | main.py:138-141 | such a text gives the stripped text plus a trailing chunk repeating its tail |
| Chunker.NoBreakNoSnap | main.py:128-135 | a window without '.' or '\n' is never cut back |
| Chunker.SnapAt | main.py:129-135 | with the last break at window index `b`, the window ends at `b + 1` when `b > start + chunk_size // 2`, else at `start + chunk_size` |
| Chunker.DefaultSlidingRaw | main.py:118-141 | under the defaults, 2500 characters without breaks are cut at ranges 0-1000, 800-1800, 1600-2600 and 2400-3400 |
| Chunker.DefaultSlidingWindow | main.py:118-143 | under the defaults, 2500 characters without breaks give four chunks, the last two being the text from 1600 and from 2400 |
| Chunker.LaterWindowRaw | main.py:129-138 | a 15-character text with breaks at 6 and 11, cut with windows of 10 and an overlap of 5, gives the raw chunks `text[0:7]`, `text[2:10]`, `text[5:]` and `text[10:]` |
| Chunker.LaterWindowCutsBesideBreak | main.py:133-135 | for that text the second chunk ends at 10, beside the break at 11, because the window-relative index is used as an absolute end |
| Chunker.SampleBreaksAt6And11 | main.py:129-130 | "aaaaaa.aaaa.bbb" has breaks exactly at 6 and 11 |
| Chunker.StallBeyondHalfOverlap | main.py:133-138 | with an overlap above half the window, a snapped window can send the loop back to its own start |
| Store.Zip | main.py:194-199 | `add` stores entry `i` from position `i` of each of the four lists |
| Store.Collection.constructor | main.py:71-74 | a freshly created collection is empty |
| Store.Collection.Add | main.py:194-199 | `add` appends the batch's entries after the existing ones, in order |
| Store.Collection.Count | main.py:204 | `count()` is the number of stored entries |
| Store.Collection.Clear | main.py:417-422 | the collection that replaces the deleted one is empty |
| Store.UuidInjective | main.py:191 | identifiers handed out at different times differ |
| Store.UuidSource.Fresh | main.py:191 | each call hands out the next, never used identifier |
| Ingestion.TextMetadata | main.py:181-186 | a text chunk's record is the caller's record with `chunk_index`, `total_chunks` and `source_type` "text" written over it, the caller's other keys kept; a null caller record fails |
| Ingestion.UrlMetadata | main.py:231-237 | a page chunk's record is the caller's record with `url`, the counters and `source_type` "url" written over it, the caller's other keys kept; a null caller record fails |
| Ingestion.FileMetadata | main.py:300-306 | an upload chunk's record has exactly `filename`, `content_type`, `chunk_index`, `total_chunks` and `source_type` "file", nothing from the caller |
| Ingestion.ChunkMetadata | main.py:181-186 | for every origin the chunk's record is the caller's record (none for an upload) with the handler's keys written over it and the caller's other keys kept; it fails exactly when a text or URL request has a null record |
| Ingestion.PrepareEntry | main.py:177-191 | one loop pass embeds the chunk, then builds its metadata, then draws an identifier only when both succeeded; it fails with the first failure |
| Ingestion.EntryFailures | main.py:178-186 | a chunk fails on a failed embedding first, then on a null caller record, and otherwise gets an entry |
| Ingestion.EntryRecordsPosition | main.py:177-191 | chunk `i`'s entry carries the `i`-th identifier of the batch, the chunk, its embedding and the record built for position `i`, holding index `i`, the chunk total and the source type |
| Ingestion.BuildBatch | main.py:176-191 | the four lists are built exactly when every chunk gets through; a failure is that of the first failing chunk, whose index is the number of identifiers drawn; one identifier is drawn per chunk that got through |
| Ingestion.BatchIdsFresh | main.py:191 | the identifiers of one batch differ from each other and from every earlier one |
| Ingestion.IngestChunks | main.py:176-205 | on success the store gains one entry per chunk, after the old ones, and the reply count is the new size, one identifier having been drawn per chunk; on failure the store is unchanged and the failing chunk is the first, its index being the number of identifiers drawn |
| Ingestion.IngestText | main.py:164-209 | the text is cut with the defaults and stored; the reply has "Text added successfully", the chunk count and the total; one identifier is drawn per chunk, and a failure names the first failing chunk |
| Ingestion.IngestUrl | main.py:211-261 | a failed fetch fails with "URL fetch failed: " and the reason; otherwise the page is stored and the reply carries the URL; a failed fetch draws no identifier, a stored page one per chunk |
| Ingestion.Rejection | main.py:271-285 | only "text/plain" passes; a PDF and any other type are turned away with their own messages |
| Ingestion.IngestFile | main.py:263-330 | a rejected type or undecodable upload fails before storing; otherwise the text is stored and the reply carries the filename; a rejected or undecodable upload draws no identifier, a stored one one per chunk |
| Ingestion.EmptyTextAddsNothing | main.py:169-176 | an empty text has no chunks, so no chunk can fail |
| Admin.Health | main.py:160-162 | health is "healthy" with the current entry count |
| Admin.Stats | main.py:398-407 | statistics report the entry count, the collection name and "active" |
| Admin.ClearDatabase | main.py:412-424 | clearing empties the store and answers "Database cleared successfully" |
| Chat.Preview | main.py:358 | a document of at most 200 characters is shown whole; a longer one as its first 200 characters and "..." |
| Chat.PreviewIdempotent | main.py:358 | previewing a preview changes nothing |
| Chat.SourceOf | main.py:357-361 | a hit is reported with its preview, its metadata record unchanged and a score that is one minus its distance |
| Chat.SimilarityReversesDistance | main.py:360 | a nearer hit never scores lower than a farther one |
| Chat.HitCount | main.py:351-355 | `zip` yields as many hits as the shortest of the three result lists |
| Chat.CollectHits | main.py:350-361 | the context documents are the hits' documents, and there is one source per hit in search order |
| Chat.NoHitsEmptyContext | main.py:350-363 | without hits there are no sources and the context is empty |
| Chat.ContextOf | main.py:363 | without hits the context is empty; with one it is that document; otherwise it is as long as the documents plus a blank line between each two |
| Chat.ContextCarriesHit | main.py:363 | every hit's document appears whole in the context, separated from the next by a blank line |
| Chat.Prompt | main.py:366-380 | the prompt opens with the fixed instructions, closes with the fixed rules and "Response:", and has room for exactly the context, the label and the question between them |
| Chat.PromptCarries | main.py:366-380 | the prompt carries the context and the question whole, each at a fixed place |
| Chat.ResolveConversationId | main.py:386 | a non-empty conversation id is kept; otherwise a new identifier is drawn, and only then |
| Chat.Chat | main.py:335-392 | a failed embedding or generation fails without drawing an identifier; otherwise the answer is the model's reply to the prompt, with one source per hit and the resolved conversation id |

## Left out

- HTTP, FastAPI routing, CORS, logging, the root welcome message (main.py:156-158) and status codes. An error is a `Failure` value. The 400 versus 500 codes and the outer `except` that re-wraps every error as a 500 with its text are not modelled.
- The Chroma client and its configuration (cloud or local, main.py:50-68) are left out. The nearest-neighbour search is a parameter of `Chat.Chat`, so the ranking, the cosine space and `n_results` capping are not modelled.
- Store.Collection.constructor: models only the create branch of `get_or_create_collection` (main.py:71-74). A start over an existing persistent or cloud collection keeps its entries, which the model does not capture.
- Ingestion.IngestChunks: models `add` on an empty batch (an empty text) as storing nothing, whatever the store library does with empty lists.
- The Gemini embedding and generation calls (main.py:95-116) are parameters that give a value or fail. Model names and task types are left out.
- `fetch_url_content` (main.py:145-153) is a parameter giving the page text or the failure reason. Network access and timeouts are left out.
- Reading the upload and `bytes.decode('utf-8')` are a parameter giving the text or failing. Bytes and UTF-8 are not modelled.
- Store.MetaValue: caller metadata holds scalar values only. Nested values, and what the store does with them, are not modelled.
- Chat.Similarity: distances and scores are exact reals. Floating-point rounding is not modelled.
- Store.UuidSource: `uuid.uuid4()` is a counter yielding distinct identifiers. Randomness and the UUID text format are not modelled.
- Dictionary key order in metadata and responses is not modelled; records are maps.
- Concurrent requests sharing the global collection are not modelled: every handler runs alone.
- Chunker.ChunkText: requires `0 < chunk_size` and `overlap <= chunk_size // 2`. Every caller passes the defaults 1000 and 200; outside that bound the loop can stall (`StallBeyondHalfOverlap`).
- Chat.Hits: the query result is modelled as its first row, the only one for a single query embedding. The outer-list emptiness test is therefore implicit.
