/**
 * The chat handler of main.py (`chat`, main.py:332-396): embed the question,
 * fetch the five nearest chunks, turn each hit into a source shown to the
 * user and the hits together into the context of the prompt, ask the
 * language model, and answer under the caller's conversation id or a new one.
 *
 * The embedding model, the similarity search and the language model are
 * outside the model and enter as parameters.
 */
module Chat {
  import opened Wrappers
  import opened Store
  import PyText

  /** How many hits the search is asked for (main.py:342). */
  const TopK: nat := 5

  /** How many characters of a hit a source shows before the ellipsis (main.py:358). */
  const PreviewLength: nat := 200

  /** The first row of a query result: one document, metadata record and distance per hit. */
  datatype Hits = Hits(documents: seq<string>, metadatas: seq<Metadata>, distances: seq<real>)

  /** A hit as reported back to the user. */
  datatype Source = Source(content: string, metadata: Metadata, similarityScore: real)

  /** The body of a successful chat response. */
  datatype ChatResponse = ChatResponse(response: string, conversationId: string, sources: seq<Source>)

  /** Why a chat request failed; both surface as an error response. */
  datatype ChatError =
    | EmbeddingFailed    // `generate_embedding` raised (main.py:104-106)
    | GenerationFailed   // `generate_response` raised (main.py:114-116)

  /**
   * The text a source shows for a document: the document itself when it is
   * at most 200 characters long, otherwise its first 200 characters and "...".
   */
  function Preview(doc: string): (shown: string)
    ensures |doc| <= PreviewLength ==> shown == doc
    ensures |doc| > PreviewLength ==>
      |shown| == PreviewLength + 3 && shown[..PreviewLength] == doc[..PreviewLength] && shown[PreviewLength..] == "..."
  {
    if |doc| > PreviewLength then doc[..PreviewLength] + "..." else doc
  }

  /** Shortening a preview again changes nothing. */
  lemma PreviewIdempotent(doc: string)
    ensures Preview(Preview(doc)) == Preview(doc)
  {
    if |doc| > PreviewLength {
      var p := Preview(doc);
      assert p[..PreviewLength] == doc[..PreviewLength];
    }
  }

  /** The similarity score reported for a distance (main.py:360). */
  function Similarity(distance: real): (score: real)
    ensures score + distance == 1.0
  {
    1.0 - distance
  }

  /** A nearer hit never scores lower than a farther one, and equal distances score equally. */
  lemma SimilarityReversesDistance(d1: real, d2: real)
    ensures d1 <= d2 <==> Similarity(d1) >= Similarity(d2)
    ensures d1 == d2 <==> Similarity(d1) == Similarity(d2)
  {
  }

  /** `zip` stops at the shortest of the three lists. */
  function HitCount(hits: Hits): (n: nat)
    ensures n <= |hits.documents| && n <= |hits.metadatas| && n <= |hits.distances|
    ensures n == |hits.documents| || n == |hits.metadatas| || n == |hits.distances|
  {
    PyText.Min(|hits.documents|, PyText.Min(|hits.metadatas|, |hits.distances|))
  }

  /**
   * The source reported for hit `i` (main.py:357-361): the hit's preview, its
   * metadata record unchanged, and a score that is one minus its distance.
   */
  function SourceOf(hits: Hits, i: nat): (s: Source)
    requires i < HitCount(hits)
    ensures s.metadata == hits.metadatas[i]
    ensures s.similarityScore + hits.distances[i] == 1.0
    ensures |hits.documents[i]| <= PreviewLength ==> s.content == hits.documents[i]
    ensures |hits.documents[i]| > PreviewLength ==>
      |s.content| == PreviewLength + 3 &&
      s.content[..PreviewLength] == hits.documents[i][..PreviewLength] && s.content[PreviewLength..] == "..."
  {
    Source(Preview(hits.documents[i]), hits.metadatas[i], Similarity(hits.distances[i]))
  }

  /** `sources` reports every hit, in the order of the search, and nothing else. */
  predicate ReportsHits(hits: Hits, sources: seq<Source>) {
    && |sources| == HitCount(hits)
    && forall i :: 0 <= i < |sources| ==> sources[i] == SourceOf(hits, i)
  }

  /** The separator between documents in the context. */
  const ContextSeparator: string := "\n\n"

  /**
   * The knowledge-base text of the prompt: the hits' documents, blank-line
   * separated (main.py:363). Without hits it is empty; with one hit it is
   * that hit's document; otherwise it holds every document and one separator
   * between each two.
   */
  function ContextOf(hits: Hits): (context: string)
    ensures HitCount(hits) == 0 ==> context == ""
    ensures HitCount(hits) == 1 ==> context == hits.documents[0]
    ensures HitCount(hits) > 0 ==>
      |context| == PyText.TotalLength(hits.documents[..HitCount(hits)]) + (HitCount(hits) - 1) * |ContextSeparator|
  {
    var docs := hits.documents[..HitCount(hits)];
    if docs == [] then "" else PyText.JoinLength(ContextSeparator, docs); PyText.Join(ContextSeparator, docs)
  }

  /**
   * The loop over the zipped hits (main.py:350-361): it collects the
   * documents for the context and one source per hit.
   */
  method CollectHits(hits: Hits) returns (contextDocs: seq<string>, sources: seq<Source>)
    ensures contextDocs == hits.documents[..HitCount(hits)]
    ensures ReportsHits(hits, sources)
  {
    contextDocs, sources := [], [];
    if hits.documents != [] {
      var n := HitCount(hits);
      var i := 0;
      while i < n
        invariant 0 <= i <= n
        invariant contextDocs == hits.documents[..i]
        invariant |sources| == i
        invariant forall j :: 0 <= j < i ==> sources[j] == SourceOf(hits, j)
      {
        var doc, metadata, distance := hits.documents[i], hits.metadatas[i], hits.distances[i];
        contextDocs := contextDocs + [doc];
        var content := if |doc| > PreviewLength then doc[..PreviewLength] + "..." else doc;
        sources := sources + [Source(content, metadata, 1.0 - distance)];
        i := i + 1;
      }
    }
  }

  /** No hits: no sources and an empty knowledge base. */
  lemma NoHitsEmptyContext(hits: Hits)
    requires HitCount(hits) == 0
    ensures ContextOf(hits) == ""
    ensures forall sources :: ReportsHits(hits, sources) ==> sources == []
  {
    assert hits.documents[..0] == [];
  }

  /**
   * Every hit's document appears whole in the context, at the offset given by
   * the lengths of the documents before it, followed by a blank line unless it
   * is the last one; the context ends with the last document.
   */
  lemma ContextCarriesHit(hits: Hits, i: nat)
    requires i < HitCount(hits)
    ensures PyText.PartAt(ContextSeparator, hits.documents[..HitCount(hits)], i)
    ensures
      var o := PyText.JoinOffset(ContextSeparator, hits.documents[..HitCount(hits)], i);
      o + |hits.documents[i]| <= |ContextOf(hits)| &&
      ContextOf(hits)[o..o + |hits.documents[i]|] == hits.documents[i]
  {
    PyText.JoinLayout(ContextSeparator, hits.documents[..HitCount(hits)], i);
  }

  /** The fixed text before the knowledge base in the prompt (main.py:366-368). */
  const PromptHead: string :=
    "You are a customer representative. Answer the customer's question using the knowledge base below.\n        \nKnowledge Base:\n"

  /** The fixed text between the knowledge base and the question. */
  const QuestionLabel: string := "\n\nCustomer Question: "

  /** The fixed text after the question (main.py:372-380). */
  const PromptTail: string :=
    "\n\nPlease:\n1. Respond in English\n2. Be helpful and professional\n"
    + "3. Only use information from the knowledge base\n"
    + "4. If the answer is not in the knowledge base, state this and suggest another way to get help\n"
    + "5. Give short and clear answers\n\nResponse:"

  /**
   * The prompt sent to the language model for a context and a question
   * (main.py:366-380): it opens with the fixed instructions, closes with the
   * fixed list of rules, and has room for exactly the context, the label and
   * the question in between.
   */
  function Prompt(context: string, message: string): (p: string)
    ensures |p| == |PromptHead| + |context| + |QuestionLabel| + |message| + |PromptTail|
    ensures p[..|PromptHead|] == PromptHead
    ensures p[|p| - |PromptTail|..] == PromptTail
  {
    PromptHead + context + QuestionLabel + message + PromptTail
  }

  /** Where the knowledge base starts in the prompt. */
  function ContextStart(): nat {
    |PromptHead|
  }

  /** Where the question starts in the prompt. */
  function QuestionStart(context: string): nat {
    |PromptHead| + |context| + |QuestionLabel|
  }

  /** The prompt carries the context and the question whole, each at its place. */
  lemma PromptCarries(context: string, message: string)
    ensures |Prompt(context, message)| == QuestionStart(context) + |message| + |PromptTail|
    ensures Prompt(context, message)[ContextStart()..ContextStart() + |context|] == context
    ensures Prompt(context, message)[QuestionStart(context)..QuestionStart(context) + |message|] == message
  {
    var p := Prompt(context, message);
    var a := PromptHead + context;
    var b := a + QuestionLabel + message;
    assert p == b + PromptTail;
    assert p[..|a|] == a;
    assert a[|PromptHead|..] == context;
    assert p[|PromptHead|..|a|] == a[|PromptHead|..];
    assert p[..|b|] == b;
    assert b[QuestionStart(context)..] == message;
  }

  /** `request.conversation_id or ...`: a supplied, non-empty conversation id is kept. */
  predicate KeepsConversationId(supplied: Option<string>) {
    supplied.Some? && supplied.value != ""
  }

  /**
   * The conversation id of the answer (main.py:386): the caller's when it is
   * given and not empty, else a new identifier, drawn only in that case.
   */
  method ResolveConversationId(supplied: Option<string>, uuids: UuidSource) returns (id: string)
    modifies uuids
    ensures KeepsConversationId(supplied) ==> id == supplied.value && uuids.next == old(uuids.next)
    ensures !KeepsConversationId(supplied) ==> id == Uuid(old(uuids.next)) && uuids.next == old(uuids.next) + 1
  {
    if supplied.Some? && supplied.value != "" {
      id := supplied.value;
    } else {
      id := uuids.Fresh();
    }
  }

  /**
   * `POST /api/chat`. `search(entries, q, k)` is the collection's answer to a
   * query for the `k` entries nearest to `q`; `generate(prompt)` is the
   * language model's reply, or nothing when the call fails. The store is only
   * read; an identifier is drawn only for an answer without a usable
   * conversation id.
   */
  method Chat(store: Collection, uuids: UuidSource,
              embed: string -> Option<Embedding>,
              search: (seq<Entry>, Embedding, nat) -> Hits,
              generate: string -> Option<string>,
              message: string, conversationId: Option<string>)
    returns (r: Result<ChatResponse, ChatError>)
    modifies uuids
    ensures embed(message).None? ==> r == Failure(EmbeddingFailed) && uuids.next == old(uuids.next)
    ensures embed(message).Some? ==>
      var hits := search(store.entries, embed(message).value, TopK);
      var reply := generate(Prompt(ContextOf(hits), message));
      && (reply.None? ==> r == Failure(GenerationFailed) && uuids.next == old(uuids.next))
      && (reply.Some? ==>
            && r.Success?
            && r.value.response == reply.value
            && ReportsHits(hits, r.value.sources)
            && (KeepsConversationId(conversationId) ==>
                  r.value.conversationId == conversationId.value && uuids.next == old(uuids.next))
            && (!KeepsConversationId(conversationId) ==>
                  r.value.conversationId == Uuid(old(uuids.next)) && uuids.next == old(uuids.next) + 1))
  {
    var queryEmbedding := embed(message);
    if queryEmbedding.None? {
      r := Failure(EmbeddingFailed);
      return;
    }
    var hits := search(store.entries, queryEmbedding.value, TopK);
    var contextDocs, sources := CollectHits(hits);
    var context := PyText.Join(ContextSeparator, contextDocs);
    var responseText := generate(Prompt(context, message));
    if responseText.None? {
      r := Failure(GenerationFailed);
      return;
    }
    var id := ResolveConversationId(conversationId, uuids);
    r := Success(ChatResponse(responseText.value, id, sources));
  }
}
