/**
 * The vector store behind the API: the single collection "customer_support_kb"
 * (main.py:71-74), seen only through the effects the handlers rely on. `add`
 * appends one entry per position of four parallel lists, `count` is the
 * number of entries and clearing leaves the collection empty (main.py:417-422).
 * The identifiers the handlers attach to entries come from `uuid.uuid4()`,
 * modelled by a counter that never hands out the same identifier twice.
 */
module Store {
  /** An embedding vector as returned by the embedding model. */
  type Embedding = seq<real>

  /** A metadata value: the JSON scalars a caller can send or the handlers write. */
  datatype MetaValue = Str(s: string) | Int(i: int) | Num(r: real) | Flag(b: bool) | Null

  /** A metadata record; later keys of a Python dict display override earlier ones, as `+` does here. */
  type Metadata = map<string, MetaValue>

  /** One stored chunk. */
  datatype Entry = Entry(id: string, document: string, embedding: Embedding, metadata: Metadata)

  /** The name the collection is created under (main.py:72, 420). */
  const CollectionName: string := "customer_support_kb"

  /** The four lists `add` is called with line up. */
  predicate Aligned(documents: seq<string>, embeddings: seq<Embedding>, metadatas: seq<Metadata>, ids: seq<string>) {
    |documents| == |embeddings| == |metadatas| == |ids|
  }

  /** The entries `add` stores for four aligned lists: position `i` of each list makes entry `i`. */
  function Zip(documents: seq<string>, embeddings: seq<Embedding>, metadatas: seq<Metadata>, ids: seq<string>): (entries: seq<Entry>)
    requires Aligned(documents, embeddings, metadatas, ids)
    ensures |entries| == |ids|
    ensures forall i :: 0 <= i < |ids| ==>
      entries[i] == Entry(ids[i], documents[i], embeddings[i], metadatas[i])
    decreases |ids|
  {
    if ids == [] then []
    else [Entry(ids[0], documents[0], embeddings[0], metadatas[0])]
         + Zip(documents[1..], embeddings[1..], metadatas[1..], ids[1..])
  }

  /** The collection: its entries in insertion order. */
  class Collection {
    var entries: seq<Entry>

    /** `get_or_create_collection` on a fresh store. */
    constructor()
      ensures entries == []
    {
      entries := [];
    }

    /** `collection.add(documents=..., embeddings=..., metadatas=..., ids=...)`. */
    method Add(documents: seq<string>, embeddings: seq<Embedding>, metadatas: seq<Metadata>, ids: seq<string>)
      requires Aligned(documents, embeddings, metadatas, ids)
      modifies this
      ensures entries == old(entries) + Zip(documents, embeddings, metadatas, ids)
      ensures |entries| == |old(entries)| + |ids|
    {
      entries := entries + Zip(documents, embeddings, metadatas, ids);
    }

    /** `collection.count()`. */
    method Count() returns (n: nat)
      ensures n == |entries|
    {
      n := |entries|;
    }

    /**
     * `delete_collection` followed by `get_or_create_collection` under the same
     * name (main.py:417-422): the collection that replaces the old one is empty.
     */
    method Clear()
      modifies this
      ensures entries == []
    {
      entries := [];
    }
  }

  /** The identifier handed out `k`-th; any injective choice serves, this one is `k + 1` letters long. */
  function Uuid(k: nat): (id: string)
    ensures |id| == k + 1
  {
    if k == 0 then "u" else Uuid(k - 1) + "u"
  }

  /** Identifiers handed out at different times differ. */
  lemma UuidInjective(a: nat, b: nat)
    ensures Uuid(a) == Uuid(b) <==> a == b
  {
    if Uuid(a) == Uuid(b) {
      assert |Uuid(a)| == |Uuid(b)|;
    }
  }

  /** `uuid.uuid4()`: a source of identifiers, each one new. */
  class UuidSource {
    /** How many identifiers have been handed out so far. */
    var next: nat

    constructor()
      ensures next == 0
    {
      next := 0;
    }

    method Fresh() returns (id: string)
      modifies this
      ensures id == Uuid(old(next)) && next == old(next) + 1
    {
      id := Uuid(next);
      next := next + 1;
    }
  }
}
