/**
 * The bookkeeping endpoints of main.py: health, statistics and clearing the
 * knowledge base. Each reads or resets the one collection and reports its
 * size.
 */
module Admin {
  import opened Store

  /** The body of `GET /api/health`. */
  datatype HealthReply = HealthReply(status: string, collectionCount: nat)

  /** The body of `GET /api/stats`. */
  datatype StatsReply = StatsReply(totalDocuments: nat, collectionName: string, status: string)

  /** `GET /api/health` (main.py:160-162): always healthy, with the current count. */
  method Health(store: Collection) returns (r: HealthReply)
    ensures r == HealthReply("healthy", |store.entries|)
  {
    var n := store.Count();
    r := HealthReply("healthy", n);
  }

  /** `GET /api/stats` (main.py:398-410): the count, the collection name, "active". */
  method Stats(store: Collection) returns (r: StatsReply)
    ensures r == StatsReply(|store.entries|, CollectionName, "active")
  {
    var n := store.Count();
    r := StatsReply(n, CollectionName, "active");
  }

  /**
   * `DELETE /api/clear` (main.py:412-428): the collection is dropped and made
   * anew, so the store is empty afterwards and a later count is zero.
   */
  method ClearDatabase(store: Collection) returns (message: string)
    modifies store
    ensures store.entries == []
    ensures message == "Database cleared successfully"
  {
    store.Clear();
    message := "Database cleared successfully";
  }
}
