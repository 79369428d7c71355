/**
 * The two DocumentDBRecordWriters (the old mapred API and the mapreduce
 * API). Both cache documents, backfill their ids, hand the cache to
 * executeWriteStoredProcedure every MAX_DOC_SIZE documents (50 and 25) and
 * on close, and send successive batches to the output collections in
 * rotation. Their write, close and writeCurrentBatch are the same code, so
 * one class models both; the two named constructors fix the batch size.
 *
 * A writer is built from the number of output collections (each with its
 * bulk-import procedure, already set up): batch targets are indices into
 * those arrays.
 */
module RecordWriters {
  import opened Wrappers
  import opened Documents
  import opened RetryPolicy
  import opened ConnectorUtil

  const MAPRED_MAX_DOC_SIZE := 50
  const HADOOP_MAX_DOC_SIZE := 25

  /** A batch that executeWriteStoredProcedure wrote completely: its target collection, documents and upsert flag. */
  datatype Batch = Batch(target: nat, docs: seq<Document>, upsert: bool)

  /** The documents of the batches, in the order they were sent. */
  function BatchedDocs(batches: seq<Batch>): seq<Document>
  {
    if |batches| == 0 then [] else batches[0].docs + BatchedDocs(batches[1..])
  }

  lemma {:induction false} BatchedDocsAppend(batches: seq<Batch>, b: Batch)
    ensures BatchedDocs(batches + [b]) == BatchedDocs(batches) + b.docs
  {
    if |batches| > 0 {
      assert (batches + [b])[1..] == batches[1..] + [b];
      BatchedDocsAppend(batches[1..], b);
    } else {
      assert batches + [b] == [b];
    }
  }

  lemma MulAtLeast(d: int, n: nat)
    requires d >= 1 && n > 0
    ensures d * n >= n
  {
    if d > 1 {
      MulAtLeast(d - 1, n);
      assert d * n == (d - 1) * n + n;
    }
  }

  /** Quotient and remainder are unique. */
  lemma DivModUnique(x: int, q: int, r: int, n: nat)
    requires n > 0 && x == q * n + r && 0 <= r < n
    ensures x % n == r && x / n == q
  {
    var q', r' := x / n, x % n;
    assert x == q' * n + r';
    assert (q - q') * n == r' - r;
    if q - q' >= 1 {
      MulAtLeast(q - q', n);
    } else if q' - q >= 1 {
      MulAtLeast(q' - q, n);
    }
  }

  /** Counting one more moves the remainder one step around the cycle. */
  lemma RotateNext(count: nat, n: nat)
    requires n > 0
    ensures (count + 1) % n == if count % n + 1 == n then 0 else count % n + 1
  {
    var q, r := count / n, count % n;
    if r + 1 == n {
      DivModUnique(count + 1, q + 1, 0, n);
    } else {
      DivModUnique(count + 1, q, r + 1, n);
    }
  }

  /**
   * The database lookup of the mapreduce writer's constructor: the query by
   * name must return exactly one database; anything else is an IOException,
   * which the constructor's catch-all wraps in another IOException.
   */
  function SingleDatabase(databases: seq<Resource>, dbName: string): (r: Result<Resource, Error>)
    ensures r.Ok? <==> |databases| == 1
    ensures r.Ok? ==> r.value == databases[0]
    ensures r.Err? ==> r.error.IOError? && r.error.cause.Some? && r.error.cause.value.IOError?
  {
    if |databases| != 1 then Err(IOError("", Some(IOError("Database " + dbName + " doesn't exist", None))))
    else Ok(databases[0])
  }

  class DocumentDBRecordWriter {
    /** MAX_DOC_SIZE: 50 in the mapred writer, 25 in the mapreduce one. */
    const maxDocSize: nat
    /** collections.length == sprocs.length */
    const targets: nat
    const enableUpsert: bool
    var documentsProcessed: nat
    var cachedDocs: seq<Document>
    var currentStoredProcedureIndex: nat
    /** Every document passed to write, with its id backfilled. */
    ghost var written: seq<Document>
    /** The batches written so far, oldest first. */
    ghost var batches: seq<Batch>

    /**
     * Nothing written is lost or reordered: it is in a completed batch or
     * still in the cache; batch k went to collection k mod targets (a writer
     * without collections has sent nothing), with the
     * writer's upsert flag; and every written document has an id.
     */
    ghost predicate Valid()
      reads this
    {
      && maxDocSize > 0
      && (targets == 0 ==> batches == [] && currentStoredProcedureIndex == 0)
      && (targets > 0 ==> currentStoredProcedureIndex == |batches| % targets)
      && documentsProcessed == |written|
      && written == BatchedDocs(batches) + cachedDocs
      && (forall k | 0 <= k < |batches| ::
            targets > 0 && batches[k].target == k % targets && batches[k].upsert == enableUpsert && |batches[k].docs| > 0)
      && (forall k | 0 <= k < |written| :: HasId(written[k]))
    }

    /** The cache holds exactly the documents since the last multiple of maxDocSize, as when no flush has failed. */
    ghost predicate InStep()
      reads this
      requires maxDocSize > 0
    {
      |cachedDocs| == documentsProcessed % maxDocSize
    }

    /** The mapred writer over `targets` output collections. */
    constructor Mapred(targets: nat, upsert: bool)
      ensures Valid() && InStep()
      ensures this.maxDocSize == MAPRED_MAX_DOC_SIZE && this.targets == targets && enableUpsert == upsert
      ensures documentsProcessed == 0 && cachedDocs == [] && currentStoredProcedureIndex == 0
      ensures written == [] && batches == []
    {
      maxDocSize := MAPRED_MAX_DOC_SIZE;
      this.targets := targets;
      enableUpsert := upsert;
      documentsProcessed := 0;
      cachedDocs := [];
      currentStoredProcedureIndex := 0;
      written := [];
      batches := [];
    }

    /** The mapreduce writer over `targets` output collections. */
    constructor Hadoop(targets: nat, upsert: bool)
      ensures Valid() && InStep()
      ensures this.maxDocSize == HADOOP_MAX_DOC_SIZE && this.targets == targets && enableUpsert == upsert
      ensures documentsProcessed == 0 && cachedDocs == [] && currentStoredProcedureIndex == 0
      ensures written == [] && batches == []
    {
      maxDocSize := HADOOP_MAX_DOC_SIZE;
      this.targets := targets;
      enableUpsert := upsert;
      documentsProcessed := 0;
      cachedDocs := [];
      currentStoredProcedureIndex := 0;
      written := [];
      batches := [];
    }

    /**
     * How a flush of `cache` ends: with no output collections the lookup
     * collections[0] throws ArrayIndexOutOfBoundsException before anything is
     * sent; otherwise as the write loop ends.
     */
    function FlushStatus(cache: seq<Document>, toText: Document -> string, responses: seq<Remote<string>>)
      : (status: WriteStatus)
      reads this
      ensures targets == 0 ==> status == Raised(IndexOutOfBounds)
      ensures targets > 0 ==> status == WriteRounds(cache, toText, enableUpsert, 0, responses).status
    {
      if targets == 0 then Raised(IndexOutOfBounds) else WriteRounds(cache, toText, enableUpsert, 0, responses).status
    }

    /**
     * writeCurrentBatch: the whole cache goes to the current collection's
     * procedure. When the write loop completes, the cache is emptied and the
     * index moves to the next collection; when it raises, the exception
     * leaves cache and index as they were.
     */
    method WriteCurrentBatch(toText: Document -> string, responses: seq<Remote<string>>)
      returns (status: WriteStatus)
      requires Valid() && |cachedDocs| > 0
      modifies this
      ensures Valid()
      ensures status == FlushStatus(old(cachedDocs), toText, responses)
      ensures written == old(written) && documentsProcessed == old(documentsProcessed)
      ensures status == Completed ==>
                && cachedDocs == []
                && batches == old(batches) + [Batch(old(currentStoredProcedureIndex), old(cachedDocs), enableUpsert)]
                && currentStoredProcedureIndex == (old(currentStoredProcedureIndex) + 1) % targets
      ensures status != Completed ==>
                cachedDocs == old(cachedDocs) && batches == old(batches)
                && currentStoredProcedureIndex == old(currentStoredProcedureIndex)
    {
      if targets == 0 {
        return Raised(IndexOutOfBounds);
      }
      var run := ExecuteWriteStoredProcedure(cachedDocs, toText, enableUpsert, responses);
      status := run.status;
      if status != Completed {
        return;
      }
      var batch := Batch(currentStoredProcedureIndex, cachedDocs, enableUpsert);
      BatchedDocsAppend(batches, batch);
      RotateNext(|batches|, targets);
      ghost var next := if currentStoredProcedureIndex + 1 == targets then 0 else currentStoredProcedureIndex + 1;
      assert (|batches| + 1) % targets == next;
      DivModUnique(currentStoredProcedureIndex, 0, currentStoredProcedureIndex, targets);
      RotateNext(currentStoredProcedureIndex, targets);
      ghost var before := batches;
      batches := batches + [batch];
      assert forall k | 0 <= k < |batches| :: batches[k] == if k < |before| then before[k] else batch;
      cachedDocs := [];
      currentStoredProcedureIndex := (currentStoredProcedureIndex + 1) % targets;
    }

    /**
     * write: backfill the id, cache the document, count it, and write the
     * cache when the count reaches a multiple of maxDocSize.
     */
    method Write(doc: Document, freshId: string, toText: Document -> string, responses: seq<Remote<string>>)
      returns (status: WriteStatus)
      requires Valid()
      modifies this
      ensures Valid()
      ensures written == old(written) + [AddIdIfMissing(doc, freshId)]
      ensures documentsProcessed == old(documentsProcessed) + 1
      ensures documentsProcessed % maxDocSize != 0 ==>
                && status == Completed
                && cachedDocs == old(cachedDocs) + [AddIdIfMissing(doc, freshId)]
                && batches == old(batches) && currentStoredProcedureIndex == old(currentStoredProcedureIndex)
      ensures documentsProcessed % maxDocSize == 0 ==>
                var cache := old(cachedDocs) + [AddIdIfMissing(doc, freshId)];
                && status == FlushStatus(cache, toText, responses)
                && (status == Completed ==>
                      && cachedDocs == []
                      && batches == old(batches) + [Batch(old(currentStoredProcedureIndex), cache, enableUpsert)]
                      && currentStoredProcedureIndex == (old(currentStoredProcedureIndex) + 1) % targets)
                && (status != Completed ==>
                      cachedDocs == cache && batches == old(batches)
                      && currentStoredProcedureIndex == old(currentStoredProcedureIndex))
      ensures old(InStep()) && status == Completed ==> InStep()
      ensures old(InStep()) && documentsProcessed % maxDocSize == 0 ==> |old(cachedDocs)| + 1 == maxDocSize
    {
      var d := AddIdIfMissing(doc, freshId);
      ghost var wasInStep := InStep();
      RotateNext(documentsProcessed, maxDocSize);
      cachedDocs := cachedDocs + [d];
      documentsProcessed := documentsProcessed + 1;
      written := written + [d];
      status := Completed;
      if documentsProcessed % maxDocSize == 0 {
        status := WriteCurrentBatch(toText, responses);
      }
    }

    /** close: write the cache once more if anything is left in it. */
    method Close(toText: Document -> string, responses: seq<Remote<string>>)
      returns (status: WriteStatus)
      requires Valid()
      modifies this
      ensures Valid()
      ensures written == old(written) && documentsProcessed == old(documentsProcessed)
      ensures old(cachedDocs) == [] ==>
                status == Completed && cachedDocs == [] && batches == old(batches)
                && currentStoredProcedureIndex == old(currentStoredProcedureIndex)
      ensures old(cachedDocs) != [] ==>
                && status == FlushStatus(old(cachedDocs), toText, responses)
                && (status == Completed ==>
                      batches == old(batches) + [Batch(old(currentStoredProcedureIndex), old(cachedDocs), enableUpsert)])
                && (status != Completed ==> cachedDocs == old(cachedDocs) && batches == old(batches))
      ensures status == Completed ==> cachedDocs == [] && BatchedDocs(batches) == written
    {
      status := Completed;
      if |cachedDocs| > 0 {
        status := WriteCurrentBatch(toText, responses);
      }
    }
  }
}
