# Azure DocumentDB Hadoop connector — a verified model

This project models the core of the Azure DocumentDB connector for Hadoop, Hive and Pig in Dafny.

It covers these parts:

- **Retry policy.** The back-off used for calls to the DocumentDB service (`BackoffExponentialRetryPolicy`).
- **Shared helpers.**
  - Id backfilling.
  - Chunking of documents into bulk-import stored-procedure calls.
  - The write loop that drives those calls and advances by the count each call reports.
  - Database, collection and stored-procedure lookups.
  - The user-agent suffix.
- **Configuration keys and getters.**
- **The input split.** Its fields, its wire format and the lazily opened document iterator.
- **Record readers and writers.** The mapreduce (`hadoop`) and `mapred` flavours.
- **Input and output formats.** Their configuration checks and split wrapping.
- **Hive storage handler.** How it forwards table properties.
- **Pig loader and Pig storage.** Converting documents to and from Pig tuples.

## How the model is built

- **Remote calls.** Every call to the DocumentDB service is scripted by a `Remote<T>` value: the faults the call throws, in order, then the value it returns. The retry loops are modelled against that script. `RetryFaults` is the reference definition of what a retried call sleeps and what escapes.
- **The write loop.**
  - `executeWriteStoredProcedure` is specified by `WriteRounds`. It takes one scripted response per round.
  - The outcome `OutOfResponses` only means that the finite script ran out. The real loop would wait for the service.
- **Java strings.** Java's `String.split`, `trim`, `Integer.parseInt`, `equalsIgnoreCase` and `contains` are modelled in `JavaText`.
- **Mutable objects.** Objects whose fields the source updates are classes: the retry policy, the input split, the document iterator, readers, writers, the loader, the storage and the configuration maps. They have `modifies` clauses.
- **Documents.** They are values: a map from property names to JSON values.

## Model

| member | source | states |
|---|---|---|
| RetryPolicy.ThrottleHint | src/com/microsoft/azure/documentdb/hadoop/BackoffExponentialRetryPolicy.java:68-92 | A hint exists exactly for a status-429 DocumentClientException, either seen directly or as the cause of an IllegalStateException. A null or IllegalState cause gives none, and so does any other exception. The hint is the exception's retry-after value. |
| RetryPolicy.DelayFor | src/com/microsoft/azure/documentdb/hadoop/BackoffExponentialRetryPolicy.java:79-85 | The delay is the hint plus 500 ms per earlier attempt, or 3000 ms when that sum is zero. It is always positive. |
| RetryPolicy.BackoffExponentialRetryPolicy.constructor | src/com/microsoft/azure/documentdb/hadoop/BackoffExponentialRetryPolicy.java:17-23 | A new policy has zero attempts and a zero retry-after, and has not slept. |
| RetryPolicy.BackoffExponentialRetryPolicy.GetCurrentAttempt | src/com/microsoft/azure/documentdb/hadoop/BackoffExponentialRetryPolicy.java:25-27 | Returns the attempt counter. |
| RetryPolicy.BackoffExponentialRetryPolicy.ShouldRetry | src/com/microsoft/azure/documentdb/hadoop/BackoffExponentialRetryPolicy.java:29-31 | Always answers true: the policy itself never gives up. |
| RetryPolicy.BackoffExponentialRetryPolicy.ErrorOccured | src/com/microsoft/azure/documentdb/hadoop/BackoffExponentialRetryPolicy.java:37-43 | A retriable error sleeps for the computed delay and bumps the attempt counter. Any other error is rethrown wrapped in IllegalStateException without sleeping; the delay is reset to 0 and the counter is kept. |
| RetryPolicy.BackoffExponentialRetryPolicy.WaitUntilNextTry | src/com/microsoft/azure/documentdb/hadoop/BackoffExponentialRetryPolicy.java:45-51 | Sleeps exactly the stored retry-after interval; nothing else changes. |
| RetryPolicy.BackoffExponentialRetryPolicy.IsExceptionRetriable | src/com/microsoft/azure/documentdb/hadoop/BackoffExponentialRetryPolicy.java:57-66 | Answers whether the error is retriable. It resets the delay to 0, then advances the counter and sets the delay to DelayFor only when the error is retriable. |
| RetryPolicy.BackoffExponentialRetryPolicy.CheckIfRetryNeeded | src/com/microsoft/azure/documentdb/hadoop/BackoffExponentialRetryPolicy.java:68-92 | The answer is IsRetriable. The stored delay is DelayFor(attempt, hint) when the error is retriable, and is reset to 0 otherwise. |
| RetryPolicy.RetryFaultsHead | src/com/microsoft/azure/documentdb/hadoop/DocumentDBConnectorUtil.java:57-68 | The first fault decides the retry loop's next step. An uncaught fault escapes as is. A caught, non-retriable fault escapes wrapped in IllegalState. A caught, retriable fault is slept on, and the rest of the script is retried. |
| RetryPolicy.Retry | src/com/microsoft/azure/documentdb/hadoop/DocumentDBConnectorUtil.java:57-68 | The `while (shouldRetry) try … catch errorOccured` loop returns the reference RetryResult. Its sleeps are the reference delays. |
| RetryPolicy.RetrySucceedsIff | src/com/microsoft/azure/documentdb/hadoop/DocumentDBConnectorUtil.java:213-223 | A retried call returns its value exactly when every fault before it is caught and retriable. |
| RetryPolicy.RetryEscapes | src/com/microsoft/azure/documentdb/hadoop/BackoffExponentialRetryPolicy.java:37-43 | The first fault not absorbed is what escapes, raw or wrapped. It escapes after exactly one sleep per earlier fault. |
| RetryPolicy.RetryDelays | src/com/microsoft/azure/documentdb/hadoop/BackoffExponentialRetryPolicy.java:79-85 | After k earlier retries, the k-th sleep is DelayFor(attempt + k, that fault's hint). |
| RetryPolicy.ConstantHintBackoff | src/com/microsoft/azure/documentdb/hadoop/BackoffExponentialRetryPolicy.java:79-85 | With a constant non-zero hint, the first sleep is the hint. Each later sleep is 500 ms longer than the one before. |
| RetryPolicy.ZeroHintDelaysDrop | src/com/microsoft/azure/documentdb/hadoop/BackoffExponentialRetryPolicy.java:79-85 | With a zero hint, two throttles sleep 3000 ms and then only 500 ms, because the fallback replaces the sum, not the hint. |
| JavaText.DigitChar | src/com/microsoft/azure/documentdb/hadoop/DocumentDBConnectorUtil.java:226 | The character for a decimal digit is a digit with that value. |
| JavaText.NatToStringDigits | src/com/microsoft/azure/documentdb/hadoop/DocumentDBConnectorUtil.java:226 | The decimal rendering of n is a non-empty digit string whose value is n. |
| JavaText.ParseIntRoundTrip | src/com/microsoft/azure/documentdb/hadoop/DocumentDBConnectorUtil.java:226 | Integer.parseInt of the decimal rendering of any 32-bit int gives that int back. |
| JavaText.AddInt32 | src/com/microsoft/azure/documentdb/hadoop/DocumentDBConnectorUtil.java:227 | `currentCount += createdCount` on Java ints: the result is a 32-bit int that differs from the exact sum by a multiple of 2^32, and is the exact sum whenever that fits. |
| JavaText.NatToStringInjective | src/com/microsoft/azure/documentdb/hadoop/DocumentDBConnectorUtil.java:226 | Distinct numbers render as distinct strings. |
| JavaText.AllDigitsAt | src/com/microsoft/azure/documentdb/hadoop/DocumentDBConnectorUtil.java:226 | Every character of an all-digit string is a digit. |
| JavaText.TrimStart | src/com/microsoft/azure/documentdb/hadoop/DocumentDBInputSplit.java:73 | The result is a suffix of the input. Only trimmable characters are dropped, and it starts with a kept character. |
| JavaText.TrimEnd | src/com/microsoft/azure/documentdb/hadoop/DocumentDBInputSplit.java:73 | The result is a prefix of the input. Only trimmable characters are dropped, and it ends with a kept character. |
| JavaText.TrimKeepsMiddle | src/com/microsoft/azure/documentdb/hadoop/DocumentDBInputSplit.java:73 | trim() is a slice s[i..j]. Everything outside the slice is a character <= ' '. |
| JavaText.TrimEnds | src/com/microsoft/azure/documentdb/hadoop/DocumentDBInputSplit.java:73 | A non-empty trimmed name starts and ends with a character > ' '. |
| JavaText.TrimIdempotent | src/com/microsoft/azure/documentdb/hadoop/DocumentDBInputSplit.java:73 | Trimming twice equals trimming once. |
| JavaText.IndexOf | src/com/microsoft/azure/documentdb/hadoop/ConfigurationUtil.java:90 | Gives the first position of the separator. |
| JavaText.SplitAll | src/com/microsoft/azure/documentdb/hadoop/ConfigurationUtil.java:90 | Splitting gives at least one piece, and no piece contains the separator. |
| JavaText.JoinSplitAll | src/com/microsoft/azure/documentdb/hadoop/ConfigurationUtil.java:90 | Joining the pieces with the separator gives the original string back. |
| JavaText.DropTrailingEmpty | src/com/microsoft/azure/documentdb/hadoop/ConfigurationUtil.java:90 | Keeps the longest prefix that does not end in an empty piece. Only empty pieces are dropped. |
| JavaText.JavaSplitShape | src/com/microsoft/azure/documentdb/hadoop/ConfigurationUtil.java:90 | String.split(",") is the full split with trailing empty strings removed. The full split joins back to the input. |
| JavaText.JavaSplitEmpty | src/com/microsoft/azure/documentdb/hadoop/ConfigurationUtil.java:90 | split(",") yields no names exactly when the string is non-empty and made of commas only. |
| JavaText.AllEmptyJoin | src/com/microsoft/azure/documentdb/hadoop/ConfigurationUtil.java:90 | Joining empty pieces yields separators only. |
| JavaText.SeparatorsSplitEmpty | src/com/microsoft/azure/documentdb/hadoop/ConfigurationUtil.java:90 | A string of separators splits into empty pieces only. |
| JavaText.ContainsSuffix | src/com/microsoft/azure/documentdb/pig/DocumentDBLoader.java:65-67 | A string with a suffix appended contains that suffix. |
| Documents.DocumentDBWritable.constructor | src/com/microsoft/azure/documentdb/hadoop/DocumentDBWritable.java:25-27 | A new writable holds an empty document. |
| Documents.DocumentDBWritable.SetDoc | src/com/microsoft/azure/documentdb/hadoop/DocumentDBWritable.java:33-35 | setDoc replaces the held document. |
| ConnectorUtil.AddIdIfMissing | src/com/microsoft/azure/documentdb/hadoop/DocumentDBConnectorUtil.java:286-290 | The result always has an id. An existing id leaves the document unchanged. Otherwise the fresh id is set and every other property is kept. |
| ConnectorUtil.AddIdIfMissingIdempotent | src/com/microsoft/azure/documentdb/hadoop/DocumentDBConnectorUtil.java:286-290 | Backfilling twice equals backfilling once, whatever the second fresh id is. |
| ConnectorUtil.Texts | src/com/microsoft/azure/documentdb/hadoop/DocumentDBConnectorUtil.java:250 | Element i is the serialisation of document i. |
| ConnectorUtil.TakeWhileBudget | src/com/microsoft/azure/documentdb/hadoop/DocumentDBConnectorUtil.java:247-254 | The count taken never exceeds the documents left or the room left. |
| ConnectorUtil.TakeWhileBudgetStep | src/com/microsoft/azure/documentdb/hadoop/DocumentDBConnectorUtil.java:247-254 | While budget, room and documents remain, one more document is taken and its length is charged to the budget. |
| ConnectorUtil.TakeWhileBudgetSpec | src/com/microsoft/azure/documentdb/hadoop/DocumentDBConnectorUtil.java:247-254 | The count is positive iff budget, room and documents all remain. Each document is taken only while the characters before it are under budget. Taking stops early only once the budget is used. |
| ConnectorUtil.ChunkStart | src/com/microsoft/azure/documentdb/hadoop/DocumentDBConnectorUtil.java:244-246 | Proof helper for ConnectorUtil.TakeChunk, not separate behaviour: the chunk loop's invariant holds before the first iteration. |
| ConnectorUtil.ChunkStep | src/com/microsoft/azure/documentdb/hadoop/DocumentDBConnectorUtil.java:249-253 | Proof helper for ConnectorUtil.TakeChunk, not separate behaviour: one iteration of the chunk loop preserves its invariant. |
| ConnectorUtil.ChunkStepDocs | src/com/microsoft/azure/documentdb/hadoop/DocumentDBConnectorUtil.java:249-253 | Proof helper for ConnectorUtil.TakeChunk, not separate behaviour: the same step, stated for the document at currentIndex + i. |
| ConnectorUtil.ChunkExit | src/com/microsoft/azure/documentdb/hadoop/DocumentDBConnectorUtil.java:247 | Proof helper for ConnectorUtil.TakeChunk, not separate behaviour: when the loop guard fails, the list built is the reference chunk. |
| ConnectorUtil.TakeChunk | src/com/microsoft/azure/documentdb/hadoop/DocumentDBConnectorUtil.java:243-258 | The while loop builds exactly the reference chunk at the index. |
| ConnectorUtil.CreateBulkInsertScriptArguments | src/com/microsoft/azure/documentdb/hadoop/DocumentDBConnectorUtil.java:239-259 | An index at or past the end gives an empty array. A negative index throws IndexOutOfBounds when the budget is positive. Otherwise the result is the reference chunk. |
| ConnectorUtil.ChunkProperties | src/com/microsoft/azure/documentdb/hadoop/DocumentDBConnectorUtil.java:247-254 | The chunk is a contiguous slice of at most 50 documents. It is non-empty iff the budget is positive. Each document is added only while the characters before it are under budget. It stops short of 50 documents and of the list's end only when the budget is spent. |
| ConnectorUtil.ChunkNonEmpty | src/com/microsoft/azure/documentdb/hadoop/DocumentDBConnectorUtil.java:42-48 | With the real 50000-character budget, every chunk holds 1 to 50 documents. |
| ConnectorUtil.WriteRoundsStep | src/com/microsoft/azure/documentdb/hadoop/DocumentDBConnectorUtil.java:212-228 | A round whose call answers with an int logs one call and moves the cursor by that int, with int wrap-around. |
| ConnectorUtil.WriteRoundsStops | src/com/microsoft/azure/documentdb/hadoop/DocumentDBConnectorUtil.java:212-228 | A round ends the loop when building the arguments throws, when the retried call throws, or when the answer is not an int (NumberFormatException). |
| ConnectorUtil.WriteRound | src/com/microsoft/azure/documentdb/hadoop/DocumentDBConnectorUtil.java:214-228 | One loop body either ends the loop as WriteRounds says, or logs the call and moves the cursor by the parsed count, with int wrap-around. |
| ConnectorUtil.RunSoFarStep | src/com/microsoft/azure/documentdb/hadoop/DocumentDBConnectorUtil.java:212-228 | Appending a round's call to the calls made so far keeps the whole run equal to the reference run. |
| ConnectorUtil.ExecuteWriteStoredProcedure | src/com/microsoft/azure/documentdb/hadoop/DocumentDBConnectorUtil.java:206-229 | The loop's calls and its outcome are the reference WriteRounds run from index 0. The int cursor moves by Java int addition, which wraps (`JavaText.AddInt32`). What that run writes is stated by PartialCommitsWriteAll, HonestStoreWritesAll and OverflowingCountRaises. |
| ConnectorUtil.ReportsDecimal | src/com/microsoft/azure/documentdb/hadoop/DocumentDBConnectorUtil.java:226-227 | A response that is the decimal text of an int reports that int. |
| ConnectorUtil.FlattenAppend | src/com/microsoft/azure/documentdb/hadoop/DocumentDBConnectorUtil.java:218-221 | The documents sent by two runs of calls are the documents of each, in order. |
| ConnectorUtil.HonestStoreWritesAll | src/com/microsoft/azure/documentdb/hadoop/DocumentDBConnectorUtil.java:206-229 | For a list of at most Integer.MAX_VALUE documents: if every call reports the size of its chunk, the loop completes in one call per chunk. The calls send every document from the cursor on, once and in order, with the caller's upsert flag. |
| ConnectorUtil.PartialCommitsStep | src/com/microsoft/azure/documentdb/hadoop/DocumentDBConnectorUtil.java:212-228 | When the first call reports a count between 1 and the size of its chunk, the round logs that chunk and the cursor moves to the first uncommitted document. |
| ConnectorUtil.PartialCommitsWriteAll | src/com/microsoft/azure/documentdb/hadoop/DocumentDBConnectorUtil.java:206-229 | For a list of at most Integer.MAX_VALUE documents: if every call reports committing between 1 and all of the chunk it was sent, the loop completes. It makes one call per report and no more calls than documents. The committed prefixes of the chunks, in order, are exactly the documents from the cursor on, each committed once. Every call carries the caller's upsert flag. |
| ConnectorUtil.OverflowingCountRaises | src/com/microsoft/azure/documentdb/hadoop/DocumentDBConnectorUtil.java:206-228 | A reported count that takes the int cursor past Integer.MAX_VALUE wraps it negative. The next docs.get then throws IndexOutOfBoundsException, so the loop raises it after exactly one call. |
| ConnectorUtil.ZeroCountResends | src/com/microsoft/azure/documentdb/hadoop/DocumentDBConnectorUtil.java:226-227 | For a list of at most Integer.MAX_VALUE documents, a reported count of 0 leaves the cursor in place, so the next call sends the same chunk again. |
| ConnectorUtil.NonIntegerResponseRaises | src/com/microsoft/azure/documentdb/hadoop/DocumentDBConnectorUtil.java:226 | A response that does not parse as an int raises NumberFormatException after exactly one call. |
| ConnectorUtil.EmptyListSendsNothing | src/com/microsoft/azure/documentdb/hadoop/DocumentDBConnectorUtil.java:210-212 | An empty document list makes no calls and completes. |
| ConnectorUtil.FirstOf | src/com/microsoft/azure/documentdb/hadoop/DocumentDBConnectorUtil.java:132-136 | Gives null for an empty result, else the first element. |
| ConnectorUtil.QueryFirst | src/com/microsoft/azure/documentdb/hadoop/DocumentDBConnectorUtil.java:114-137 | The query's toList() runs under the retry loop. The result is its first element, or null for an empty list. A failure is the error that escapes the retry loop. |
| ConnectorUtil.GetDatabase | src/com/microsoft/azure/documentdb/hadoop/DocumentDBConnectorUtil.java:139-161 | Returns the first database with the id, or null. Only toList() is retried; an error is the one that escapes that retry loop. |
| ConnectorUtil.GetDocumentCollection | src/com/microsoft/azure/documentdb/hadoop/DocumentDBConnectorUtil.java:114-137 | Returns the first collection with the id, or null. Only toList() is retried; an error is the one that escapes that retry loop. |
| ConnectorUtil.GetOrCreateOutputCollection | src/com/microsoft/azure/documentdb/hadoop/DocumentDBConnectorUtil.java:81-106 | An existing collection is returned and nothing is created. Otherwise one creation request is issued with the id, precision and offer, and its retried outcome is returned. A lookup error escapes. |
| ConnectorUtil.CreateBulkImportStoredProcedure | src/com/microsoft/azure/documentdb/hadoop/DocumentDBConnectorUtil.java:169-195 | An existing procedure is returned. Otherwise the bulkImport procedure is created once, without retry. A lookup error escapes. |
| ConnectorUtil.CreateDocument | src/com/microsoft/azure/documentdb/hadoop/DocumentDBConnectorUtil.java:56-71 | Upserts or creates as the flag says, and returns the retried outcome. Only DocumentClientExceptions are caught, so any failure is one of the call's own faults, raw or wrapped in IllegalState. |
| ConnectorUtil.EscapedIsAFault | src/com/microsoft/azure/documentdb/hadoop/DocumentDBConnectorUtil.java:57-68 | Whatever escapes a retry loop is one of the scripted faults, raw or wrapped in IllegalState. |
| ConnectorUtil.WithSuffix | src/com/microsoft/azure/documentdb/pig/DocumentDBLoader.java:65-67 | The result contains the suffix. It is the agent unchanged when the agent already contains it, and the agent plus the suffix otherwise. |
| ConnectorUtil.WithSuffixIdempotent | src/com/microsoft/azure/documentdb/pig/DocumentDBLoader.java:65-67 | Appending a suffix twice equals appending it once. |
| ConnectorUtil.ConnectorGlobals.constructor | src/com/microsoft/azure/documentdb/hadoop/DocumentDBConnectorUtil.java:48 | The user agent suffix starts as " HadoopConnector/1.1.0". |
| ConnectorUtil.ConnectorGlobals.AppendUserAgent | src/com/microsoft/azure/documentdb/pig/DocumentDBStorage.java:69-71 | The shared suffix becomes WithSuffix of its old value, so afterwards it contains the suffix. |
| InputSplits.DocumentIterator.constructor | src/com/microsoft/azure/documentdb/hadoop/DocumentDBInputSplit.java:161-164 | A new iterator is positioned at the start of the query results. |
| InputSplits.DocumentIterator.Next | src/com/microsoft/azure/documentdb/hadoop/DocumentDBRecordReader.java:102 | Returns the document at the position and advances it by one. |
| InputSplits.Codes | src/com/microsoft/azure/documentdb/hadoop/DocumentDBInputSplit.java:115-121 | The wire form of a string has one code per character. |
| InputSplits.Chars | src/com/microsoft/azure/documentdb/hadoop/DocumentDBInputSplit.java:104-110 | Turning codes back into characters inverts Codes. |
| InputSplits.EncodeText | src/com/microsoft/azure/documentdb/hadoop/DocumentDBInputSplit.java:115-121 | Text.writeString writes a length prefix, then the characters. |
| InputSplits.DecodeEncodeText | src/com/microsoft/azure/documentdb/hadoop/DocumentDBInputSplit.java:104-121 | Reading a written string returns it and leaves the rest of the stream untouched. |
| InputSplits.DecodeEncodeFields | src/com/microsoft/azure/documentdb/hadoop/DocumentDBInputSplit.java:104-121 | readFields after write restores host, key, database, collection and query, in that order, and leaves the rest of the stream untouched. |
| InputSplits.EffectiveQuery | src/com/microsoft/azure/documentdb/hadoop/DocumentDBInputSplit.java:152-157 | An empty query falls back to select * from root. Any other query is kept, and the result is never empty. |
| InputSplits.AsIOException | src/com/microsoft/azure/documentdb/hadoop/DocumentDBInputSplit.java:165-167 | A failure while opening the iterator surfaces as IOException with that cause. |
| InputSplits.DocumentDBInputSplit.Empty | src/com/microsoft/azure/documentdb/hadoop/DocumentDBInputSplit.java:45-51 | The no-argument split has empty text fields and no iterator. |
| InputSplits.DocumentDBInputSplit.constructor | src/com/microsoft/azure/documentdb/hadoop/DocumentDBInputSplit.java:53-63 | Stores host, key, database and collection. A null query is stored as an empty string. No iterator is open. |
| InputSplits.DocumentDBInputSplit.Write | src/com/microsoft/azure/documentdb/hadoop/DocumentDBInputSplit.java:115-121 | Writes the five fields. readFields of the output yields the same fields and nothing left over. |
| InputSplits.DocumentDBInputSplit.ReadFields | src/com/microsoft/azure/documentdb/hadoop/DocumentDBInputSplit.java:104-110 | Well-formed input sets all five fields and returns the rest of the stream. Truncated input is an error. |
| InputSplits.DocumentDBInputSplit.GetLength | src/com/microsoft/azure/documentdb/hadoop/DocumentDBInputSplit.java:83-85 | The length is Integer.MAX_VALUE. |
| InputSplits.DocumentDBInputSplit.GetLocations | src/com/microsoft/azure/documentdb/hadoop/DocumentDBInputSplit.java:91-95 | The only location is "localhost". |
| InputSplits.DocumentDBInputSplit.GetDocumentIterator | src/com/microsoft/azure/documentdb/hadoop/DocumentDBInputSplit.java:128-170 | An open iterator is returned again without any call. Otherwise the database and the collection are looked up and the effective query is issued. The new iterator is kept and starts at the first result. Any failure is IOException and leaves the split unchanged. On a split not yet opened, it fails exactly when OpenError names an error, and with that error. |
| InputSplits.OpenError | src/com/microsoft/azure/documentdb/hadoop/DocumentDBInputSplit.java:128-170 | Opening an unopened split fails exactly when a lookup fails or finds nothing, or the query fails. The error is an IOException wrapping the first such cause. |
| InputSplits.SplitOpenFailsWithOpenError | src/com/microsoft/azure/documentdb/hadoop/DocumentDBInputSplit.java:128-170 | The step-by-step description of an open fails exactly with OpenError. |
| InputSplits.GetSplits | src/com/microsoft/azure/documentdb/hadoop/DocumentDBInputSplit.java:68-77 | One fresh split per collection name, in order. Each carries the connection settings, the trimmed name and the query. |
| RecordReaders.Progress | src/com/microsoft/azure/documentdb/hadoop/DocumentDBRecordReader.java:40-55 | Progress is 1.0 exactly when an iterator exists and has no next element, and 0.0 otherwise. |
| RecordReaders.IteratorProgress | src/com/microsoft/azure/documentdb/hadoop/DocumentDBRecordReader.java:40-55 | With no iterator, progress is 0. Otherwise it is Progress, or the error of the retried hasNext. |
| RecordReaders.NextDocument | src/com/microsoft/azure/documentdb/hadoop/DocumentDBRecordReader.java:88-111 | A null iterator gives false without any call. Otherwise, once the retried hasNext succeeds, it takes the iterator's next document when there is one and reports false otherwise. An error is exactly a retry failure, and it leaves the iterator alone. |
| RecordReaders.HadoopRecordReader.constructor | src/com/microsoft/azure/documentdb/hadoop/DocumentDBRecordReader.java:30-34 | A new reader holds the split and has processed no documents. |
| RecordReaders.HadoopRecordReader.Initialize | src/com/microsoft/azure/documentdb/hadoop/DocumentDBRecordReader.java:79-82 | The split is set only when none was set before. |
| RecordReaders.HadoopRecordReader.GetCurrentKey | src/com/microsoft/azure/documentdb/hadoop/DocumentDBRecordReader.java:61-64 | Every key is a fresh LongWritable holding 0. |
| RecordReaders.HadoopRecordReader.GetCurrentValue | src/com/microsoft/azure/documentdb/hadoop/DocumentDBRecordReader.java:70-73 | The value is the reader's current writable. |
| RecordReaders.HadoopRecordReader.GetProgress | src/com/microsoft/azure/documentdb/hadoop/DocumentDBRecordReader.java:40-55 | Gives Progress of the iterator, or the retry loop's error. |
| RecordReaders.HadoopRecordReader.NextKeyValue | src/com/microsoft/azure/documentdb/hadoop/DocumentDBRecordReader.java:88-111 | Returns true exactly when a document was taken; it becomes the current value and the count grows by one. False means there is no iterator (no call is made) or it is exhausted. An error is exactly a retry failure on an existing iterator. |
| RecordReaders.MapredRecordReader.constructor | src/com/microsoft/azure/documentdb/mapred/hadoop/DocumentDBRecordReader.java:34-37 | A new reader holds the wrapped split and has processed no documents. |
| RecordReaders.MapredRecordReader.CreateKey | src/com/microsoft/azure/documentdb/mapred/hadoop/DocumentDBRecordReader.java:46-48 | Returns a fresh key holding 0. |
| RecordReaders.MapredRecordReader.CreateValue | src/com/microsoft/azure/documentdb/mapred/hadoop/DocumentDBRecordReader.java:53-55 | Returns a fresh writable holding an empty document. |
| RecordReaders.MapredRecordReader.GetPos | src/com/microsoft/azure/documentdb/mapred/hadoop/DocumentDBRecordReader.java:60-62 | The position is always 0. |
| RecordReaders.MapredRecordReader.GetProgress | src/com/microsoft/azure/documentdb/mapred/hadoop/DocumentDBRecordReader.java:67-82 | Gives Progress of the iterator, or the retry loop's error. |
| RecordReaders.MapredRecordReader.Next | src/com/microsoft/azure/documentdb/mapred/hadoop/DocumentDBRecordReader.java:87-111 | Returns true exactly when a document was copied into the caller's value and the count grew by one. False means there is no iterator (no call is made) or it is exhausted. An error is exactly a retry failure on an existing iterator. False or an error leaves the value alone. |
| RecordWriters.BatchedDocsAppend | src/com/microsoft/azure/documentdb/mapred/hadoop/DocumentDBRecordWriter.java:96-105 | One more batch appends its documents to all the documents batched. |
| RecordWriters.RotateNext | src/com/microsoft/azure/documentdb/mapred/hadoop/DocumentDBRecordWriter.java:104 | Proof helper for RecordWriters.DocumentDBRecordWriter.WriteCurrentBatch, not separate behaviour: (i + 1) % n wraps to 0 exactly after n - 1. |
| RecordWriters.SingleDatabase | src/com/microsoft/azure/documentdb/hadoop/DocumentDBRecordWriter.java:45-48 | The writer proceeds only when exactly one database matches the name; it is that database. Otherwise the result is IOException wrapping IOException. |
| RecordWriters.DocumentDBRecordWriter.FlushStatus | src/com/microsoft/azure/documentdb/mapred/hadoop/DocumentDBRecordWriter.java:96-100 | A flush with no output collections ends in IndexOutOfBounds. Otherwise it ends as the write loop over the cache ends. |
| RecordWriters.DocumentDBRecordWriter.Mapred | src/com/microsoft/azure/documentdb/mapred/hadoop/DocumentDBRecordWriter.java:48-71 | A new mapred writer caches 50 documents per batch, starts at collection 0 and has written nothing. Any number of output collections is accepted, none included, as the constructor's loop accepts an empty name list. |
| RecordWriters.DocumentDBRecordWriter.Hadoop | src/com/microsoft/azure/documentdb/hadoop/DocumentDBRecordWriter.java:37-66 | A new mapreduce writer caches 25 documents per batch, starts at collection 0 and has written nothing. Any number of output collections is accepted, none included. |
| RecordWriters.DocumentDBRecordWriter.WriteCurrentBatch | src/com/microsoft/azure/documentdb/mapred/hadoop/DocumentDBRecordWriter.java:96-105 | With no output collections, collections[0] throws ArrayIndexOutOfBoundsException before anything is sent, and the cache and the index are kept. Otherwise the cache goes to the current collection via the write loop. On success the cache is cleared, the batch is recorded and the collection index rotates. On failure the cache and the index are kept. Every document written so far is either in the cache or in a batch handed to the write loop (Valid). What a batch commits is stated by ConnectorUtil.PartialCommitsWriteAll. The same code is at hadoop/DocumentDBRecordWriter.java:86-96. |
| RecordWriters.DocumentDBRecordWriter.Write | src/com/microsoft/azure/documentdb/mapred/hadoop/DocumentDBRecordWriter.java:85-94 | The document, id backfilled, is appended to the cache and counted. A batch is flushed exactly when the count reaches a multiple of the cache size, at which point the cache is full. The same code is at hadoop/DocumentDBRecordWriter.java:68-77. |
| RecordWriters.DocumentDBRecordWriter.Close | src/com/microsoft/azure/documentdb/mapred/hadoop/DocumentDBRecordWriter.java:76-80 | Flushes a non-empty cache. After a successful close, the batches handed to the write loop hold every document written, in order. The same code is at hadoop/DocumentDBRecordWriter.java:80-84. |
| ConfigurationUtil.Configuration.Set | src/com/microsoft/azure/documentdb/pig/DocumentDBLoader.java:172-177 | Sets one key; every other setting is unchanged. |
| ConfigurationUtil.Configuration.SetBoolean | src/com/microsoft/azure/documentdb/pig/DocumentDBLoader.java:180 | Sets the key to "true" or "false". |
| ConfigurationUtil.PropertyMap.Put | src/com/microsoft/azure/documentdb/hadoop/ConfigurationUtil.java:187 | Puts one entry; the others are unchanged. |
| ConfigurationUtil.Get | src/com/microsoft/azure/documentdb/hadoop/ConfigurationUtil.java:109-129 | conf.get is null exactly for an unset key, and otherwise gives its value. This covers getDBName, getDBEndpoint, getDBKey and getQuery. |
| ConfigurationUtil.CollectionNames | src/com/microsoft/azure/documentdb/hadoop/ConfigurationUtil.java:89-102 | An unset key throws NullPointerException. Otherwise the names are the comma-free pieces of the value, with trailing empty names dropped, and they join back to the value. |
| ConfigurationUtil.GetInputCollectionNames | src/com/microsoft/azure/documentdb/hadoop/ConfigurationUtil.java:89-92 | The input collection names, failing exactly when the key is unset. |
| ConfigurationUtil.GetOutputCollectionNames | src/com/microsoft/azure/documentdb/hadoop/ConfigurationUtil.java:99-102 | The output collection names, failing exactly when the key is unset. |
| ConfigurationUtil.GetOutputStringPrecision | src/com/microsoft/azure/documentdb/hadoop/ConfigurationUtil.java:136-156 | An unset or empty value gives -1. A set value is accepted iff it parses as an int that is -1 or positive, and then it is returned. Anything else is IllegalArgumentException. |
| ConfigurationUtil.PrecisionRoundTrip | src/com/microsoft/azure/documentdb/hadoop/ConfigurationUtil.java:136-156 | Storing any valid precision as decimal text reads back that precision. |
| ConfigurationUtil.PrecisionRejected | src/com/microsoft/azure/documentdb/hadoop/ConfigurationUtil.java:151-153 | Any int below -1, and 0, is rejected. |
| ConfigurationUtil.GetUpsert | src/com/microsoft/azure/documentdb/hadoop/ConfigurationUtil.java:163-166 | Upsert is off exactly when the key is set to "false" ignoring case. An unset key means on. |
| ConfigurationUtil.UpsertOffIgnoringCase | src/com/microsoft/azure/documentdb/hadoop/ConfigurationUtil.java:165 | Every casing of "false" turns upsert off. |
| ConfigurationUtil.GetOutputCollectionsOffer | src/com/microsoft/azure/documentdb/hadoop/ConfigurationUtil.java:173-176 | The offer setting, or "S3" when unset. |
| ConfigurationUtil.CopyKeys | src/com/microsoft/azure/documentdb/hadoop/ConfigurationUtil.java:183-190 | Every listed key present in the source is copied with its value. Every other target entry is kept. Nothing else is added. |
| ConfigurationUtil.CopyKeysStep | src/com/microsoft/azure/documentdb/hadoop/ConfigurationUtil.java:184-189 | Proof helper for ConfigurationUtil.CopyKeys, not separate behaviour: one more key of the loop copies that key if the source has it. |
| ConfigurationUtil.CopyDocumentDBProperties | src/com/microsoft/azure/documentdb/hadoop/ConfigurationUtil.java:183-190 | The loop's result is CopyKeys over ALL_PROPERTIES. |
| ConfigurationUtil.CopySkipsWriterSettings | src/com/microsoft/azure/documentdb/hadoop/ConfigurationUtil.java:80-82 | Precision, offer and upsert are not in ALL_PROPERTIES, so copying never sets them. |
| HiveStorageHandler.ForwardKeys | src/com/microsoft/azure/documentdb/hive/DocumentDBStorageHandler.java:76-85 | Exactly the table properties with a non-empty value and a key other than columns.comments are copied, with their values. Every other job entry is kept. |
| HiveStorageHandler.ForwardOneMore | src/com/microsoft/azure/documentdb/hive/DocumentDBStorageHandler.java:76-85 | Proof helper for HiveStorageHandler.ForwardTableProperties, not separate behaviour: one more key of the loop forwards it if it qualifies. |
| HiveStorageHandler.ForwardTableProperties | src/com/microsoft/azure/documentdb/hive/DocumentDBStorageHandler.java:76-85 | The loop's result is ForwardKeys over all table keys. |
| HiveStorageHandler.ConfigureInputJobProperties | src/com/microsoft/azure/documentdb/hive/DocumentDBStorageHandler.java:73-86 | The job properties gain exactly the forwarded table properties. |
| HiveStorageHandler.ConfigureOutputJobProperties | src/com/microsoft/azure/documentdb/hive/DocumentDBStorageHandler.java:92-101 | The output side forwards table properties the same way. |
| HiveStorageHandler.ConfigureTableJobProperties | src/com/microsoft/azure/documentdb/hive/DocumentDBStorageHandler.java:37-40 | The connector's keys are copied from the table properties. |
| HiveStorageHandler.ForwardIdempotent | src/com/microsoft/azure/documentdb/hive/DocumentDBStorageHandler.java:73-86 | Forwarding twice equals forwarding once. |
| PigLoader.ConvertToPigType | src/com/microsoft/azure/documentdb/pig/DocumentDBLoader.java:104-129 | Null stays null. Scalars and tuples are unchanged. A JSON array becomes a tuple of the same length, and a JSON object becomes a map with the same keys. |
| PigLoader.ConvertYieldsPig | src/com/microsoft/azure/documentdb/pig/DocumentDBLoader.java:104-129 | Converting any JSON value leaves no JSON array anywhere inside it: arrays become tuples, objects stay maps. |
| PigLoader.ConvertFixesPig | src/com/microsoft/azure/documentdb/pig/DocumentDBLoader.java:104-129 | Values that are already Pig values are left unchanged. |
| PigLoader.ConvertIdempotent | src/com/microsoft/azure/documentdb/pig/DocumentDBLoader.java:104-129 | Converting twice equals converting once. |
| PigLoader.Translate | src/com/microsoft/azure/documentdb/pig/DocumentDBLoader.java:79-102 | With no field list, the tuple holds one map of every converted property. With a field list, it holds one converted value per field, null for a missing field. |
| PigLoader.DocumentDBLoader.constructor | src/com/microsoft/azure/documentdb/pig/DocumentDBLoader.java:52-68 | Stores key, database, collections and query. Fields and reader are unset. The Pig loader suffix is appended to the user agent. |
| PigLoader.DocumentDBLoader.PrepareToRead | src/com/microsoft/azure/documentdb/pig/DocumentDBLoader.java:160-163 | Keeps the reader. |
| PigLoader.DocumentDBLoader.SetLocation | src/com/microsoft/azure/documentdb/pig/DocumentDBLoader.java:169-181 | Sets endpoint, key, database and input collections, and the query only when one was given. The user classpath comes first. |
| PigLoader.DocumentDBLoader.GetNext | src/com/microsoft/azure/documentdb/pig/DocumentDBLoader.java:135-154 | Without a reader, throws NullPointerException. With a reader but no iterator, or at the end, it gives null. Otherwise it gives the translated current document. A failure is exactly a retry failure on an existing iterator. |
| PigStorage.FieldName | src/com/microsoft/azure/documentdb/pig/DocumentDBStorage.java:182 | Generated names are "field" followed by a number. |
| PigStorage.FieldNameInjective | src/com/microsoft/azure/documentdb/pig/DocumentDBStorage.java:182 | Distinct counters give distinct field names. |
| PigStorage.Strings | src/com/microsoft/azure/documentdb/pig/DocumentDBStorage.java:181-183 | Keeps the string elements, in order. |
| PigStorage.DynamicCountsStrings | src/com/microsoft/azure/documentdb/pig/DocumentDBStorage.java:171-183 | For every tuple, the loop's counter ends at the number of string elements, so strings are numbered consecutively from field0. |
| PigStorage.SetsKeyPrefix | src/com/microsoft/azure/documentdb/pig/DocumentDBStorage.java:171-183 | Whether an element sets a key does not depend on the elements after it. |
| PigStorage.DynamicLastWriter | src/com/microsoft/azure/documentdb/pig/DocumentDBStorage.java:171-183 | For every tuple, a property holds what the last element that sets it put there. A map element sets each of its keys to its value. A string element sets "field<n>" to itself, where n counts the strings before it. |
| PigStorage.DynamicKeysSet | src/com/microsoft/azure/documentdb/pig/DocumentDBStorage.java:171-183 | Every property of the dynamic document was set by some element of the tuple. |
| PigStorage.DynamicNumbersStrings | src/com/microsoft/azure/documentdb/pig/DocumentDBStorage.java:164-188 | When no map element holds a "field<n>" key, the properties the loop builds hold the j-th string under "field<j>", and every other property is a key of a map element. (A null element makes the loop throw first; see DynamicDocument.) |
| PigStorage.DynamicKeepsMapKeys | src/com/microsoft/azure/documentdb/pig/DocumentDBStorage.java:173-179 | Every key of every map element ends up in the document. Its value is given by DynamicLastWriter. |
| PigStorage.DynamicKeepsKeys | src/com/microsoft/azure/documentdb/pig/DocumentDBStorage.java:164-188 | A later element never removes a key set by an earlier one. |
| PigStorage.Relevant | src/com/microsoft/azure/documentdb/pig/DocumentDBStorage.java:172-187 | Keeps only the map, string and null elements. |
| PigStorage.DynamicIgnoresOthers | src/com/microsoft/azure/documentdb/pig/DocumentDBStorage.java:172-187 | Elements that are neither maps, strings nor null do not affect the document, nor whether the loop throws. |
| PigStorage.PutAll | src/com/microsoft/azure/documentdb/pig/DocumentDBStorage.java:175-179 | Setting each of the map's entries in turn gives the document's properties overridden by the map. |
| PigStorage.DynamicDocument | src/com/microsoft/azure/documentdb/pig/DocumentDBStorage.java:164-188 | A tuple with a null element throws NullPointerException (the log call's getClass() on null). Otherwise the loop builds exactly DynamicProps of the tuple. |
| PigStorage.SchemaProps | src/com/microsoft/azure/documentdb/pig/DocumentDBStorage.java:189-195 | The property names are exactly the schema's field names. |
| PigStorage.SchemaBindsField | src/com/microsoft/azure/documentdb/pig/DocumentDBStorage.java:189-195 | A field named once (last) holds the tuple element at its position. |
| PigStorage.SchemaDocument | src/com/microsoft/azure/documentdb/pig/DocumentDBStorage.java:189-195 | A tuple shorter than the schema throws IndexOutOfBounds. Otherwise the document is SchemaProps. |
| PigStorage.DocumentDBStorage.constructor | src/com/microsoft/azure/documentdb/pig/DocumentDBStorage.java:56-72 | Stores the settings. Writer and schema are unset. The Pig storage suffix is appended to the user agent. |
| PigStorage.DocumentDBStorage.SetStoreLocation | src/com/microsoft/azure/documentdb/pig/DocumentDBStorage.java:84-104 | Sets endpoint, key, database and output collections. Upsert, the range index and the offer are set only when given. The user classpath comes first. |
| PigStorage.DocumentDBStorage.CheckSchema | src/com/microsoft/azure/documentdb/pig/DocumentDBStorage.java:109-115 | Keeps the schema and stores its text under the UDF key. |
| PigStorage.DocumentDBStorage.PrepareToWrite | src/com/microsoft/azure/documentdb/pig/DocumentDBStorage.java:135-154 | Keeps the writer. A missing schema text is IOException. A stored text is parsed; a text the parser refuses is only logged, and the schema stays as it was. |
| PigStorage.DocumentDBStorage.PutNext | src/com/microsoft/azure/documentdb/pig/DocumentDBStorage.java:160-199 | The document is built dynamically or by schema and written with the writer's Write. Its status is Completed unless that write fills a batch; then it is the writer's FlushStatus for the cache plus the new document, so a raised status means the batch send failed. A short tuple, a null element in a schemaless tuple or a missing writer is an error that writes nothing. |
| Formats.CheckInputSettings | src/com/microsoft/azure/documentdb/hadoop/DocumentDBInputFormat.java:34-51 | The names are read first, so an unset names key throws NullPointerException. Then endpoint, key and database are checked in that order. Names that split to nothing fail. Success returns the settings. |
| Formats.NoCollectionsOnlyFromCommas | src/com/microsoft/azure/documentdb/hadoop/DocumentDBInputFormat.java:48-49 | The "no collections" error arises exactly for a non-empty value made of commas only. |
| Formats.HadoopGetSplits | src/com/microsoft/azure/documentdb/hadoop/DocumentDBInputFormat.java:34-51 | Fails exactly when the settings check fails. Otherwise it returns one fresh split per name, carrying the settings and the trimmed name. |
| Formats.CreateRecordReader | src/com/microsoft/azure/documentdb/hadoop/DocumentDBInputFormat.java:28-31 | Opens the split's iterator and returns a fresh reader over the split. An already-open split always gives a reader. An unopened one fails exactly when OpenError names an error, and with that error. |
| Formats.MapredGetSplits | src/com/microsoft/azure/documentdb/mapred/hadoop/DocumentDBInputFormat.java:32-58 | Performs the same checks as the mapreduce format. Each inner split is then wrapped with the first input path, and no input path throws IndexOutOfBounds. |
| Formats.WrapSplits | src/com/microsoft/azure/documentdb/mapred/hadoop/DocumentDBInputFormat.java:50-57 | Wraps each split, in order, with the first input path. An empty path list fails only if there is a split to wrap. |
| Formats.GetRecordReader | src/com/microsoft/azure/documentdb/mapred/hadoop/DocumentDBInputFormat.java:26-30 | Opens the wrapped split's iterator and returns a fresh mapred reader. An already-open split always gives a reader. An unopened one fails exactly when OpenError names an error, and with that error. |
| Formats.CheckOutputSpecs | src/com/microsoft/azure/documentdb/hadoop/DocumentDBOutputFormat.java:22-37 | An unset names key throws NullPointerException first. Then endpoint, key and database are checked in order. It passes iff all are set and the names split to at least one. The mapred variant at mapred/hadoop/DocumentDBOutputFormat.java:26-40 differs only in its message. |
| Formats.OutputSpecsAcceptSingleName | src/com/microsoft/azure/documentdb/mapred/hadoop/DocumentDBOutputFormat.java:26-40 | A single comma-free name with the connection settings passes the check. |
| Formats.RecordWriterArguments | src/com/microsoft/azure/documentdb/mapred/hadoop/DocumentDBOutputFormat.java:45-53 | The writer receives the connection settings, the split names, a valid precision, the upsert flag and the offer. An unset names key or a bad precision is the error. |

## Left out

- **DocumentClient.** Every call to the service is a scripted `Remote` value. A finite script ends the write loop as `OutOfResponses`, where the source would keep waiting. A service that throttles forever makes the source loop forever, and the model does not show that.
- **Thread.sleep.** It is modelled only as a ghost log of the delays.
- **Negative retry-after hints.** The service's retry-after hint is a `nat`, so a negative hint, for which the computed delay could be negative and Thread.sleep would throw IllegalArgumentException, is not modelled.
- **Query construction in the lookups.** In GetDatabase and GetDocumentCollection, the queryDatabases or queryCollections call that builds the query runs once, outside the retry loop; only toList() is retried. Building the query is SDK object construction and is not modelled, so an exception thrown there is not either.
- **List sizes.** The lemmas about what the write loop writes assume at most Integer.MAX_VALUE documents, the most a Java list can report through size(). The loop itself and ExecuteWriteStoredProcedure take any list.
- **Logging.** It is not modelled.
- **getBulkImportBody and getOutputIndexingPolicy.** Neither is modelled: reading the script resource and building the indexing-policy object are I/O and SDK object construction. The precision only travels in the collection request.
- **Writer constructor set-up.** The collection and stored-procedure set-up in both writer constructors is not modelled; only the single-database check (`SingleDatabase`) and the resulting counts are. The mapreduce output format's getRecordWriter is also left out, because it calls `ConfigurationUtil.getRangeIndex`, which does not exist in `ConfigurationUtil.java`. The range-index key used by Pig's setStoreLocation is a parameter for the same reason.
- **Hadoop plumbing.** These parts are not modelled because they are serialisation glue or framework wiring with no behaviour to state:
  - DocumentDBWritable's write and readFields, and DocumentDBWritableComparator;
  - WrapperSplit serialisation;
  - the Hive SerDe;
  - DocumentDBOutputCommitter and getOutputCommitter;
  - getInputFormatClass, getOutputFormatClass, getSerDeClass, getMetaHook, getAuthorizationProvider and configureJobConf;
  - Pig's getInputFormat, getOutputFormat, relativeToAbsolutePath, setUDFContextSignature and setStoreFuncUDFContextSignature.
- **SchemaHelper.** Schema parsing and printing are parameters.
- **The shared static user-agent string.** It is a single object (`ConnectorGlobals`). Races between threads are not modelled.
- **Counters.** `documentsProcessed` and the retry attempt counter are unbounded naturals, so Java int overflow is not modelled.
- **Documents.** They are immutable values. `addIdIfMissing` mutates the caller's document in place, and the model returns the new document instead, so aliasing between the writer's cache and the caller is not modelled. The same holds for the Pig storage's document built with `put` and `putAll`.
- **Text wire format.** Strings are written as a length followed by one integer code per character. The UTF-8 byte form of `Text.writeString` is not modelled.
- **JavaText.ParseInt:** accepts ASCII digits only, with one optional '+' or '-'. Other Unicode digits that `Integer.parseInt` accepts are not modelled.
- **JavaText.EqualsIgnoreCase:** folds ASCII letters only.
- **PigLoader.ConvertToPigType:** Java types other than JSON values (booleans included) pass through unchanged, as the source's fall-through case does. No other Java object types are modelled.
- **Code that cannot act.** The loader's `fields` is always null in the source, so only that path is reachable, although Translate is modelled for both. getNext's null check on key and value can never fire and is not modelled.
- **Where the code and its description disagree, the model follows the code:**
  - **Read order.** Both input formats and both output formats read the collection names before checking the endpoint. An unset names key therefore throws NullPointerException before any "must be set" error. The output formats' own `collectionNames == null` test is dead code.
  - **Zero hint.** The 3000 ms fallback replaces a zero computed delay (hint plus 500 ms per attempt), not a zero hint. See `RetryPolicy.ZeroHintDelaysDrop`.
  - **Schema errors.** A schema that fails to parse in prepareToWrite is only logged.
