/**
 * DocumentDBConnectorUtil: bulk-write chunking, the stored-procedure write
 * loop, id backfilling, the retried lookups of databases, collections and
 * the bulk-import procedure, and the process-wide user-agent suffix.
 *
 * Every DocumentClient call is an oracle input (`Remote`, see RetryPolicy);
 * Document.toString() is the parameter `toText`; UUID.randomUUID() is the
 * parameter `freshId`.
 */
module ConnectorUtil {
  import opened Wrappers
  import opened Documents
  import opened JavaText
  import opened RetryPolicy

  const MAX_SCRIPT_DOCS := 50
  const MAX_SCRIPT_SIZE := 50000
  const BULK_IMPORT_ID := "HadoopBulkImportSprocV1"
  const DEFAULT_USER_AGENT_SUFFIX := " HadoopConnector/1.1.0"

  // ---------------------------------------------------------------- ids

  /** addIdIfMissing: a document without an id gets `freshId`; one with an id is left alone. */
  function AddIdIfMissing(d: Document, freshId: string): (r: Document)
    ensures HasId(r)
    ensures HasId(d) ==> r == d
    ensures !HasId(d) ==> r.props[ID_PROPERTY] == Str(freshId)
    ensures forall key | key in d.props && key != ID_PROPERTY :: key in r.props && r.props[key] == d.props[key]
    ensures r.props.Keys == d.props.Keys + {ID_PROPERTY}
  {
    if HasId(d) then d else Document(d.props[ID_PROPERTY := Str(freshId)])
  }

  /** Backfilling twice is backfilling once, whatever the second fresh id is. */
  lemma AddIdIfMissingIdempotent(d: Document, id1: string, id2: string)
    ensures AddIdIfMissing(AddIdIfMissing(d, id1), id2) == AddIdIfMissing(d, id1)
  {
  }

  // ---------------------------------------------------------------- chunking

  /** The serialisations of the documents, in list order. */
  function Texts(docs: seq<Document>, toText: Document -> string): (ts: seq<string>)
    ensures |ts| == |docs| && forall i | 0 <= i < |docs| :: ts[i] == toText(docs[i])
  {
    seq(|docs|, i requires 0 <= i < |docs| => toText(docs[i]))
  }

  /** Total number of characters in a list of strings. */
  function SumLengths(ts: seq<string>): nat
  {
    if |ts| == 0 then 0 else |ts[0]| + SumLengths(ts[1..])
  }

  /**
   * How many of `ts` the chunk builder takes: it keeps taking while some
   * budget remains, fewer than `room` are taken and the list lasts.
   */
  function TakeWhileBudget(ts: seq<string>, budget: int, room: nat): (k: nat)
    ensures k <= |ts| && k <= room
    decreases |ts|
  {
    if budget <= 0 || room == 0 || |ts| == 0 then 0
    else 1 + TakeWhileBudget(ts[1..], budget - |ts[0]|, room - 1)
  }

  lemma TakeWhileBudgetStep(ts: seq<string>, budget: int, room: nat)
    requires budget > 0 && room > 0 && |ts| > 0
    ensures TakeWhileBudget(ts, budget, room) == 1 + TakeWhileBudget(ts[1..], budget - |ts[0]|, room - 1)
  {
  }

  /** The chunk that starts at `start`, as CreateBulkInsertScriptArguments builds it. */
  function Chunk(ts: seq<string>, start: nat, maxScriptSize: int): seq<string>
    requires start <= |ts|
  {
    var pending := ts[start..];
    pending[..TakeWhileBudget(pending, maxScriptSize, MAX_SCRIPT_DOCS)]
  }

  /**
   * The result of CreateBulkInsertScriptArguments, exceptions included: a
   * start at or past the end gives no arguments; a negative start fails on
   * its first docs.get unless the budget is already used up.
   */
  function ScriptArguments(docs: seq<Document>, currentIndex: int, maxScriptSize: int, toText: Document -> string)
    : Result<seq<string>, Error>
  {
    if currentIndex >= |docs| then Ok([])
    else if currentIndex < 0 then (if maxScriptSize > 0 then Err(IndexOutOfBounds) else Ok([]))
    else Ok(Chunk(Texts(docs, toText), currentIndex, maxScriptSize))
  }

  /**
   * The loop state of CreateBulkInsertScriptArguments: `taken` is a prefix of
   * the pending texts, and the chunk, `total` texts long, is `taken` followed
   * by what the remaining budget and room take from the rest of the list.
   */
  ghost predicate ChunkInvariant(pending: seq<string>, total: nat, taken: seq<string>, remaining: int) {
    && |taken| <= |pending| && |taken| <= MAX_SCRIPT_DOCS
    && taken == pending[..|taken|]
    && total == |taken| + TakeWhileBudget(pending[|taken|..], remaining, MAX_SCRIPT_DOCS - |taken|)
  }

  lemma ChunkStart(pending: seq<string>, budget: int)
    ensures ChunkInvariant(pending, TakeWhileBudget(pending, budget, MAX_SCRIPT_DOCS), [], budget)
  {
    assert pending[0..] == pending;
  }

  lemma ChunkStep(pending: seq<string>, total: nat, taken: seq<string>, remaining: int)
    requires ChunkInvariant(pending, total, taken, remaining)
    requires remaining > 0 && |taken| < MAX_SCRIPT_DOCS && |taken| < |pending|
    ensures ChunkInvariant(pending, total, taken + [pending[|taken|]], remaining - |pending[|taken|]|)
  {
    var i := |taken|;
    assert pending[i..][1..] == pending[i + 1..];
    TakeWhileBudgetStep(pending[i..], remaining, MAX_SCRIPT_DOCS - i);
    assert pending[..i + 1] == pending[..i] + [pending[i]];
  }

  /** One round of the loop, in terms of the documents: the next text is the next document's. */
  lemma ChunkStepDocs(docs: seq<Document>, toText: Document -> string, start: nat, total: nat,
                      pending: seq<string>, taken: seq<string>, remaining: int, next: string)
    requires start + |taken| < |docs| && pending == Texts(docs, toText)[start..]
    requires next == toText(docs[start + |taken|])
    requires ChunkInvariant(pending, total, taken, remaining)
    requires remaining > 0 && |taken| < MAX_SCRIPT_DOCS
    ensures ChunkInvariant(pending, total, taken + [next], remaining - |next|)
  {
    assert pending[|taken|] == next;
    ChunkStep(pending, total, taken, remaining);
  }

  lemma ChunkExit(ts: seq<string>, start: nat, budget: int, pending: seq<string>, total: nat,
                  taken: seq<string>, remaining: int)
    requires start <= |ts| && pending == ts[start..] && total == TakeWhileBudget(pending, budget, MAX_SCRIPT_DOCS)
    requires ChunkInvariant(pending, total, taken, remaining)
    requires remaining <= 0 || |taken| == MAX_SCRIPT_DOCS || |taken| == |pending|
    ensures Chunk(ts, start, budget) == taken
  {
  }

  /** The loop of CreateBulkInsertScriptArguments, from a start inside the list. */
  method TakeChunk(docs: seq<Document>, currentIndex: nat, maxScriptSize: int, toText: Document -> string)
    returns (jsonDocumentList: seq<string>)
    requires currentIndex < |docs|
    ensures jsonDocumentList == Chunk(Texts(docs, toText), currentIndex, maxScriptSize)
  {
    jsonDocumentList := [];
    var scriptCapacityRemaining := maxScriptSize;
    var i := 0;
    ghost var pending := Texts(docs, toText)[currentIndex..];
    ghost var total := TakeWhileBudget(pending, maxScriptSize, MAX_SCRIPT_DOCS);
    ChunkStart(pending, maxScriptSize);
    while scriptCapacityRemaining > 0 && i < MAX_SCRIPT_DOCS && currentIndex + i < |docs|
      invariant i == |jsonDocumentList|
      invariant ChunkInvariant(pending, total, jsonDocumentList, scriptCapacityRemaining)
      decreases MAX_SCRIPT_DOCS - i
    {
      var stringifiedDoc := toText(docs[currentIndex + i]);
      ChunkStepDocs(docs, toText, currentIndex, total, pending, jsonDocumentList, scriptCapacityRemaining, stringifiedDoc);
      jsonDocumentList := jsonDocumentList + [stringifiedDoc];
      scriptCapacityRemaining := scriptCapacityRemaining - |stringifiedDoc|;
      i := i + 1;
    }
    ChunkExit(Texts(docs, toText), currentIndex, maxScriptSize, pending, total, jsonDocumentList, scriptCapacityRemaining);
  }

  /** createBulkInsertScriptArguments: the next chunk of documents to send to the bulk-insert script. */
  method CreateBulkInsertScriptArguments(docs: seq<Document>, currentIndex: int, maxScriptSize: int,
                                         toText: Document -> string)
    returns (r: Result<seq<string>, Error>)
    ensures r == ScriptArguments(docs, currentIndex, maxScriptSize, toText)
  {
    if currentIndex >= |docs| {
      return Ok([]);
    }
    if currentIndex < 0 {
      // the loop's first docs.get(currentIndex) throws, if the loop is entered at all
      return if maxScriptSize > 0 then Err(IndexOutOfBounds) else Ok([]);
    }
    var jsonDocumentList := TakeChunk(docs, currentIndex, maxScriptSize, toText);
    r := Ok(jsonDocumentList);
  }


  lemma {:induction false} TakeWhileBudgetSpec(ts: seq<string>, budget: int, room: nat)
    ensures var k := TakeWhileBudget(ts, budget, room);
            && (k > 0 <==> (budget > 0 && room > 0 && |ts| > 0))
            && (forall j | 0 <= j < k :: SumLengths(ts[..j]) < budget)
            && (k < room && k < |ts| ==> SumLengths(ts[..k]) >= budget)
    decreases |ts|
  {
    var k := TakeWhileBudget(ts, budget, room);
    if k > 0 {
      var rest := ts[1..];
      var b := budget - |ts[0]|;
      TakeWhileBudgetSpec(rest, b, room - 1);
      forall j | 1 <= j <= k
        ensures SumLengths(ts[..j]) == |ts[0]| + SumLengths(rest[..j - 1])
      {
        assert ts[..j][1..] == rest[..j - 1];
      }
    }
  }

  /**
   * The chunk starting at a valid index is a contiguous slice of the
   * serialised list, of at most MAX_SCRIPT_DOCS documents, never empty while
   * the budget is positive; every document but the first is added only while
   * the characters already taken stay under the budget; and the chunk stops
   * short of 50 documents and of the end of the list only when the budget is
   * used up.
   */
  lemma ChunkProperties(ts: seq<string>, start: nat, maxScriptSize: int)
    requires start < |ts|
    ensures var c := Chunk(ts, start, maxScriptSize);
            && |c| <= MAX_SCRIPT_DOCS
            && c == ts[start..start + |c|]
            && (|c| > 0 <==> maxScriptSize > 0)
            && (forall j | 0 <= j < |c| :: SumLengths(c[..j]) < maxScriptSize)
            && (|c| < MAX_SCRIPT_DOCS && start + |c| < |ts| ==> SumLengths(c) >= maxScriptSize)
  {
    var k := TakeWhileBudget(ts[start..], maxScriptSize, MAX_SCRIPT_DOCS);
    TakeWhileBudgetSpec(ts[start..], maxScriptSize, MAX_SCRIPT_DOCS);
    var c := Chunk(ts, start, maxScriptSize);
    assert forall j | 0 <= j <= k :: c[..j] == ts[start..][..j];
    assert c[..k] == c;
  }

  /** With the real budget, the chunk at any valid index holds at least one document. */
  lemma ChunkNonEmpty(ts: seq<string>, start: nat)
    requires start < |ts|
    ensures 0 < |Chunk(ts, start, MAX_SCRIPT_SIZE)| <= MAX_SCRIPT_DOCS
  {
    ChunkProperties(ts, start, MAX_SCRIPT_SIZE);
  }

  // ---------------------------------------------------------------- executeWriteStoredProcedure

  /** One executeStoredProcedure call: the JSON array of documents and the upsert flag. */
  datatype SprocCall = SprocCall(args: seq<string>, upsert: bool)

  /** How the write loop ended; OutOfResponses means the scripted service had no more answers. */
  datatype WriteStatus = Completed | Raised(error: Error) | OutOfResponses

  /** The procedure calls of a write loop, in order, and how it ended. */
  datatype WriteRun = WriteRun(calls: seq<SprocCall>, status: WriteStatus)

  function Prepend(calls: seq<SprocCall>, run: WriteRun): WriteRun {
    WriteRun(calls + run.calls, run.status)
  }

  /**
   * The write loop from `cursor` on: send the chunk at the cursor, retrying
   * throttled calls, parse the committed count from the response and move
   * the cursor by that count, until the cursor reaches the end of the list.
   * The cursor is a Java int, so the move wraps (AddInt32).
   * responses[i] scripts the i-th round's procedure call.
   */
  function WriteRounds(docs: seq<Document>, toText: Document -> string, upsert: bool,
                       cursor: int, responses: seq<Remote<string>>): WriteRun
    decreases |responses|
  {
    if cursor >= |docs| then WriteRun([], Completed)
    else match ScriptArguments(docs, cursor, MAX_SCRIPT_SIZE, toText)
      case Err(e) => WriteRun([], Raised(e))
      case Ok(args) =>
        if |responses| == 0 then WriteRun([], OutOfResponses)
        else
          var call := SprocCall(args, upsert);
          match RetryResult(responses[0], true)
          case Err(e) => WriteRun([call], Raised(e))
          case Ok(text) =>
            match ParseInt(text)
            case None => WriteRun([call], Raised(NumberFormat(text)))
            case Some(n) => Prepend([call], WriteRounds(docs, toText, upsert, AddInt32(cursor, n), responses[1..]))
  }

  /** One completed round of the write loop: the call is logged and the cursor moves by the reported count. */
  lemma WriteRoundsStep(docs: seq<Document>, toText: Document -> string, upsert: bool,
                        cursor: int, responses: seq<Remote<string>>, args: seq<string>, text: string, n: int)
    requires cursor < |docs| && |responses| > 0
    requires ScriptArguments(docs, cursor, MAX_SCRIPT_SIZE, toText) == Ok(args)
    requires RetryResult(responses[0], true) == Ok(text) && ParseInt(text) == Some(n)
    ensures WriteRounds(docs, toText, upsert, cursor, responses)
         == Prepend([SprocCall(args, upsert)], WriteRounds(docs, toText, upsert, AddInt32(cursor, n), responses[1..]))
  {
  }

  /** The ways a round of the write loop can end it. */
  lemma WriteRoundsStops(docs: seq<Document>, toText: Document -> string, upsert: bool,
                         cursor: int, responses: seq<Remote<string>>)
    requires cursor < |docs|
    ensures var w := WriteRounds(docs, toText, upsert, cursor, responses);
            var a := ScriptArguments(docs, cursor, MAX_SCRIPT_SIZE, toText);
            && (a.Err? ==> w == WriteRun([], Raised(a.error)))
            && (a.Ok? && |responses| == 0 ==> w == WriteRun([], OutOfResponses))
            && (a.Ok? && |responses| > 0 && RetryResult(responses[0], true).Err? ==>
                  w == WriteRun([SprocCall(a.value, upsert)], Raised(RetryResult(responses[0], true).error)))
            && (a.Ok? && |responses| > 0 && RetryResult(responses[0], true).Ok?
                && ParseInt(RetryResult(responses[0], true).value).None? ==>
                  w == WriteRun([SprocCall(a.value, upsert)], Raised(NumberFormat(RetryResult(responses[0], true).value))))
  {
  }

  /** What one round of the write loop does: end the loop, or log a call and move the cursor. */
  datatype Step = Stop(calls: seq<SprocCall>, status: WriteStatus) | Advance(call: SprocCall, count: int)

  /**
   * One pass through the body of executeWriteStoredProcedure's loop: build
   * the chunk at the cursor, call the procedure under a fresh retry policy
   * and parse the count it reports.
   */
  method WriteRound(docs: seq<Document>, toText: Document -> string, upsert: bool,
                    cursor: int, responses: seq<Remote<string>>)
    returns (step: Step)
    requires cursor < |docs|
    ensures step.Stop? ==> WriteRounds(docs, toText, upsert, cursor, responses) == WriteRun(step.calls, step.status)
    ensures step.Advance? ==>
              && |responses| > 0
              && ScriptArguments(docs, cursor, MAX_SCRIPT_SIZE, toText) == Ok(step.call.args)
              && WriteRounds(docs, toText, upsert, cursor, responses)
                 == Prepend([step.call], WriteRounds(docs, toText, upsert, AddInt32(cursor, step.count), responses[1..]))
  {
    var jsonArrayString := CreateBulkInsertScriptArguments(docs, cursor, MAX_SCRIPT_SIZE, toText);
    WriteRoundsStops(docs, toText, upsert, cursor, responses);
    if jsonArrayString.Err? {
      return Stop([], Raised(jsonArrayString.error));
    }
    if |responses| == 0 {
      return Stop([], OutOfResponses);
    }
    var call := SprocCall(jsonArrayString.value, upsert);
    ghost var delays;
    var response;
    response, delays := Retry(responses[0], true);
    if response.Err? {
      return Stop([call], Raised(response.error));
    }
    var createdCount := ParseInt(response.value);
    if createdCount.None? {
      return Stop([call], Raised(NumberFormat(response.value)));
    }
    WriteRoundsStep(docs, toText, upsert, cursor, responses, jsonArrayString.value, response.value, createdCount.value);
    step := Advance(call, createdCount.value);
  }

  /**
   * The loop state of executeWriteStoredProcedure: the whole run is the calls
   * logged so far followed by the run from the cursor on the unused responses.
   */
  ghost predicate RunSoFar(docs: seq<Document>, toText: Document -> string, upsert: bool,
                           responses: seq<Remote<string>>, calls: seq<SprocCall>, cursor: int, round: nat)
  {
    && round <= |responses|
    && WriteRounds(docs, toText, upsert, 0, responses)
       == Prepend(calls, WriteRounds(docs, toText, upsert, cursor, responses[round..]))
  }

  /** A round that advances logs its call and moves both the cursor and the responses on by one. */
  lemma RunSoFarStep(docs: seq<Document>, toText: Document -> string, upsert: bool,
                     responses: seq<Remote<string>>, calls: seq<SprocCall>, cursor: int, round: nat,
                     call: SprocCall, next: int)
    requires RunSoFar(docs, toText, upsert, responses, calls, cursor, round)
    requires round < |responses|
    requires WriteRounds(docs, toText, upsert, cursor, responses[round..])
             == Prepend([call], WriteRounds(docs, toText, upsert, next, responses[round..][1..]))
    ensures RunSoFar(docs, toText, upsert, responses, calls + [call], next, round + 1)
  {
    assert responses[round..][1..] == responses[round + 1..];
    PrependTwice(calls, call, WriteRounds(docs, toText, upsert, next, responses[round + 1..]));
  }

  lemma PrependTwice(calls: seq<SprocCall>, call: SprocCall, run: WriteRun)
    ensures Prepend(calls, Prepend([call], run)) == Prepend(calls + [call], run)
  {
    assert calls + ([call] + run.calls) == (calls + [call]) + run.calls;
  }

  /** executeWriteStoredProcedure, driven by one scripted response per round. */
  method ExecuteWriteStoredProcedure(docs: seq<Document>, toText: Document -> string, upsert: bool,
                                     responses: seq<Remote<string>>)
    returns (run: WriteRun)
    ensures run == WriteRounds(docs, toText, upsert, 0, responses)
  {
    var currentCount := 0;
    var round := 0;
    var calls: seq<SprocCall> := [];
    assert responses[0..] == responses;
    while currentCount < |docs|
      invariant RunSoFar(docs, toText, upsert, responses, calls, currentCount, round)
      decreases |responses| - round
    {
      var step := WriteRound(docs, toText, upsert, currentCount, responses[round..]);
      if step.Stop? {
        return WriteRun(calls + step.calls, step.status);
      }
      RunSoFarStep(docs, toText, upsert, responses, calls, currentCount, round, step.call, AddInt32(currentCount, step.count));
      calls := calls + [step.call];
      currentCount := AddInt32(currentCount, step.count);
      round := round + 1;
    }
    run := WriteRun(calls, Completed);
  }

  /** The call, once its retries are over, answers with a text that parses to `count`. */
  predicate Reports(response: Remote<string>, count: int) {
    RetryResult(response, true).Ok? && ParseInt(RetryResult(response, true).value) == Some(count)
  }

  /** Round i's call reports counts[i], for every round. */
  predicate AllReport(responses: seq<Remote<string>>, counts: seq<int>) {
    |counts| == 0 || (|responses| > 0 && Reports(responses[0], counts[0]) && AllReport(responses[1..], counts[1..]))
  }

  /** Integer.toString(count) is such an answer. */
  lemma ReportsDecimal(response: Remote<string>, count: int)
    requires InIntRange(count) && RetryResult(response, true) == Ok(IntToString(count))
    ensures Reports(response, count)
  {
    ParseIntRoundTrip(count);
  }

  /** The counts a store reports when it commits every document it is sent. */
  function HonestCounts(ts: seq<string>, cursor: nat): (counts: seq<nat>)
    requires cursor <= |ts|
    decreases |ts| - cursor
  {
    if cursor == |ts| then []
    else
      var k := |Chunk(ts, cursor, MAX_SCRIPT_SIZE)|;
      ChunkNonEmpty(ts, cursor);
      [k] + HonestCounts(ts, cursor + k)
  }

  function Flatten(calls: seq<SprocCall>): seq<string> {
    if |calls| == 0 then [] else calls[0].args + Flatten(calls[1..])
  }

  lemma {:induction false} FlattenAppend(a: seq<SprocCall>, b: seq<SprocCall>)
    ensures Flatten(a + b) == Flatten(a) + Flatten(b)
  {
    if |a| > 0 {
      FlattenAppend(a[1..], b);
      assert (a + b)[1..] == a[1..] + b;
    } else {
      assert a + b == b;
    }
  }

  /**
   * When every round's call eventually answers with the number of documents
   * it was sent, the loop completes in one round per chunk and the chunks,
   * in order, are exactly the serialised documents from the cursor on.
   */
  lemma {:induction false} HonestStoreWritesAll(docs: seq<Document>, toText: Document -> string, upsert: bool,
                                                 cursor: nat, responses: seq<Remote<string>>)
    requires |docs| <= INT_MAX && cursor <= |docs|
    requires AllReport(responses, HonestCounts(Texts(docs, toText), cursor))
    ensures var run := WriteRounds(docs, toText, upsert, cursor, responses);
            && run.status == Completed
            && |run.calls| == |HonestCounts(Texts(docs, toText), cursor)|
            && Flatten(run.calls) == Texts(docs, toText)[cursor..]
            && forall i | 0 <= i < |run.calls| :: run.calls[i].upsert == upsert
    decreases |docs| - cursor
  {
    var ts := Texts(docs, toText);
    if cursor < |docs| {
      var c, next := HonestStep(docs, toText, upsert, cursor, responses);
      HonestStoreWritesAll(docs, toText, upsert, next, responses[1..]);
      HonestJoin(WriteRounds(docs, toText, upsert, cursor, responses), SprocCall(c, upsert),
                 WriteRounds(docs, toText, upsert, next, responses[1..]), upsert);
      ChunkSplits(ts, cursor);
    } else {
      assert cursor == |docs|;
      assert HonestCounts(ts, cursor) == [];
      assert ts[cursor..] == [];
    }
  }

  /** The first round of a run whose calls each report the size of their chunk. */
  lemma HonestStep(docs: seq<Document>, toText: Document -> string, upsert: bool,
                   cursor: nat, responses: seq<Remote<string>>)
    returns (c: seq<string>, next: nat)
    requires |docs| <= INT_MAX && cursor < |docs|
    requires AllReport(responses, HonestCounts(Texts(docs, toText), cursor))
    ensures c == Chunk(Texts(docs, toText), cursor, MAX_SCRIPT_SIZE)
    ensures next == cursor + |c| && cursor < next <= |docs| && |responses| > 0
    ensures |HonestCounts(Texts(docs, toText), cursor)| == 1 + |HonestCounts(Texts(docs, toText), next)|
    ensures AllReport(responses[1..], HonestCounts(Texts(docs, toText), next))
    ensures WriteRounds(docs, toText, upsert, cursor, responses)
            == Prepend([SprocCall(c, upsert)], WriteRounds(docs, toText, upsert, next, responses[1..]))
  {
    var ts := Texts(docs, toText);
    c := Chunk(ts, cursor, MAX_SCRIPT_SIZE);
    var k := |c|;
    next := cursor + k;
    ChunkProperties(ts, cursor, MAX_SCRIPT_SIZE);
    var counts := HonestCounts(ts, cursor);
    var rest := HonestCounts(ts, cursor + k);
    assert counts == [k] + rest;
    assert Reports(responses[0], k) && AllReport(responses[1..], rest);
    assert AddInt32(cursor, k) == cursor + k;
    WriteRoundsStep(docs, toText, upsert, cursor, responses, c, RetryResult(responses[0], true).value, k);
  }

  /** The list from a valid index on is the chunk there followed by the rest of the list. */
  lemma ChunkSplits(ts: seq<string>, cursor: nat)
    requires cursor < |ts|
    ensures var c := Chunk(ts, cursor, MAX_SCRIPT_SIZE);
            cursor + |c| <= |ts| && ts[cursor..] == c + ts[cursor + |c|..]
  {
    ChunkProperties(ts, cursor, MAX_SCRIPT_SIZE);
  }

  /** A round that sends a chunk, followed by a run that sends the rest. */
  lemma HonestJoin(run: WriteRun, call: SprocCall, tail: WriteRun, upsert: bool)
    requires run == Prepend([call], tail) && call.upsert == upsert
    requires forall i | 0 <= i < |tail.calls| :: tail.calls[i].upsert == upsert
    ensures run.status == tail.status && |run.calls| == 1 + |tail.calls|
    ensures Flatten(run.calls) == call.args + Flatten(tail.calls)
    ensures forall i | 0 <= i < |run.calls| :: run.calls[i].upsert == upsert
  {
    FlattenAppend([call], tail.calls);
    assert Flatten([call]) == call.args;
  }

  /**
   * The documents a store commits in each round, as counts: every round
   * commits at least one and at most all of the chunk it is sent, and the
   * rounds together reach the end of the list.
   */
  predicate PartialCounts(ts: seq<string>, cursor: nat, counts: seq<int>)
    decreases |counts|
  {
    if |counts| == 0 then cursor == |ts|
    else
      && cursor < |ts|
      && 0 < counts[0] <= |Chunk(ts, cursor, MAX_SCRIPT_SIZE)|
      && PartialCounts(ts, cursor + counts[0], counts[1..])
  }

  /** The documents committed by each call, in order: the first counts[i] of call i's chunk. */
  function Committed(calls: seq<SprocCall>, counts: seq<int>): seq<string>
    decreases |calls|
  {
    if |calls| == 0 || |counts| == 0 then []
    else
      var args := calls[0].args;
      (if 0 <= counts[0] <= |args| then args[..counts[0]] else args) + Committed(calls[1..], counts[1..])
  }

  /** The first round of a run whose counts all commit part of their chunk. */
  lemma PartialCommitsStep(docs: seq<Document>, toText: Document -> string, upsert: bool,
                           cursor: nat, responses: seq<Remote<string>>, counts: seq<int>)
    requires |docs| <= INT_MAX && |counts| > 0
    requires PartialCounts(Texts(docs, toText), cursor, counts)
    requires AllReport(responses, counts)
    ensures cursor < |docs| && |responses| > 0 && 0 < counts[0]
    ensures var ts := Texts(docs, toText);
            var c := Chunk(ts, cursor, MAX_SCRIPT_SIZE);
            && counts[0] <= |c|
            && ts[cursor..] == c[..counts[0]] + ts[cursor + counts[0]..]
            && PartialCounts(ts, cursor + counts[0], counts[1..])
            && AllReport(responses[1..], counts[1..])
            && WriteRounds(docs, toText, upsert, cursor, responses)
               == Prepend([SprocCall(c, upsert)], WriteRounds(docs, toText, upsert, cursor + counts[0], responses[1..]))
  {
    var ts := Texts(docs, toText);
    var c := Chunk(ts, cursor, MAX_SCRIPT_SIZE);
    var k := counts[0];
    ChunkProperties(ts, cursor, MAX_SCRIPT_SIZE);
    assert AddInt32(cursor, k) == cursor + k;
    WriteRoundsStep(docs, toText, upsert, cursor, responses, c, RetryResult(responses[0], true).value, k);
    assert ts[cursor..] == c[..k] + ts[cursor + k..];
  }

  lemma CommittedFirst(call: SprocCall, calls: seq<SprocCall>, counts: seq<int>)
    requires |counts| > 0 && 0 <= counts[0] <= |call.args|
    ensures Committed([call] + calls, counts) == call.args[..counts[0]] + Committed(calls, counts[1..])
  {
    assert ([call] + calls)[1..] == calls;
  }

  /**
   * When every round's call eventually reports how many documents of its
   * chunk the procedure committed (at least one each time), the loop resends
   * from the first uncommitted document: it completes after one call per
   * reported count, no more calls than documents, and the committed
   * prefixes of the chunks, in order, are exactly the serialised documents
   * from the cursor on, each written once.
   */
  lemma {:induction false} PartialCommitsWriteAll(docs: seq<Document>, toText: Document -> string, upsert: bool,
                                                   cursor: nat, responses: seq<Remote<string>>, counts: seq<int>)
    requires |docs| <= INT_MAX
    requires PartialCounts(Texts(docs, toText), cursor, counts)
    requires AllReport(responses, counts)
    ensures var run := WriteRounds(docs, toText, upsert, cursor, responses);
            && run.status == Completed
            && |run.calls| == |counts| <= |docs| - cursor
            && Committed(run.calls, counts) == Texts(docs, toText)[cursor..]
            && forall i | 0 <= i < |run.calls| :: run.calls[i].upsert == upsert
    decreases |counts|
  {
    var ts := Texts(docs, toText);
    if |counts| == 0 {
      assert cursor == |docs|;
      assert ts[cursor..] == [];
    } else {
      var c := Chunk(ts, cursor, MAX_SCRIPT_SIZE);
      var k := counts[0];
      PartialCommitsStep(docs, toText, upsert, cursor, responses, counts);
      PartialCommitsWriteAll(docs, toText, upsert, cursor + k, responses[1..], counts[1..]);
      var tail := WriteRounds(docs, toText, upsert, cursor + k, responses[1..]);
      var run := WriteRounds(docs, toText, upsert, cursor, responses);
      PartialCommitsJoin(run, SprocCall(c, upsert), tail, counts, upsert);
      assert Committed(run.calls, counts) == c[..k] + ts[cursor + k..] == ts[cursor..];
    }
  }

  /** A round that commits part of its chunk, followed by a run that commits the rest. */
  lemma PartialCommitsJoin(run: WriteRun, call: SprocCall, tail: WriteRun, counts: seq<int>, upsert: bool)
    requires run == Prepend([call], tail) && call.upsert == upsert
    requires |counts| > 0 && 0 <= counts[0] <= |call.args| && |tail.calls| == |counts| - 1
    requires forall i | 0 <= i < |tail.calls| :: tail.calls[i].upsert == upsert
    ensures run.status == tail.status && |run.calls| == |counts|
    ensures Committed(run.calls, counts) == call.args[..counts[0]] + Committed(tail.calls, counts[1..])
    ensures forall i | 0 <= i < |run.calls| :: run.calls[i].upsert == upsert
  {
    CommittedFirst(call, tail.calls, counts);
  }

  /**
   * A reported count that takes the int cursor past Integer.MAX_VALUE wraps
   * it negative, and the next round's docs.get throws
   * IndexOutOfBoundsException: the loop ends after that one call.
   */
  lemma OverflowingCountRaises(docs: seq<Document>, toText: Document -> string, upsert: bool,
                               cursor: nat, responses: seq<Remote<string>>, n: int)
    requires |docs| <= INT_MAX && cursor < |docs| && |responses| >= 1
    requires Reports(responses[0], n) && cursor + n > INT_MAX
    ensures var run := WriteRounds(docs, toText, upsert, cursor, responses);
            run == WriteRun([SprocCall(Chunk(Texts(docs, toText), cursor, MAX_SCRIPT_SIZE), upsert)], Raised(IndexOutOfBounds))
  {
    assert InIntRange(n);
    assert AddInt32(cursor, n) == cursor + n - 0x1_0000_0000;
  }

  /** A reported count of zero leaves the cursor in place: the next round sends the same chunk again. */
  lemma ZeroCountResends(docs: seq<Document>, toText: Document -> string, upsert: bool,
                         cursor: nat, responses: seq<Remote<string>>)
    requires |docs| <= INT_MAX && cursor < |docs| && |responses| >= 2
    requires RetryResult(responses[0], true) == Ok("0")
    requires RetryResult(responses[1], true).Ok?
    ensures var run := WriteRounds(docs, toText, upsert, cursor, responses);
            |run.calls| >= 2 && run.calls[1] == run.calls[0]
  {
    assert ParseInt("0") == Some(0) by {
      assert AllDigits("0");
      assert DigitsValue("0") == 0;
    }
    assert responses[1..][0] == responses[1];
  }

  /** A response that is not a decimal int raises NumberFormatException after that round's call. */
  lemma NonIntegerResponseRaises(docs: seq<Document>, toText: Document -> string, upsert: bool,
                                 cursor: nat, responses: seq<Remote<string>>, text: string)
    requires cursor < |docs| && |responses| >= 1
    requires RetryResult(responses[0], true) == Ok(text) && ParseInt(text).None?
    ensures var run := WriteRounds(docs, toText, upsert, cursor, responses);
            run.status == Raised(NumberFormat(text)) && |run.calls| == 1
            && run.calls[0] == SprocCall(Chunk(Texts(docs, toText), cursor, MAX_SCRIPT_SIZE), upsert)
  {
  }

  /** Nothing at all is sent for an empty list. */
  lemma EmptyListSendsNothing(toText: Document -> string, upsert: bool, responses: seq<Remote<string>>)
    ensures WriteRounds([], toText, upsert, 0, responses) == WriteRun([], Completed)
  {
  }

  // ---------------------------------------------------------------- lookups and creation

  /** A database, collection or stored procedure as the service describes it. */
  datatype Resource = Resource(id: string, selfLink: string)

  /** The first element of a query result, or null for an empty result. */
  function FirstOf<T>(items: seq<T>): (r: Option<T>)
    ensures r.None? <==> |items| == 0
    ensures r.Some? ==> r.value == items[0]
  {
    if |items| == 0 then None else Some(items[0])
  }

  /**
   * GetDatabase / GetDocumentCollection: run the id query under the retry
   * policy (catching every exception) and return its first result, or null.
   */
  method QueryFirst(query: Remote<seq<Resource>>) returns (r: Result<Option<Resource>, Error>)
    ensures r.Ok? <==> RetryResult(query, true).Ok?
    ensures r.Ok? ==> r.value == FirstOf(RetryResult(query, true).value)
    ensures r.Err? ==> r.error == RetryResult(query, true).error
  {
    ghost var delays;
    var items;
    items, delays := Retry(query, true);
    match items
    case Err(e) => r := Err(e);
    case Ok(list) => r := Ok(FirstOf(list));
  }

  /** GetDatabase(client, databaseId): `query` scripts the query for that id. */
  method GetDatabase(databaseId: string, query: Remote<seq<Resource>>) returns (r: Result<Option<Resource>, Error>)
    ensures r.Ok? <==> RetryResult(query, true).Ok?
    ensures r.Ok? ==> r.value == FirstOf(RetryResult(query, true).value)
    ensures r.Err? ==> r.error == RetryResult(query, true).error
  {
    r := QueryFirst(query);
  }

  /** GetDocumentCollection(client, databaseSelfLink, collectionId). */
  method GetDocumentCollection(databaseSelfLink: string, collectionId: string, query: Remote<seq<Resource>>)
    returns (r: Result<Option<Resource>, Error>)
    ensures r.Ok? <==> RetryResult(query, true).Ok?
    ensures r.Ok? ==> r.value == FirstOf(RetryResult(query, true).value)
    ensures r.Err? ==> r.error == RetryResult(query, true).error
  {
    r := QueryFirst(query);
  }

  /** The collection getOrCreateOutputCollection asks the service to create. */
  datatype CollectionRequest = CollectionRequest(id: string, stringPrecision: int, offerType: string)

  /**
   * getOrCreateOutputCollection: an existing collection is returned as is;
   * otherwise one with the given id, string-index precision and offer type is
   * created under the retry policy. `created` is that request, if made.
   */
  method GetOrCreateOutputCollection(databaseSelfLink: string, collectionId: string,
                                     outputStringPrecision: int, offerType: string,
                                     lookup: Remote<seq<Resource>>, create: Remote<Resource>)
    returns (r: Result<Resource, Error>, created: Option<CollectionRequest>)
    ensures RetryResult(lookup, true).Err? ==> r == Err(RetryResult(lookup, true).error) && created.None?
    ensures RetryResult(lookup, true).Ok? && |RetryResult(lookup, true).value| > 0 ==>
              r == Ok(RetryResult(lookup, true).value[0]) && created.None?
    ensures RetryResult(lookup, true).Ok? && |RetryResult(lookup, true).value| == 0 ==>
              r == RetryResult(create, true)
              && created == Some(CollectionRequest(collectionId, outputStringPrecision, offerType))
  {
    var existing := GetDocumentCollection(databaseSelfLink, collectionId, lookup);
    created := None;
    match existing
    case Err(e) => r := Err(e);
    case Ok(Some(c)) => r := Ok(c);
    case Ok(None) =>
      created := Some(CollectionRequest(collectionId, outputStringPrecision, offerType));
      ghost var delays;
      r, delays := Retry(create, true);
  }

  /**
   * CreateBulkImportStoredProcedure: look the bulk-import procedure up by its
   * id under the retry policy; when absent, create it once, without retries
   * (`create` is that single call's outcome).
   */
  method CreateBulkImportStoredProcedure(collectionLink: string, lookup: Remote<seq<Resource>>,
                                         create: Result<Resource, Error>)
    returns (r: Result<Resource, Error>, createdId: Option<string>)
    ensures RetryResult(lookup, true).Err? ==> r == Err(RetryResult(lookup, true).error) && createdId.None?
    ensures RetryResult(lookup, true).Ok? && |RetryResult(lookup, true).value| > 0 ==>
              r == Ok(RetryResult(lookup, true).value[0]) && createdId.None?
    ensures RetryResult(lookup, true).Ok? && |RetryResult(lookup, true).value| == 0 ==>
              r == create && createdId == Some(BULK_IMPORT_ID)
  {
    ghost var delays;
    var sprocs;
    sprocs, delays := Retry(lookup, true);
    createdId := None;
    match sprocs
    case Err(e) => r := Err(e);
    case Ok(list) =>
      if |list| > 0 {
        r := Ok(list[0]);
      } else {
        createdId := Some(BULK_IMPORT_ID);
        r := create;
      }
  }

  /** Which DocumentClient write createDocument issues. */
  datatype DocumentRequest = Upsert(doc: Document) | Create(doc: Document)

  /**
   * createDocument: upsert or create the document; the retry loop catches
   * DocumentClientException only, so any other exception escapes unwrapped.
   */
  method CreateDocument(doc: Document, isUpsert: bool, call: Remote<Document>)
    returns (r: Result<Document, Error>, request: DocumentRequest)
    ensures request == if isUpsert then Upsert(doc) else Create(doc)
    ensures r == RetryResult(call, false)
    ensures r.Err? ==> exists k | 0 <= k < |call.faults| :: r.error == call.faults[k] || r.error == IllegalState(Some(call.faults[k]))
  {
    request := if isUpsert then Upsert(doc) else Create(doc);
    ghost var delays;
    r, delays := Retry(call, false);
    EscapedIsAFault(call.faults, 0, false);
  }

  lemma {:induction false} EscapedIsAFault(faults: seq<Error>, attempt: nat, catchAll: bool)
    ensures var esc := RetryFaults(faults, attempt, catchAll).escaped;
            esc.Some? ==> exists k | 0 <= k < |faults| :: esc.value == faults[k] || esc.value == IllegalState(Some(faults[k]))
    decreases |faults|
  {
    if |faults| > 0 && Caught(faults[0], catchAll) && IsRetriable(faults[0]) {
      EscapedIsAFault(faults[1..], attempt + 1, catchAll);
      var esc := RetryFaults(faults, attempt, catchAll).escaped;
      if esc.Some? {
        var k :| 0 <= k < |faults[1..]| && (esc.value == faults[1..][k] || esc.value == IllegalState(Some(faults[1..][k])));
        assert faults[1..][k] == faults[k + 1];
      }
    }
  }

  // ---------------------------------------------------------------- user agent

  /** Append `suffix` to the user agent unless the agent already contains it. */
  function WithSuffix(agent: string, suffix: string): (r: string)
    ensures Contains(r, suffix)
    ensures Contains(agent, suffix) ==> r == agent
    ensures !Contains(agent, suffix) ==> r == agent + suffix
  {
    ContainsSuffix(agent, suffix);
    if Contains(agent, suffix) then agent else agent + suffix
  }

  /** Appending the same suffix a second time changes nothing. */
  lemma WithSuffixIdempotent(agent: string, suffix: string)
    ensures WithSuffix(WithSuffix(agent, suffix), suffix) == WithSuffix(agent, suffix)
  {
  }

  /** The static DocumentDBConnectorUtil.UserAgentSuffix, shared by every adapter in the process. */
  class ConnectorGlobals {
    var userAgentSuffix: string

    constructor()
      ensures userAgentSuffix == DEFAULT_USER_AGENT_SUFFIX
    {
      userAgentSuffix := DEFAULT_USER_AGENT_SUFFIX;
    }

    /** `if (!UserAgentSuffix.contains(s)) UserAgentSuffix += s;` as the Pig constructors do. */
    method AppendUserAgent(suffix: string)
      modifies this
      ensures userAgentSuffix == WithSuffix(old(userAgentSuffix), suffix)
      ensures Contains(userAgentSuffix, suffix)
    {
      if !Contains(userAgentSuffix, suffix) {
        userAgentSuffix := userAgentSuffix + suffix;
      }
    }
  }
}
