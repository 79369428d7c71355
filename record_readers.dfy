/**
 * The two DocumentDBRecordReaders: cursors over a split's document
 * iterator that count the documents handed out and report a progress of
 * 0 or 1.
 *
 * Each hasNext/next call is retried under a fresh retry policy that
 * catches every exception. `faults` scripts the exceptions such a call
 * throws before it succeeds; the iterator does not move while it throws.
 */
module RecordReaders {
  import opened Wrappers
  import opened Documents
  import opened RetryPolicy
  import opened InputSplits

  /** What getProgress returns: 0 while documents remain (or without an iterator), 1 once they are all read. */
  function Progress(it: DocumentIterator?): (p: real)
    reads it
    ensures p == 0.0 || p == 1.0
    ensures p == 1.0 <==> it != null && !it.HasNext()
  {
    if it == null then 0.0 else if it.HasNext() then 0.0 else 1.0
  }

  /**
   * getProgress, shared by both readers: hasNext under the retry policy. A
   * non-retriable fault escapes as an IllegalStateException.
   */
  method IteratorProgress(it: DocumentIterator?, faults: seq<Error>) returns (r: Result<real, Error>)
    ensures it == null ==> r == Ok(0.0)
    ensures it != null && RetryResult(Remote(faults, ()), true).Err? ==> r == Err(RetryResult(Remote(faults, ()), true).error)
    ensures it != null && RetryResult(Remote(faults, ()), true).Ok? ==> r == Ok(Progress(it))
  {
    if it == null {
      return Ok(0.0);
    }
    ghost var delays;
    var attempt;
    attempt, delays := Retry(Remote(faults, ()), true);
    if attempt.Err? {
      return Err(attempt.error);
    }
    var hasNext := it.HasNext();
    r := Ok(if hasNext then 0.0 else 1.0);
  }

  /**
   * One step of either reader: without an iterator, false before any call;
   * otherwise, under the retry policy, false when the iterator is exhausted
   * and the next document when there is one. `taken` is that document.
   */
  method NextDocument(it: DocumentIterator?, faults: seq<Error>) returns (r: Result<bool, Error>, taken: Option<Document>)
    requires it != null ==> it.Valid()
    modifies it
    ensures it != null ==> it.Valid()
    ensures it == null ==> r == Ok(false) && taken.None?
    ensures it != null && RetryResult(Remote(faults, ()), true).Err? ==>
              r == Err(RetryResult(Remote(faults, ()), true).error) && taken.None? && it.position == old(it.position)
    ensures it != null && RetryResult(Remote(faults, ()), true).Ok? && !old(it.HasNext()) ==>
              r == Ok(false) && taken.None? && it.position == old(it.position)
    ensures it != null && RetryResult(Remote(faults, ()), true).Ok? && old(it.HasNext()) ==>
              && r == Ok(true)
              && taken == Some(it.results[old(it.position)])
              && it.position == old(it.position) + 1
  {
    taken := None;
    if it == null {
      return Ok(false), None;
    }
    ghost var delays;
    var attempt;
    attempt, delays := Retry(Remote(faults, ()), true);
    if attempt.Err? {
      return Err(attempt.error), None;
    }
    if !it.HasNext() {
      return Ok(false), None;
    }
    var d := it.Next();
    taken := Some(d);
    r := Ok(true);
  }

  /** The mapreduce-API reader (org.apache.hadoop.mapreduce.RecordReader). */
  class HadoopRecordReader {
    var split: DocumentDBInputSplit?
    const documentIterator: DocumentIterator?
    var documentsProcessed: nat
    const current: DocumentDBWritable
    /** Where the iterator stood when the reader took it over. */
    ghost const start: nat

    /**
     * The reader has handed out exactly the documents between `start` and the
     * iterator's position, the last of them held in `current`.
     */
    ghost predicate Valid()
      reads this, documentIterator, current
    {
      && (documentIterator == null ==> documentsProcessed == 0)
      && (documentIterator != null ==>
            && documentIterator.Valid()
            && documentIterator.position == start + documentsProcessed
            && (documentsProcessed > 0 ==> current.doc == documentIterator.results[documentIterator.position - 1]))
    }

    /** The constructor, given what split.getDocumentIterator() returned. */
    constructor(split: DocumentDBInputSplit, it: DocumentIterator?)
      requires it != null ==> it.Valid()
      ensures Valid() && this.split == split && documentIterator == it && documentsProcessed == 0
      ensures fresh(current) && current.doc == EmptyDocument
    {
      this.split := split;
      current := new DocumentDBWritable();
      documentIterator := it;
      documentsProcessed := 0;
      start := if it == null then 0 else it.position;
    }

    /** initialize keeps the split given to the constructor; only a reader without one takes the new split. */
    method Initialize(split: DocumentDBInputSplit)
      modifies this
      ensures this.split == if old(this.split) == null then split else old(this.split)
      ensures documentsProcessed == old(documentsProcessed)
    {
      if this.split == null {
        this.split := split;
      }
    }

    /** getCurrentKey: always a new default key. */
    method GetCurrentKey() returns (k: LongWritable)
      ensures fresh(k) && k.value == 0
    {
      k := new LongWritable();
    }

    method GetCurrentValue() returns (v: DocumentDBWritable)
      ensures v == current
    {
      v := current;
    }

    method GetProgress(faults: seq<Error>) returns (r: Result<real, Error>)
      requires Valid()
      ensures RetryResult(Remote(faults, ()), true).Ok? || documentIterator == null ==> r == Ok(Progress(documentIterator))
      ensures RetryResult(Remote(faults, ()), true).Err? && documentIterator != null ==>
                r == Err(RetryResult(Remote(faults, ()), true).error)
    {
      r := IteratorProgress(documentIterator, faults);
    }

    /**
     * nextKeyValue: false when there is no iterator or it is exhausted;
     * otherwise the next document becomes the current value and is counted.
     */
    method NextKeyValue(faults: seq<Error>) returns (r: Result<bool, Error>)
      requires Valid()
      modifies this, current, documentIterator
      ensures Valid()
      ensures r == Ok(true) ==>
                documentsProcessed == old(documentsProcessed) + 1
                && current.doc == documentIterator.results[start + old(documentsProcessed)]
      ensures r != Ok(true) ==> documentsProcessed == old(documentsProcessed) && current.doc == old(current.doc)
      ensures documentIterator == null ==> r == Ok(false)
      ensures r == Ok(false) <==> documentIterator == null || (RetryResult(Remote(faults, ()), true).Ok? && !old(documentIterator.HasNext()))
      ensures r.Err? <==> documentIterator != null && RetryResult(Remote(faults, ()), true).Err?
    {
      var taken;
      r, taken := NextDocument(documentIterator, faults);
      if taken.Some? {
        current.SetDoc(taken.value);
        documentsProcessed := documentsProcessed + 1;
      }
    }
  }

  /** The old-API reader (org.apache.hadoop.mapred.RecordReader) over a wrapped split. */
  class MapredRecordReader {
    var pos: int
    var documentsProcessed: nat
    const documentIterator: DocumentIterator?
    const split: DocumentDBInputSplit
    ghost const start: nat

    /** `pos` is never assigned after construction; the count follows the iterator. */
    ghost predicate Valid()
      reads this, documentIterator
    {
      && pos == 0
      && (documentIterator == null ==> documentsProcessed == 0)
      && (documentIterator != null ==>
            documentIterator.Valid() && documentIterator.position == start + documentsProcessed)
    }

    /** The constructor, given what the wrapped split's getDocumentIterator() returned. */
    constructor(split: DocumentDBInputSplit, it: DocumentIterator?)
      requires it != null ==> it.Valid()
      ensures Valid() && this.split == split && documentIterator == it && documentsProcessed == 0
    {
      this.split := split;
      documentIterator := it;
      documentsProcessed := 0;
      pos := 0;
      start := if it == null then 0 else it.position;
    }

    method CreateKey() returns (k: LongWritable)
      ensures fresh(k) && k.value == 0
    {
      k := new LongWritable();
    }

    method CreateValue() returns (v: DocumentDBWritable)
      ensures fresh(v) && v.doc == EmptyDocument
    {
      v := new DocumentDBWritable();
    }

    /** getPos: the never-assigned `pos`, so always 0. */
    method GetPos() returns (p: int)
      requires Valid()
      ensures p == 0
    {
      p := pos;
    }

    method GetProgress(faults: seq<Error>) returns (r: Result<real, Error>)
      requires Valid()
      ensures RetryResult(Remote(faults, ()), true).Ok? || documentIterator == null ==> r == Ok(Progress(documentIterator))
      ensures RetryResult(Remote(faults, ()), true).Err? && documentIterator != null ==>
                r == Err(RetryResult(Remote(faults, ()), true).error)
    {
      r := IteratorProgress(documentIterator, faults);
    }

    /**
     * next(key, value): false when there is no iterator or it is exhausted;
     * otherwise the caller's value receives the next document and it is
     * counted. The key is left alone.
     */
    method Next(key: LongWritable, value: DocumentDBWritable, faults: seq<Error>) returns (r: Result<bool, Error>)
      requires Valid()
      modifies this, value, documentIterator
      ensures Valid()
      ensures r == Ok(true) ==>
                documentsProcessed == old(documentsProcessed) + 1
                && value.doc == documentIterator.results[start + old(documentsProcessed)]
      ensures r != Ok(true) ==> documentsProcessed == old(documentsProcessed) && value.doc == old(value.doc)
      ensures documentIterator == null ==> r == Ok(false)
      ensures r == Ok(false) <==> documentIterator == null || (RetryResult(Remote(faults, ()), true).Ok? && !old(documentIterator.HasNext()))
      ensures r.Err? <==> documentIterator != null && RetryResult(Remote(faults, ()), true).Err?
    {
      var taken;
      r, taken := NextDocument(documentIterator, faults);
      if taken.Some? {
        value.SetDoc(taken.value);
        documentsProcessed := documentsProcessed + 1;
      }
    }
  }
}
