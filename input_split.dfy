/**
 * DocumentDBInputSplit: one split per input collection, its Writable
 * serialisation, and the memoised document iterator it opens on the
 * service.
 *
 * A DataOutput stream is a sequence of ints. Hadoop's Text.write puts the
 * length first and then the content, and this model keeps that layout with
 * one int per char: the length, then each char's code point.
 */
module InputSplits {
  import opened Wrappers
  import opened Documents
  import opened JavaText
  import opened RetryPolicy
  import opened ConnectorUtil

  const DEFAULT_QUERY := "select * from root"
  const MAX_PAGE_SIZE := 700
  const LOCALHOST := "localhost"

  /** The query results a split iterates over, consumed one document at a time. */
  class DocumentIterator {
    const results: seq<Document>
    var position: nat

    ghost predicate Valid()
      reads this
    {
      position <= |results|
    }

    constructor(results: seq<Document>)
      ensures Valid() && this.results == results && position == 0
    {
      this.results := results;
      position := 0;
    }

    predicate HasNext()
      reads this
    {
      position < |results|
    }

    method Next() returns (d: Document)
      requires Valid() && HasNext()
      modifies this
      ensures Valid() && position == old(position) + 1 && d == results[old(position)]
    {
      d := results[position];
      position := position + 1;
    }
  }

  // ---------------------------------------------------------------- Text wire format

  predicate IsCodePoint(x: int) {
    0 <= x < 0xD800 || 0xE000 <= x < 0x11_0000
  }

  /** The code points of the chars of s. */
  function Codes(s: string): (codes: seq<int>)
    ensures |codes| == |s| && forall i | 0 <= i < |s| :: codes[i] == s[i] as int
  {
    seq(|s|, i requires 0 <= i < |s| => s[i] as int)
  }

  predicate AllCodePoints(codes: seq<int>) {
    forall i | 0 <= i < |codes| :: IsCodePoint(codes[i])
  }

  /** The chars with the given code points. */
  function Chars(codes: seq<int>): (s: string)
    requires AllCodePoints(codes)
    ensures |s| == |codes| && forall i | 0 <= i < |codes| :: s[i] as int == codes[i]
  {
    seq(|codes|, i requires 0 <= i < |codes| && IsCodePoint(codes[i]) => codes[i] as char)
  }

  /** Text.write(s): the length, then the chars. */
  function EncodeText(s: string): (out: seq<int>)
    ensures |out| == |s| + 1 && out[0] == |s| && out[1..] == Codes(s)
  {
    [|s|] + Codes(s)
  }

  /** Text.readFields: the text at the head of the input and what follows it, or the IOException reading fails with. */
  function DecodeText(input: seq<int>): Result<(string, seq<int>), Error>
  {
    if |input| == 0 then Err(Thrown("java.io.EOFException"))
    else if input[0] < 0 then Err(Thrown("java.io.IOException"))
    else if |input| - 1 < input[0] then Err(Thrown("java.io.EOFException"))
    else
      var codes := input[1..1 + input[0]];
      if AllCodePoints(codes) then Ok((Chars(codes), input[1 + input[0]..]))
      else Err(Thrown("java.nio.charset.MalformedInputException"))
  }

  /** Text.readFields reads back what Text.write wrote, whatever follows it. */
  lemma DecodeEncodeText(s: string, rest: seq<int>)
    ensures DecodeText(EncodeText(s) + rest) == Ok((s, rest))
  {
    var input := EncodeText(s) + rest;
    var codes := Codes(s);
    assert input[1..1 + |s|] == codes;
    assert AllCodePoints(codes);
    assert Chars(codes) == s;
    assert input[1 + |s|..] == rest;
  }

  /** The five Text fields of a split. */
  datatype SplitFields = SplitFields(host: string, key: string, dbName: string, collName: string, query: string)

  /**
   * DocumentDBInputSplit.write: host, key, dbName, collName and query, one
   * after the other, followed by whatever the stream gets next.
   */
  function EncodeFields(f: SplitFields, rest: seq<int>): seq<int>
  {
    EncodeText(f.host) + (EncodeText(f.key) + (EncodeText(f.dbName) + (EncodeText(f.collName) + (EncodeText(f.query) + rest))))
  }

  lemma ConcatFive(h: seq<int>, k: seq<int>, d: seq<int>, c: seq<int>, q: seq<int>)
    ensures h + k + d + c + q == h + (k + (d + (c + (q + []))))
  {
    assert q + [] == q;
    assert h + k + d + c + q == ((h + k) + d) + (c + q);
  }

  /** DocumentDBInputSplit.readFields: host, key, dbName, collName, query, each read where the previous one ended. */
  function DecodeFields(input: seq<int>): Result<(SplitFields, seq<int>), Error>
  {
    match DecodeText(input)
    case Err(e) => Err(e)
    case Ok((host, r1)) =>
      match DecodeText(r1)
      case Err(e) => Err(e)
      case Ok((key, r2)) =>
        match DecodeText(r2)
        case Err(e) => Err(e)
        case Ok((dbName, r3)) =>
          match DecodeText(r3)
          case Err(e) => Err(e)
          case Ok((collName, r4)) =>
            match DecodeText(r4)
            case Err(e) => Err(e)
            case Ok((query, r5)) => Ok((SplitFields(host, key, dbName, collName, query), r5))
  }

  /** readFields after write gives back the same five fields and leaves what follows untouched. */
  lemma DecodeEncodeFields(f: SplitFields, rest: seq<int>)
    ensures DecodeFields(EncodeFields(f, rest)) == Ok((f, rest))
  {
    var x4 := EncodeText(f.query) + rest;
    var x3 := EncodeText(f.collName) + x4;
    var x2 := EncodeText(f.dbName) + x3;
    var x1 := EncodeText(f.key) + x2;
    DecodeEncodeText(f.host, x1);
    DecodeEncodeText(f.key, x2);
    DecodeEncodeText(f.dbName, x3);
    DecodeEncodeText(f.collName, x4);
    DecodeEncodeText(f.query, rest);
  }

  // ---------------------------------------------------------------- queries

  /** The query getDocumentIterator runs: the stored one, or "select * from root" when it is empty. */
  function EffectiveQuery(query: string): (q: string)
    ensures |query| > 0 ==> q == query
    ensures |query| == 0 ==> q == DEFAULT_QUERY
    ensures |q| > 0
  {
    if |query| > 0 then query else DEFAULT_QUERY
  }

  /** The queryDocuments call the split issues: collection link, query text and page size. */
  datatype DocumentQuery = DocumentQuery(collectionLink: string, query: string, pageSize: nat)

  /** The wrapping of every failure in getDocumentIterator: `new IOException(e)`. */
  function AsIOException(e: Error): (r: Error)
    ensures r.IOError? && r.cause == Some(e)
  {
    IOError("", Some(e))
  }

  class DocumentDBInputSplit {
    var host: string
    var key: string
    var dbName: string
    var collName: string
    var query: string
    var documentIterator: DocumentIterator?

    function Fields(): SplitFields
      reads this
    {
      SplitFields(host, key, dbName, collName, query)
    }

    /** The iterator kept, if any, is a valid cursor. */
    ghost predicate Valid()
      reads this, documentIterator
    {
      documentIterator != null ==> documentIterator.Valid()
    }

    /** The no-argument constructor Hadoop uses before readFields: every field empty. */
    constructor Empty()
      ensures Fields() == SplitFields("", "", "", "", "") && documentIterator == null && Valid()
    {
      host, key, dbName, collName, query := "", "", "", "", "";
      documentIterator := null;
    }

    /** A null query (None) is stored as the empty string. */
    constructor(host: string, key: string, dbName: string, collName: string, query: Option<string>)
      ensures Fields() == SplitFields(host, key, dbName, collName, if query.None? then "" else query.value)
      ensures documentIterator == null && Valid()
    {
      this.host := host;
      this.key := key;
      this.dbName := dbName;
      this.collName := collName;
      this.query := if query.None? then "" else query.value;
      documentIterator := null;
    }

    /** write(out): the five fields as Texts, host first. */
    method Write() returns (out: seq<int>)
      ensures out == EncodeFields(Fields(), [])
      ensures DecodeFields(out) == Ok((Fields(), []))
    {
      var h, k, d, c, q := EncodeText(host), EncodeText(key), EncodeText(dbName), EncodeText(collName), EncodeText(query);
      out := h + k + d + c + q;
      ConcatFive(h, k, d, c, q);
      DecodeEncodeFields(Fields(), []);
    }

    /**
     * readFields(in): overwrite the five fields from the input, in write's
     * order; `rest` is what is left of the input.
     */
    method ReadFields(input: seq<int>) returns (r: Result<seq<int>, Error>)
      modifies this
      ensures documentIterator == old(documentIterator)
      ensures DecodeFields(input).Ok? ==> r == Ok(DecodeFields(input).value.1) && Fields() == DecodeFields(input).value.0
      ensures DecodeFields(input).Err? ==> r == Err(DecodeFields(input).error)
    {
      var t := DecodeText(input);
      if t.Err? { return Err(t.error); }
      host := t.value.0;
      t := DecodeText(t.value.1);
      if t.Err? { return Err(t.error); }
      key := t.value.0;
      t := DecodeText(t.value.1);
      if t.Err? { return Err(t.error); }
      dbName := t.value.0;
      t := DecodeText(t.value.1);
      if t.Err? { return Err(t.error); }
      collName := t.value.0;
      t := DecodeText(t.value.1);
      if t.Err? { return Err(t.error); }
      query := t.value.0;
      r := Ok(t.value.1);
    }

    /** getLength: a split does not know its size. */
    function GetLength(): (n: int)
      ensures n == INT_MAX
    {
      INT_MAX
    }

    /** getLocations: the data is remote, so no node is preferred. */
    function GetLocations(): (hosts: seq<string>)
      ensures hosts == [LOCALHOST]
    {
      [LOCALHOST]
    }

    /**
     * getDocumentIterator: the iterator opened before, if any; otherwise look
     * the database and then the collection up, run the effective query on
     * the collection and keep its iterator. A missing database or collection,
     * and every failure, is raised wrapped in an IOException. `dbLookup` and
     * `collLookup` script the two lookups, `results` the query; `issued` is
     * the query sent, if one was.
     */
    method GetDocumentIterator(dbLookup: Remote<seq<Resource>>, collLookup: Remote<seq<Resource>>,
                               results: Result<seq<Document>, Error>)
      returns (r: Result<DocumentIterator, Error>, issued: Option<DocumentQuery>)
      requires Valid()
      modifies this
      ensures Valid()
      ensures Fields() == old(Fields())
      ensures old(documentIterator) != null ==>
                r == Ok(old(documentIterator)) && documentIterator == old(documentIterator) && issued.None?
      ensures old(documentIterator) == null ==> SplitOpen(old(Fields()), dbLookup, collLookup, results, r, issued)
      ensures old(documentIterator) == null ==>
                && (r.Err? <==> OpenError(old(Fields()), dbLookup, collLookup, results).Some?)
                && (r.Err? ==> r.error == OpenError(old(Fields()), dbLookup, collLookup, results).value)
      ensures r.Ok? ==> documentIterator == r.value && r.value.Valid()
      ensures r.Ok? && old(documentIterator) == null ==>
                fresh(r.value) && r.value.position == 0 && results.Ok? && r.value.results == results.value
      ensures r.Err? ==> documentIterator == old(documentIterator)
    {
      issued := None;
      if documentIterator != null {
        return Ok(documentIterator), None;
      }
      var db := GetDatabase(dbName, dbLookup);
      if db.Err? {
        return Err(AsIOException(db.error)), None;
      }
      if db.value.None? {
        return Err(AsIOException(IOError("Database " + dbName + " doesn't exist", None))), None;
      }
      var coll := GetDocumentCollection(db.value.value.selfLink, collName, collLookup);
      if coll.Err? {
        return Err(AsIOException(coll.error)), None;
      }
      if coll.value.None? {
        return Err(AsIOException(IOError("collection " + collName + " doesn't exist", None))), None;
      }
      var q := EffectiveQuery(query);
      issued := Some(DocumentQuery(coll.value.value.selfLink, q, MAX_PAGE_SIZE));
      if results.Err? {
        return Err(AsIOException(results.error)), issued;
      }
      documentIterator := new DocumentIterator(results.value);
      r := Ok(documentIterator);
    }
  }

  /**
   * The IOException getDocumentIterator throws on a split with no iterator
   * yet, if it throws: the first of a failed or empty database lookup, a
   * failed or empty collection lookup and a failed query, each wrapped.
   */
  function OpenError(f: SplitFields, dbLookup: Remote<seq<Resource>>, collLookup: Remote<seq<Resource>>,
                     results: Result<seq<Document>, Error>): (e: Option<Error>)
    ensures e.Some? ==> e.value.IOError? && e.value.cause.Some?
    ensures e.None? <==> RetryResult(dbLookup, true).Ok? && |RetryResult(dbLookup, true).value| > 0
                         && RetryResult(collLookup, true).Ok? && |RetryResult(collLookup, true).value| > 0
                         && results.Ok?
  {
    var db := RetryResult(dbLookup, true);
    var coll := RetryResult(collLookup, true);
    if db.Err? then Some(AsIOException(db.error))
    else if |db.value| == 0 then Some(AsIOException(IOError("Database " + f.dbName + " doesn't exist", None)))
    else if coll.Err? then Some(AsIOException(coll.error))
    else if |coll.value| == 0 then Some(AsIOException(IOError("collection " + f.collName + " doesn't exist", None)))
    else if results.Err? then Some(AsIOException(results.error))
    else None
  }

  /** The open described by SplitOpen fails exactly with OpenError. */
  lemma SplitOpenFailsWithOpenError(f: SplitFields, dbLookup: Remote<seq<Resource>>, collLookup: Remote<seq<Resource>>,
                                    results: Result<seq<Document>, Error>,
                                    r: Result<DocumentIterator, Error>, issued: Option<DocumentQuery>)
    requires SplitOpen(f, dbLookup, collLookup, results, r, issued)
    ensures r.Err? <==> OpenError(f, dbLookup, collLookup, results).Some?
    ensures r.Err? ==> r.error == OpenError(f, dbLookup, collLookup, results).value
  {
  }

  /**
   * What getDocumentIterator does on a split with no iterator yet: the
   * outcome of each step, and the query it sends once both lookups found
   * something.
   */
  ghost predicate SplitOpen(f: SplitFields, dbLookup: Remote<seq<Resource>>, collLookup: Remote<seq<Resource>>,
                            results: Result<seq<Document>, Error>,
                            r: Result<DocumentIterator, Error>, issued: Option<DocumentQuery>)
  {
    var db := RetryResult(dbLookup, true);
    var coll := RetryResult(collLookup, true);
    if db.Err? then r == Err(AsIOException(db.error)) && issued.None?
    else if |db.value| == 0 then
      r == Err(AsIOException(IOError("Database " + f.dbName + " doesn't exist", None))) && issued.None?
    else if coll.Err? then r == Err(AsIOException(coll.error)) && issued.None?
    else if |coll.value| == 0 then
      r == Err(AsIOException(IOError("collection " + f.collName + " doesn't exist", None))) && issued.None?
    else
      && issued == Some(DocumentQuery(coll.value[0].selfLink, EffectiveQuery(f.query), MAX_PAGE_SIZE))
      && (results.Err? ==> r == Err(AsIOException(results.error)))
      && (results.Ok? ==> r.Ok?)
  }

  /**
   * getSplits: one split per collection name, in order, each with the name
   * trimmed and the shared host, key, database and query.
   */
  method GetSplits(dbHost: string, dbKey: string, dbName: string, collNames: seq<string>, query: Option<string>)
    returns (splits: seq<DocumentDBInputSplit>)
    ensures |splits| == |collNames|
    ensures forall i | 0 <= i < |splits| ::
              && fresh(splits[i])
              && splits[i].Fields() == SplitFields(dbHost, dbKey, dbName, Trim(collNames[i]),
                                                   if query.None? then "" else query.value)
              && splits[i].documentIterator == null
  {
    splits := [];
    var i := 0;
    while i < |collNames|
      invariant 0 <= i <= |collNames| && |splits| == i
      invariant forall j | 0 <= j < i ::
                  && fresh(splits[j])
                  && splits[j].Fields() == SplitFields(dbHost, dbKey, dbName, Trim(collNames[j]),
                                                       if query.None? then "" else query.value)
                  && splits[j].documentIterator == null
    {
      var split := new DocumentDBInputSplit(dbHost, dbKey, dbName, Trim(collNames[i]), query);
      splits := splits + [split];
      i := i + 1;
    }
  }
}
