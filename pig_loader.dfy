/**
 * The Pig DocumentDBLoader: reads documents through the mapreduce record
 * reader and turns each into a Pig tuple, converting JSON arrays to tuples
 * and JSON objects to Pig maps, recursively.
 */
module PigLoader {
  import opened Wrappers
  import opened Documents
  import opened RetryPolicy
  import opened ConnectorUtil
  import opened ConfigurationUtil
  import opened InputSplits
  import opened RecordReaders

  const PIG_LOADER_USERAGENT := " PigConnectorLoader/1.0.0"

  /**
   * convertToPigType: JSON null stays null, numbers and strings (and any
   * value it does not recognise) are returned as they are, an array becomes
   * a tuple of its converted elements, and an object becomes a map of its
   * converted values under the same keys.
   */
  function ConvertToPigType(v: Value): (r: Value)
    ensures r.Null? <==> v.Null?
    ensures v.Number? || v.Str? || v.Bool? || v.Tuple? ==> r == v
    ensures v.List? ==> r.Tuple? && |r.fields| == |v.items|
    ensures v.Dict? ==> r.Dict? && r.entries.Keys == v.entries.Keys
    decreases v
  {
    match v
    case List(items) => Tuple(seq(|items|, i requires 0 <= i < |items| => ConvertToPigType(items[i])))
    case Dict(entries) => Dict(map k | k in entries :: ConvertToPigType(entries[k]))
    case _ => v
  }

  /** A value built from JSON: it holds no Pig tuple anywhere. */
  predicate IsJson(v: Value)
    decreases v
  {
    match v
    case Tuple(_) => false
    case List(items) => forall i | 0 <= i < |items| :: IsJson(items[i])
    case Dict(entries) => forall k | k in entries :: IsJson(entries[k])
    case _ => true
  }

  /** A value Pig can hold: it holds no JSON array anywhere. */
  predicate IsPig(v: Value)
    decreases v
  {
    match v
    case List(_) => false
    case Tuple(fields) => forall i | 0 <= i < |fields| :: IsPig(fields[i])
    case Dict(entries) => forall k | k in entries :: IsPig(entries[k])
    case _ => true
  }

  /** Converting a JSON value leaves no array behind, at any depth. */
  lemma {:induction false} ConvertYieldsPig(v: Value)
    requires IsJson(v)
    ensures IsPig(ConvertToPigType(v))
    decreases v
  {
    match v
    case List(items) =>
      var r := ConvertToPigType(v);
      forall i | 0 <= i < |items|
        ensures IsPig(r.fields[i])
      {
        ConvertYieldsPig(items[i]);
      }
    case Dict(entries) =>
      var r := ConvertToPigType(v);
      forall k | k in entries
        ensures IsPig(r.entries[k])
      {
        ConvertYieldsPig(entries[k]);
      }
    case _ =>
  }

  /** A Pig value is left exactly as it is, so converting twice is converting once. */
  lemma {:induction false} ConvertFixesPig(v: Value)
    requires IsPig(v)
    ensures ConvertToPigType(v) == v
    decreases v
  {
    match v
    case Dict(entries) =>
      forall k | k in entries
        ensures ConvertToPigType(entries[k]) == entries[k]
      {
        ConvertFixesPig(entries[k]);
      }
      assert ConvertToPigType(v).entries == entries;
    case _ =>
  }

  lemma ConvertIdempotent(v: Value)
    requires IsJson(v)
    ensures ConvertToPigType(ConvertToPigType(v)) == ConvertToPigType(v)
  {
    ConvertYieldsPig(v);
    ConvertFixesPig(ConvertToPigType(v));
  }

  /** doc.getObject(name): the property, or null. */
  function GetObject(doc: Document, name: string): Value
  {
    if name in doc.props then doc.props[name] else Null
  }

  /**
   * translate: without a field schema, a 1-tuple holding the converted
   * property map; with one, slot i holds the converted value of field i.
   */
  function Translate(doc: Document, fields: Option<seq<string>>): (t: Value)
    ensures t.Tuple?
    ensures fields.None? ==> |t.fields| == 1 && t.fields[0].Dict? && t.fields[0].entries.Keys == doc.props.Keys
    ensures fields.None? ==> forall k | k in doc.props :: t.fields[0].entries[k] == ConvertToPigType(doc.props[k])
    ensures fields.Some? ==> |t.fields| == |fields.value|
    ensures fields.Some? ==> forall i | 0 <= i < |fields.value| ::
              t.fields[i] == (if fields.value[i] in doc.props then ConvertToPigType(doc.props[fields.value[i]]) else Null)
  {
    match fields
    case None => Tuple([ConvertToPigType(Dict(doc.props))])
    case Some(names) => Tuple(seq(|names|, i requires 0 <= i < |names| => ConvertToPigType(GetObject(doc, names[i]))))
  }

  class DocumentDBLoader {
    const masterkey: string
    const dbName: string
    /** Comma-separated collection names. */
    const inputCollections: string
    const query: Option<string>
    /** The field schema; the constructor leaves it null and nothing sets it. */
    const fields: Option<seq<string>>
    var reader: HadoopRecordReader?

    /** The constructor also adds the loader to the global user agent, once. */
    constructor(globals: ConnectorGlobals, masterkey: string, dbName: string, inputCollections: string, query: Option<string>)
      modifies globals
      ensures this.masterkey == masterkey && this.dbName == dbName && this.inputCollections == inputCollections
      ensures this.query == query && fields == None && reader == null
      ensures globals.userAgentSuffix == WithSuffix(old(globals.userAgentSuffix), PIG_LOADER_USERAGENT)
    {
      this.masterkey := masterkey;
      this.fields := None;
      this.dbName := dbName;
      this.inputCollections := inputCollections;
      this.query := query;
      this.reader := null;
      globals.AppendUserAgent(PIG_LOADER_USERAGENT);
    }

    method PrepareToRead(reader: HadoopRecordReader)
      modifies this
      ensures this.reader == reader
    {
      this.reader := reader;
    }

    /**
     * setLocation: the endpoint, key, database and collections are always
     * set; the query only when there is one.
     */
    method SetLocation(location: string, conf: Configuration)
      modifies conf
      ensures var s := old(conf.settings)[DB_HOST := location][DB_KEY := masterkey][DB_NAME := dbName]
                                        [INPUT_COLLECTION_NAMES := inputCollections];
              conf.settings == (if query.Some? then s[QUERY := query.value] else s)[USER_CLASSPATH_FIRST := "true"]
    {
      conf.Set(DB_HOST, location);
      conf.Set(DB_KEY, masterkey);
      conf.Set(DB_NAME, dbName);
      conf.Set(INPUT_COLLECTION_NAMES, inputCollections);
      if query.Some? {
        conf.Set(QUERY, query.value);
      }
      conf.SetBoolean(USER_CLASSPATH_FIRST, true);
    }

    /**
     * getNext: null (None) once the reader has no more documents, otherwise
     * the next document translated into a tuple. Without a reader it
     * dereferences null.
     */
    method GetNext(faults: seq<Error>) returns (r: Result<Option<Value>, Error>)
      requires reader != null ==> reader.Valid()
      modifies if reader == null then {} else {reader, reader.current, reader.documentIterator}
      ensures reader == null ==> r == Err(NullPointer)
      ensures reader != null ==> reader.Valid()
      ensures reader != null && r == Ok(None) ==> reader.documentsProcessed == old(reader.documentsProcessed)
      ensures reader != null && r.Ok? && r.value.Some? ==>
                && reader.documentsProcessed == old(reader.documentsProcessed) + 1
                && reader.current.doc == reader.documentIterator.results[reader.start + old(reader.documentsProcessed)]
                && r.value.value == Translate(reader.current.doc, fields)
      ensures reader != null && reader.documentIterator == null ==> r == Ok(None)
      ensures reader != null ==> (r.Err? <==> reader.documentIterator != null && RetryResult(Remote(faults, ()), true).Err?)
    {
      if reader == null {
        return Err(NullPointer);
      }
      var more := reader.NextKeyValue(faults);
      if more.Err? {
        return Err(more.error);
      }
      if !more.value {
        return Ok(None);
      }
      var key := reader.GetCurrentKey();
      var value := reader.GetCurrentValue();
      r := Ok(Some(Translate(value.doc, fields)));
    }
  }
}
