/**
 * The Input- and OutputFormats of both Hadoop APIs: the required settings
 * they check, in order, before they delegate to the input split, the record
 * readers and the record writer.
 */
module Formats {
  import opened Wrappers
  import opened Documents
  import opened JavaText
  import opened RetryPolicy
  import opened ConnectorUtil
  import opened ConfigurationUtil
  import opened InputSplits
  import opened RecordReaders

  /** What getSplits reads from the job configuration once its checks pass. */
  datatype InputSettings = InputSettings(endpoint: string, key: string, dbName: string,
                                         collectionNames: seq<string>, query: Option<string>)

  function MissingSetting(name: string): Error {
    IOError(name + " must be set for the jobconf", None)
  }

  const NO_INPUT_COLLECTIONS := IOError("INPUT_COLLECTION_NAMES must be set for the jobconf as comma separated names", None)

  /**
   * The reads and checks that open both getSplits: the collection names are
   * split first (an unset setting is dereferenced as null), then the
   * endpoint, the key, the database name and at least one collection name
   * are required, in that order, each missing one an IOException.
   */
  function CheckInputSettings(conf: map<string, string>): (r: Result<InputSettings, Error>)
    ensures INPUT_COLLECTION_NAMES !in conf ==> r == Err(NullPointer)
    ensures INPUT_COLLECTION_NAMES in conf && DB_HOST !in conf ==> r == Err(MissingSetting("DB_HOST"))
    ensures INPUT_COLLECTION_NAMES in conf && DB_HOST in conf && DB_KEY !in conf ==> r == Err(MissingSetting("DB_KEY"))
    ensures INPUT_COLLECTION_NAMES in conf && DB_HOST in conf && DB_KEY in conf && DB_NAME !in conf ==>
              r == Err(MissingSetting("DB_NAME"))
    ensures r.Ok? <==> INPUT_COLLECTION_NAMES in conf && DB_HOST in conf && DB_KEY in conf && DB_NAME in conf
                       && |JavaSplit(conf[INPUT_COLLECTION_NAMES], ',')| >= 1
    ensures r.Ok? ==> r.value == InputSettings(conf[DB_HOST], conf[DB_KEY], conf[DB_NAME],
                                               JavaSplit(conf[INPUT_COLLECTION_NAMES], ','), Get(conf, QUERY))
  {
    var names := GetInputCollectionNames(conf);
    if names.Err? then Err(names.error)
    else if DB_HOST !in conf then Err(MissingSetting("DB_HOST"))
    else if DB_KEY !in conf then Err(MissingSetting("DB_KEY"))
    else if DB_NAME !in conf then Err(MissingSetting("DB_NAME"))
    else if |names.value| < 1 then Err(NO_INPUT_COLLECTIONS)
    else Ok(InputSettings(conf[DB_HOST], conf[DB_KEY], conf[DB_NAME], names.value, Get(conf, QUERY)))
  }

  /**
   * With everything else set, the "no collections" error fires exactly when
   * the collection setting is non-empty and made of commas only.
   */
  lemma NoCollectionsOnlyFromCommas(conf: map<string, string>)
    requires INPUT_COLLECTION_NAMES in conf && DB_HOST in conf && DB_KEY in conf && DB_NAME in conf
    ensures var s := conf[INPUT_COLLECTION_NAMES];
            CheckInputSettings(conf) == Err(NO_INPUT_COLLECTIONS) <==> |s| > 0 && forall k | 0 <= k < |s| :: s[k] == ','
  {
    JavaSplitEmpty(conf[INPUT_COLLECTION_NAMES], ',');
  }

  /** getSplits of the mapreduce API: the checks, then one split per collection name. */
  method HadoopGetSplits(conf: map<string, string>) returns (r: Result<seq<DocumentDBInputSplit>, Error>)
    ensures r.Err? <==> CheckInputSettings(conf).Err?
    ensures r.Err? ==> r.error == CheckInputSettings(conf).error
    ensures r.Ok? ==>
              var s := CheckInputSettings(conf).value;
              && |r.value| == |s.collectionNames|
              && forall i | 0 <= i < |r.value| ::
                   && fresh(r.value[i]) && r.value[i].documentIterator == null
                   && r.value[i].Fields() == SplitFields(s.endpoint, s.key, s.dbName, Trim(s.collectionNames[i]),
                                                         if s.query.None? then "" else s.query.value)
  {
    var settings := CheckInputSettings(conf);
    if settings.Err? {
      return Err(settings.error);
    }
    var s := settings.value;
    var splits := GetSplits(s.endpoint, s.key, s.dbName, s.collectionNames, s.query);
    r := Ok(splits);
  }

  /** createRecordReader of the mapreduce API: a reader over the split's iterator. */
  method CreateRecordReader(split: DocumentDBInputSplit, dbLookup: Remote<seq<Resource>>, collLookup: Remote<seq<Resource>>,
                            results: Result<seq<Document>, Error>)
    returns (r: Result<HadoopRecordReader, Error>)
    requires split.Valid()
    modifies split
    ensures split.Valid() && split.Fields() == old(split.Fields())
    ensures r.Ok? ==> fresh(r.value) && r.value.Valid() && r.value.split == split
                      && r.value.documentIterator == split.documentIterator && r.value.documentsProcessed == 0
    ensures old(split.documentIterator) != null ==> r.Ok? && r.value.documentIterator == old(split.documentIterator)
    ensures old(split.documentIterator) == null ==>
              && (r.Err? <==> OpenError(old(split.Fields()), dbLookup, collLookup, results).Some?)
              && (r.Err? ==> r.error == OpenError(old(split.Fields()), dbLookup, collLookup, results).value)
  {
    var it, issued := split.GetDocumentIterator(dbLookup, collLookup, results);
    if it.Err? {
      return Err(it.error);
    }
    var reader := new HadoopRecordReader(split, it.value);
    r := Ok(reader);
  }

  /** A mapred WrapperSplit: a DocumentDB split under the table's input path. */
  datatype WrapperSplit = WrapperSplit(wrappedSplit: DocumentDBInputSplit, path: string)

  /**
   * getSplits of the mapred API: the same checks, the same inner splits,
   * each wrapped under the first input path. The number-of-splits hint is
   * not read; no input path at all is an index out of bounds.
   */
  method MapredGetSplits(conf: map<string, string>, inputPaths: seq<string>, numberOfSplits: int)
    returns (r: Result<seq<WrapperSplit>, Error>)
    ensures CheckInputSettings(conf).Err? ==> r == Err(CheckInputSettings(conf).error)
    ensures CheckInputSettings(conf).Ok? && |inputPaths| == 0 ==> r == Err(IndexOutOfBounds)
    ensures CheckInputSettings(conf).Ok? && |inputPaths| > 0 ==>
              var s := CheckInputSettings(conf).value;
              && r.Ok? && |r.value| == |s.collectionNames|
              && forall i | 0 <= i < |r.value| ::
                   && r.value[i].path == inputPaths[0]
                   && fresh(r.value[i].wrappedSplit) && r.value[i].wrappedSplit.documentIterator == null
                   && r.value[i].wrappedSplit.Fields() == SplitFields(s.endpoint, s.key, s.dbName, Trim(s.collectionNames[i]),
                                                                      if s.query.None? then "" else s.query.value)
  {
    var settings := CheckInputSettings(conf);
    if settings.Err? {
      return Err(settings.error);
    }
    var s := settings.value;
    var innerSplits := GetSplits(s.endpoint, s.key, s.dbName, s.collectionNames, s.query);
    r := WrapSplits(innerSplits, inputPaths);
  }

  /** The wrapping loop of the mapred getSplits: tablePaths[0] is read for each inner split. */
  method WrapSplits(innerSplits: seq<DocumentDBInputSplit>, inputPaths: seq<string>) returns (r: Result<seq<WrapperSplit>, Error>)
    ensures |innerSplits| > 0 && |inputPaths| == 0 ==> r == Err(IndexOutOfBounds)
    ensures |innerSplits| == 0 || |inputPaths| > 0 ==>
              && r.Ok? && |r.value| == |innerSplits|
              && forall i | 0 <= i < |r.value| :: r.value[i] == WrapperSplit(innerSplits[i], inputPaths[0])
  {
    var ret: seq<WrapperSplit> := [];
    var i := 0;
    while i < |innerSplits|
      invariant 0 <= i <= |innerSplits| && |ret| == i
      invariant i > 0 ==> |inputPaths| > 0
      invariant forall j | 0 <= j < i :: ret[j] == WrapperSplit(innerSplits[j], inputPaths[0])
    {
      if |inputPaths| == 0 {
        return Err(IndexOutOfBounds);
      }
      ret := ret + [WrapperSplit(innerSplits[i], inputPaths[0])];
      i := i + 1;
    }
    r := Ok(ret);
  }

  /** getRecordReader of the mapred API: a reader over the wrapped split's iterator. */
  method GetRecordReader(split: WrapperSplit, dbLookup: Remote<seq<Resource>>, collLookup: Remote<seq<Resource>>,
                         results: Result<seq<Document>, Error>)
    returns (r: Result<MapredRecordReader, Error>)
    requires split.wrappedSplit.Valid()
    modifies split.wrappedSplit
    ensures split.wrappedSplit.Valid() && split.wrappedSplit.Fields() == old(split.wrappedSplit.Fields())
    ensures r.Ok? ==> fresh(r.value) && r.value.Valid() && r.value.split == split.wrappedSplit
                      && r.value.documentIterator == split.wrappedSplit.documentIterator && r.value.documentsProcessed == 0
    ensures old(split.wrappedSplit.documentIterator) != null ==>
              r.Ok? && r.value.documentIterator == old(split.wrappedSplit.documentIterator)
    ensures old(split.wrappedSplit.documentIterator) == null ==>
              && (r.Err? <==> OpenError(old(split.wrappedSplit.Fields()), dbLookup, collLookup, results).Some?)
              && (r.Err? ==> r.error == OpenError(old(split.wrappedSplit.Fields()), dbLookup, collLookup, results).value)
  {
    var it, issued := split.wrappedSplit.GetDocumentIterator(dbLookup, collLookup, results);
    if it.Err? {
      return Err(it.error);
    }
    var reader := new MapredRecordReader(split.wrappedSplit, it.value);
    r := Ok(reader);
  }

  /**
   * checkOutputSpecs of both APIs: the output collection names are split
   * first (an unset setting is dereferenced as null), then the endpoint, the
   * key, the database name and at least one collection name are required,
   * in that order. `noCollections` is the API's own message for the last.
   */
  function CheckOutputSpecs(conf: map<string, string>, noCollections: Error): (r: Outcome<Error>)
    ensures OUTPUT_COLLECTION_NAMES !in conf ==> r == Fail(NullPointer)
    ensures OUTPUT_COLLECTION_NAMES in conf && DB_HOST !in conf ==> r == Fail(MissingSetting("DB_HOST"))
    ensures OUTPUT_COLLECTION_NAMES in conf && DB_HOST in conf && DB_KEY !in conf ==> r == Fail(MissingSetting("DB_KEY"))
    ensures OUTPUT_COLLECTION_NAMES in conf && DB_HOST in conf && DB_KEY in conf && DB_NAME !in conf ==>
              r == Fail(MissingSetting("DB_NAME"))
    ensures r == Pass <==> OUTPUT_COLLECTION_NAMES in conf && DB_HOST in conf && DB_KEY in conf && DB_NAME in conf
                           && |JavaSplit(conf[OUTPUT_COLLECTION_NAMES], ',')| > 0
    ensures r.Fail? && OUTPUT_COLLECTION_NAMES in conf && DB_HOST in conf && DB_KEY in conf && DB_NAME in conf ==>
              r.error == noCollections
  {
    var names := GetOutputCollectionNames(conf);
    if names.Err? then Fail(names.error)
    else if DB_HOST !in conf then Fail(MissingSetting("DB_HOST"))
    else if DB_KEY !in conf then Fail(MissingSetting("DB_KEY"))
    else if DB_NAME !in conf then Fail(MissingSetting("DB_NAME"))
    else if |names.value| == 0 then Fail(noCollections)
    else Pass
  }

  const HADOOP_NO_OUTPUT_COLLECTIONS := IOError("OUTPUT_COLLECTION_NAMES must be set for the jobconf as comma separated names", None)
  const MAPRED_NO_OUTPUT_COLLECTIONS := IOError("OUTPUT_COLLECTION_NAME must be set for the jobconf as comma separated names", None)

  /** A plain collection name (non-empty, no comma) with the other three settings is always accepted. */
  lemma OutputSpecsAcceptSingleName(conf: map<string, string>, name: string, noCollections: Error)
    requires DB_HOST in conf && DB_KEY in conf && DB_NAME in conf && ',' !in name
    ensures CheckOutputSpecs(conf[OUTPUT_COLLECTION_NAMES := name], noCollections) == Pass
  {
  }

  /** The arguments getRecordWriter of the mapred API hands to the writer's constructor. */
  datatype WriterArguments = WriterArguments(endpoint: Option<string>, key: Option<string>, dbName: Option<string>,
                                             collectionNames: seq<string>, stringPrecision: int, upsert: bool,
                                             offerType: string)

  /**
   * getRecordWriter of the mapred API, up to the constructor: the arguments
   * are read left to right, so unset collection names fail first and an
   * invalid string precision fails next, before any writer is built.
   */
  function RecordWriterArguments(conf: map<string, string>): (r: Result<WriterArguments, Error>)
    ensures OUTPUT_COLLECTION_NAMES !in conf ==> r == Err(NullPointer)
    ensures OUTPUT_COLLECTION_NAMES in conf && GetOutputStringPrecision(conf).Err? ==> r == Err(GetOutputStringPrecision(conf).error)
    ensures r.Ok? <==> OUTPUT_COLLECTION_NAMES in conf && GetOutputStringPrecision(conf).Ok?
    ensures r.Ok? ==> ValidPrecision(r.value.stringPrecision)
    ensures r.Ok? ==> r.value.collectionNames == JavaSplit(conf[OUTPUT_COLLECTION_NAMES], ',')
    ensures r.Ok? ==> r.value.upsert == GetUpsert(conf) && r.value.offerType == GetOutputCollectionsOffer(conf)
    ensures r.Ok? ==> r.value.endpoint == Get(conf, DB_HOST) && r.value.key == Get(conf, DB_KEY) && r.value.dbName == Get(conf, DB_NAME)
  {
    var names := GetOutputCollectionNames(conf);
    if names.Err? then Err(names.error)
    else
      var precision := GetOutputStringPrecision(conf);
      if precision.Err? then Err(precision.error)
      else Ok(WriterArguments(Get(conf, DB_HOST), Get(conf, DB_KEY), Get(conf, DB_NAME), names.value,
                              precision.value, GetUpsert(conf), GetOutputCollectionsOffer(conf)))
  }
}
