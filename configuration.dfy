/**
 * ConfigurationUtil: the connector's setting keys, the getters that read and
 * validate them from a job configuration, and the copy of the connector's
 * own properties into a job-property map. A Hadoop Configuration is a
 * string-to-string map in which an absent key reads as null.
 */
module ConfigurationUtil {
  import opened Wrappers
  import opened Documents
  import opened JavaText

  const DB_NAME := "DocumentDB.db"
  const INPUT_COLLECTION_NAMES := "DocumentDB.inputCollections"
  const OUTPUT_COLLECTION_NAMES := "DocumentDB.outputCollections"
  const DB_HOST := "DocumentDB.endpoint"
  const DB_KEY := "DocumentDB.key"
  const QUERY := "DocumentDB.query"
  const OUTPUT_STRING_PRECISION := "DocumentDB.outputStringPrecision"
  const OUTPUT_COLLECTIONS_OFFER := "DocumentDB.outputCollectionsOffer"
  const UPSERT := "DocumentDB.upsert"

  /** Maximum precision. */
  const DEFAULT_STRING_PRECISION := -1
  const DEFAULT_OFFER := "S3"

  /** The properties copyDocumentDBProperties forwards, in its iteration order. */
  const ALL_PROPERTIES: seq<string> := [DB_NAME, INPUT_COLLECTION_NAMES, OUTPUT_COLLECTION_NAMES, DB_HOST, DB_KEY, QUERY]

  /** MRJobConfig.MAPREDUCE_JOB_USER_CLASSPATH_FIRST, which the Pig adapters switch on. */
  const USER_CLASSPATH_FIRST := "mapreduce.job.user.classpath.first"

  /** A Hadoop Configuration: set and setBoolean overwrite one key. */
  class Configuration {
    var settings: map<string, string>

    constructor(settings: map<string, string>)
      ensures this.settings == settings
    {
      this.settings := settings;
    }

    method Set(key: string, value: string)
      modifies this
      ensures settings == old(settings)[key := value]
    {
      settings := settings[key := value];
    }

    method SetBoolean(key: string, value: bool)
      modifies this
      ensures settings == old(settings)[key := if value then "true" else "false"]
    {
      settings := settings[key := if value then "true" else "false"];
    }
  }

  /** A java.util.Map<String, String> that a caller hands over to be filled. */
  class PropertyMap {
    var entries: map<string, string>

    constructor(entries: map<string, string>)
      ensures this.entries == entries
    {
      this.entries := entries;
    }

    method Put(key: string, value: string)
      modifies this
      ensures entries == old(entries)[key := value]
    {
      entries := entries[key := value];
    }
  }

  /** conf.get(key): the value, or null. */
  function Get(conf: map<string, string>, key: string): (r: Option<string>)
    ensures r.Some? <==> key in conf
    ensures r.Some? ==> r.value == conf[key]
  {
    if key in conf then Some(conf[key]) else None
  }

  /**
   * conf.get(key).split(","): an unset key is dereferenced as null. The
   * names are the setting's comma-separated pieces, in order and untrimmed;
   * only empty pieces at the end are dropped.
   */
  function CollectionNames(conf: map<string, string>, key: string): (r: Result<seq<string>, Error>)
    ensures r.Err? <==> key !in conf
    ensures r.Err? ==> r.error == NullPointer
    ensures r.Ok? ==>
              var all := SplitAll(conf[key], ',');
              && Join(all, ',') == conf[key]
              && |r.value| <= |all| && r.value == all[..|r.value|]
              && (forall k | |r.value| <= k < |all| :: all[k] == "")
              && (forall k | 0 <= k < |r.value| :: ',' !in r.value[k])
  {
    if key !in conf then Err(NullPointer)
    else
      JavaSplitShape(conf[key], ',');
      Ok(JavaSplit(conf[key], ','))
  }

  function GetInputCollectionNames(conf: map<string, string>): (r: Result<seq<string>, Error>)
    ensures r == CollectionNames(conf, INPUT_COLLECTION_NAMES)
    ensures r.Err? <==> INPUT_COLLECTION_NAMES !in conf
  {
    CollectionNames(conf, INPUT_COLLECTION_NAMES)
  }

  function GetOutputCollectionNames(conf: map<string, string>): (r: Result<seq<string>, Error>)
    ensures r == CollectionNames(conf, OUTPUT_COLLECTION_NAMES)
    ensures r.Err? <==> OUTPUT_COLLECTION_NAMES !in conf
  {
    CollectionNames(conf, OUTPUT_COLLECTION_NAMES)
  }

  /** A precision getOutputStringPrecision accepts: -1 (maximum) or positive. */
  predicate ValidPrecision(p: int) {
    p == DEFAULT_STRING_PRECISION || p > 0
  }

  /**
   * getOutputStringPrecision: -1 when unset or empty; otherwise the setting
   * parsed as an int, which must be -1 or positive. Text that is not an int
   * and a value of 0 or below -1 raise IllegalArgumentException.
   */
  function GetOutputStringPrecision(conf: map<string, string>): (r: Result<int, Error>)
    ensures (OUTPUT_STRING_PRECISION !in conf || conf[OUTPUT_STRING_PRECISION] == "") ==> r == Ok(DEFAULT_STRING_PRECISION)
    ensures r.Ok? ==> ValidPrecision(r.value) && InIntRange(r.value)
    ensures r.Err? ==> r.error.IllegalArgument?
    ensures OUTPUT_STRING_PRECISION in conf && conf[OUTPUT_STRING_PRECISION] != "" ==>
              (r.Ok? <==> ParseInt(conf[OUTPUT_STRING_PRECISION]).Some? && ValidPrecision(ParseInt(conf[OUTPUT_STRING_PRECISION]).value))
              && (r.Ok? ==> ParseInt(conf[OUTPUT_STRING_PRECISION]) == Some(r.value))
  {
    var value := Get(conf, OUTPUT_STRING_PRECISION);
    if value.None? || value.value == "" then Ok(DEFAULT_STRING_PRECISION)
    else
      match ParseInt(value.value)
      case None => Err(IllegalArgument("outputStringPrecision is expected to be an integer."))
      case Some(p) =>
        if p < -1 || p == 0 then Err(IllegalArgument("outputStringPrecision can only be -1 or a positive number."))
        else Ok(p)
  }

  /** Every valid precision written out as decimal text is read back as itself. */
  lemma PrecisionRoundTrip(conf: map<string, string>, p: int)
    requires ValidPrecision(p) && InIntRange(p)
    ensures GetOutputStringPrecision(conf[OUTPUT_STRING_PRECISION := IntToString(p)]) == Ok(p)
  {
    ParseIntRoundTrip(p);
    if p > 0 {
      NatToStringDigits(p);
    }
    assert IntToString(p) != "";
  }

  /** An int outside the valid range, written as text, is refused. */
  lemma PrecisionRejected(conf: map<string, string>, p: int)
    requires !ValidPrecision(p) && InIntRange(p)
    ensures GetOutputStringPrecision(conf[OUTPUT_STRING_PRECISION := IntToString(p)]).Err?
  {
    ParseIntRoundTrip(p);
  }

  /** getUpsert: false exactly when the setting is present and equals "false" ignoring case. */
  function GetUpsert(conf: map<string, string>): (upsert: bool)
    ensures !upsert <==> UPSERT in conf && EqualsIgnoreCase(conf[UPSERT], "false")
    ensures UPSERT !in conf ==> upsert
  {
    var value := Get(conf, UPSERT);
    !(value.Some? && EqualsIgnoreCase(value.value, "false"))
  }

  /** Every capitalisation of "false" switches upsert off. */
  lemma UpsertOffIgnoringCase(conf: map<string, string>, s: string)
    requires |s| == 5
    requires ToLower(s[0]) == 'f' && ToLower(s[1]) == 'a' && ToLower(s[2]) == 'l' && ToLower(s[3]) == 's' && ToLower(s[4]) == 'e'
    ensures !GetUpsert(conf[UPSERT := s])
  {
    var c := conf[UPSERT := s];
    forall i | 0 <= i < 5
      ensures CharEqualsIgnoreCase(s[i], "false"[i])
    {
      assert ToLower(ToUpper(s[i])) == ToLower(s[i]);
    }
  }

  /** getOutputCollectionsOffer: the configured offer type, or "S3" when absent. */
  function GetOutputCollectionsOffer(conf: map<string, string>): (offer: string)
    ensures OUTPUT_COLLECTIONS_OFFER in conf ==> offer == conf[OUTPUT_COLLECTIONS_OFFER]
    ensures OUTPUT_COLLECTIONS_OFFER !in conf ==> offer == DEFAULT_OFFER
  {
    match Get(conf, OUTPUT_COLLECTIONS_OFFER)
    case Some(o) => o
    case None => DEFAULT_OFFER
  }

  /**
   * The target map after copying, one after another, those of `keys` that
   * `from` holds: each such key takes its value from `from`; every other
   * entry of `to` stays as it was.
   */
  function CopyKeys(keys: seq<string>, from: map<string, string>, to: map<string, string>): (r: map<string, string>)
    ensures forall k :: k in r <==> k in to || (k in keys && k in from)
    ensures forall k | k in keys && k in from :: r[k] == from[k]
    ensures forall k | k !in keys && k in to :: r[k] == to[k]
    decreases |keys|
  {
    if |keys| == 0 then to
    else
      var copied := CopyKeys(keys[..|keys| - 1], from, to);
      var key := keys[|keys| - 1];
      assert forall k :: k in keys <==> k in keys[..|keys| - 1] || k == key;
      if key in from then copied[key := from[key]] else copied
  }

  lemma CopyKeysStep(keys: seq<string>, i: nat, from: map<string, string>, to: map<string, string>)
    requires i < |keys|
    ensures CopyKeys(keys[..i + 1], from, to) ==
              var copied := CopyKeys(keys[..i], from, to);
              if keys[i] in from then copied[keys[i] := from[keys[i]]] else copied
  {
    assert keys[..i + 1][..i] == keys[..i];
  }

  /**
   * copyDocumentDBProperties: the connector's six properties that `from`
   * holds are put into `to`, overwriting; nothing else in `to` changes.
   */
  method CopyDocumentDBProperties(from: map<string, string>, to: PropertyMap)
    modifies to
    ensures to.entries == CopyKeys(ALL_PROPERTIES, from, old(to.entries))
  {
    var i := 0;
    while i < |ALL_PROPERTIES|
      invariant 0 <= i <= |ALL_PROPERTIES|
      invariant to.entries == CopyKeys(ALL_PROPERTIES[..i], from, old(to.entries))
    {
      var key := ALL_PROPERTIES[i];
      CopyKeysStep(ALL_PROPERTIES, i, from, old(to.entries));
      if key in from {
        to.Put(key, from[key]);
      }
      i := i + 1;
    }
    assert ALL_PROPERTIES[..i] == ALL_PROPERTIES;
  }

  /** The precision, offer and upsert settings are never forwarded by the copy. */
  lemma CopySkipsWriterSettings(from: map<string, string>, to: map<string, string>)
    ensures var r := CopyKeys(ALL_PROPERTIES, from, to);
            && (OUTPUT_STRING_PRECISION in r <==> OUTPUT_STRING_PRECISION in to)
            && (OUTPUT_COLLECTIONS_OFFER in r <==> OUTPUT_COLLECTIONS_OFFER in to)
            && (UPSERT in r <==> UPSERT in to)
  {
    assert OUTPUT_STRING_PRECISION !in ALL_PROPERTIES;
    assert OUTPUT_COLLECTIONS_OFFER !in ALL_PROPERTIES;
    assert UPSERT !in ALL_PROPERTIES;
  }
}
