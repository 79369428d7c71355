/**
 * The Pig DocumentDBStorage: turns each Pig tuple into one document and
 * hands it to the mapreduce record writer. Without a schema, map elements
 * contribute their entries and string elements become "field0", "field1",
 * ...; with a schema, field i is bound to tuple element i.
 *
 * Parsing and printing Pig schemas is Pig's own code: a schema is its list
 * of field names, and the text form and its parser are parameters.
 */
module PigStorage {
  import opened Wrappers
  import opened Documents
  import opened JavaText
  import opened RetryPolicy
  import opened ConnectorUtil
  import opened ConfigurationUtil
  import opened RecordWriters

  const PIG_STORAGE_USERAGENT := " PigConnectorStorage/1.0.0"
  const PIG_OUTPUT_SCHEMA_UDF_CONTEXT := "documentdb.pig.output.schema.udf_context"

  /** String.format("field%s", count). */
  function FieldName(count: nat): (name: string)
    ensures |name| > 5 && name[..5] == "field"
  {
    "field" + IntToString(count)
  }

  lemma FieldNameInjective(m: nat, n: nat)
    requires FieldName(m) == FieldName(n)
    ensures m == n
  {
    assert FieldName(m)[5..] == IntToString(m) == NatToString(m);
    assert FieldName(n)[5..] == IntToString(n) == NatToString(n);
    NatToStringInjective(m, n);
  }

  // ---------------------------------------------------------------- dynamic schema

  /**
   * One element of the dynamic-schema loop: a map's entries are set under
   * their keys, a string is set under the next field name, and any other
   * element adds nothing.
   */
  function DynamicStep(acc: (map<string, Value>, nat), o: Value): (map<string, Value>, nat)
  {
    match o
    case Dict(m) => (acc.0 + m, acc.1)
    case Str(_) => (acc.0[FieldName(acc.1) := o], acc.1 + 1)
    case _ => acc
  }

  /** The properties the dynamic-schema loop has set after the elements of `t`, and how many strings it has numbered. */
  function DynamicProps(t: seq<Value>): (r: (map<string, Value>, nat))
    decreases |t|
  {
    if |t| == 0 then (map[], 0) else DynamicStep(DynamicProps(t[..|t| - 1]), t[|t| - 1])
  }

  /** The string elements of t, in order. */
  function Strings(t: seq<Value>): (ss: seq<Value>)
    ensures forall i | 0 <= i < |ss| :: ss[i].Str?
    decreases |t|
  {
    if |t| == 0 then []
    else if t[|t| - 1].Str? then Strings(t[..|t| - 1]) + [t[|t| - 1]]
    else Strings(t[..|t| - 1])
  }

  /** The loop's string counter is the number of string elements seen, whatever else the tuple holds. */
  lemma {:induction false} DynamicCountsStrings(t: seq<Value>)
    ensures DynamicProps(t).1 == |Strings(t)|
    decreases |t|
  {
    if |t| > 0 {
      DynamicCountsStrings(t[..|t| - 1]);
    }
  }

  /**
   * Element j of t sets `key`: a map holding the key, or a string numbered
   * with it (the strings before j fix its number).
   */
  predicate SetsKey(t: seq<Value>, j: nat, key: string)
    requires j < |t|
  {
    || (t[j].Dict? && key in t[j].entries)
    || (t[j].Str? && key == FieldName(|Strings(t[..j])|))
  }

  /** What element j sets `key` to. */
  function ValueSet(o: Value, key: string): Value
  {
    if o.Dict? && key in o.entries then o.entries[key] else o
  }

  /** Setting a key on a prefix of t is setting it on t. */
  lemma SetsKeyPrefix(t: seq<Value>, n: nat, j: nat, key: string)
    requires j < n <= |t|
    ensures SetsKey(t[..n], j, key) <==> SetsKey(t, j, key)
  {
    assert t[..n][..j] == t[..j];
  }

  /**
   * Last writer wins: the property `key` holds what the last element that
   * sets it put there, the map's value for a map and the string itself for
   * a string.
   */
  lemma {:induction false} DynamicLastWriter(t: seq<Value>, i: nat, key: string)
    requires i < |t| && SetsKey(t, i, key)
    requires forall j | i < j < |t| :: !SetsKey(t, j, key)
    ensures key in DynamicProps(t).0 && DynamicProps(t).0[key] == ValueSet(t[i], key)
    decreases |t|
  {
    var n := |t| - 1;
    var init := t[..n];
    var last := t[n];
    DynamicCountsStrings(init);
    assert init == t[..n];
    if i < n {
      SetsKeyPrefix(t, n, i, key);
      forall j | i < j < n
        ensures !SetsKey(init, j, key)
      {
        SetsKeyPrefix(t, n, j, key);
      }
      DynamicLastWriter(init, i, key);
      assert !SetsKey(t, n, key);
      assert init[i] == t[i];
    }
  }

  /** Every property of the dynamic document was set by some element of the tuple. */
  lemma {:induction false} DynamicKeysSet(t: seq<Value>, key: string)
    requires key in DynamicProps(t).0
    ensures exists j | 0 <= j < |t| :: SetsKey(t, j, key)
    decreases |t|
  {
    var n := |t| - 1;
    var init := t[..n];
    DynamicCountsStrings(init);
    if !SetsKey(t, n, key) {
      DynamicKeysSet(init, key);
      var j :| 0 <= j < |init| && SetsKey(init, j, key);
      SetsKeyPrefix(t, n, j, key);
    }
  }

  /** No map element of t holds a key of the form "field<n>". */
  ghost predicate NoFieldKeys(t: seq<Value>) {
    forall i, n: nat | 0 <= i < |t| && t[i].Dict? :: FieldName(n) !in t[i].entries
  }

  /**
   * When no map element uses a "field<n>" key, the j-th string is stored
   * under "field<j>", and every property is one of those or a key of a map
   * element.
   */
  lemma {:induction false} DynamicNumbersStrings(t: seq<Value>)
    requires NoFieldKeys(t)
    ensures DynamicProps(t).1 == |Strings(t)|
    ensures forall j | 0 <= j < |Strings(t)| :: FieldName(j) in DynamicProps(t).0 && DynamicProps(t).0[FieldName(j)] == Strings(t)[j]
    ensures forall k | k in DynamicProps(t).0 ::
              || (exists j | 0 <= j < |Strings(t)| :: k == FieldName(j))
              || (exists i | 0 <= i < |t| :: t[i].Dict? && k in t[i].entries)
    decreases |t|
  {
    DynamicCountsStrings(t);
    if |t| > 0 {
      var init := t[..|t| - 1];
      var last := t[|t| - 1];
      assert NoFieldKeys(init) by {
        forall i, n: nat | 0 <= i < |init| && init[i].Dict?
          ensures FieldName(n) !in init[i].entries
        {
          assert init[i] == t[i];
        }
      }
      DynamicNumbersStrings(init);
      var (props, count) := DynamicProps(init);
      var newProps := DynamicProps(t).0;
      if last.Str? {
        var ss := Strings(t);
        assert ss == Strings(init) + [last];
        assert newProps == props[FieldName(count) := last];
        forall j | 0 <= j < |ss|
          ensures FieldName(j) in newProps && newProps[FieldName(j)] == ss[j]
        {
          if j < count {
            if FieldName(j) == FieldName(count) {
              FieldNameInjective(j, count);
            }
          }
        }
        forall k | k in newProps
          ensures || (exists j | 0 <= j < |ss| :: k == FieldName(j))
                  || (exists i | 0 <= i < |t| :: t[i].Dict? && k in t[i].entries)
        {
          if k != FieldName(count) {
            if exists j | 0 <= j < |Strings(init)| :: k == FieldName(j) {
              var j :| 0 <= j < |Strings(init)| && k == FieldName(j);
              assert ss[j] == Strings(init)[j];
            } else {
              var i :| 0 <= i < |init| && init[i].Dict? && k in init[i].entries;
              assert t[i] == init[i];
            }
          }
        }
      } else {
        assert Strings(t) == Strings(init);
        if last.Dict? {
          assert newProps == props + last.entries;
          forall j | 0 <= j < |Strings(t)|
            ensures FieldName(j) in newProps && newProps[FieldName(j)] == Strings(t)[j]
          {
            assert FieldName(j) !in last.entries;
          }
        } else {
          assert newProps == props;
        }
        forall k | k in newProps
          ensures || (exists j | 0 <= j < |Strings(t)| :: k == FieldName(j))
                  || (exists i | 0 <= i < |t| :: t[i].Dict? && k in t[i].entries)
        {
          if !(last.Dict? && k in last.entries) {
            if !(exists j | 0 <= j < |Strings(init)| :: k == FieldName(j)) {
              var i :| 0 <= i < |init| && init[i].Dict? && k in init[i].entries;
              assert t[i] == init[i];
            }
          }
        }
      }
    }
  }

  /** Every entry of every map element reaches the document: map keys are never dropped. */
  lemma {:induction false} DynamicKeepsMapKeys(t: seq<Value>, i: nat, key: string)
    requires i < |t| && t[i].Dict? && key in t[i].entries
    ensures key in DynamicProps(t).0
    decreases |t|
  {
    var init := t[..|t| - 1];
    if i < |t| - 1 {
      assert init[i] == t[i];
      DynamicKeepsMapKeys(init, i, key);
      DynamicKeepsKeys(t);
    }
  }

  /** One more element never removes a property. */
  lemma DynamicKeepsKeys(t: seq<Value>)
    requires |t| > 0
    ensures DynamicProps(t[..|t| - 1]).0.Keys <= DynamicProps(t).0.Keys
  {
  }

  /** Some element of the tuple is null. */
  predicate HasNull(t: seq<Value>) {
    exists i | 0 <= i < |t| :: t[i].Null?
  }

  /**
   * The elements the dynamic-schema loop acts on: maps and strings, and
   * nulls, on which it throws.
   */
  function Relevant(t: seq<Value>): (r: seq<Value>)
    ensures forall i | 0 <= i < |r| :: r[i].Dict? || r[i].Str? || r[i].Null?
    decreases |t|
  {
    if |t| == 0 then []
    else if t[|t| - 1].Dict? || t[|t| - 1].Str? || t[|t| - 1].Null? then Relevant(t[..|t| - 1]) + [t[|t| - 1]]
    else Relevant(t[..|t| - 1])
  }

  /**
   * Elements that are neither maps, strings nor null leave no trace:
   * dropping them changes neither the properties set nor whether the loop
   * throws.
   */
  lemma {:induction false} DynamicIgnoresOthers(t: seq<Value>)
    ensures DynamicProps(Relevant(t)) == DynamicProps(t)
    ensures HasNull(Relevant(t)) <==> HasNull(t)
    decreases |t|
  {
    if |t| > 0 {
      var init := t[..|t| - 1];
      var last := t[|t| - 1];
      DynamicIgnoresOthers(init);
      assert HasNull(t) <==> HasNull(init) || last.Null? by {
        if HasNull(t) && !last.Null? {
          var i :| 0 <= i < |t| && t[i].Null?;
          assert init[i].Null?;
        }
        if HasNull(init) {
          var i :| 0 <= i < |init| && init[i].Null?;
          assert t[i].Null?;
        }
      }
      var r := Relevant(t);
      if last.Dict? || last.Str? || last.Null? {
        assert r == Relevant(init) + [last];
        assert r[..|r| - 1] == Relevant(init);
        assert DynamicProps(r) == DynamicStep(DynamicProps(Relevant(init)), last);
        assert HasNull(r) <==> HasNull(Relevant(init)) || last.Null? by {
          if HasNull(r) && !last.Null? {
            var i :| 0 <= i < |r| && r[i].Null?;
            assert Relevant(init)[i].Null?;
          }
          if HasNull(Relevant(init)) {
            var i :| 0 <= i < |Relevant(init)| && Relevant(init)[i].Null?;
            assert r[i].Null?;
          }
        }
      } else {
        assert r == Relevant(init);
        assert DynamicStep(DynamicProps(init), last) == DynamicProps(init);
      }
    }
  }

  /** Sets every entry of m in props, one key at a time, as the inner keySet loop does. */
  method PutAll(props: map<string, Value>, m: map<string, Value>) returns (r: map<string, Value>)
    ensures r == props + m
  {
    r := props;
    var keys := m.Keys;
    ghost var done: set<string> := {};
    while keys != {}
      invariant keys + done == m.Keys && keys !! done
      invariant r == props + map k | k in done :: m[k]
      decreases keys
    {
      var key :| key in keys;
      r := r[key := m[key]];
      keys := keys - {key};
      done := done + {key};
    }
    assert (map k | k in done :: m[k]) == m;
  }

  /**
   * The dynamic-schema branch of putNext: a null element makes the loop's
   * else branch call getClass() on null, so the first null throws
   * NullPointerException; otherwise the document holds DynamicProps.
   */
  method DynamicDocument(t: seq<Value>) returns (r: Result<Document, Error>)
    ensures HasNull(t) ==> r == Err(NullPointer)
    ensures !HasNull(t) ==> r == Ok(Document(DynamicProps(t).0))
  {
    var props: map<string, Value> := map[];
    var count := 0;
    var i := 0;
    while i < |t|
      invariant 0 <= i <= |t|
      invariant forall j | 0 <= j < i :: !t[j].Null?
      invariant (props, count) == DynamicProps(t[..i])
    {
      assert t[..i + 1][..i] == t[..i];
      var o := t[i];
      if o.Dict? {
        props := PutAll(props, o.entries);
      } else if o.Str? {
        props := props[FieldName(count) := o];
        count := count + 1;
      } else if o.Null? {
        return Err(NullPointer);
      }
      i := i + 1;
    }
    assert t[..i] == t;
    r := Ok(Document(props));
  }

  // ---------------------------------------------------------------- declared schema

  /**
   * The properties the schema loop sets for the first |names| fields: field
   * i's name bound to tuple element i, a later field of the same name
   * overwriting an earlier one.
   */
  function SchemaProps(names: seq<string>, t: seq<Value>): (props: map<string, Value>)
    requires |names| <= |t|
    ensures props.Keys == set i | 0 <= i < |names| :: names[i]
    decreases |names|
  {
    if |names| == 0 then map[]
    else
      var n := |names| - 1;
      var props := SchemaProps(names[..n], t);
      assert forall i | 0 <= i < n :: names[..n][i] == names[i];
      props[names[n] := t[n]]
  }

  /** A field whose name does not occur again later is bound to its own tuple element. */
  lemma {:induction false} SchemaBindsField(names: seq<string>, t: seq<Value>, i: nat)
    requires |names| <= |t| && i < |names| && names[i] !in names[i + 1..]
    ensures SchemaProps(names, t)[names[i]] == t[i]
    decreases |names|
  {
    var n := |names| - 1;
    if i < n {
      assert names[n] == names[i + 1..][n - i - 1];
      var init := names[..n];
      assert init[i + 1..] == names[i + 1..n];
      SchemaBindsField(init, t, i);
    }
  }

  /**
   * The declared-schema branch of putNext: t.get(i) for each field; a
   * schema longer than the tuple raises as soon as the index passes its end.
   */
  method SchemaDocument(names: seq<string>, t: seq<Value>) returns (r: Result<Document, Error>)
    ensures |names| <= |t| ==> r == Ok(Document(SchemaProps(names, t)))
    ensures |names| > |t| ==> r == Err(IndexOutOfBounds)
  {
    var props: map<string, Value> := map[];
    var i := 0;
    while i < |names|
      invariant 0 <= i <= |names| && i <= |t|
      invariant props == SchemaProps(names[..i], t)
    {
      if i >= |t| {
        return Err(IndexOutOfBounds);
      }
      assert names[..i + 1][..i] == names[..i];
      props := props[names[i] := t[i]];
      i := i + 1;
    }
    assert names[..i] == names;
    r := Ok(Document(props));
  }

  // ---------------------------------------------------------------- the store function

  class DocumentDBStorage {
    const masterkey: string
    const dbName: string
    const outputCollections: string
    const rangeIndexed: Option<string>
    const upsert: Option<string>
    const offerType: Option<string>
    var writer: DocumentDBRecordWriter?
    /** The field names of the schema, or null. */
    var schema: Option<seq<string>>

    /** The constructor also adds the storage to the global user agent, once. */
    constructor(globals: ConnectorGlobals, masterkey: string, dbName: string, outputCollections: string,
                rangeIndexed: Option<string>, upsert: Option<string>, offerType: Option<string>)
      modifies globals
      ensures this.masterkey == masterkey && this.dbName == dbName && this.outputCollections == outputCollections
      ensures this.rangeIndexed == rangeIndexed && this.upsert == upsert && this.offerType == offerType
      ensures writer == null && schema == None
      ensures globals.userAgentSuffix == WithSuffix(old(globals.userAgentSuffix), PIG_STORAGE_USERAGENT)
    {
      this.masterkey := masterkey;
      this.dbName := dbName;
      this.outputCollections := outputCollections;
      this.upsert := upsert;
      this.rangeIndexed := rangeIndexed;
      this.offerType := offerType;
      writer := null;
      schema := None;
      globals.AppendUserAgent(PIG_STORAGE_USERAGENT);
    }

    /**
     * setStoreLocation: the endpoint, key, database and collections are
     * always set; upsert, the range index (under `rangeIndexKey`) and the
     * offer type only when given.
     */
    method SetStoreLocation(location: string, conf: Configuration, rangeIndexKey: string)
      modifies conf
      ensures var s0 := old(conf.settings)[DB_HOST := location][DB_KEY := masterkey][DB_NAME := dbName]
                                         [OUTPUT_COLLECTION_NAMES := outputCollections];
              var s1 := if upsert.Some? then s0[UPSERT := upsert.value] else s0;
              var s2 := if rangeIndexed.Some? then s1[rangeIndexKey := rangeIndexed.value] else s1;
              var s3 := if offerType.Some? then s2[OUTPUT_COLLECTIONS_OFFER := offerType.value] else s2;
              conf.settings == s3[USER_CLASSPATH_FIRST := "true"]
    {
      conf.Set(DB_HOST, location);
      conf.Set(DB_KEY, masterkey);
      conf.Set(DB_NAME, dbName);
      conf.Set(OUTPUT_COLLECTION_NAMES, outputCollections);
      if upsert.Some? {
        conf.Set(UPSERT, upsert.value);
      }
      if rangeIndexed.Some? {
        conf.Set(rangeIndexKey, rangeIndexed.value);
      }
      if offerType.Some? {
        conf.Set(OUTPUT_COLLECTIONS_OFFER, offerType.value);
      }
      conf.SetBoolean(USER_CLASSPATH_FIRST, true);
    }

    /** checkSchema: keeps the schema and records its text form in the UDF properties. */
    method CheckSchema(schema: seq<string>, text: string, udfProperties: PropertyMap)
      modifies this, udfProperties
      ensures this.schema == Some(schema) && writer == old(writer)
      ensures udfProperties.entries == old(udfProperties.entries)[PIG_OUTPUT_SCHEMA_UDF_CONTEXT := text]
    {
      this.schema := Some(schema);
      udfProperties.Put(PIG_OUTPUT_SCHEMA_UDF_CONTEXT, text);
    }

    /**
     * prepareToWrite: keeps the writer, then needs the schema text in the
     * UDF properties (IOException without it). A text the parser refuses is
     * only logged, leaving the schema as it was.
     */
    method PrepareToWrite(writer: DocumentDBRecordWriter, udfProperties: map<string, string>, parse: string -> Option<seq<string>>)
      returns (r: Outcome<Error>)
      modifies this
      ensures this.writer == writer
      ensures PIG_OUTPUT_SCHEMA_UDF_CONTEXT !in udfProperties ==>
                r == Fail(IOError("Could not find schema in UDF context", None)) && schema == old(schema)
      ensures PIG_OUTPUT_SCHEMA_UDF_CONTEXT in udfProperties ==> r == Pass
      ensures PIG_OUTPUT_SCHEMA_UDF_CONTEXT in udfProperties ==>
                var parsed := parse(udfProperties[PIG_OUTPUT_SCHEMA_UDF_CONTEXT]);
                schema == if parsed.Some? then parsed else old(schema)
    {
      this.writer := writer;
      if PIG_OUTPUT_SCHEMA_UDF_CONTEXT !in udfProperties {
        return Fail(IOError("Could not find schema in UDF context", None));
      }
      var parsed := parse(udfProperties[PIG_OUTPUT_SCHEMA_UDF_CONTEXT]);
      if parsed.Some? {
        schema := parsed;
      }
      r := Pass;
    }

    /**
     * putNext: builds one document from the tuple and hands it to the
     * writer, whose write backfills its id. Without a writer the call
     * dereferences null.
     */
    method PutNext(t: seq<Value>, freshId: string, toText: Document -> string, responses: seq<Remote<string>>)
      returns (r: Result<WriteStatus, Error>, doc: Document)
      requires writer != null ==> writer.Valid()
      modifies writer
      ensures writer != null ==> writer.Valid()
      ensures schema.None? && HasNull(t) ==> r == Err(NullPointer)
      ensures schema.None? && !HasNull(t) ==> doc.props == DynamicProps(t).0
      ensures schema.Some? && |schema.value| <= |t| ==> doc.props == SchemaProps(schema.value, t)
      ensures schema.Some? && |schema.value| > |t| ==> r == Err(IndexOutOfBounds)
      ensures (if schema.None? then !HasNull(t) else |schema.value| <= |t|) && writer == null ==> r == Err(NullPointer)
      ensures (if schema.None? then !HasNull(t) else |schema.value| <= |t|) && writer != null ==>
                r.Ok? && writer.written == old(writer.written) + [AddIdIfMissing(doc, freshId)]
      ensures r.Err? && writer != null ==> writer.written == old(writer.written) && writer.batches == old(writer.batches)
      ensures r.Ok? && writer != null && writer.documentsProcessed % writer.maxDocSize != 0 ==> r.value == Completed
      ensures r.Ok? && writer != null && writer.documentsProcessed % writer.maxDocSize == 0 ==>
                r.value == writer.FlushStatus(old(writer.cachedDocs) + [AddIdIfMissing(doc, freshId)], toText, responses)
    {
      if schema.None? {
        var built := DynamicDocument(t);
        if built.Err? {
          doc := EmptyDocument;
          return Err(built.error), doc;
        }
        doc := built.value;
      } else {
        var built := SchemaDocument(schema.value, t);
        if built.Err? {
          doc := EmptyDocument;
          return Err(built.error), doc;
        }
        doc := built.value;
      }
      if writer == null {
        return Err(NullPointer), doc;
      }
      var status := writer.Write(doc, freshId, toText, responses);
      r := Ok(status);
    }
  }
}
