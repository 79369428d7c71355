/**
 * The Hive DocumentDBStorageHandler: how a table's properties reach the job.
 * A table's Properties object is a string-to-string map (a Hashtable, which
 * holds no null values).
 */
module HiveStorageHandler {
  import opened ConfigurationUtil

  /** The key whose empty value trips Hive 0.13's custom-serde handling. */
  const COLUMNS_COMMENTS := "columns.comments"

  /** A table property the input and output configuration pass on: non-empty and not the column comments. */
  predicate Forwarded(key: string, value: string) {
    value != "" && key != COLUMNS_COMMENTS
  }

  /**
   * The job properties after forwarding the entries of `table` whose keys
   * are in `keys`: a forwarded entry overwrites, everything else in `job`
   * stays.
   */
  function ForwardKeys(table: map<string, string>, keys: set<string>, job: map<string, string>): (r: map<string, string>)
    requires keys <= table.Keys
    ensures forall k :: k in r <==> k in job || (k in keys && Forwarded(k, table[k]))
    ensures forall k | k in keys && Forwarded(k, table[k]) :: r[k] == table[k]
    ensures forall k | k in job && !(k in keys && Forwarded(k, table[k])) :: r[k] == job[k]
  {
    map k | k in job.Keys + (set k | k in keys && Forwarded(k, table[k])) ::
      if k in keys && Forwarded(k, table[k]) then table[k] else job[k]
  }

  /** Forwarding one more key is one more put, or nothing. */
  lemma ForwardOneMore(table: map<string, string>, keys: set<string>, key: string, job: map<string, string>)
    requires keys <= table.Keys && key in table && key !in keys
    ensures ForwardKeys(table, keys + {key}, job) ==
              var before := ForwardKeys(table, keys, job);
              if Forwarded(key, table[key]) then before[key := table[key]] else before
  {
    var before := ForwardKeys(table, keys, job);
    var after := ForwardKeys(table, keys + {key}, job);
    var expected := if Forwarded(key, table[key]) then before[key := table[key]] else before;
    assert after.Keys == expected.Keys;
    assert forall k | k in after :: after[k] == expected[k];
  }

  /**
   * The loop shared by configureInputJobProperties and
   * configureOutputJobProperties, over the table properties in any order.
   */
  method ForwardTableProperties(table: map<string, string>, job: PropertyMap)
    modifies job
    ensures job.entries == ForwardKeys(table, table.Keys, old(job.entries))
  {
    var remaining := table.Keys;
    ghost var visited: set<string> := {};
    while remaining != {}
      invariant remaining + visited == table.Keys && remaining !! visited
      invariant job.entries == ForwardKeys(table, visited, old(job.entries))
      decreases remaining
    {
      var key :| key in remaining;
      var value := table[key];
      ForwardOneMore(table, visited, key, old(job.entries));
      if value != "" && key != COLUMNS_COMMENTS {
        job.Put(key, value);
      }
      remaining := remaining - {key};
      visited := visited + {key};
    }
  }

  /** configureInputJobProperties: every non-empty table property except the column comments is put into the job properties. */
  method ConfigureInputJobProperties(table: map<string, string>, job: PropertyMap)
    modifies job
    ensures forall k :: k in job.entries <==> k in old(job.entries) || (k in table && Forwarded(k, table[k]))
    ensures forall k | k in table && Forwarded(k, table[k]) :: job.entries[k] == table[k]
    ensures forall k | k in old(job.entries) && !(k in table && Forwarded(k, table[k])) :: job.entries[k] == old(job.entries)[k]
  {
    ForwardTableProperties(table, job);
  }

  /** configureOutputJobProperties: the same filter as for input. */
  method ConfigureOutputJobProperties(table: map<string, string>, job: PropertyMap)
    modifies job
    ensures job.entries == ForwardKeys(table, table.Keys, old(job.entries))
  {
    ForwardTableProperties(table, job);
  }

  /** configureTableJobProperties: the connector's own properties, through copyDocumentDBProperties. */
  method ConfigureTableJobProperties(table: map<string, string>, job: PropertyMap)
    modifies job
    ensures job.entries == CopyKeys(ALL_PROPERTIES, table, old(job.entries))
  {
    CopyDocumentDBProperties(table, job);
  }

  /** Running the forwarding twice adds nothing: the filter is idempotent. */
  lemma ForwardIdempotent(table: map<string, string>, job: map<string, string>)
    ensures var once := ForwardKeys(table, table.Keys, job);
            ForwardKeys(table, table.Keys, once) == once
  {
    var once := ForwardKeys(table, table.Keys, job);
    var twice := ForwardKeys(table, table.Keys, once);
    assert twice.Keys == once.Keys;
  }
}
