/** The per-thread cache of claim-query texts. */
module QueryCache {
  import opened Wrappers
  import opened FlagFilter
  import opened Identifier

  const CAPACITY: nat := 128

  /** One fetch: the caller's raw schema name and everything it wants bound. */
  datatype Call = Call(
    schema: string, filter: Filter, worker: string, tasks: seq<int>, limit: Option<int>, now: Option<int>)

  /** What the cache is keyed by: the schema as escaped, never a bound value. */
  datatype Key = Key(schema: string, shape: Shape, localTime: bool, batch: bool)

  /** What varies in the text of a claim query: its tables and its ordinals. */
  datatype ClaimQuery = ClaimQuery(
    jobs: string, queues: string, worker: nat, tasks: nat, limit: Option<nat>, clause: seq<Sql>, now: Option<nat>)

  function KeyOf(call: Call, keywords: set<string>): Key {
    Key(Escaped(call.schema, keywords), ShapeOf(call.filter), call.now.Some?, call.limit.Some?)
  }

  /** The ordinal of the first flag array: worker, tasks and perhaps a limit precede it. */
  function FirstOrdinal(call: Call): nat { if call.limit.Some? then 4 else 3 }

  function PrivateTable(schema: string, table: string, keywords: set<string>): string {
    Qualified(schema, "_private_" + table, keywords)
  }

  /** The text that this very call would construct. */
  function Built(call: Call, keywords: set<string>): ClaimQuery {
    var first := FirstOrdinal(call);
    ClaimQuery(
      PrivateTable(call.schema, "jobs", keywords),
      PrivateTable(call.schema, "job_queues", keywords),
      1, 2, if call.limit.Some? then Some(3) else None,
      ClauseOf(ShapeOf(call.filter), first),
      if call.now.Some? then Some(first + ParameterCount(call.filter)) else None)
  }

  /** The cache after a call. */
  function After(queries: map<Key, ClaimQuery>, call: Call, keywords: set<string>): map<Key, ClaimQuery> {
    var key := KeyOf(call, keywords);
    if key in queries then queries
    else (if |queries| == CAPACITY then map[] else queries)[key := Built(call, keywords)]
  }

  /** The text a call is answered with. */
  function Answer(queries: map<Key, ClaimQuery>, call: Call, keywords: set<string>): ClaimQuery {
    var key := KeyOf(call, keywords);
    if key in queries then queries[key] else Built(call, keywords)
  }

  /** The cache of a thread that has served `calls`, oldest first. */
  function Served(calls: seq<Call>, keywords: set<string>): map<Key, ClaimQuery> {
    if calls == [] then map[] else After(Served(calls[..|calls| - 1], keywords), calls[|calls| - 1], keywords)
  }

  /** Every entry is what some caller with that key would construct. */
  ghost predicate Sound(queries: map<Key, ClaimQuery>, keywords: set<string>) {
    && |queries| <= CAPACITY
    && (forall key <- queries :: exists call ::
          KeyOf(call, keywords) == key && queries[key] == Built(call, keywords))
  }

  /** `Schema::private_table`. */
  method QualifiedTable(schema: string, table: string, keywords: set<string>) returns (name: string)
    ensures name == PrivateTable(schema, table, keywords)
  {
    var left := EscapeIdentifier(schema, keywords);
    var right := EscapeIdentifier("_private_" + table, keywords);
    name := left + "." + right;
  }

  /** The closures of the two claim functions. */
  method Construct(call: Call, keywords: set<string>) returns (query: ClaimQuery)
    ensures query == Built(call, keywords)
  {
    var first := if call.limit.Some? then 4 else 3;
    var clause := Clause(call.filter, first);
    var jobs := QualifiedTable(call.schema, "jobs", keywords);
    var queues := QualifiedTable(call.schema, "job_queues", keywords);
    query := ClaimQuery(
      jobs, queues,
      1, 2, if call.limit.Some? then Some(3) else None,
      clause,
      if call.now.Some? then Some(first + ParameterCount(call.filter)) else None);
  }

  class Cache {
    var queries: map<Key, ClaimQuery>
    const keywords: set<string>

    ghost predicate Valid()
      reads this
    {
      Sound(queries, keywords)
    }

    constructor (keywords: set<string>)
      ensures Valid() && queries == map[] && this.keywords == keywords
    {
      this.keywords := keywords;
      queries := map[];
    }

    /** `fetch_query`. */
    method FetchQuery(call: Call) returns (query: ClaimQuery)
      requires Valid()
      modifies this
      ensures Valid()
      ensures queries == After(old(queries), call, keywords)
      ensures query == Answer(old(queries), call, keywords) == Built(call, keywords)
    {
      AfterSound(queries, call, keywords);
      var schema := EscapeIdentifier(call.schema, keywords);
      var key := Key(schema, ShapeOf(call.filter), call.now.Some?, call.limit.Some?);
      if key in queries {
        return queries[key];
      }
      query := Construct(call, keywords);
      if |queries| == CAPACITY {
        queries := map[];
      }
      queries := queries[key := query];
    }
  }

  /** Calls with one key construct one text, although their filters, limits and clocks
      differ; and they name the same schema. */
  lemma KeyDecidesText(a: Call, b: Call, keywords: set<string>)
    requires KeyOf(a, keywords) == KeyOf(b, keywords)
    ensures a.schema == b.schema
    ensures Built(a, keywords) == Built(b, keywords)
  {
    EscapedInjective(a.schema, b.schema, keywords);
  }

  lemma AfterSound(queries: map<Key, ClaimQuery>, call: Call, keywords: set<string>)
    requires Sound(queries, keywords)
    ensures Sound(After(queries, call, keywords), keywords)
    ensures Answer(queries, call, keywords) == Built(call, keywords)
  {
    var key := KeyOf(call, keywords);
    if key in queries {
      var other :| KeyOf(other, keywords) == key && queries[key] == Built(other, keywords);
      KeyDecidesText(call, other, keywords);
    } else {
      var kept: map<Key, ClaimQuery> := if |queries| == CAPACITY then map[] else queries;
      var after := After(queries, call, keywords);
      assert after == kept[key := Built(call, keywords)];
      assert |after| == |kept| + 1;
      forall k | k in after ensures exists c :: KeyOf(c, keywords) == k && after[k] == Built(c, keywords) {
        if k == key { assert KeyOf(call, keywords) == k && after[k] == Built(call, keywords); }
      }
    }
  }

  lemma {:induction false} ServedSound(calls: seq<Call>, keywords: set<string>)
    ensures Sound(Served(calls, keywords), keywords)
  {
    if calls != [] {
      var before := calls[..|calls| - 1];
      ServedSound(before, keywords);
      AfterSound(Served(before, keywords), calls[|calls| - 1], keywords);
    }
  }

  /** PostgreSQL reads the name as the raw schema and then the table. */
  ghost predicate NamesTableOf(name: string, schema: string, table: string, keywords: set<string>) {
    ReadIdentifier(name, keywords) == Some((schema, "." + Escaped("_private_" + table, keywords)))
  }

  /** A private table is one of the caller's schema exactly when PostgreSQL can hold the
      schema's name. */
  lemma PrivateTableExact(schema: string, table: string, keywords: set<string>)
    ensures NamesTableOf(PrivateTable(schema, table, keywords), schema, table, keywords) <==> Readable(schema)
  {
    QualifiedIsSeen(schema, "_private_" + table, keywords);
    ClipExact(schema, MAX_BYTES);
  }

  /** Tenants whose schema names share their first 63 bytes have different cache entries
      and texts, but PostgreSQL reads both as the same tables. */
  lemma LongSchemasShareTables(shared: string, a: string, b: string, table: string, keywords: set<string>)
    requires MAX_BYTES <= ByteLength(shared) && '\0' !in shared + a + b && a != b
    ensures PrivateTable(shared + a, table, keywords) != PrivateTable(shared + b, table, keywords)
    ensures var x := ReadIdentifier(PrivateTable(shared + a, table, keywords), keywords);
            var y := ReadIdentifier(PrivateTable(shared + b, table, keywords), keywords);
            x.Some? && x == y
  {
    QualifiedIsSeen(shared + a, "_private_" + table, keywords);
    QualifiedIsSeen(shared + b, "_private_" + table, keywords);
    ClipIgnores(shared, a, MAX_BYTES);
    ClipIgnores(shared, b, MAX_BYTES);
    DifferentNames(shared + a, shared + b, "_private_" + table, keywords);
    assert (shared + a)[|shared|..] == a && (shared + b)[|shared|..] == b;
    assert shared != [];
  }

  lemma DifferentNames(s: string, t: string, name: string, keywords: set<string>)
    ensures Qualified(s, name, keywords) == Qualified(t, name, keywords) ==> s == t
  {
    var tail := "." + Escaped(name, keywords);
    var a, b := Escaped(s, keywords), Escaped(t, keywords);
    assert Qualified(s, name, keywords) == a + tail && Qualified(t, name, keywords) == b + tail;
    if a + tail == b + tail {
      assert a == (a + tail)[..|a + tail| - |tail|] && b == (b + tail)[..|b + tail| - |tail|];
      EscapedInjective(s, t, keywords);
    }
  }

  /** The n-th parameter, counted from one as PostgreSQL does, is the value. */
  ghost predicate Binds(params: seq<Value>, ordinal: nat, value: Value) {
    1 <= ordinal <= |params| && params[ordinal - 1] == value
  }

  /** The query names the tables of the call's own schema, exactly when PostgreSQL can hold
      that schema's name. Under the call's own parameters it locks rows for the call's own
      worker, takes only the call's own tasks and no more than its limit, keeps exactly the
      rows the call's own filter admits, and dates the claim by the call's own clock. */
  ghost predicate Serves(query: ClaimQuery, call: Call, flags: Option<Json>, keywords: set<string>) {
    var params := ParamsOf(call.worker, call.tasks, call.limit, call.filter, call.now);
    && (NamesTableOf(query.jobs, call.schema, "jobs", keywords) <==> Readable(call.schema))
    && (NamesTableOf(query.queues, call.schema, "job_queues", keywords) <==> Readable(call.schema))
    && !Raises(query.clause, flags, params)
    && (Keeps(query.clause, flags, params) <==> Admits(call.filter, flags))
    && Binds(params, query.worker, Text(call.worker))
    && Binds(params, query.tasks, IntArray(call.tasks))
    && query.limit.Some? == call.limit.Some?
    && (call.limit.Some? ==> Binds(params, query.limit.value, Int(call.limit.value)))
    && query.now.Some? == call.now.Some?
    && (call.now.Some? ==> Binds(params, query.now.value, Timestamp(call.now.value)))
  }

  lemma BuiltServes(call: Call, flags: Option<Json>, keywords: set<string>)
    ensures Serves(Built(call, keywords), call, flags, keywords)
  {
    PrivateTableExact(call.schema, "jobs", keywords);
    PrivateTableExact(call.schema, "job_queues", keywords);
    ClauseMeansAdmits(call.filter, flags, call.worker, call.tasks, call.limit, call.now);
  }

  /** A cached text is as good as a fresh one: whatever a thread has served, the answer
      to the next call serves that call, and the cache stays within its capacity. */
  lemma CachedAnswerServesItsCaller(calls: seq<Call>, call: Call, flags: Option<Json>, keywords: set<string>)
    ensures Serves(Answer(Served(calls, keywords), call, keywords), call, flags, keywords)
    ensures |Served(calls, keywords)| <= CAPACITY
  {
    ServedSound(calls, keywords);
    AfterSound(Served(calls, keywords), call, keywords);
    BuiltServes(call, flags, keywords);
  }
}
