/** The Redis data store (src/data/redis_store.rs): opening it from a configured
    URL and recording a task execution. The Redis server is external: the outcomes
    of opening the client and the connection, and of each write, are parameters,
    and the database's hashes are a map from key to field to value. */
module RedisStore {
  import opened Common
  import opened ProtoCore
  import opened Messages
  import opened Errors

  /** `redis_url.replace("\"", "")`: every double quote removed. */
  function CleanUrl(url: string): (r: string)
    ensures |r| <= |url|
    ensures forall i :: 0 <= i < |r| ==> r[i] != '"'
    decreases |url|
  {
    if url == [] then []
    else (if url[0] == '"' then [] else [url[0]]) + CleanUrl(url[1..])
  }

  /** A URL without quotes is used as it is. */
  lemma {:induction false} CleanUrlKeepsPlainUrl(url: string)
    requires forall i :: 0 <= i < |url| ==> url[i] != '"'
    ensures CleanUrl(url) == url
    decreases |url|
  {
    if url != [] {
      CleanUrlKeepsPlainUrl(url[1..]);
    }
  }

  /** Cleaning twice is cleaning once. */
  lemma CleanUrlIdempotent(url: string)
    ensures CleanUrl(CleanUrl(url)) == CleanUrl(url)
  {
    CleanUrlKeepsPlainUrl(CleanUrl(url));
  }

  /** Cleaning works piece by piece, so a quoted URL loses just its quotes. */
  lemma {:induction false} CleanUrlConcat(a: string, b: string)
    ensures CleanUrl(a + b) == CleanUrl(a) + CleanUrl(b)
    decreases |a|
  {
    if a != [] {
      assert (a + b)[0] == a[0];
      assert (a + b)[1..] == a[1..] + b;
      CleanUrlConcat(a[1..], b);
      var head := if a[0] == '"' then [] else [a[0]];
      assert CleanUrl(a + b) == head + CleanUrl(a[1..] + b);
      assert CleanUrl(a) == head + CleanUrl(a[1..]);
    } else {
      assert a + b == b;
    }
  }

  /** A URL written in quotes comes out without them. */
  lemma QuotedUrl(url: string)
    requires forall i :: 0 <= i < |url| ==> url[i] != '"'
    ensures CleanUrl("\"" + url + "\"") == url
  {
    var quote := "\"";
    assert CleanUrl(quote) == [] by {
      assert quote[1..] == [];
    }
    CleanUrlConcat(quote, url);
    CleanUrlConcat(quote + url, quote);
    CleanUrlKeepsPlainUrl(url);
    assert CleanUrl(quote + url) == url;
  }

  /** An open connection, to the cleaned host. */
  datatype Connection = Connection(host: string)

  /** `RedisDataStore::new`'s checks. `client` is what `Client::open` gave for the
      cleaned host (its error rendered with `{:?}`), `connect` whether the
      connection was made. */
  function Open(url: string, client: string -> Result<(), string>, connect: string -> bool): (r: Result<Connection, SchedulerError>)
    ensures r.Ok? <==> client(CleanUrl(url)).Ok? && connect(CleanUrl(url))
    ensures r.Ok? ==> r.value.host == CleanUrl(url)
    ensures r.Err? ==> r.error.DataLayerError?
  {
    var host := CleanUrl(url);
    match client(host)
    case Err(e) => Err(DataLayerError("Error when calling redis host: " + host + " " + e))
    case Ok(_) =>
      if connect(host) then Ok(Connection(host))
      else Err(DataLayerError("Unable to connect to redis host: " + host))
  }

  /** The client and the connection only ever see the cleaned URL. */
  lemma OpenUsesCleanUrl(url: string, client: string -> Result<(), string>, connect: string -> bool)
    ensures Open(url, client, connect).Ok? <==> client(CleanUrl(url)).Ok? && connect(CleanUrl(url))
    ensures Open(url, client, connect).Ok? ==> Open(url, client, connect).value.host == CleanUrl(url)
    ensures Open(url, client, connect).Err? ==> Open(url, client, connect).error.DataLayerError?
    ensures Open(CleanUrl(url), client, connect) == Open(url, client, connect)
  {
    CleanUrlIdempotent(url);
  }

  /** The key a task's executions are stored under: the prefix "task:", then the id. */
  function TaskKey(id: string): (r: string)
    ensures |r| == |id| + 5 && r[..5] == "task:" && r[5..] == id
  {
    "task:" + id
  }

  /** Different task ids never share a key. */
  lemma TaskKeyInjective(a: string, b: string)
    requires TaskKey(a) == TaskKey(b)
    ensures a == b
  {
    assert a == TaskKey(a)[5..];
    assert b == TaskKey(b)[5..];
  }

  const EXECUTION_FIELD := "execution"

  /** The validation chain of `add_task_execution`: the key to write and the value
      to store, or why there is nothing to write. */
  function ExecutionEntry(execute: ExecuteRequest): (r: Result<(string, Any), SchedulerError>)
    ensures r.Ok? <==> execute.task.Some? && execute.task.value.payload.Some?
    ensures r.Err? ==> r.error.DataLayerError?
    ensures r.Ok? ==> r.value.0 == TaskKey(execute.task.value.id) && r.value.1 == execute.task.value.payload.value
  {
    match execute.task
    case None => Err(DataLayerError("Task is missing in ExecuteRequest"))
    case Some(task) =>
      match task.payload
      case None => Err(DataLayerError("Payload is missing in Task"))
      case Some(payload) => Ok((TaskKey(task.id), Any(payload.typeUrl, payload.value)))
  }

  /** The task is checked before its payload; a valid request is stored under
      "task:" and its id, with the payload's type URL and bytes unchanged. */
  lemma ExecutionEntryChecks(execute: ExecuteRequest)
    ensures execute.task.None? ==> ExecutionEntry(execute) == Err(DataLayerError("Task is missing in ExecuteRequest"))
    ensures execute.task.Some? && execute.task.value.payload.None? ==>
      ExecutionEntry(execute) == Err(DataLayerError("Payload is missing in Task"))
    ensures ExecutionEntry(execute).Ok? <==> execute.task.Some? && execute.task.value.payload.Some?
    ensures ExecutionEntry(execute).Ok? ==>
      && ExecutionEntry(execute).value.0 == "task:" + execute.task.value.id
      && ExecutionEntry(execute).value.1.typeUrl == execute.task.value.payload.value.typeUrl
      && ExecutionEntry(execute).value.1.value == execute.task.value.payload.value.value
  {
  }

  /** `HSET key field value` on the database's hashes. */
  function HSet(hashes: map<string, map<string, Any>>, key: string, field: string, value: Any): (r: map<string, map<string, Any>>)
    ensures r.Keys == hashes.Keys + {key}
    ensures field in r[key] && r[key][field] == value
    ensures key in hashes ==> r[key].Keys == hashes[key].Keys + {field}
  {
    hashes[key := (if key in hashes then hashes[key] else map[])[field := value]]
  }

  /** A write sets one field of one hash and nothing else. */
  lemma HSetChangesOneField(hashes: map<string, map<string, Any>>, key: string, field: string, value: Any, otherKey: string, otherField: string)
    ensures key in HSet(hashes, key, field, value) && field in HSet(hashes, key, field, value)[key]
    ensures HSet(hashes, key, field, value)[key][field] == value
    ensures otherField != field && key in hashes && otherField in hashes[key] ==>
      otherField in HSet(hashes, key, field, value)[key] && HSet(hashes, key, field, value)[key][otherField] == hashes[key][otherField]
    ensures otherKey != key ==> (otherKey in HSet(hashes, key, field, value) <==> otherKey in hashes)
    ensures otherKey != key && otherKey in hashes ==> HSet(hashes, key, field, value)[otherKey] == hashes[otherKey]
  {
  }

  class RedisDataStore {
    const connection: Connection
    /** The hashes stored in the database. */
    var hashes: map<string, map<string, Any>>

    constructor (connection: Connection, hashes: map<string, map<string, Any>>)
      ensures this.connection == connection && this.hashes == hashes
    {
      this.connection := connection;
      this.hashes := hashes;
    }

    /** `add_task_execution`; `written` is whether Redis accepted the write. */
    method AddTaskExecution(execute: ExecuteRequest, written: bool) returns (r: Result<(), SchedulerError>)
      modifies this`hashes
      ensures ExecutionEntry(execute).Err? ==> r == Err(ExecutionEntry(execute).error) && hashes == old(hashes)
      ensures ExecutionEntry(execute).Ok? && !written ==>
        r == Err(DataLayerError("Failed to add task execution")) && hashes == old(hashes)
      ensures ExecutionEntry(execute).Ok? && written ==>
        r == Ok(()) && hashes == HSet(old(hashes), ExecutionEntry(execute).value.0, EXECUTION_FIELD, ExecutionEntry(execute).value.1)
    {
      if execute.task.None? {
        return Err(DataLayerError("Task is missing in ExecuteRequest"));
      }
      var task := execute.task.value;
      if task.payload.None? {
        return Err(DataLayerError("Payload is missing in Task"));
      }
      var payload := task.payload.value;
      var key := "task:" + task.id;
      var value := Any(payload.typeUrl, payload.value);
      if !written {
        return Err(DataLayerError("Failed to add task execution"));
      }
      hashes := HSet(hashes, key, EXECUTION_FIELD, value);
      r := Ok(());
    }
  }

  /** `RedisDataStore::new`: open the store, its database holding `existing`. */
  method NewRedisDataStore(url: string, client: string -> Result<(), string>, connect: string -> bool,
                           existing: map<string, map<string, Any>>) returns (r: Result<RedisDataStore, SchedulerError>)
    ensures Open(url, client, connect).Err? ==> r == Err(Open(url, client, connect).error)
    ensures Open(url, client, connect).Ok? ==>
      r.Ok? && fresh(r.value) && r.value.connection == Open(url, client, connect).value && r.value.hashes == existing
  {
    match Open(url, client, connect)
    case Err(e) =>
      r := Err(e);
    case Ok(connection) =>
      var store := new RedisDataStore(connection, existing);
      r := Ok(store);
  }
}
