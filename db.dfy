/**
 * The database connection manager of the main process: picks the connection
 * string from the environment, builds the `pg` pool lazily and once, closes
 * it on shutdown, and pings the server with a scoped client checkout.
 *
 * The `pg` pool constructor is abstracted: a pool is an opaque handle whose
 * id is the value of the construction counter when it was built, so every
 * construction yields an id no earlier pool carried.
 */
module Db {
  import opened Wrappers

  /** Upper bound on concurrently checked-out clients the pool is built with. */
  const MaxConnections: nat := 5
  /** Idle time after which the pool evicts a client, in milliseconds. */
  const IdleTimeoutMillis: nat := 30000
  /** The message of the error thrown when no connection string is configured. */
  const NotConfiguredMessage: string :=
    "DATABASE_URL is not set. Provide a Postgres connection string to enable database access."

  /** JavaScript truthiness of an environment variable: unset and "" are both falsy. */
  predicate IsSet(v: Option<string>) {
    v.Some? && v.value != ""
  }

  /**
   * The value of a chain `a || b || c` reduced to "is it usable": the first
   * truthy candidate, or nothing when every candidate is unset or empty.
   */
  function FirstSet(candidates: seq<Option<string>>): (r: Option<string>)
    ensures r.None? <==> forall i :: 0 <= i < |candidates| ==> !IsSet(candidates[i])
    ensures r.Some? ==>
      r.value != "" &&
      exists i :: 0 <= i < |candidates| && candidates[i] == r &&
        forall j :: 0 <= j < i ==> !IsSet(candidates[j])
  {
    if candidates == [] then None
    else if IsSet(candidates[0]) then candidates[0]
    else
      var rest := FirstSet(candidates[1..]);
      assert forall i :: 1 <= i < |candidates| ==> candidates[i] == candidates[1..][i - 1];
      rest
  }

  /**
   * The connection string read once at module load: DATABASE_URL, then
   * POSTGRES_URL, then POSTGRES_CONNECTION_STRING, an empty value counting as unset.
   */
  function SelectConnectionString(
    databaseUrl: Option<string>,
    postgresUrl: Option<string>,
    postgresConnectionString: Option<string>): (r: Option<string>)
    ensures r.None? <==> !IsSet(databaseUrl) && !IsSet(postgresUrl) && !IsSet(postgresConnectionString)
    ensures IsSet(databaseUrl) ==> r == databaseUrl
    ensures !IsSet(databaseUrl) && IsSet(postgresUrl) ==> r == postgresUrl
    ensures !IsSet(databaseUrl) && !IsSet(postgresUrl) && IsSet(postgresConnectionString) ==>
      r == postgresConnectionString
  {
    var candidates := [databaseUrl, postgresUrl, postgresConnectionString];
    assert candidates[0] == databaseUrl && candidates[1] == postgresUrl && candidates[2] == postgresConnectionString;
    FirstSet(candidates)
  }

  /** The options object handed to the pool constructor. */
  datatype PoolConfig = PoolConfig(connectionString: string, max: nat, idleTimeoutMillis: nat)

  /** A constructed pool: an opaque identity and the options it was built with. */
  datatype Pool = Pool(id: nat, config: PoolConfig)

  datatype DbError =
    | NotConfigured(message: string)
    | ConnectFailed(message: string)
    | QueryFailed(message: string)
    | EndFailed(message: string)

  /** The first row returned by the ping query, its columns already rendered as text. */
  datatype PingRow = PingRow(now: Option<string>, database: Option<string>)

  /** What the driver does with the ping query once a client is checked out. */
  datatype QueryOutcome = Rows(rows: seq<PingRow>) | Threw(message: string)

  datatype PingResult = PingResult(ok: bool, now: string, database: Option<string>)

  /** The module-level pool handle of the main process and the state around it. */
  class ConnectionManager {
    /** Chosen once, when the module is loaded. */
    const connectionString: Option<string>
    /** The shared pool, or `null` before first use and after `closePool`. */
    var pool: Option<Pool>
    /** How many times the pool constructor has run. */
    var constructed: nat
    /** Ids of the pools that `end()` was called on, in order. */
    var ended: seq<nat>
    /** Clients checked out of a pool so far. */
    var acquired: nat
    /** Clients given back to a pool so far. */
    var released: nat

    ghost predicate Valid()
      reads this
    {
      && (connectionString.Some? ==> connectionString.value != "")
      && (connectionString.None? ==> constructed == 0 && pool.None?)
      && (pool.Some? ==>
            && connectionString.Some?
            && pool.value.id + 1 == constructed
            && pool.value.id !in ended
            && pool.value.config == PoolConfig(connectionString.value, MaxConnections, IdleTimeoutMillis))
      && (forall e :: e in ended ==> e < constructed)
    }

    constructor (
      databaseUrl: Option<string>,
      postgresUrl: Option<string>,
      postgresConnectionString: Option<string>)
      ensures Valid()
      ensures connectionString == SelectConnectionString(databaseUrl, postgresUrl, postgresConnectionString)
      ensures pool.None? && constructed == 0 && ended == [] && acquired == 0 && released == 0
    {
      connectionString := SelectConnectionString(databaseUrl, postgresUrl, postgresConnectionString);
      pool := None;
      constructed := 0;
      ended := [];
      acquired := 0;
      released := 0;
    }

    /**
     * Returns the shared pool, constructing it on first use. Without a
     * connection string it fails every time and never constructs anything.
     */
    method GetPool() returns (r: Result<Pool, DbError>)
      requires Valid()
      modifies this`pool, this`constructed
      ensures Valid()
      ensures connectionString.None? ==>
        r == Failure(NotConfigured(NotConfiguredMessage)) && pool == old(pool) && constructed == old(constructed)
      ensures connectionString.Some? && old(pool).Some? ==>
        r == Success(old(pool).value) && pool == old(pool) && constructed == old(constructed)
      ensures connectionString.Some? && old(pool).None? ==>
        && constructed == old(constructed) + 1
        && r.Success? && pool == Some(r.value)
        && r.value.id == old(constructed)
        && r.value.config == PoolConfig(connectionString.value, MaxConnections, IdleTimeoutMillis)
    {
      if connectionString.None? {
        return Failure(NotConfigured(NotConfiguredMessage));
      }
      if pool.None? {
        pool := Some(Pool(constructed, PoolConfig(connectionString.value, MaxConnections, IdleTimeoutMillis)));
        constructed := constructed + 1;
      }
      r := Success(pool.value);
    }

    /**
     * Ends the live pool and forgets it; without one it does nothing.
     * `endError` is what `pool.end()` does: resolve (`None`) or reject with
     * a message. On a rejection the error propagates and the handle is kept,
     * so the next `getPool` hands out the same pool again.
     */
    method ClosePool(endError: Option<string>) returns (r: Result<(), DbError>)
      requires Valid()
      modifies this`pool, this`ended
      ensures Valid()
      ensures old(pool).None? ==> r.Success? && pool == old(pool) && ended == old(ended)
      ensures old(pool).Some? && endError.None? ==>
        r.Success? && pool.None? && ended == old(ended) + [old(pool).value.id]
      ensures old(pool).Some? && endError.Some? ==>
        r == Failure(EndFailed(endError.value)) && pool == old(pool) && ended == old(ended)
    {
      if pool.Some? {
        if endError.Some? {
          return Failure(EndFailed(endError.value));
        }
        ended := ended + [pool.value.id];
        pool := None;
      }
      r := Success(());
    }

    /**
     * Runs the health-check query on a checked-out client. `connectOk` says
     * whether checkout succeeds, `query` what the query does, and `clock` is
     * the current time used when the row carries no `now`. A checked-out
     * client is released whether the query succeeds or throws.
     */
    method PingDatabase(connectOk: bool, query: QueryOutcome, clock: string) returns (r: Result<PingResult, DbError>)
      requires Valid()
      modifies this`pool, this`constructed, this`acquired, this`released
      ensures Valid()
      ensures acquired - old(acquired) == released - old(released)
      ensures acquired == old(acquired) + (if connectionString.Some? && connectOk then 1 else 0)
      ensures connectionString.None? ==> r == Failure(NotConfigured(NotConfiguredMessage))
      ensures connectionString.None? ==> pool == old(pool) && constructed == old(constructed)
      ensures connectionString.Some? && old(pool).Some? ==> pool == old(pool) && constructed == old(constructed)
      ensures connectionString.Some? && old(pool).None? ==>
        && constructed == old(constructed) + 1
        && pool.Some? && pool.value.id == old(constructed)
        && pool.value.config == PoolConfig(connectionString.value, MaxConnections, IdleTimeoutMillis)
      ensures connectionString.Some? && !connectOk ==> r.Failure? && r.error.ConnectFailed?
      ensures connectionString.Some? && connectOk && query.Threw? ==> r == Failure(QueryFailed(query.message))
      ensures connectionString.Some? && connectOk && query.Rows? ==>
        && r.Success?
        && r.value.ok
        && r.value.database == (if query.rows == [] then None else query.rows[0].database)
        && r.value.now == (if query.rows != [] && query.rows[0].now.Some? then query.rows[0].now.value else clock)
    {
      var p := GetPool();
      if p.Failure? {
        return Failure(p.error);
      }
      if !connectOk {
        return Failure(ConnectFailed("could not check out a client"));
      }
      acquired := acquired + 1;
      match query {
        case Threw(message) =>
          r := Failure(QueryFailed(message));
        case Rows(rows) =>
          var row: Option<PingRow> := if rows == [] then None else Some(rows[0]);
          var now := if row.Some? && row.value.now.Some? then row.value.now.value else clock;
          var database := if row.Some? then row.value.database else None;
          r := Success(PingResult(true, now, database));
      }
      // the `finally` block: the client goes back on both paths
      released := released + 1;
    }
  }

  /**
   * A client of the manager: once the pool is closed, the next request
   * builds a pool that is not the one closed. When closing fails, the next
   * request gets the very pool that failed to end.
   */
  method ReopenAfterClose(m: ConnectionManager, endError: Option<string>) returns (first: Pool, second: Pool)
    requires m.Valid() && m.connectionString.Some?
    modifies m
    ensures m.Valid() && m.pool == Some(second)
    ensures endError.None? ==> first.id in m.ended && second.id != first.id && m.constructed == second.id + 1
    ensures endError.Some? ==> second == first && first.id !in m.ended
  {
    var r := m.GetPool();
    first := r.value;
    var closed := m.ClosePool(endError);
    r := m.GetPool();
    second := r.value;
  }
}
