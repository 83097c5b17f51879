/**
 * The plugin's state and entry points: the registry that maps each
 * `comp:metric` key to its storage handle, the get-or-create and close
 * operations on it, and the write path of a handle.
 *
 * The database library is not modelled: each call into it is replaced by
 * the outcome it reports, given as a parameter. Client objects allocated by
 * `mysql_init` are named by numbers; the plugin records which of them have
 * not been released by `mysql_close`.
 */
module StoreMysql {
  import opened Wrappers
  import opened CTypes
  import opened Identifier
  import opened Statements
  import opened DbConfig

  /** `struct mysql_metric_store`: the handle of one identity. */
  class MetricStore<C> {
    const tableName: string
    const cleansedMetricName: string
    const metricKey: string
    /** The caller's context, stored and never looked at. */
    const ucontext: C
    var conn: Option<Conn>

    constructor (tableName: string, cleansedMetricName: string, metricKey: string, conn: Option<Conn>, ucontext: C)
      ensures this.tableName == tableName && this.cleansedMetricName == cleansedMetricName
      ensures this.metricKey == metricKey && this.conn == conn && this.ucontext == ucontext
    {
      this.tableName := tableName;
      this.cleansedMetricName := cleansedMetricName;
      this.metricKey := metricKey;
      this.conn := conn;
      this.ucontext := ucontext;
    }
  }

  /** The outcome of one statement: the return code and the statement sent, if any. */
  datatype QueryOutcome = QueryOutcome(rc: int, query: Option<string>)

  /**
   * `createTable`, given the code `mysql_query` returns. Without a connection
   * it fails with EPERM and sends nothing; otherwise it sends the conditional
   * `CREATE TABLE` for exactly `tableName` and reports -1 if the server refused it.
   */
  function CreateTable(conn: Option<Conn>, tableName: string, queryRc: int): (r: QueryOutcome)
    ensures conn.None? ==> r == QueryOutcome(EPERM, None)
    ensures conn.Some? ==> r.query == Some(CreateTableStatement(tableName))
    ensures conn.Some? ==> (r.rc == 0 <==> queryRc == 0) && (r.rc == 0 || r.rc == -1)
    ensures conn.Some? && ' ' !in tableName ==> ParseCreate(r.query.value) == Some(tableName)
  {
    if conn.None? then QueryOutcome(EPERM, None)
    else
      var q := CreateTableStatement(tableName);
      assert ' ' !in tableName ==> ParseCreate(q) == Some(tableName) by {
        if ' ' !in tableName { CreateTableRoundTrip(tableName); }
      }
      QueryOutcome(if queryRc != 0 then -1 else 0, Some(q))
  }

  /**
   * `store`, given the value read from the metric, the level drawn for the
   * row and the code `mysql_query` returns. A NULL handle is EINVAL and a
   * handle without a connection is EPERM, both without a statement; otherwise
   * one `INSERT` is sent whose row carries the handle's table, `(int)comp_id`,
   * the value, `(int)tv.tv_sec` and the level.
   */
  function Store<C>(ms: MetricStore?<C>, compId: uint32, tv: TimeVal, value: uint64, level: int64, queryRc: int): (r: QueryOutcome)
    reads ms
    ensures ms == null ==> r == QueryOutcome(EINVAL, None)
    ensures ms != null && ms.conn.None? ==> r == QueryOutcome(EPERM, None)
    ensures ms != null && ms.conn.Some? ==>
      && r.query == Some(InsertStatement(ms.tableName, compId, tv, value, level))
      && (r.rc == 0 <==> queryRc == 0) && (r.rc == 0 || r.rc == -1)
    ensures ms != null && ms.conn.Some? && ' ' !in ms.tableName ==>
      ParseInsert(r.query.value) == Some(InsertRow(ms.tableName, ToInt32(compId), value, ToInt32(tv.sec), level))
  {
    if ms == null then QueryOutcome(EINVAL, None)
    else if ms.conn.None? then QueryOutcome(EPERM, None)
    else
      var q := InsertStatement(ms.tableName, compId, tv, value, level);
      assert ' ' !in ms.tableName ==>
        ParseInsert(q) == Some(InsertRow(ms.tableName, ToInt32(compId), value, ToInt32(tv.sec), level)) by {
        if ' ' !in ms.tableName { InsertRoundTrip(ms.tableName, compId, tv, value, level); }
      }
      QueryOutcome(if queryRc != 0 then -1 else 0, Some(q))
  }

  /** `flush_store`: writes are not buffered, so there is nothing to flush. */
  function FlushStore<C>(ms: MetricStore?<C>): (rc: int)
    ensures rc == 0
  {
    0
  }

  /** `get_ucontext`: the context the handle was created with. */
  function GetUcontext<C>(ms: MetricStore<C>): (c: C)
    ensures c == ms.ucontext
  {
    ms.ucontext
  }

  /**
   * The plugin's process-wide state: the connection parameters, the metric
   * index, and the client objects of the database library still allocated.
   */
  class MysqlStorePlugin<C> {
    var dbHost: Option<string>
    var dbSchema: Option<string>
    var dbUser: Option<string>
    var dbPasswd: Option<string>
    var metricIdx: map<string, MetricStore<C>>
    /** Client objects allocated by `mysql_init` and not yet passed to `mysql_close`. */
    var liveClients: set<nat>
    /** The name the next allocated client object gets. */
    var nextClient: nat

    /**
     * Every handle in the index is filed under its own key, holds an open
     * connection of its own, and names a table made only of letters, digits and `_`.
     */
    ghost predicate Valid()
      reads this, metricIdx.Values
    {
      && (forall k :: k in metricIdx ==> metricIdx[k].metricKey == k)
      && (forall k :: k in metricIdx ==> IsIdent(metricIdx[k].tableName))
      && (forall k :: k in metricIdx ==> metricIdx[k].conn.Some? && metricIdx[k].conn.value.client < nextClient)
      && (forall k1, k2 :: k1 in metricIdx && k2 in metricIdx && k1 != k2 ==>
            metricIdx[k1].conn.value.client != metricIdx[k2].conn.value.client)
    }

    function Params(): DbParams
      reads this
    {
      DbParams(dbHost, dbSchema, dbUser, dbPasswd)
    }

    /** The state at load time: no parameters, an empty index, no client objects. */
    constructor ()
      ensures Valid()
      ensures Params() == Unset && metricIdx == map[] && liveClients == {} && nextClient == 0
    {
      dbHost, dbSchema, dbUser, dbPasswd := None, None, None, None;
      metricIdx := map[];
      liveClients := {};
      nextClient := 0;
    }

    /** `config`: replaces the parameters field by field, as `Configure` describes. */
    method Config(avl: map<string, string>) returns (rc: int)
      requires Valid()
      modifies this`dbHost, this`dbSchema, this`dbUser, this`dbPasswd
      ensures Valid()
      ensures ConfigOutcome(rc, Params()) == Configure(old(Params()), avl)
    {
      if HostKey !in avl {
        return EINVAL;
      }
      dbHost := Some(avl[HostKey]);
      if SchemaKey !in avl {
        return EINVAL;
      }
      dbSchema := Some(avl[SchemaKey]);
      if UserKey !in avl {
        return EINVAL;
      }
      dbUser := Some(avl[UserKey]);
      if PasswdKey in avl {
        dbPasswd := Some(avl[PasswdKey]);
      }
      return 0;
    }

    /** `get_store`: looks the identity up and never adds or removes an entry. */
    function GetStore(comp: string, metric: string): (ms: MetricStore?<C>)
      reads this
      ensures ms != null <==> MetricKey(comp, metric) in metricIdx
      ensures ms != null ==> ms == metricIdx[MetricKey(comp, metric)]
    {
      var key := MetricKey(comp, metric);
      if key in metricIdx then metricIdx[key] else null
    }

    /** The handle is the one filed under its own key. */
    predicate Filed(ms: MetricStore?<C>)
      reads this
    {
      ms != null && ms.metricKey in metricIdx && metricIdx[ms.metricKey] == ms
    }

    /**
     * `new_store`: returns the handle already filed under the identity's key,
     * ignoring `ucontext` and sending nothing; otherwise builds a handle, opens
     * its connection, sends the `CREATE TABLE` (`created`) only once the
     * connection is open, and files the handle only if both succeed. On failure
     * nothing is filed and no handle is returned; a client object allocated
     * before the failure is not released.
     */
    method NewStore(comp: string, metric: string, ucontext: C, initOk: bool, connectOk: bool, createRc: int)
      returns (ms: MetricStore?<C>, created: Option<string>)
      requires Valid() && Evaluable(Params())
      modifies this`metricIdx, this`liveClients, this`nextClient
      ensures Valid()
      ensures MetricKey(comp, metric) in old(metricIdx) ==>
        && ms == old(metricIdx)[MetricKey(comp, metric)]
        && metricIdx == old(metricIdx) && liveClients == old(liveClients) && nextClient == old(nextClient)
        && created == None
      ensures MetricKey(comp, metric) !in old(metricIdx) ==>
        var c := InitConn(Params(), old(nextClient), initOk, connectOk);
        var t := CreateTable(c.conn, TableName(comp, metric), createRc);
        && (ms != null <==> c.rc == 0 && t.rc == 0)
        && created == (if c.rc == 0 then Some(CreateTableStatement(TableName(comp, metric))) else None)
        && (ms != null ==>
              && fresh(ms) && metricIdx == old(metricIdx)[MetricKey(comp, metric) := ms]
              && ms.tableName == TableName(comp, metric) && ms.cleansedMetricName == Sanitize(metric)
              && ms.metricKey == MetricKey(comp, metric) && ms.ucontext == ucontext && ms.conn == c.conn)
        && (ms == null ==> metricIdx == old(metricIdx))
        && (c.conn.Some? ==> liveClients == old(liveClients) + {old(nextClient)} && nextClient == old(nextClient) + 1)
        && (c.conn.None? ==> liveClients == old(liveClients) && nextClient == old(nextClient))
    {
      var key := MetricKey(comp, metric);
      if key in metricIdx {
        ms, created := metricIdx[key], None;
        return;
      }
      var cleansedMetricName := Cleanse(metric);
      var tempMetricName := Capitalize(cleansedMetricName);
      var cleansedCompName := Cleanse(comp);
      cleansedCompName := Capitalize(cleansedCompName);
      var tableName := TablePrefix + cleansedCompName + tempMetricName + TableSuffix;
      assert tableName == TableName(comp, metric);

      var c := InitConn(Params(), nextClient, initOk, connectOk);
      if c.conn.Some? {
        liveClients := liveClients + {nextClient};
        nextClient := nextClient + 1;
      }
      if c.rc != 0 {
        return null, None;
      }
      var t := CreateTable(c.conn, tableName, createRc);
      created := t.query;
      if t.rc != 0 {
        return null, created;
      }
      ms := new MetricStore(tableName, cleansedMetricName, key, c.conn, ucontext);
      metricIdx := metricIdx[key := ms];
    }

    /**
     * `close_store`: removes the handle's key from the index, closes its
     * connection and leaves it without one. A NULL handle, and a handle that
     * is no longer the one filed under its key (one closed before), change
     * nothing.
     */
    method Close(ms: MetricStore?<C>)
      requires Valid()
      modifies this`metricIdx, this`liveClients, ms
      ensures Valid()
      ensures !old(Filed(ms)) ==>
        && metricIdx == old(metricIdx) && liveClients == old(liveClients)
        && (ms != null ==> ms.conn == old(ms.conn))
      ensures old(Filed(ms)) ==>
        && metricIdx == old(metricIdx) - {ms.metricKey}
        && ms.conn.None?
        && liveClients == old(liveClients) - {old(ms.conn).value.client}
      ensures old(Filed(ms)) ==> forall comp, metric :: MetricKey(comp, metric) == ms.metricKey ==> GetStore(comp, metric) == null
    {
      if !Filed(ms) {
        return;
      }
      metricIdx := metricIdx - {ms.metricKey};
      liveClients := liveClients - {ms.conn.value.client};
      ms.conn := None;
    }
  }

  /**
   * A client of the entry points, run for the identity `("node01", "cpu.util")`
   * and its table `MetricNode01Cpu_utilValues`: configure, create the handle,
   * store one value, request the same identity again, close the handle, store
   * again and look the identity up.
   */
  method ExampleSession() returns (table: string, stored: QueryOutcome, same: bool, again: Option<string>, late: QueryOutcome, found: bool)
    ensures table == ExampleTable
    ensures stored.rc == 0 && stored.query.Some?
    ensures ParseInsert(stored.query.value) == Some(InsertRow(table, 7, 42, 1700000000, 0))
    ensures same && again == None
    ensures late == QueryOutcome(EPERM, None)
    ensures !found
  {
    var plugin := new MysqlStorePlugin<int>();
    var rc := plugin.Config(map[HostKey := "db1", SchemaKey := "metrics", UserKey := "svc", PasswdKey := ""]);
    var h, _ := plugin.NewStore(ExampleComp, ExampleMetric, 0, true, true, 0);
    TableNameExample();
    table := h.tableName;
    IdentHasNoBlank(table);
    assert ToInt32(7) == 7 && ToInt32(1700000000) == 1700000000;
    stored := Store(h, 7, TimeVal(1700000000, 250000), 42, 0, 0);
    var h2;
    h2, again := plugin.NewStore(ExampleComp, ExampleMetric, 1, false, false, -1);
    same := h2 == h;
    plugin.Close(h);
    late := Store(h, 7, TimeVal(1700000001, 0), 43, 0, 0);
    found := plugin.GetStore(ExampleComp, ExampleMetric) != null;
  }

  /**
   * Closing a handle a second time, after its identity has been given a new
   * handle, leaves the new handle filed and its connection open.
   */
  method ReopenSession() returns (kept: bool, open: bool)
    ensures kept && open
  {
    var plugin := new MysqlStorePlugin<int>();
    var rc := plugin.Config(map[HostKey := "db1", SchemaKey := "metrics", UserKey := "svc"]);
    var h1, _ := plugin.NewStore(ExampleComp, ExampleMetric, 0, true, true, 0);
    plugin.Close(h1);
    var h2, _ := plugin.NewStore(ExampleComp, ExampleMetric, 0, true, true, 0);
    plugin.Close(h1);
    kept := h2 != null && plugin.GetStore(ExampleComp, ExampleMetric) == h2;
    open := h2 != null && h2.conn.Some? && h2.conn.value.client in plugin.liveClients;
  }
}
