/**
 * The process-wide connection parameters and the two operations that use
 * them: `config`, which replaces them from the `dbhost`, `dbschema`,
 * `dbuser` and optional `dbpasswd` attributes, and `initConn`, which checks
 * them and opens one client connection.
 */
module DbConfig {
  import opened Wrappers
  import opened CTypes

  /** `db_host`, `db_schema`, `db_user`, `db_passwd`; `None` is a NULL pointer. */
  datatype DbParams = DbParams(host: Option<string>, schema: Option<string>, user: Option<string>, passwd: Option<string>)

  /** The parameters before the first `config`: all four pointers NULL. */
  const Unset: DbParams := DbParams(None, None, None, None)

  datatype ConfigOutcome = ConfigOutcome(rc: int, params: DbParams)

  /** The keys `config` reads from its attribute list. */
  const HostKey: string := "dbhost"
  const SchemaKey: string := "dbschema"
  const UserKey: string := "dbuser"
  const PasswdKey: string := "dbpasswd"

  predicate HasRequired(avl: map<string, string>)
  {
    HostKey in avl && SchemaKey in avl && UserKey in avl
  }

  /**
   * What `config` leaves behind. The fields are replaced in the order host,
   * schema, user, password; the first missing required key stops the run
   * with EINVAL after the earlier fields have been replaced. The values are
   * taken as they are: an empty string is accepted here.
   */
  function Configure(p: DbParams, avl: map<string, string>): (r: ConfigOutcome)
    ensures r.rc == 0 || r.rc == EINVAL
    ensures r.rc == 0 <==> HasRequired(avl)
    ensures r.params.host == if HostKey in avl then Some(avl[HostKey]) else p.host
    ensures r.params.schema == if HostKey in avl && SchemaKey in avl then Some(avl[SchemaKey]) else p.schema
    ensures r.params.user == if HasRequired(avl) then Some(avl[UserKey]) else p.user
    ensures r.params.passwd == if HasRequired(avl) && PasswdKey in avl then Some(avl[PasswdKey]) else p.passwd
  {
    if HostKey !in avl then ConfigOutcome(EINVAL, p)
    else
      var p1 := p.(host := Some(avl[HostKey]));
      if SchemaKey !in avl then ConfigOutcome(EINVAL, p1)
      else
        var p2 := p1.(schema := Some(avl[SchemaKey]));
        if UserKey !in avl then ConfigOutcome(EINVAL, p2)
        else
          var p3 := p2.(user := Some(avl[UserKey]));
          if PasswdKey in avl then ConfigOutcome(0, p3.(passwd := Some(avl[PasswdKey])))
          else ConfigOutcome(0, p3)
  }

  /** The three parameters `initConn` passes to `strlen` have been set (none is NULL). */
  predicate Configured(p: DbParams)
  {
    p.host.Some? && p.schema.Some? && p.user.Some?
  }

  /**
   * The parameters on which `initConn`'s test is defined. The `||` of the
   * three `strlen` calls stops at the first empty string, so a parameter after
   * an empty one is never read and may be NULL; a NULL that is read is
   * undefined behaviour.
   */
  predicate Evaluable(p: DbParams)
  {
    p.host.Some? && (|p.host.value| == 0 || (p.schema.Some? && (|p.schema.value| == 0 || p.user.Some?)))
  }

  /** The three parameters `initConn` requires are set and non-empty. */
  predicate Usable(p: DbParams)
  {
    && p.host.Some? && |p.host.value| > 0
    && p.schema.Some? && |p.schema.value| > 0
    && p.user.Some? && |p.user.value| > 0
  }

  /**
   * A client object of the database library (a `MYSQL *`): `client` identifies
   * the allocation, the rest records the parameters the session was opened with.
   */
  datatype Conn = Conn(client: nat, host: string, user: string, passwd: Option<string>, schema: string)

  datatype ConnOutcome = ConnOutcome(rc: int, conn: Option<Conn>)

  /**
   * `initConn` with the outcomes of `mysql_init` (`initOk`) and
   * `mysql_real_connect` (`connectOk`) given; `client` names the object
   * `mysql_init` would allocate. A failed connect leaves the allocated object
   * in the result, as the C code leaves it in `*conn`.
   */
  function InitConn(p: DbParams, client: nat, initOk: bool, connectOk: bool): (r: ConnOutcome)
    requires Evaluable(p)
    ensures r.rc == 0 || r.rc == EINVAL || r.rc == EPERM
    ensures r.rc == EINVAL <==> !Usable(p)
    ensures r.rc == 0 <==> Usable(p) && initOk && connectOk
    ensures r.conn.Some? <==> Usable(p) && initOk
    ensures r.conn.Some? ==> r.conn.value == Conn(client, p.host.value, p.user.value, p.passwd, p.schema.value)
  {
    if !Usable(p) then ConnOutcome(EINVAL, None)
    else if !initOk then ConnOutcome(EPERM, None)
    else
      var c := Conn(client, p.host.value, p.user.value, p.passwd, p.schema.value);
      if !connectOk then ConnOutcome(EPERM, Some(c)) else ConnOutcome(0, Some(c))
  }

  /** A successful `config` always makes the parameters usable by `initConn`'s NULL-free reads. */
  lemma ConfigureEnablesConnect(p: DbParams, avl: map<string, string>)
    requires Configure(p, avl).rc == 0
    ensures Configured(Configure(p, avl).params)
  {
  }

  /**
   * An empty user name passes `config` and is only rejected when a connection
   * is opened, with EINVAL and without allocating a client object.
   */
  lemma EmptyUserRejectedAtConnect(host: string, schema: string, client: nat, initOk: bool, connectOk: bool)
    ensures var r := Configure(Unset, map[HostKey := host, SchemaKey := schema, UserKey := ""]);
      && r.rc == 0
      && InitConn(r.params, client, initOk, connectOk) == ConnOutcome(EINVAL, None)
  {
    var avl := map[HostKey := host, SchemaKey := schema, UserKey := ""];
    assert HasRequired(avl);
    assert Configure(Unset, avl).params.user == Some("");
  }

  /**
   * A first `config` that gives an empty `dbhost` and no `dbschema` fails, yet
   * leaves `db_host` set to the empty string and `db_schema` NULL; `initConn`
   * then stops at the empty host and rejects the parameters without reading
   * the NULL ones.
   */
  lemma EmptyHostRejectedAtConnect(client: nat, initOk: bool, connectOk: bool)
    ensures var r := Configure(Unset, map[HostKey := ""]);
      && r.rc == EINVAL && !Configured(r.params) && Evaluable(r.params)
      && InitConn(r.params, client, initOk, connectOk) == ConnOutcome(EINVAL, None)
  {
    assert SchemaKey !in map[HostKey := ""];
  }

  /** Repeating a `config` with the same attributes changes nothing further. */
  lemma ConfigureIdempotent(p: DbParams, avl: map<string, string>)
    ensures Configure(Configure(p, avl).params, avl) == Configure(p, avl)
  {
  }
}
