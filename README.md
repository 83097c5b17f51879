# store_mysql in Dafny

A model of `src/store_mysql.c`, the MySQL storage plugin of the LDMS metric
collection daemon. The plugin keeps one table per (component, metric)
identity. It keeps a process-wide index from the key `comp:metric` to a
storage handle. On the first request for an identity it derives a sanitized
table name, opens a connection of the handle's own and issues
`CREATE TABLE IF NOT EXISTS`. Each stored value becomes one `INSERT`.

The model is split into modules:

- `Identifier` (identifier.dfy): the sanitizer (every character that is not an
  ASCII letter or digit becomes `_`), the upper-casing of a fragment's first
  character, the table name `Metric<Comp><Metric>Values` and the registry key.
  `Cleanse` is the in-place loop of `new_store` over a copied buffer, proved
  against the function `Sanitize`.
- `Statements` (statements.dfy): the `CREATE TABLE` and `INSERT` text, and
  readers that recover the table name and the row's column values from that
  text. The round-trip lemmas say exactly which table and which values a
  statement carries.
- `Decimal` (decimal.dfy) and `CTypes` (ctypes.dfy): `%d`/`%lu` formatting with
  its inverse, the errno values (Linux numbering), and the `(int)` narrowing
  of `comp_id` and `tv.tv_sec` written out as wrap-around modulo 2^32.
- `DbConfig` (dbconfig.dfy): the four connection parameters. `Configure` says
  what `config` leaves behind. `InitConn` is `initConn`.
- `StoreMysql` (store.dfy): the handle class `MetricStore` and the plugin class
  `MysqlStorePlugin`. The plugin holds the parameters, the metric index (a
  `map`) and the set of client objects the database library has allocated
  and not released. Its methods are `config`, `new_store` and `close_store`;
  `get_store` is a function that reads it. `createTable`, `store`,
  `flush_store` and `get_ucontext` are functions. `ExampleSession` is a client
  that runs configure, create, store, re-request, close, store and lookup
  through the contracts alone.

The calls into the MySQL client library are replaced by their outcomes,
passed as parameters. These are `initOk` for `mysql_init`, `connectOk` for
`mysql_real_connect`, and `createRc`/`queryRc` for `mysql_query`. The value
read from the metric and the random `level` of a row are parameters as well.
The client object `mysql_init` would allocate is named by the plugin's
`nextClient` counter.

The code departs from the behaviour the plugin is meant to have in these
places, and the model follows the code:

- `config` accepts an empty `dbuser`, and on a missing key it leaves the
  fields replaced before that key. Only `initConn` rejects empty parameters
  (lemma `EmptyUserRejectedAtConnect`).
- A failed `mysql_real_connect` and a failed `CREATE TABLE` both leave the
  allocated client object unreleased. `NewStore` states this through
  `liveClients`.
- Distinct identities can share a table (`TableNameCollisions`). With a `:`
  in a component name they can also share a registry key
  (`MetricKeyCollision`).
- `createTable` and `store` report a failed query as -1, not as a driver
  error code.

Defects of the source that the model keeps as written or sidesteps:

- The failure path of `new_store` returns the pointer it has just freed. The
  model returns `null`, which is what every caller can safely rely on.
- The check at line 309 tests `tempmetricname` where `cleansedcompname` was
  meant. Allocation failure is not modelled, so this cannot be observed here.
- The `err3` path does not `mysql_close` the client object. This is modelled:
  the object stays in `liveClients`, and no handle refers to it.
- `close_store(NULL)` returns with `cfg_lock` still held. Locks are not
  modelled; in the model the call changes nothing.
- `close_store` frees the handle, so a later `store` on it reads freed memory.
  The model keeps the object with its connection set to `None`, so `Store`
  answers EPERM.
- Closing the same handle twice frees it twice, and the second
  `idx_delete` can remove a newer handle of the same identity. The model
  closes only the handle filed under its key, so a second close changes
  nothing (`ReopenSession`).
- When the `INSERT` fails, `store` logs with the format
  `"Failed to perform query <%s>. Error: %d\n"` but passes only the int
  `mysqlerrx`. `%s` reads that int as a pointer and `%d` has no argument,
  which is undefined behaviour before the `return -1`. The model returns the
  intended -1.

## Model

| member | source | states |
|---|---|---|
| CTypes.ToInt32 | src/store_mysql.c:389-396 | the `(int)` conversion gives a 32-bit value congruent to its argument modulo 2^32, and leaves values already in range unchanged |
| Decimal.NatToDec | src/store_mysql.c:394-396 | `%lu` text is a non-empty string of digits with no leading zero |
| Decimal.IntToDec | src/store_mysql.c:394-396 | `%d`/`%ld` text starts with `-` exactly for negative values, and everything after that is digits |
| Decimal.NatToDecRoundTrip | src/store_mysql.c:394-396 | reading the digits of `%lu` text gives back the value |
| Decimal.IntToDecRoundTrip | src/store_mysql.c:394-396 | reading `%d` text gives back the signed value |
| Identifier.ToUpper | src/store_mysql.c:306 | `toupper` upper-cases exactly `a`-`z`, leaves every other character alone, and keeps alphanumerics alphanumeric |
| Identifier.Sanitize | src/store_mysql.c:295-300 | the sanitized name has the input's length; each position keeps an alphanumeric character and holds `_` otherwise; the result has only letters, digits and `_` |
| Identifier.Cleanse | src/store_mysql.c:291-300 | the loop over the `strdup` copy overwrites exactly the non-alphanumeric characters, giving `Sanitize` of the name |
| Identifier.Capitalize | src/store_mysql.c:302-306 | only index 0 changes, to its upper case; the length is kept |
| Identifier.Fragment | src/store_mysql.c:313-319 | a fragment has the name's length, only identifier characters, an upper-cased sanitized first character, and the sanitized characters after it |
| Identifier.TableName | src/store_mysql.c:321-329 | the table name is `Metric`, the component fragment, the metric fragment, `Values`, in that order; its length is the two names' lengths plus 12; it has only letters, digits and `_` |
| Identifier.MetricKey | src/store_mysql.c:280 | the key is the component, a `:`, then the metric |
| Identifier.IdentHasNoBlank | src/store_mysql.c:321-329 | a name built only of identifier characters has no blank |
| Identifier.SanitizeIdempotent | src/store_mysql.c:295-300 | sanitizing twice is the same as sanitizing once |
| Identifier.SanitizeKeepsAlnum | src/store_mysql.c:295-300 | a purely alphanumeric name is left unchanged |
| Identifier.SanitizeIs | src/store_mysql.c:295-300 | a string that matches `CleanChar` at every position is the sanitized name |
| Identifier.FragmentExample | src/store_mysql.c:295-319 | `cpu.util` sanitizes to `cpu_util`; the fragments of `node01` and `cpu.util` are `Node01` and `Cpu_util` |
| Identifier.ExampleTableText | src/store_mysql.c:328 | the example fragments between the prefix and the suffix spell `MetricNode01Cpu_utilValues` |
| Identifier.TableNameExample | src/store_mysql.c:280-329 | `("node01", "cpu.util")` gets table `MetricNode01Cpu_utilValues` and key `node01:cpu.util` |
| Identifier.TableNameSeparatesSameLength | src/store_mysql.c:328 | when two identities with equally long component names share a table name, both their fragments agree |
| Identifier.DistinctComponentsDistinctTables | src/store_mysql.c:328 | `("a", "m")` and `("b", "m")` get different tables |
| Identifier.TableNameCollisions | src/store_mysql.c:295-329 | identities with different keys can share a table: `a.b`/`a-b`, and `aB`+`c` against `a`+`BC` |
| Identifier.MetricKeyInjective | src/store_mysql.c:280 | when neither component name holds a `:`, equal keys mean equal identities |
| Identifier.MetricKeyCollision | src/store_mysql.c:280 | `("a:b", "c")` and `("a", "b:c")` share the key `a:b:c` |
| Statements.CreateTableStatement | src/store_mysql.c:239-252 | the statement begins `CREATE TABLE IF NOT EXISTS `, followed by the table name and a blank |
| Statements.CreateTableRoundTrip | src/store_mysql.c:243-252 | the table a `CREATE` statement names is exactly the given table, when the table name has no blank |
| Statements.InsertStatement | src/store_mysql.c:393-396 | the statement begins `INSERT INTO `, followed by the table name and a blank |
| Statements.InsertRoundTrip | src/store_mysql.c:384-396 | the row of the `INSERT` carries the table, `(int)comp_id`, the value unchanged, `(int)tv_sec` and the level |
| Statements.InsertTimeWrapsIn2038 | src/store_mysql.c:389-396 | for a timestamp of 2^31 seconds the statement carries -2^31 as the time: the narrowing wraps from January 2038 |
| Statements.InsertDropsMicroseconds | src/store_mysql.c:386-389 | timestamps with equal seconds give the same statement, whatever their microseconds |
| DbConfig.Configure | src/store_mysql.c:118-176 | result 0 exactly when `dbhost`, `dbschema` and `dbuser` are all present, EINVAL otherwise; each field is replaced only when its key and every earlier required key are present; the password changes only on success with `dbpasswd` given |
| DbConfig.InitConn | src/store_mysql.c:87-110 | defined whenever the short-circuit test at lines 90-91 reads no NULL; EINVAL exactly when host, schema or user is NULL or empty; 0 exactly when they are non-empty and both library calls succeed; a client object is returned whenever `mysql_init` ran and succeeded, and it records the current parameters |
| DbConfig.ConfigureEnablesConnect | src/store_mysql.c:121-156 | after a successful `config` none of the three strings `initConn` measures is NULL |
| DbConfig.EmptyUserRejectedAtConnect | src/store_mysql.c:146-156 | an empty `dbuser` is accepted by `config`; `initConn` then fails with EINVAL and allocates nothing |
| DbConfig.EmptyHostRejectedAtConnect | src/store_mysql.c:87-93 | a first `config` with an empty `dbhost` and no `dbschema` fails and leaves `db_schema` NULL; `initConn` then stops at the empty host with EINVAL and allocates nothing |
| DbConfig.ConfigureIdempotent | src/store_mysql.c:118-176 | a second `config` with the same attributes changes nothing more |
| StoreMysql.MetricStore.constructor | src/store_mysql.c:283-288 | a handle holds the table name, the sanitized metric name, the key, the connection and the caller's context it was given |
| StoreMysql.CreateTable | src/store_mysql.c:230-262 | with no connection: EPERM and nothing sent; otherwise the `CREATE` statement for this table is sent, and the result is 0 when the query succeeds and -1 when it fails; the table the statement names is the handle's table |
| StoreMysql.Store | src/store_mysql.c:361-405 | NULL handle: EINVAL; handle without a connection: EPERM; neither sends anything; otherwise one `INSERT` is sent, whose row is the handle's table, `(int)comp_id`, the value, `(int)tv_sec` and the level; result 0 or -1 as the query reports |
| StoreMysql.FlushStore | src/store_mysql.c:407-418 | always 0 |
| StoreMysql.GetUcontext | src/store_mysql.c:224-228 | the context the handle was created with |
| StoreMysql.MysqlStorePlugin.constructor | src/store_mysql.c:466-470 | at load time: no parameters set, an empty index, no client objects |
| StoreMysql.MysqlStorePlugin.Config | src/store_mysql.c:118-176 | the return code and the four fields are what `Configure` gives for the old fields; the index invariant is kept |
| StoreMysql.MysqlStorePlugin.GetStore | src/store_mysql.c:206-222 | finds a handle exactly when the key `comp:metric` is in the index, and then it is the one filed there; reads only |
| StoreMysql.MysqlStorePlugin.NewStore | src/store_mysql.c:264-359 | a key already present: that handle, with the new context ignored, nothing opened, no statement sent and nothing changed. Otherwise the `CREATE TABLE` for `TableName` is sent exactly when `initConn` returns 0, and a handle is returned and filed under the key exactly when `initConn` and `createTable` both return 0; the new handle has `TableName`, the sanitized metric name, the key, the caller's context and the new connection. On failure the index is unchanged and no handle is returned. An allocated client object stays live either way. The index invariant is kept |
| StoreMysql.MysqlStorePlugin.Close | src/store_mysql.c:420-437 | for the handle filed under its key: removes exactly that key from the index, so no identity with that key is found afterwards, releases the handle's client object and leaves it without a connection; NULL, or a handle no longer filed, changes nothing; the index invariant is kept |
| StoreMysql.ExampleSession | src/store_mysql.c:264-437 | configure, create `("node01", "cpu.util")`, store `(7, 1700000000.25 s, 42)`: table `MetricNode01Cpu_utilValues`, row `(7, 42, 1700000000, 0)`. Asking for the identity again returns the same handle and sends no statement. After close, a store gives EPERM and the lookup finds nothing |
| StoreMysql.ReopenSession | src/store_mysql.c:264-437 | create, close, create again and close the first handle a second time: the second handle stays filed and its client object stays open |

The invariant `MysqlStorePlugin.Valid` says three things about every handle
in the index. It is filed under its own key. Its table name has only letters,
digits and `_`. It holds an open connection whose client object no other filed handle holds.

## Left out

- StoreMysql.MysqlStorePlugin.NewStore: requires that `initConn`'s test reads no NULL parameter (`Evaluable`): `db_host` is set, and `db_schema` is set when the host is non-empty, and `db_user` is set when both are non-empty. `strlen(NULL)` is undefined behaviour, so the model has no behaviour to give there; the cases where the `||` stops at an empty string before a NULL are covered and give EINVAL.
- DbConfig.InitConn: has the same requirement, for the same reason.
- StoreMysql.MysqlStorePlugin.Close: does not model that `close_store(NULL)` returns with `cfg_lock` held, because locks are not modelled. It does not model the double free of closing a handle twice (lines 432-434 free memory already freed); the model leaves a handle that is no longer filed under its key alone, so a second close changes nothing.
- StoreMysql.Store: does not model that a handle passed to `close_store` has been freed; the model keeps it with no connection, so a later store gives EPERM rather than reading freed memory. It also does not model the mismatched `msglog` arguments on a failed `INSERT` (undefined behaviour); it returns the intended -1.
- MySQL client calls (`mysql_init`, `mysql_real_connect`, `mysql_query`, `mysql_close`): network I/O, replaced by outcome parameters and by the `liveClients` set.
- `pthread_mutex_*`, `cfg_lock` and the per-handle lock: concurrency; each entry point is one atomic step.
- The `level` value `lround(-log2(drand48()))`: floating point and randomness; it is a parameter of `Store`.
- `ldms_get_u64`: the value is a `uint64` parameter of `Store`.
- The `sos` index library (`idx_find`, `idx_add`, `idx_delete`): the index is a Dafny `map`.
- `msglog` logging and the `usage` text: output only, except for the mismatched call in `store` listed above.
- `get_plugin`, the `store_mysql` table, `destroy_store` (empty) and the constructor/destructor hooks beyond initial state: plugin wiring.
- `term`: it refers to identifiers that do not exist (`dbhost`, `dh_host`, ...) and cannot compile; its evident intent, clearing the four parameters, is not modelled.
- The handle's `store` back-pointer and `lock` fields: wiring and concurrency.
- `calloc`, `malloc` and `strdup` failures (the ENOMEM and `goto err1`/`err1A`/`err2` paths, including the misplaced check at line 309), `free`, and the fixed 128-, 1024- and 4096-byte buffers with their truncation and overflow: C allocation details.
- Characters are modelled as `char`, each standing for one byte of a C string in the "C" locale; a multi-byte character is one `char` here where the C code sees several bytes, each of which it would replace by `_`.
