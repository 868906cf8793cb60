/**
 * The database interfaces of src/podflix/db/db_factory.py: the connection strings
 * of SQLite and PostgreSQL, and the factory that creates one interface and then
 * keeps returning it.
 */
module DbFactory {
  import opened Wrappers
  import opened Strings

  /** The PostgreSQL settings the interface reads, already rendered as text. */
  datatype PostgresSettings = PostgresSettings(user: string, password: string, host: string, port: string, db: string)

  /** Which interface, with what it connects to. */
  datatype DbKind = SQLite(dbPath: string) | Postgres(settings: PostgresSettings)

  /** `get_connection_path`: the file path, or `user:password@host:port/db`. */
  function ConnectionPath(kind: DbKind): string {
    match kind
    case SQLite(path) => path
    case Postgres(pg) => pg.user + ":" + pg.password + "@" + pg.host + ":" + pg.port + "/" + pg.db
  }

  /** The URL scheme of the synchronous driver. */
  function SyncScheme(kind: DbKind): string {
    if kind.SQLite? then "sqlite" else "postgresql"
  }

  /** The async driver's name, appended to the scheme after `+`. */
  function AsyncDriver(kind: DbKind): string {
    if kind.SQLite? then "aiosqlite" else "asyncpg"
  }

  /** SQLite URLs have an empty host, so the file path follows a third slash. */
  function Authority(kind: DbKind): string {
    if kind.SQLite? then "/" else ""
  }

  /** `async_connection`. */
  function AsyncConnection(kind: DbKind): string {
    SyncScheme(kind) + "+" + AsyncDriver(kind) + "://" + Authority(kind) + ConnectionPath(kind)
  }

  /** `sync_connection`. */
  function SyncConnection(kind: DbKind): string {
    SyncScheme(kind) + "://" + Authority(kind) + ConnectionPath(kind)
  }

  /** The scheme of a URL: the text before its first `://`. */
  function SchemeOf(url: string): Option<string> {
    match IndexOf(url, "://")
    case Some(k) => Some(url[..k])
    case None => None
  }

  /** The rest of a URL after its first `://`. */
  function AfterScheme(url: string): Option<string> {
    match IndexOf(url, "://")
    case Some(k) => Some(url[k + 3..])
    case None => None
  }

  lemma SchemeSplit(scheme: string, rest: string)
    requires ':' !in scheme
    ensures SchemeOf(scheme + "://" + rest) == Some(scheme)
    ensures AfterScheme(scheme + "://" + rest) == Some(rest)
  {
    IndexOfAfter(scheme, "://", rest);
    var url := scheme + "://" + rest;
    assert url[..|scheme|] == scheme && url[|scheme| + 3..] == rest;
  }

  /**
   * Both connection strings reach the same database: after the scheme they are
   * identical and end with the connection path; the async scheme is the sync one
   * with its driver appended.
   */
  lemma ConnectionsSharePath(kind: DbKind)
    ensures SchemeOf(SyncConnection(kind)) == Some(SyncScheme(kind))
    ensures SchemeOf(AsyncConnection(kind)) == Some(SyncScheme(kind) + "+" + AsyncDriver(kind))
    ensures AfterScheme(SyncConnection(kind)) == AfterScheme(AsyncConnection(kind))
      == Some(Authority(kind) + ConnectionPath(kind))
  {
    SharedRest(SyncScheme(kind), AsyncDriver(kind), Authority(kind), ConnectionPath(kind));
  }

  lemma SharedRest(scheme: string, driver: string, authority: string, path: string)
    requires ':' !in scheme && ':' !in driver
    ensures SchemeOf(scheme + "://" + authority + path) == Some(scheme)
    ensures SchemeOf(scheme + "+" + driver + "://" + authority + path) == Some(scheme + "+" + driver)
    ensures AfterScheme(scheme + "://" + authority + path) == Some(authority + path)
    ensures AfterScheme(scheme + "+" + driver + "://" + authority + path) == Some(authority + path)
  {
    var rest := authority + path;
    var a := scheme + "+" + driver;
    assert scheme + "://" + authority + path == scheme + "://" + rest;
    assert a + "://" + authority + path == a + "://" + rest;
    assert ':' !in a by {
      forall k | 0 <= k < |a| ensures a[k] != ':' {
        if k < |scheme| { assert a[k] == scheme[k]; }
        else if k > |scheme| { assert a[k] == driver[k - |scheme| - 1]; }
      }
    }
    SchemeSplit(scheme, rest);
    SchemeSplit(a, rest);
  }

  /** A SQLite URL is `sqlite:///` or `sqlite+aiosqlite:///` followed by the database path as given. */
  lemma SqliteConnections(path: string)
    ensures SyncConnection(SQLite(path)) == "sqlite:///" + path
    ensures AsyncConnection(SQLite(path)) == "sqlite+aiosqlite:///" + path
  {
    assert "sqlite" + "://" + "/" == "sqlite:///";
    assert "sqlite" + "+" + "aiosqlite" + "://" + "/" == "sqlite+aiosqlite:///";
  }

  /** A PostgreSQL URL is `postgresql://` or `postgresql+asyncpg://` followed by the connection path. */
  lemma PostgresConnections(pg: PostgresSettings)
    ensures SyncConnection(Postgres(pg)) == "postgresql://" + ConnectionPath(Postgres(pg))
    ensures AsyncConnection(Postgres(pg)) == "postgresql+asyncpg://" + ConnectionPath(Postgres(pg))
  {
    assert "postgresql" + "://" + "" == "postgresql://";
    assert "postgresql" + "+" + "asyncpg" + "://" + "" == "postgresql+asyncpg://";
  }

  /**
   * The user and password can be read back from a PostgreSQL connection path when
   * the user has no `:` and neither has an `@`.
   */
  lemma PostgresPathFields(pg: PostgresSettings)
    requires ':' !in pg.user && '@' !in pg.user && '@' !in pg.password
    ensures var path := ConnectionPath(Postgres(pg));
      IndexOf(path, ":") == Some(|pg.user|) && IndexOf(path, "@") == Some(|pg.user| + 1 + |pg.password|)
      && path[..|pg.user|] == pg.user && path[|pg.user| + 1..|pg.user| + 1 + |pg.password|] == pg.password
  {
    var tail := pg.host + ":" + pg.port + "/" + pg.db;
    assert ConnectionPath(Postgres(pg)) == pg.user + ":" + (pg.password + "@" + tail);
    CredentialsFields(pg.user, pg.password, tail);
  }

  /** `u:p@t` with no `:` or `@` in `u` and no `@` in `p`: the first `:` and the first `@` delimit `u` and `p`. */
  lemma CredentialsFields(u: string, p: string, t: string)
    requires ':' !in u && '@' !in u && '@' !in p
    ensures var s := u + ":" + (p + "@" + t);
      IndexOf(s, ":") == Some(|u|) && IndexOf(s, "@") == Some(|u| + 1 + |p|)
      && s[..|u|] == u && s[|u| + 1..|u| + 1 + |p|] == p
  {
    var s := u + ":" + (p + "@" + t);
    IndexOfAfter(u, ":", p + "@" + t);
    var pre := u + ":" + p;
    assert '@' !in pre;
    assert s == pre + "@" + t;
    IndexOfAfter(pre, "@", t);
    assert s[..|u|] == u;
    assert s[|u| + 1..|u| + 1 + |p|] == p;
  }

  const InvalidDbTypePrefix := "Invalid database type: "
  const InvalidDbTypeSuffix := ". Must be either 'sqlite' or 'postgres'"

  /** The interface a first `create` builds for the configured database type, or its `ValueError`. */
  function NewInterfaceKind(dbType: string, dbPath: string, pg: PostgresSettings): Result<DbKind, string> {
    if dbType == "sqlite" then Success(SQLite(dbPath))
    else if dbType == "postgres" then Success(Postgres(pg))
    else Failure(InvalidDbTypePrefix + dbType + InvalidDbTypeSuffix)
  }

  /** Only `sqlite` and `postgres` name an interface; SQLite uses the given path. */
  lemma NewInterfaceKindIff(dbType: string, dbPath: string, pg: PostgresSettings)
    ensures NewInterfaceKind(dbType, dbPath, pg).Success? <==> dbType == "sqlite" || dbType == "postgres"
    ensures NewInterfaceKind(dbType, dbPath, pg).Success? ==>
      (NewInterfaceKind(dbType, dbPath, pg).value.SQLite? <==> dbType == "sqlite")
      && (dbType == "sqlite" ==> NewInterfaceKind(dbType, dbPath, pg).value.dbPath == dbPath)
    ensures NewInterfaceKind(dbType, dbPath, pg).Failure? ==>
      NewInterfaceKind(dbType, dbPath, pg).error == InvalidDbTypePrefix + dbType + InvalidDbTypeSuffix
  {
  }

  /** A database interface object. */
  class DbInterface {
    const kind: DbKind

    constructor (kind: DbKind)
      ensures this.kind == kind
    {
      this.kind := kind;
    }
  }

  /** An instance of `DBInterfaceFactory`. */
  class DbInterfaceFactory {
    constructor ()
    {
    }
  }

  /** The class `DBInterfaceFactory` with its two class attributes. */
  class DbInterfaceFactoryClass {
    var instance: DbInterfaceFactory?
    var dbInterface: DbInterface?

    constructor ()
      ensures instance == null && dbInterface == null
    {
      instance := null;
      dbInterface := null;
    }

    /** `__new__`: the first call creates the instance, every call returns it. */
    method New() returns (o: DbInterfaceFactory)
      modifies this
      ensures old(instance) != null ==> o == old(instance)
      ensures old(instance) == null ==> fresh(o)
      ensures instance == o && dbInterface == old(dbInterface)
    {
      if instance == null {
        instance := new DbInterfaceFactory();
      }
      o := instance;
    }

    /**
     * `create`: the cached interface if there is one, whatever the arguments;
     * otherwise a new interface for the database type, which is then cached.  An
     * unknown type raises and caches nothing.
     */
    method Create(dbType: string, dbPath: string, pg: PostgresSettings) returns (r: Result<DbInterface, string>)
      modifies this
      ensures instance == old(instance)
      ensures old(dbInterface) != null ==> r == Success(old(dbInterface)) && dbInterface == old(dbInterface)
      ensures old(dbInterface) == null && NewInterfaceKind(dbType, dbPath, pg).Success? ==>
        r.Success? && fresh(r.value) && r.value.kind == NewInterfaceKind(dbType, dbPath, pg).value
        && dbInterface == r.value
      ensures old(dbInterface) == null && NewInterfaceKind(dbType, dbPath, pg).Failure? ==>
        r == Failure(NewInterfaceKind(dbType, dbPath, pg).error) && dbInterface == null
    {
      if dbInterface == null {
        if dbType == "sqlite" {
          dbInterface := new DbInterface(SQLite(dbPath));
        } else if dbType == "postgres" {
          dbInterface := new DbInterface(Postgres(pg));
        } else {
          return Failure(InvalidDbTypePrefix + dbType + InvalidDbTypeSuffix);
        }
      }
      return Success(dbInterface);
    }
  }
}
