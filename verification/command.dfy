/**
 * The shared base of the migration commands (`Command`): the database
 * configuration handed to the migration engine, the lazily built and cached
 * engine adapter with its wrapper chain, and the directory checks.
 */
module MigrationCommand {
  import opened Wrappers
  import opened PhpStrings
  import opened Values

  /** The framework's database connection settings, as the connection reports them. */
  datatype Connection = Connection(
    deploy: int,
    kind: string, hostname: string, database: string, username: string,
    password: string, hostport: string, charset: string, prefix: string)

  /** `explode(',', $v)[0]` for a distributed deployment, the value itself otherwise. */
  function Select(deploy: int, v: string): (r: string)
    ensures deploy == 0 ==> r == v
    ensures deploy != 0 ==> r == BeforeFirst(v, ',')
  {
    if deploy == 0 then v else BeforeFirst(v, ',')
  }

  /** `getConfig($name, $default)`: the migration setting when it is set and not null, else the default. */
  function GetConfig(migration: Options, name: string, default: OptValue): (r: OptValue)
    ensures Isset(migration, name) ==> r == migration[name] && r != Null
    ensures !Isset(migration, name) ==> r == default
  {
    if Isset(migration, name) then migration[name] else default
  }

  /** `getDbConfig()`: the engine configuration derived from the connection and the migration settings. */
  function DbConfig(c: Connection, migration: Options): (r: Options)
    ensures "adapter" in r && r["adapter"] == Str(Select(c.deploy, c.kind))
    ensures "host" in r && r["host"] == Str(Select(c.deploy, c.hostname))
    ensures "name" in r && r["name"] == Str(Select(c.deploy, c.database))
    ensures "user" in r && r["user"] == Str(Select(c.deploy, c.username))
    ensures "pass" in r && r["pass"] == Str(Select(c.deploy, c.password))
    ensures "port" in r && r["port"] == Str(Select(c.deploy, c.hostport))
    ensures "charset" in r && r["charset"] == Str(Select(c.deploy, c.charset))
    ensures "table_prefix" in r && r["table_prefix"] == Str(Select(c.deploy, c.prefix))
    ensures "default_migration_table" in r
    ensures r["default_migration_table"]
              == GetConfig(migration, "table", Str(Select(c.deploy, c.prefix) + "migrations"))
    ensures "version_order" in r && r["version_order"] == Str("creation")
  {
    var d := c.deploy;
    map[
      "adapter" := Str(Select(d, c.kind)),
      "host" := Str(Select(d, c.hostname)),
      "name" := Str(Select(d, c.database)),
      "user" := Str(Select(d, c.username)),
      "pass" := Str(Select(d, c.password)),
      "port" := Str(Select(d, c.hostport)),
      "charset" := Str(Select(d, c.charset)),
      "table_prefix" := Str(Select(d, c.prefix)),
      "default_migration_table" := GetConfig(migration, "table", Str(Select(d, c.prefix) + "migrations")),
      "version_order" := Str("creation")]
  }

  /** A value without a comma is its own first comma-separated segment, and only such a value is. */
  lemma FirstSegmentUnchanged(v: string)
    ensures BeforeFirst(v, ',') == v <==> ',' !in v
  {
    var r := BeforeFirst(v, ',');
    if |r| < |v| {
      assert v[|r|] == ',';
    }
  }

  /** A single-host deployment's settings pass through whatever the `deploy` flag says. */
  lemma DeployIrrelevantWithoutCommas(c: Connection, migration: Options)
    requires ',' !in c.kind && ',' !in c.hostname && ',' !in c.database && ',' !in c.username
    requires ',' !in c.password && ',' !in c.hostport && ',' !in c.charset && ',' !in c.prefix
    ensures DbConfig(c, migration) == DbConfig(c.(deploy := 0), migration)
  {
    SelectNoComma(c.deploy, c.kind);
    SelectNoComma(c.deploy, c.hostname);
    SelectNoComma(c.deploy, c.database);
    SelectNoComma(c.deploy, c.username);
    SelectNoComma(c.deploy, c.password);
    SelectNoComma(c.deploy, c.hostport);
    SelectNoComma(c.deploy, c.charset);
    SelectNoComma(c.deploy, c.prefix);
  }

  lemma SelectNoComma(deploy: int, v: string)
    requires ',' !in v
    ensures Select(deploy, v) == v
  {
    FirstSegmentUnchanged(v);
  }

  /** Which engine class serves an adapter name: the optimised MySQL one is registered for `mysql`. */
  datatype Driver = OptimizedMySql | Builtin(name: string)

  /** An engine adapter: a base adapter built from the configuration, or a named wrapper around one. */
  datatype Adapter = Base(driver: Driver, options: Options) | Wrapped(wrapper: string, inner: Adapter)

  /** The engine's `hasOption`: the option is set and not null. */
  predicate HasOption(a: Adapter, name: string) {
    match a
    case Base(_, options) => Isset(options, name)
    case Wrapped(_, inner) => HasOption(inner, name)
  }

  /** The factory's lookup after `registerAdapter('mysql', OptimizedMySqlAdapter::class)`. */
  function DriverFor(name: string): (r: Driver)
    ensures r == OptimizedMySql <==> name == "mysql"
    ensures r.Builtin? ==> r.name == name
  {
    if name == "mysql" then OptimizedMySql else Builtin(name)
  }

  /** The wrapper names from the outermost inwards. */
  function WrapperNames(a: Adapter): seq<string> {
    match a
    case Base(_, _) => []
    case Wrapped(w, inner) => [w] + WrapperNames(inner)
  }

  function Innermost(a: Adapter): Adapter {
    match a
    case Base(_, _) => a
    case Wrapped(_, inner) => Innermost(inner)
  }

  /** The adapter `getAdapter` builds: the base adapter, timed, then prefixed when a prefix or suffix is set. */
  function BuildAdapter(options: Options): (r: Adapter)
    requires "adapter" in options
  {
    var base := Base(DriverFor(ToText(options["adapter"])), options);
    var timed := Wrapped("timed", base);
    if HasOption(timed, "table_prefix") || HasOption(timed, "table_suffix") then Wrapped("prefix", timed)
    else timed
  }

  /** The wrapper chain is `timed`, with `prefix` outside it exactly when a prefix or suffix is set. */
  lemma WrapperChain(options: Options)
    requires "adapter" in options
    ensures Innermost(BuildAdapter(options)) == Base(DriverFor(ToText(options["adapter"])), options)
    ensures (Isset(options, "table_prefix") || Isset(options, "table_suffix"))
              == (WrapperNames(BuildAdapter(options)) == ["prefix", "timed"])
    ensures !(Isset(options, "table_prefix") || Isset(options, "table_suffix"))
              == (WrapperNames(BuildAdapter(options)) == ["timed"])
  {
    var base := Base(DriverFor(ToText(options["adapter"])), options);
    var timed := Wrapped("timed", base);
    assert Innermost(timed) == base;
    assert Innermost(Wrapped("prefix", timed)) == base;
    assert HasOption(timed, "table_prefix") == Isset(options, "table_prefix");
    assert HasOption(timed, "table_suffix") == Isset(options, "table_suffix");
    assert WrapperNames(timed) == ["timed"];
    assert WrapperNames(Wrapped("prefix", timed)) == ["prefix", "timed"];
  }

  /** The command's cached adapter (`$this->adapter`). */
  datatype Command = Command(adapter: Option<Adapter>)

  /**
   * `getAdapter()`: the cached adapter when there is one; otherwise one is
   * built from the current configuration and cached.
   */
  function GetAdapter(cmd: Command, c: Connection, migration: Options): (r: (Adapter, Command))
    ensures cmd.adapter.Some? ==> r == (cmd.adapter.value, cmd)
    ensures cmd.adapter.None? ==> r.0 == BuildAdapter(DbConfig(c, migration))
    ensures r.1.adapter == Some(r.0)
  {
    match cmd.adapter
    case Some(a) => (a, cmd)
    case None =>
      var a := BuildAdapter(DbConfig(c, migration));
      (a, cmd.(adapter := Some(a)))
  }

  /**
   * The adapter is built at most once: a second call returns the first
   * call's adapter and leaves the command as it was, even if the
   * configuration has changed in between.
   */
  lemma GetAdapterCaches(cmd: Command, c1: Connection, m1: Options, c2: Connection, m2: Options)
    ensures var (a1, cmd1) := GetAdapter(cmd, c1, m1);
            GetAdapter(cmd1, c2, m2) == (a1, cmd1)
  {
  }

  /**
   * The derived configuration always carries a string `table_prefix`, so
   * the prefix wrapper is always applied: the "no prefix" branch of the
   * wrapper decision cannot be reached from `getDbConfig`.
   */
  lemma DerivedConfigAlwaysPrefixed(cmd: Command, c: Connection, migration: Options)
    requires cmd.adapter.None?
    ensures WrapperNames(GetAdapter(cmd, c, migration).0) == ["prefix", "timed"]
  {
    var options := DbConfig(c, migration);
    assert Isset(options, "table_prefix");
    WrapperChain(options);
  }

  /** The `mysql` adapter name selects the optimised MySQL adapter, whatever the deployment. */
  lemma MySqlSelectsOptimized(c: Connection, migration: Options)
    requires c.kind == "mysql" || (c.deploy != 0 && BeforeFirst(c.kind, ',') == "mysql")
    ensures Innermost(BuildAdapter(DbConfig(c, migration))) == Base(OptimizedMySql, DbConfig(c, migration))
  {
    var options := DbConfig(c, migration);
    if c.deploy != 0 && c.kind == "mysql" {
      FirstSegmentUnchanged(c.kind);
    }
    assert options["adapter"] == Str("mysql");
    WrapperChain(options);
  }

  /** The two kinds of directory a command writes into. */
  datatype DirKind = MigrationDir | SeedDir

  /** Why a directory was refused. */
  datatype DirError = DirMissing(kind: DirKind, path: string) | DirNotWritable(kind: DirKind, path: string)

  /** The two file-system queries the checks make. */
  datatype DirProbe = DirProbe(isDir: string -> bool, isWritable: string -> bool)

  /**
   * `verifyMigrationDirectory` / `verifySeedDirectory`: existence is checked
   * before writability, and the error names the directory kind and path.
   */
  function VerifyDirectory(fs: DirProbe, kind: DirKind, path: string): (r: Outcome<DirError>)
    ensures r.Pass? <==> fs.isDir(path) && fs.isWritable(path)
    ensures r == Fail(DirMissing(kind, path)) <==> !fs.isDir(path)
    ensures r == Fail(DirNotWritable(kind, path)) <==> fs.isDir(path) && !fs.isWritable(path)
  {
    if !fs.isDir(path) then Fail(DirMissing(kind, path))
    else if !fs.isWritable(path) then Fail(DirNotWritable(kind, path))
    else Pass
  }
}
