/** The settings computed in the body of the `Config` class. The process
    environment is a map from variable names to values and the directory
    holding the configuration file is a parameter. */
module Config {
  import opened Wrappers
  import opened Strings

  type Env = map<string, string>

  const PostgresScheme := "postgresql://"
  const PsycopgScheme := "postgresql+psycopg://"

  /** `os.environ.get(name)` */
  function Lookup(env: Env, name: string): Option<string> {
    if name in env then Some(env[name]) else None
  }

  /** True when `RAILWAY_ENVIRONMENT` is set to a non-empty value. */
  predicate OnRailway(env: Env) {
    Present(Lookup(env, "RAILWAY_ENVIRONMENT"))
  }

  /** The Railway database file, `/tmp` joined with `pettycash.db`. */
  const RailwayDb := "/tmp/pettycash.db"

  lemma RailwayDbPath()
    ensures PathJoin("/tmp", "pettycash.db") == RailwayDb
  {
    RelativePath("pettycash.db");
  }

  /** The SQLite file: under `/tmp` on Railway, under `<basedir>/instance`
      elsewhere. */
  function DbPath(env: Env, basedir: string): (path: string)
    ensures OnRailway(env) ==> path == "/tmp/pettycash.db"
    ensures !OnRailway(env) && basedir != "" && basedir[|basedir| - 1] != '/' ==>
              path == basedir + "/instance/pettycash.db"
  {
    if OnRailway(env) then
      RailwayDbPath();
      PathJoin("/tmp", "pettycash.db")
    else
      if basedir != "" && basedir[|basedir| - 1] != '/' then
        JoinTwice(basedir, "instance", "pettycash.db");
        assert "/" + "instance" + "/" + "pettycash.db" == "/instance/pettycash.db";
        PathJoin(PathJoin(basedir, "instance"), "pettycash.db")
      else
        PathJoin(PathJoin(basedir, "instance"), "pettycash.db")
  }

  /** `DATABASE_URL` when it is set and non-empty, otherwise a SQLite URL
      for `DbPath`. */
  function RawDatabaseUrl(env: Env, basedir: string): (url: string)
    ensures Present(Lookup(env, "DATABASE_URL")) ==> url == env["DATABASE_URL"]
    ensures !Present(Lookup(env, "DATABASE_URL")) ==> url == "sqlite:///" + DbPath(env, basedir)
  {
    var given := Lookup(env, "DATABASE_URL");
    if Present(given) then given.value else "sqlite:///" + DbPath(env, basedir)
  }

  /** The psycopg3 driver rewrite: a leading `postgresql://` becomes
      `postgresql+psycopg://`, with the rest of the URL kept; any other URL
      is left alone. The result never starts with `postgresql://`. */
  function SelectDriver(url: string): (r: string)
    ensures StartsWith(url, PostgresScheme) ==> r == PsycopgScheme + url[|PostgresScheme|..]
    ensures !StartsWith(url, PostgresScheme) ==> r == url
    ensures !StartsWith(r, PostgresScheme)
  {
    if StartsWith(url, PostgresScheme) then
      var r := ReplaceFirst(url, PostgresScheme, PsycopgScheme);
      assert r[10] == '+';
      r
    else url
  }

  /** Applying the driver rewrite a second time changes nothing. */
  lemma SelectDriverIdempotent(url: string)
    ensures SelectDriver(SelectDriver(url)) == SelectDriver(url)
  {
  }

  /** `SQLALCHEMY_DATABASE_URI`: the chosen URL after the driver rewrite.
      Without `DATABASE_URL` it is the SQLite URL, which the rewrite never
      touches. */
  function DatabaseUri(env: Env, basedir: string): (uri: string)
    ensures Present(Lookup(env, "DATABASE_URL")) ==> uri == SelectDriver(env["DATABASE_URL"])
    ensures !Present(Lookup(env, "DATABASE_URL")) ==> uri == "sqlite:///" + DbPath(env, basedir)
    ensures !StartsWith(uri, PostgresScheme)
  {
    var url := RawDatabaseUrl(env, basedir);
    assert !Present(Lookup(env, "DATABASE_URL")) ==> url[6] == ':' && !StartsWith(url, PostgresScheme);
    SelectDriver(url)
  }

  /** Where signature images are written: the Railway volume, or
      `<basedir>/static/signatures` elsewhere. */
  function UploadFolder(env: Env, basedir: string): (folder: string)
    ensures OnRailway(env) ==> folder == "/data/signatures"
    ensures !OnRailway(env) && basedir != "" && basedir[|basedir| - 1] != '/' ==>
              folder == basedir + "/static/signatures"
  {
    if OnRailway(env) then "/data/signatures"
    else
      if basedir != "" && basedir[|basedir| - 1] != '/' then
        JoinTwice(basedir, "static", "signatures");
        assert "/" + "static" + "/" + "signatures" == "/static/signatures";
        PathJoin(PathJoin(basedir, "static"), "signatures")
      else
        PathJoin(PathJoin(basedir, "static"), "signatures")
  }

  /** `SECRET_KEY`, or the development fallback when it is unset or empty. */
  function SecretKey(env: Env): (key: string)
    ensures Present(Lookup(env, "SECRET_KEY")) ==> key == env["SECRET_KEY"]
    ensures !Present(Lookup(env, "SECRET_KEY")) ==> key == "dev-secret-key-change-in-production"
  {
    var given := Lookup(env, "SECRET_KEY");
    if Present(given) then given.value else "dev-secret-key-change-in-production"
  }

  /** The request-size limit: five mebibytes. */
  function MaxContentLength(): (bytes: nat)
    ensures bytes == 5242880
  {
    5 * 1024 * 1024
  }

  /** The settings the application object is configured from. */
  datatype Settings = Settings(
    secretKey: string,
    databaseUri: string,
    trackModifications: bool,
    sessionLifetimeHours: nat,
    uploadFolder: string,
    maxContentLength: nat)

  function Load(env: Env, basedir: string): (s: Settings)
    ensures s.secretKey == SecretKey(env) && s.databaseUri == DatabaseUri(env, basedir)
    ensures s.uploadFolder == UploadFolder(env, basedir)
    ensures !StartsWith(s.databaseUri, PostgresScheme)
    ensures !s.trackModifications && s.sessionLifetimeHours == 24 && s.maxContentLength == 5242880
  {
    Settings(SecretKey(env), DatabaseUri(env, basedir), false, 24,
             UploadFolder(env, basedir), MaxContentLength())
  }

  /** On Railway without `DATABASE_URL`, the database URL names the file
      under `/tmp`. */
  lemma RailwayDatabaseUri(env: Env, basedir: string)
    requires OnRailway(env) && !Present(Lookup(env, "DATABASE_URL"))
    ensures DatabaseUri(env, basedir) == "sqlite:////tmp/pettycash.db"
  {
    assert DbPath(env, basedir) == RailwayDb;
  }

  /** On Railway without `DATABASE_URL`, the database and the signature
      folder both land at their fixed Railway locations. */
  lemma RailwayDefaults(env: Env, basedir: string)
    requires OnRailway(env) && !Present(Lookup(env, "DATABASE_URL"))
    ensures Load(env, basedir).databaseUri == "sqlite:////tmp/pettycash.db"
    ensures Load(env, basedir).uploadFolder == "/data/signatures"
  {
    RailwayDatabaseUri(env, basedir);
  }
}
