/**
 * The Firestore provider of the backend: the credentials override read from the
 * repository's `.env` files, the credentials fallback, the precedence chains that
 * resolve the project and the database, the emulator variables, the process-wide
 * client cache and the collection-name lookup.
 *
 * The process environment is an object whose variable map the methods update in
 * place. A `.env` file is the sequence of its lines, or None when it does not exist
 * or cannot be read; which paths exist is a set of paths. Building a real client is outside the model: a client is the
 * project and database it was built for, with the number of the build that made it.
 */
module FirestoreProvider {
  import opened Wrappers
  import opened Text

  const CredentialsKey := "GOOGLE_APPLICATION_CREDENTIALS"

  /** The variables whose presence marks Cloud Run, Cloud Functions, App Engine or GCE. */
  const GcpMarkers := ["K_SERVICE", "K_REVISION", "FUNCTION_TARGET", "GAE_ENV", "GCE_METADATA_HOST"]

  /** `os.environ` */
  class ProcessEnv {
    var vars: map<string, string>

    constructor(initial: map<string, string>)
      ensures vars == initial
    {
      vars := initial;
    }
  }

  /** `os.getenv(key)` */
  function Getenv(vars: map<string, string>, key: string): (r: Option<string>)
    ensures r.Some? <==> key in vars
    ensures r.Some? ==> r.value == vars[key]
  {
    if key in vars then Some(vars[key]) else None
  }

  /** Any of the markers set to a non-empty value. */
  predicate GcpManaged(vars: map<string, string>) {
    exists m :: m in GcpMarkers && Truthy(Getenv(vars, m))
  }

  // ---------------------------------------------------------------------------
  // `.env` files.

  /** A value read from a `.env` line: stripped, then every outer `"`, then every outer `'`. */
  function Unquote(v: string): (r: string)
    ensures r == [] || (r[0] != '\'' && r[|r| - 1] != '\'')
  {
    StripChar(StripChar(Trim(v), '"'), '\'')
  }

  /**
   * One line of a `.env` file read for `key`: blank lines, comments and lines without
   * `=` are skipped; the line is split at its first `=`, and when the stripped name is
   * the key the value is unquoted.
   */
  function EnvLine(raw: string, key: string): (r: Option<string>)
    ensures r.Some? ==> Trim(raw) != [] && Trim(raw)[0] != '#' && '=' in Trim(raw)
    ensures r.Some? ==> r.value == [] || (r.value[0] != '\'' && r.value[|r.value| - 1] != '\'')
  {
    var ln := Trim(raw);
    if ln == [] || ln[0] == '#' || '=' !in ln then None
    else
      var i := IndexOf(ln, '=');
      if Trim(ln[..i]) != key then None else Some(Unquote(ln[i + 1..]))
  }

  /** The value of the first line of a file that assigns `key`. */
  function FileValue(lines: seq<string>, key: string): Option<string> {
    if lines == [] then None
    else if EnvLine(lines[0], key).Some? then EnvLine(lines[0], key)
    else FileValue(lines[1..], key)
  }

  /** The value of the first readable file that assigns `key`. */
  function FirstFileValue(files: seq<Option<seq<string>>>, key: string): Option<string> {
    if files == [] then None
    else if files[0].Some? && FileValue(files[0].value, key).Some? then FileValue(files[0].value, key)
    else FirstFileValue(files[1..], key)
  }

  /** A value free of surrounding whitespace and quotes. */
  predicate PlainValue(v: string) {
    v != [] && !IsSpace(v[0]) && !IsSpace(v[|v| - 1])
    && v[0] != '"' && v[|v| - 1] != '"' && v[0] != '\'' && v[|v| - 1] != '\''
  }

  /** A name that can stand before the `=` of a line and is matched as written. */
  predicate PlainKey(k: string) {
    k != [] && '=' !in k && k[0] != '#' && !IsSpace(k[0]) && !IsSpace(k[|k| - 1])
  }

  lemma StripCharPlain(v: string, c: char)
    requires v != [] && v[0] != c && v[|v| - 1] != c
    ensures StripChar(v, c) == v
  {
  }

  lemma StripQuoted(v: string)
    requires PlainValue(v)
    ensures StripChar(['"'] + v + ['"'], '"') == v
  {
    var q := ['"'] + v + ['"'];
    assert q[1..] == v + ['"'];
    assert StripLeading(q, '"') == StripLeading(v + ['"'], '"');
    assert StripLeading(v + ['"'], '"') == v + ['"'];
    assert (v + ['"'])[..|v|] == v;
    assert StripTrailing(v + ['"'], '"') == StripTrailing(v, '"');
  }

  /** A plain value and its double-quoted form both unquote to the value. */
  lemma UnquotePlain(v: string)
    requires PlainValue(v)
    ensures Unquote(v) == v
    ensures Unquote(['"'] + v + ['"']) == v
  {
    TrimOfTrimmed(v);
    StripCharPlain(v, '"');
    StripCharPlain(v, '\'');
    var q := ['"'] + v + ['"'];
    TrimOfTrimmed(q);
    StripQuoted(v);
  }

  lemma AroundSeparator<U>(a: seq<U>, x: U, b: seq<U>)
    ensures |a + [x] + b| == |a| + 1 + |b|
    ensures (a + [x] + b)[..|a|] == a && (a + [x] + b)[|a|] == x && (a + [x] + b)[|a| + 1..] == b
  {
  }

  /** The parser finds the name before the first `=` of `key=rhs` and the text after it. */
  lemma AssignmentLine(key: string, rhs: string)
    requires PlainKey(key)
    requires rhs != [] && !IsSpace(rhs[|rhs| - 1])
    ensures var line := key + "=" + rhs;
      && line[..|key|] == key
      && line[|key| + 1..] == rhs
      && line[0] == key[0]
      && '=' in line
      && Trim(line) == line
      && IndexOf(line, '=') == |key|
  {
    var line := key + ['='] + rhs;
    AroundSeparator(key, '=', rhs);
    assert line[0] == key[0] && line[|line| - 1] == rhs[|rhs| - 1];
    TrimOfTrimmed(line);
    IndexOfAfter(key, '=', rhs);
  }

  /** A trimmed line whose name before the first `=` is the key assigns it what follows that `=`, unquoted. */
  lemma EnvLineMatch(raw: string, key: string, ln: string, i: nat)
    requires Trim(raw) == ln && ln != [] && ln[0] != '#' && '=' in ln
    requires i == IndexOf(ln, '=') && Trim(ln[..i]) == key
    ensures EnvLine(raw, key) == Some(Unquote(ln[i + 1..]))
  {
  }

  /** The line `key=rhs` assigns the key the unquoted right-hand side. */
  lemma EnvLineAssignment(key: string, rhs: string)
    requires PlainKey(key)
    requires rhs != [] && !IsSpace(rhs[|rhs| - 1])
    ensures EnvLine(key + "=" + rhs, key) == Some(Unquote(rhs))
  {
    var line := key + "=" + rhs;
    assert line[|key| + 1..] == rhs && EnvLine(line, key) == Some(Unquote(line[|key| + 1..])) by {
      AssignmentLine(key, rhs);
      TrimOfTrimmed(key);
      EnvLineMatch(line, key, line, |key|);
    }
  }

  /** Writing `key=value` and reading the line back gives the value. */
  lemma EnvLinePlainRoundTrip(key: string, value: string)
    requires PlainKey(key) && PlainValue(value)
    ensures EnvLine(key + "=" + value, key) == Some(value)
  {
    UnquotePlain(value);
    EnvLineAssignment(key, value);
  }

  /** Writing `key="value"` and reading the line back gives the value without its quotes. */
  lemma EnvLineQuotedRoundTrip(key: string, value: string)
    requires PlainKey(key) && PlainValue(value)
    ensures EnvLine(key + "=" + (['"'] + value + ['"']), key) == Some(value)
  {
    var quoted := ['"'] + value + ['"'];
    assert Unquote(quoted) == value by {
      UnquotePlain(value);
    }
    assert quoted != [] && quoted[|quoted| - 1] == '"';
    EnvLineAssignment(key, quoted);
  }

  /**
   * `_override_google_credentials_from_repo_env`: in a GCP-managed environment the
   * credentials variable is removed and no file is read; otherwise the first readable
   * file that assigns it sets it, even to an empty value, and the others are not read.
   */
  method OverrideCredentials(env: ProcessEnv, files: seq<Option<seq<string>>>)
    modifies env
    ensures GcpManaged(old(env.vars)) ==> env.vars == old(env.vars) - {CredentialsKey}
    ensures !GcpManaged(old(env.vars)) ==>
      env.vars == match FirstFileValue(files, CredentialsKey)
                  case None => old(env.vars)
                  case Some(v) => old(env.vars)[CredentialsKey := v]
  {
    if GcpManaged(env.vars) {
      if CredentialsKey in env.vars {
        env.vars := env.vars - {CredentialsKey};
      }
      return;
    }
    var i := 0;
    while i < |files|
      invariant 0 <= i <= |files|
      invariant env.vars == old(env.vars)
      invariant FirstFileValue(files, CredentialsKey) == FirstFileValue(files[i..], CredentialsKey)
    {
      assert files[i..][1..] == files[i + 1..];
      if files[i].Some? {
        var lines := files[i].value;
        var j := 0;
        while j < |lines|
          invariant 0 <= j <= |lines|
          invariant env.vars == old(env.vars)
          invariant FileValue(lines, CredentialsKey) == FileValue(lines[j..], CredentialsKey)
        {
          assert lines[j..][1..] == lines[j + 1..];
          var value := EnvLine(lines[j], CredentialsKey);
          if value.Some? {
            env.vars := env.vars[CredentialsKey := value.value];
            return;
          }
          j := j + 1;
        }
      }
      i := i + 1;
    }
  }

  // ---------------------------------------------------------------------------
  // Settings and precedence.

  /** The `firestore` section of the database configuration. */
  datatype FirestoreSection = FirestoreSection(
    databaseId: Option<string>,
    useEmulator: bool,
    emulatorHost: Option<string>,
    collections: map<string, string>)

  datatype DatabaseConfig = DatabaseConfig(firestore: Option<FirestoreSection>)

  /** The settings the provider reads: the project id, `_database_config` and `database`. */
  datatype Settings = Settings(
    googleProjectId: Option<string>,
    databaseConfig: Option<DatabaseConfig>,
    database: Option<DatabaseConfig>)

  /** The Firestore section of `_database_config`, when both exist. */
  function Section(s: Settings): Option<FirestoreSection> {
    if s.databaseConfig.Some? then s.databaseConfig.value.firestore else None
  }

  /**
   * `_resolve_project_id`: the first non-empty of `APP_GOOGLE_PROJECT_ID`, the
   * settings value and `GOOGLE_PROJECT_ID`, else the project the client library infers.
   */
  function ResolveProjectId(vars: map<string, string>, s: Settings, inferred: string): (r: string)
    ensures Truthy(Getenv(vars, "APP_GOOGLE_PROJECT_ID")) ==> r == vars["APP_GOOGLE_PROJECT_ID"]
    ensures !Truthy(Getenv(vars, "APP_GOOGLE_PROJECT_ID")) && Truthy(s.googleProjectId) ==> r == s.googleProjectId.value
    ensures (!Truthy(Getenv(vars, "APP_GOOGLE_PROJECT_ID")) && !Truthy(s.googleProjectId)
             && Truthy(Getenv(vars, "GOOGLE_PROJECT_ID"))) ==> r == vars["GOOGLE_PROJECT_ID"]
    ensures (!Truthy(Getenv(vars, "APP_GOOGLE_PROJECT_ID")) && !Truthy(s.googleProjectId)
             && !Truthy(Getenv(vars, "GOOGLE_PROJECT_ID"))) ==> r == inferred
  {
    var app := Getenv(vars, "APP_GOOGLE_PROJECT_ID");
    var legacy := Getenv(vars, "GOOGLE_PROJECT_ID");
    if Truthy(app) then app.value
    else if Truthy(s.googleProjectId) then s.googleProjectId.value
    else if Truthy(legacy) then legacy.value
    else inferred
  }

  /** A variable set to the empty text counts as unset. */
  lemma EmptyProjectVariableIsUnset(vars: map<string, string>, s: Settings, inferred: string, key: string)
    requires key == "APP_GOOGLE_PROJECT_ID" || key == "GOOGLE_PROJECT_ID"
    ensures ResolveProjectId(vars[key := ""], s, inferred) == ResolveProjectId(vars - {key}, s, inferred)
  {
  }

  const DefaultDatabase := "(default)"

  /** What resolving the database raises when `database` exists without a Firestore section. */
  datatype Raised = AttributeError

  /**
   * `_resolve_database_id`: the first non-empty of `APP_FIRESTORE_DATABASE_ID` and
   * `FIRESTORE_DATABASE_ID`; else the configured id unless it is empty or the
   * `(default)` placeholder; else the id of the `database` settings, or `(default)`
   * when there are none.
   */
  function ResolveDatabaseId(vars: map<string, string>, s: Settings): (r: Result<Option<string>, Raised>)
    ensures Truthy(Getenv(vars, "APP_FIRESTORE_DATABASE_ID")) ==> r == Ok(Getenv(vars, "APP_FIRESTORE_DATABASE_ID"))
    ensures !Truthy(Getenv(vars, "APP_FIRESTORE_DATABASE_ID")) && Truthy(Getenv(vars, "FIRESTORE_DATABASE_ID")) ==>
      r == Ok(Getenv(vars, "FIRESTORE_DATABASE_ID"))
    ensures r.Err? <==> (
      && !Truthy(Getenv(vars, "APP_FIRESTORE_DATABASE_ID")) && !Truthy(Getenv(vars, "FIRESTORE_DATABASE_ID"))
      && !(Section(s).Some? && ConfiguredDatabase(Section(s).value))
      && s.database.Some? && s.database.value.firestore.None?)
  {
    var envDb := Getenv(vars, "APP_FIRESTORE_DATABASE_ID");
    var legacyDb := Getenv(vars, "FIRESTORE_DATABASE_ID");
    if Truthy(envDb) then Ok(envDb)
    else if Truthy(legacyDb) then Ok(legacyDb)
    else if Section(s).Some? && ConfiguredDatabase(Section(s).value) then Ok(Section(s).value.databaseId)
    else if s.database.None? then Ok(Some(DefaultDatabase))
    else if s.database.value.firestore.None? then Err(AttributeError)
    else Ok(s.database.value.firestore.value.databaseId)
  }

  /** A configured database id that is neither empty nor the placeholder. */
  predicate ConfiguredDatabase(f: FirestoreSection) {
    Truthy(f.databaseId) && f.databaseId.value != DefaultDatabase
  }

  /** The `(default)` placeholder in the configuration is treated as no configuration at all. */
  lemma PlaceholderIsUnset(vars: map<string, string>, s: Settings)
    requires Section(s).Some? && Section(s).value.databaseId == Some(DefaultDatabase)
    ensures ResolveDatabaseId(vars, s) == ResolveDatabaseId(vars, s.(databaseConfig := None))
  {
  }

  // ---------------------------------------------------------------------------
  // The emulator variables.

  const EmulatorHostKey := "FIRESTORE_EMULATOR_HOST"
  const AppEmulatorHostKey := "APP_FIRESTORE_EMULATOR_HOST"

  predicate UseEmulator(s: Settings) {
    Section(s).Some? && Section(s).value.useEmulator
  }

  /** `emulator_host or os.getenv("FIRESTORE_EMULATOR_HOST")` */
  function EmulatorHost(vars: map<string, string>, s: Settings): Option<string>
    requires UseEmulator(s)
  {
    if Truthy(Section(s).value.emulatorHost) then Section(s).value.emulatorHost else Getenv(vars, EmulatorHostKey)
  }

  /** The variables after `_ensure_emulator_environment`. */
  function EmulatorEnvironment(vars: map<string, string>, s: Settings): (r: map<string, string>)
    ensures !UseEmulator(s) ==> EmulatorHostKey !in r && AppEmulatorHostKey !in r
    ensures !UseEmulator(s) ==> forall k :: k != EmulatorHostKey && k != AppEmulatorHostKey ==>
      (k in r <==> k in vars) && (k in r ==> r[k] == vars[k])
    ensures UseEmulator(s) && EmulatorHostKey in vars ==> r == vars
    ensures UseEmulator(s) && EmulatorHostKey !in vars && Truthy(Section(s).value.emulatorHost) ==>
      r == vars[EmulatorHostKey := Section(s).value.emulatorHost.value]
    ensures UseEmulator(s) && !Truthy(Section(s).value.emulatorHost) ==> r == vars
  {
    if !UseEmulator(s) then vars - {EmulatorHostKey, AppEmulatorHostKey}
    else
      var host := EmulatorHost(vars, s);
      if Truthy(host) && EmulatorHostKey !in vars then vars[EmulatorHostKey := host.value] else vars
  }

  /** The adjustment is idempotent: a second call changes nothing. */
  lemma EmulatorEnvironmentIdempotent(vars: map<string, string>, s: Settings)
    ensures EmulatorEnvironment(EmulatorEnvironment(vars, s), s) == EmulatorEnvironment(vars, s)
  {
  }

  /**
   * `_ensure_emulator_environment`: without the emulator both emulator variables are
   * removed; with it, the host is set only when the variable is not set already.
   */
  method EnsureEmulatorEnvironment(env: ProcessEnv, s: Settings)
    modifies env
    ensures env.vars == EmulatorEnvironment(old(env.vars), s)
  {
    if !UseEmulator(s) {
      var keys := [EmulatorHostKey, AppEmulatorHostKey];
      for k := 0 to |keys|
        invariant env.vars == old(env.vars) - set x | x in keys[..k]
      {
        if keys[k] in env.vars {
          env.vars := env.vars - {keys[k]};
        }
        assert keys[..k + 1] == keys[..k] + [keys[k]];
      }
      assert keys[..|keys|] == keys;
      assert (set x | x in keys) == {EmulatorHostKey, AppEmulatorHostKey};
      return;
    }
    var host := EmulatorHost(env.vars, s);
    if Truthy(host) && EmulatorHostKey !in env.vars {
      env.vars := env.vars[EmulatorHostKey := host.value];
    }
  }

  // ---------------------------------------------------------------------------
  // The credentials fallback.

  /** The value of the first readable file that assigns `key` a non-empty value. */
  function RepoFallbackValue(files: seq<Option<seq<string>>>, key: string): (r: Option<string>)
    ensures r.Some? ==> r.value != []
  {
    if files == [] then None
    else if files[0].Some? && Truthy(FileValue(files[0].value, key)) then FileValue(files[0].value, key)
    else RepoFallbackValue(files[1..], key)
  }

  /**
   * Over the same files, the fallback reads what the import-time override reads,
   * except that an empty value does not stop it.
   */
  lemma {:induction false} FallbackReadsLikeOverride(files: seq<Option<seq<string>>>, key: string)
    ensures Truthy(FirstFileValue(files, key)) ==> RepoFallbackValue(files, key) == FirstFileValue(files, key)
    ensures FirstFileValue(files, key).None? ==> RepoFallbackValue(files, key).None?
  {
    if files != [] {
      FallbackReadsLikeOverride(files[1..], key);
    }
  }

  /** The first candidate path that exists. */
  function FirstExisting(candidates: seq<string>, existing: set<string>): (r: Option<string>)
    ensures r.Some? ==> r.value in candidates && r.value in existing
    ensures r.None? <==> forall c :: c in candidates ==> c !in existing
  {
    if candidates == [] then None
    else if candidates[0] in existing then Some(candidates[0])
    else FirstExisting(candidates[1..], existing)
  }

  /**
   * The variables after `_ensure_credentials_fallback`. `files` are the repository
   * `.env` files in the order it reads them, `existing` the paths that exist and
   * `candidates` the credentials files it looks for, in order.
   */
  function CredentialsFallback(vars: map<string, string>, files: seq<Option<seq<string>>>,
                               existing: set<string>, candidates: seq<string>): (r: map<string, string>)
    ensures GcpManaged(vars) ==> r == vars
    ensures forall k :: k != CredentialsKey ==> (k in r <==> k in vars) && (k in r ==> r[k] == vars[k])
  {
    if GcpManaged(vars) then vars
    else
      var fromRepo := match RepoFallbackValue(files, CredentialsKey)
                      case None => vars
                      case Some(v) => vars[CredentialsKey := v];
      var val := Getenv(fromRepo, CredentialsKey);
      if Truthy(val) && val.value in existing then fromRepo
      else match FirstExisting(candidates, existing)
           case None => fromRepo
           case Some(c) => fromRepo[CredentialsKey := c]
  }

  /** Outside GCP, when any candidate file exists, the variable ends up naming an existing file. */
  lemma FallbackFindsCredentials(vars: map<string, string>, files: seq<Option<seq<string>>>,
                                 existing: set<string>, candidates: seq<string>)
    requires !GcpManaged(vars)
    requires exists c :: c in candidates && c in existing
    ensures var r := CredentialsFallback(vars, files, existing, candidates);
      CredentialsKey in r && r[CredentialsKey] in existing
  {
  }

  /** A repository value that names an existing file is kept as it is. */
  lemma FallbackPrefersRepoValue(vars: map<string, string>, files: seq<Option<seq<string>>>,
                                 existing: set<string>, candidates: seq<string>)
    requires !GcpManaged(vars)
    requires RepoFallbackValue(files, CredentialsKey).Some?
    requires RepoFallbackValue(files, CredentialsKey).value in existing
    ensures CredentialsFallback(vars, files, existing, candidates)
      == vars[CredentialsKey := RepoFallbackValue(files, CredentialsKey).value]
  {
  }

  /** With no repository value, a variable that already names an existing file is left alone. */
  lemma FallbackKeepsValidVariable(vars: map<string, string>, files: seq<Option<seq<string>>>,
                                   existing: set<string>, candidates: seq<string>)
    requires RepoFallbackValue(files, CredentialsKey).None?
    requires Truthy(Getenv(vars, CredentialsKey)) && vars[CredentialsKey] in existing
    ensures CredentialsFallback(vars, files, existing, candidates) == vars
  {
  }

  /** The fallback never changes what the project and the database resolve to. */
  lemma FallbackKeepsResolution(vars: map<string, string>, files: seq<Option<seq<string>>>,
                                existing: set<string>, candidates: seq<string>, s: Settings, inferred: string)
    ensures var r := CredentialsFallback(vars, files, existing, candidates);
      && ResolveProjectId(r, s, inferred) == ResolveProjectId(vars, s, inferred)
      && ResolveDatabaseId(r, s) == ResolveDatabaseId(vars, s)
  {
    var r := CredentialsFallback(vars, files, existing, candidates);
    assert Getenv(r, "APP_GOOGLE_PROJECT_ID") == Getenv(vars, "APP_GOOGLE_PROJECT_ID");
    assert Getenv(r, "GOOGLE_PROJECT_ID") == Getenv(vars, "GOOGLE_PROJECT_ID");
    assert Getenv(r, "APP_FIRESTORE_DATABASE_ID") == Getenv(vars, "APP_FIRESTORE_DATABASE_ID");
    assert Getenv(r, "FIRESTORE_DATABASE_ID") == Getenv(vars, "FIRESTORE_DATABASE_ID");
  }

  /**
   * `_ensure_credentials_fallback`: outside GCP, the first repository `.env` value
   * that is not empty overrides the variable; then, unless the variable names an
   * existing file, the first existing candidate file is written to it.
   */
  method EnsureCredentialsFallback(env: ProcessEnv, files: seq<Option<seq<string>>>,
                                   existing: set<string>, candidates: seq<string>)
    modifies env
    ensures env.vars == CredentialsFallback(old(env.vars), files, existing, candidates)
  {
    if GcpManaged(env.vars) {
      return;
    }
    var chosen: Option<string> := None;
    var i := 0;
    while i < |files| && chosen.None?
      invariant 0 <= i <= |files|
      invariant chosen.None? ==> env.vars == old(env.vars)
      invariant chosen.None? ==> RepoFallbackValue(files, CredentialsKey) == RepoFallbackValue(files[i..], CredentialsKey)
      invariant chosen.Some? ==> chosen == RepoFallbackValue(files, CredentialsKey)
      invariant chosen.Some? ==> env.vars == old(env.vars)[CredentialsKey := chosen.value]
    {
      assert files[i..][1..] == files[i + 1..];
      if files[i].Some? {
        var lines := files[i].value;
        var repoValue: Option<string> := None;
        var j := 0;
        while j < |lines| && repoValue.None?
          invariant 0 <= j <= |lines|
          invariant repoValue.None? ==> FileValue(lines, CredentialsKey) == FileValue(lines[j..], CredentialsKey)
          invariant repoValue.Some? ==> repoValue == FileValue(lines, CredentialsKey)
        {
          assert lines[j..][1..] == lines[j + 1..];
          repoValue := EnvLine(lines[j], CredentialsKey);
          j := j + 1;
        }
        if Truthy(repoValue) {
          env.vars := env.vars[CredentialsKey := repoValue.value];
          chosen := repoValue;
        }
      }
      i := i + 1;
    }
    var val := Getenv(env.vars, CredentialsKey);
    if Truthy(val) && val.value in existing {
      return;
    }
    var k := 0;
    while k < |candidates|
      invariant 0 <= k <= |candidates|
      invariant FirstExisting(candidates, existing) == FirstExisting(candidates[k..], existing)
    {
      assert candidates[k..][1..] == candidates[k + 1..];
      if candidates[k] in existing {
        env.vars := env.vars[CredentialsKey := candidates[k]];
        return;
      }
      k := k + 1;
    }
  }

  // ---------------------------------------------------------------------------
  // The client cache.

  /** A client, as the project and database it was built for and the build that made it. */
  datatype FirestoreClient = FirestoreClient(project: string, database: Option<string>, build: nat)

  /** The module-level `_client`. */
  class ClientCache {
    var client: Option<FirestoreClient>
    var builds: nat

    constructor()
      ensures client.None? && builds == 0
    {
      client := None;
      builds := 0;
    }

    /**
     * `get_firestore_client`: the cached client when there is one, with nothing else
     * done; otherwise the emulator variables are adjusted, the credentials fallback
     * runs, the project and database are resolved, and a new client is built and cached. `acceptsDatabase` is false for
     * library versions whose constructor rejects the database argument; the client
     * is then built without one. A database resolution that raises caches nothing.
     */
    method GetFirestoreClient(env: ProcessEnv, s: Settings, files: seq<Option<seq<string>>>,
                              existing: set<string>, candidates: seq<string>,
                              inferredProject: string, acceptsDatabase: bool)
      returns (r: Result<FirestoreClient, Raised>)
      modifies this, env
      ensures old(client).Some? ==>
        r == Ok(old(client).value) && client == old(client) && builds == old(builds) && env.vars == old(env.vars)
      ensures old(client).None? ==>
        env.vars == CredentialsFallback(EmulatorEnvironment(old(env.vars), s), files, existing, candidates)
      ensures old(client).None? ==> (r.Err? <==> ResolveDatabaseId(env.vars, s).Err?)
      ensures old(client).None? && r.Err? ==> client.None? && builds == old(builds)
      ensures old(client).None? && r.Ok? ==>
        && r.value.project == ResolveProjectId(env.vars, s, inferredProject)
        && r.value.database == (if acceptsDatabase then ResolveDatabaseId(env.vars, s).value else None)
        && r.value.build == old(builds)
        && client == Some(r.value) && builds == old(builds) + 1
    {
      if client.Some? {
        return Ok(client.value);
      }
      EnsureEmulatorEnvironment(env, s);
      EnsureCredentialsFallback(env, files, existing, candidates);
      var projectId := ResolveProjectId(env.vars, s, inferredProject);
      var databaseId := ResolveDatabaseId(env.vars, s);
      if databaseId.Err? {
        return Err(databaseId.error);
      }
      var built := FirestoreClient(projectId, if acceptsDatabase then databaseId.value else None, builds);
      client := Some(built);
      builds := builds + 1;
      r := Ok(built);
    }

    /** `reset_firestore_client`: the next request builds a new client. */
    method ResetFirestoreClient()
      modifies this
      ensures client.None? && builds == old(builds)
    {
      client := None;
    }
  }

  // ---------------------------------------------------------------------------
  // Collection names.

  /** `get_collection_name`: the configured name for the key, else the default. */
  function GetCollectionName(s: Settings, key: string, default: string): (r: string)
    ensures Section(s).None? ==> r == default
    ensures Section(s).Some? && key in Section(s).value.collections ==> r == Section(s).value.collections[key]
    ensures Section(s).Some? && key !in Section(s).value.collections ==> r == default
  {
    match Section(s)
    case None => default
    case Some(f) => if key in f.collections then f.collections[key] else default
  }

  /** The name is the default exactly when nothing else is configured for the key. */
  lemma CollectionNameDefault(s: Settings, key: string, default: string)
    ensures GetCollectionName(s, key, default) != default ==>
      Section(s).Some? && key in Section(s).value.collections
  {
  }
}
