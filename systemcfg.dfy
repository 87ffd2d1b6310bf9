/** The admin server's configuration merge rules: which environment entries
    are (re)loaded into the stored configuration map, how their strings are
    parsed, how `ldap_scope` is clamped and migrated, and how missing keys are
    filled in from defaults. The configuration map is a Go map shared by
    reference and updated in place; here it is the `items` field of a
    ConfigMap object. */
module SystemCfg {
  import opened Wrappers
  import opened Text

  /** A configuration value as the Go code stores it in an interface{}. A
      JSON number (a float64) is carried as its truncation toward zero,
      which is all that the code ever reads of it. */
  datatype Value = Str(s: string) | Int(i: int) | Bool(b: bool) | Float(whole: int)

  /** The process environment; an unset variable reads as "". */
  type Env = map<string, string>

  function Getenv(env: Env, name: string): string {
    if name in env then env[name] else ""
  }

  datatype ParseKind = ToInt | ToBool

  /** An entry of the env tables: the name of an environment variable whose
      string is stored as is, the name of one whose string is parsed, or
      (never in the tables below, but handled by the code) anything else. */
  datatype EnvSource = Plain(env: string) | Parsed(env: string, kind: ParseKind) | Unsupported

  /** The parser's own error, or the offending table entry. */
  datatype LoadError = ParseFailed(cause: NumError) | NotStringOrParser(entry: EnvSource)

  const LdapScopeKey: string := "ldap_scope"
  const ReloadKey: string := "reload_key"

  /** Every configuration read from the environment, by configuration key. */
  const AllEnvs: map<string, EnvSource> := map[
    "ext_endpoint" := Plain("EXT_ENDPOINT"),
    "auth_mode" := Plain("AUTH_MODE"),
    "self_registration" := Parsed("SELF_REGISTRATION", ToBool),
    "database_type" := Plain("DATABASE_TYPE"),
    "postgresql_host" := Plain("POSTGRESQL_HOST"),
    "postgresql_port" := Parsed("POSTGRESQL_PORT", ToInt),
    "postgresql_username" := Plain("POSTGRESQL_USERNAME"),
    "postgresql_password" := Plain("POSTGRESQL_PASSWORD"),
    "postgresql_database" := Plain("POSTGRESQL_DATABASE"),
    "postgresql_sslmode" := Plain("POSTGRESQL_SSLMODE"),
    "ldap_url" := Plain("LDAP_URL"),
    "ldap_search_dn" := Plain("LDAP_SEARCH_DN"),
    "ldap_search_password" := Plain("LDAP_SEARCH_PWD"),
    "ldap_base_dn" := Plain("LDAP_BASE_DN"),
    "ldap_filter" := Plain("LDAP_FILTER"),
    "ldap_uid" := Plain("LDAP_UID"),
    "ldap_scope" := Parsed("LDAP_SCOPE", ToInt),
    "ldap_timeout" := Parsed("LDAP_TIMEOUT", ToInt),
    "ldap_verify_cert" := Parsed("LDAP_VERIFY_CERT", ToBool),
    "ldap_group_base_dn" := Plain("LDAP_GROUP_BASEDN"),
    "ldap_group_search_filter" := Plain("LDAP_GROUP_FILTER"),
    "ldap_group_attribute_name" := Plain("LDAP_GROUP_GID"),
    "ldap_group_search_scope" := Parsed("LDAP_GROUP_SCOPE", ToInt),
    "email_host" := Plain("EMAIL_HOST"),
    "email_port" := Parsed("EMAIL_PORT", ToInt),
    "email_username" := Plain("EMAIL_USR"),
    "email_password" := Plain("EMAIL_PWD"),
    "email_ssl" := Parsed("EMAIL_SSL", ToBool),
    "email_insecure" := Parsed("EMAIL_INSECURE", ToBool),
    "email_from" := Plain("EMAIL_FROM"),
    "email_identity" := Plain("EMAIL_IDENTITY"),
    "registry_url" := Plain("REGISTRY_URL"),
    "token_expiration" := Parsed("TOKEN_EXPIRATION", ToInt),
    "cfg_expiration" := Parsed("CFG_EXPIRATION", ToInt),
    "max_job_workers" := Parsed("MAX_JOB_WORKERS", ToInt),
    "project_creation_restriction" := Plain("PROJECT_CREATION_RESTRICTION"),
    "admin_initial_password" := Plain("HARBOR_ADMIN_PASSWORD"),
    "admiral_url" := Plain("ADMIRAL_URL"),
    "with_notary" := Parsed("WITH_NOTARY", ToBool),
    "with_clair" := Parsed("WITH_CLAIR", ToBool),
    "clair_db_password" := Plain("CLAIR_DB_PASSWORD"),
    "clair_db" := Plain("CLAIR_DB"),
    "clair_db_username" := Plain("CLAIR_DB_USERNAME"),
    "clair_db_host" := Plain("CLAIR_DB_HOST"),
    "clair_db_port" := Parsed("CLAIR_DB_PORT", ToInt),
    "clair_db_sslmode" := Plain("CLAIR_DB_SSLMODE"),
    "uaa_endpoint" := Plain("UAA_ENDPOINT"),
    "uaa_client_id" := Plain("UAA_CLIENTID"),
    "uaa_client_secret" := Plain("UAA_CLIENTSECRET"),
    "uaa_verify_cert" := Parsed("UAA_VERIFY_CERT", ToBool),
    "core_url" := Plain("CORE_URL"),
    "jobservice_url" := Plain("JOBSERVICE_URL"),
    "token_service_url" := Plain("TOKEN_SERVICE_URL"),
    "clair_url" := Plain("CLAIR_URL"),
    "notary_url" := Plain("NOTARY_URL"),
    "registry_storage_provider_name" := Plain("REGISTRY_STORAGE_PROVIDER_NAME"),
    "read_only" := Parsed("READ_ONLY", ToBool),
    "reload_key" := Plain("RELOAD_KEY"),
    "ldap_group_admin_dn" := Plain("LDAP_GROUP_ADMIN_DN"),
    "chart_repository_url" := Plain("CHART_REPOSITORY_URL"),
    "with_chartmuseum" := Parsed("WITH_CHARTMUSEUM", ToBool)
  ]

  /** The configurations read from the environment on every start. */
  const RepeatLoadEnvs: map<string, EnvSource> := map[
    "ext_endpoint" := Plain("EXT_ENDPOINT"),
    "postgresql_host" := Plain("POSTGRESQL_HOST"),
    "postgresql_port" := Parsed("POSTGRESQL_PORT", ToInt),
    "postgresql_username" := Plain("POSTGRESQL_USERNAME"),
    "postgresql_password" := Plain("POSTGRESQL_PASSWORD"),
    "postgresql_database" := Plain("POSTGRESQL_DATABASE"),
    "postgresql_sslmode" := Plain("POSTGRESQL_SSLMODE"),
    "max_job_workers" := Parsed("MAX_JOB_WORKERS", ToInt),
    "cfg_expiration" := Parsed("CFG_EXPIRATION", ToInt),
    "admiral_url" := Plain("ADMIRAL_URL"),
    "with_notary" := Parsed("WITH_NOTARY", ToBool),
    "with_clair" := Parsed("WITH_CLAIR", ToBool),
    "clair_db_password" := Plain("CLAIR_DB_PASSWORD"),
    "clair_db_host" := Plain("CLAIR_DB_HOST"),
    "clair_db_username" := Plain("CLAIR_DB_USERNAME"),
    "clair_db_port" := Parsed("CLAIR_DB_PORT", ToInt),
    "clair_db_sslmode" := Plain("CLAIR_DB_SSLMODE"),
    "uaa_endpoint" := Plain("UAA_ENDPOINT"),
    "uaa_client_id" := Plain("UAA_CLIENTID"),
    "uaa_client_secret" := Plain("UAA_CLIENTSECRET"),
    "uaa_verify_cert" := Parsed("UAA_VERIFY_CERT", ToBool),
    "registry_storage_provider_name" := Plain("REGISTRY_STORAGE_PROVIDER_NAME"),
    "core_url" := Plain("CORE_URL"),
    "jobservice_url" := Plain("JOBSERVICE_URL"),
    "registry_url" := Plain("REGISTRY_URL"),
    "token_service_url" := Plain("TOKEN_SERVICE_URL"),
    "clair_url" := Plain("CLAIR_URL"),
    "notary_url" := Plain("NOTARY_URL"),
    "database_type" := Plain("DATABASE_TYPE"),
    "chart_repository_url" := Plain("CHART_REPOSITORY_URL"),
    "with_chartmuseum" := Parsed("WITH_CHARTMUSEUM", ToBool)
  ]

  /** The two package-level tables, passed explicitly to the loaders. */
  datatype EnvTables = EnvTables(all: map<string, EnvSource>, repeat: map<string, EnvSource>)

  const Tables: EnvTables := EnvTables(AllEnvs, RepeatLoadEnvs)

  /** The configuration map, shared by reference between the loaders. */
  class ConfigMap {
    var items: map<string, Value>

    constructor (initial: map<string, Value>)
      ensures items == initial
    {
      items := initial;
    }
  }

  // ---------------------------------------------------------------------
  // Parsers
  // ---------------------------------------------------------------------

  /** The empty string means 0; anything else must be a decimal int. */
  function ParseStringToInt(str: string): (r: Result<Value, NumError>)
    ensures str == "" ==> r == Ok(Int(0))
    ensures str != "" ==> (r.Ok? <==> Atoi(str).Ok?)
    ensures r.Ok? && str != "" ==> r.value == Int(Atoi(str).value)
  {
    if |str| == 0 then Ok(Int(0))
    else
      match Atoi(str)
      case Ok(n) => Ok(Int(n))
      case Err(e) => Err(e)
  }

  /** "true" and "on", in any letter case, mean true; everything else, the
      empty string included, means false. It never fails. */
  function ParseStringToBool(str: string): (r: Result<Value, NumError>)
    ensures r.Ok? && r.value.Bool?
    ensures r.value.b <==> EqualFold(str, "true") || EqualFold(str, "on")
  {
    EqualFoldAgainstLower(str, "true");
    EqualFoldAgainstLower(str, "on");
    Ok(Bool(ToLower(str) == "true" || ToLower(str) == "on"))
  }

  function Parse(kind: ParseKind, str: string): Result<Value, NumError> {
    match kind
    case ToInt => ParseStringToInt(str)
    case ToBool => ParseStringToBool(str)
  }

  /** The integer parser reads back every int printed in decimal. */
  lemma ParseIntOfItoa(n: int)
    requires MinInt <= n <= MaxInt
    ensures ParseStringToInt(Itoa(n)) == Ok(Int(n))
  {
    AtoiItoa(n);
    NatDigitsValue(if n < 0 then -n else n);
  }

  // ---------------------------------------------------------------------
  // Reload decision
  // ---------------------------------------------------------------------

  /** The reload key stored in a configuration, if it is a string. */
  function StoredReloadKey(cfg: map<string, Value>): Option<string> {
    if ReloadKey in cfg && cfg[ReloadKey].Str? then Some(cfg[ReloadKey].s) else None
  }

  /** Everything is reloaded when nothing is stored yet, or when RESET is
      "true" (in any case) and RELOAD_KEY differs from the stored key. */
  function IsLoadAll(cfg: Option<map<string, Value>>, env: Env): (r: bool)
    ensures cfg.None? ==> r
    ensures cfg.Some? && !EqualFold(Getenv(env, "RESET"), "true") ==> !r
    ensures cfg.Some? && StoredReloadKey(cfg.value) == Some(Getenv(env, "RELOAD_KEY")) ==> !r
    ensures (cfg.Some? && EqualFold(Getenv(env, "RESET"), "true")
             && StoredReloadKey(cfg.value) != Some(Getenv(env, "RELOAD_KEY"))) ==> r
  {
    cfg.None? ||
    (EqualFold(Getenv(env, "RESET"), "true")
     && !(ReloadKey in cfg.value && cfg.value[ReloadKey] == Str(Getenv(env, "RELOAD_KEY"))))
  }

  // ---------------------------------------------------------------------
  // Loading from the environment
  // ---------------------------------------------------------------------

  /** A compiled regular expression, as the predicate "matches somewhere". */
  type Matcher = string -> bool

  /** What the pattern "$^" matches under RE2: the empty string only. */
  function DefaultSkipMatcher(): Matcher {
    s => s == ""
  }

  /** The skip matcher: SKIP_RELOAD_ENV_PATTERN, trimmed, compiled with
      `compile`; an empty pattern or one that does not compile gives "$^". */
  function SkipMatcher(env: Env, compile: string -> Option<Matcher>): Matcher {
    var pattern := TrimSpace(Getenv(env, "SKIP_RELOAD_ENV_PATTERN"));
    if |pattern| == 0 then DefaultSkipMatcher()
    else
      match compile(pattern)
      case Some(m) => m
      case None => DefaultSkipMatcher()
  }

  /** White space around SKIP_RELOAD_ENV_PATTERN never changes the
      matcher. */
  lemma SkipPatternIgnoresPadding(env: Env, p: string, q: string, compile: string -> Option<Matcher>)
    requires AllSpace(p) && AllSpace(q)
    ensures var padded := p + Getenv(env, "SKIP_RELOAD_ENV_PATTERN") + q;
            SkipMatcher(env["SKIP_RELOAD_ENV_PATTERN" := padded], compile) == SkipMatcher(env, compile)
  {
    TrimSpaceIgnoresPadding(p, Getenv(env, "SKIP_RELOAD_ENV_PATTERN"), q);
  }

  /** A blank or missing pattern skips with "$^", whatever `compile` does. */
  lemma BlankPatternIsDefault(env: Env, compile: string -> Option<Matcher>)
    requires AllSpace(Getenv(env, "SKIP_RELOAD_ENV_PATTERN"))
    ensures SkipMatcher(env, compile) == DefaultSkipMatcher()
  {
    var pattern := Getenv(env, "SKIP_RELOAD_ENV_PATTERN");
    TrimSpaceIgnoresPadding(pattern, "", "");
    assert pattern + "" + "" == pattern;
  }

  /** An entry is skipped when RESET is "true" and its env name matches. */
  predicate Skipped(src: EnvSource, env: Env, matcher: Matcher) {
    match src
    case Plain(name) => matcher(name) && EqualFold(Getenv(env, "RESET"), "true")
    case Parsed(name, _) => matcher(name) && EqualFold(Getenv(env, "RESET"), "true")
    case Unsupported => false
  }

  /** The value an entry contributes, or why it aborts the load. */
  function EntryValue(src: EnvSource, env: Env): Result<Value, LoadError> {
    match src
    case Plain(name) => Ok(Str(Getenv(env, name)))
    case Parsed(name, kind) =>
      (match Parse(kind, Getenv(env, name))
       case Ok(v) => Ok(v)
       case Err(e) => Err(ParseFailed(e)))
    case Unsupported => Err(NotStringOrParser(src))
  }

  function Restrict(envs: map<string, EnvSource>, keys: set<string>): (r: map<string, EnvSource>)
    ensures forall k :: k in r <==> k in envs && k in keys
    ensures forall k :: k in r ==> r[k] == envs[k]
  {
    map k | k in envs && k in keys :: envs[k]
  }

  /** Widening the restriction by one key of the map adds that entry. */
  lemma RestrictAdd(m: map<string, EnvSource>, keys: set<string>, k: string)
    requires k in m
    ensures Restrict(m, keys + {k}) == Restrict(m, keys)[k := m[k]]
  {
    var a := Restrict(m, keys + {k});
    var b := Restrict(m, keys)[k := m[k]];
    assert a.Keys == b.Keys;
  }

  /** The entries selected for loading: every entry when `all`; otherwise
      the repeat-load entries and the entries whose key is not stored. */
  function EnvsToLoad(tables: EnvTables, cfgs: map<string, Value>, all: bool): map<string, EnvSource> {
    if all then tables.all
    else tables.repeat + Restrict(tables.all, tables.all.Keys - cfgs.Keys)
  }

  /** Every entry that is not skipped yields a value. */
  predicate LoadSucceeds(envs: map<string, EnvSource>, env: Env, matcher: Matcher) {
    forall k :: k in envs && !Skipped(envs[k], env, matcher) ==> EntryValue(envs[k], env).Ok?
  }

  /** What an entry writes: nothing when it is skipped or fails, else its
      value. */
  function Contribution(src: EnvSource, env: Env, matcher: Matcher): Option<Value> {
    if Skipped(src, env, matcher) then None
    else
      match EntryValue(src, env)
      case Ok(v) => Some(v)
      case Err(_) => None
  }

  /** Contribution as a function of the entry alone. */
  function Contributor(env: Env, matcher: Matcher): (f: EnvSource -> Option<Value>)
    ensures forall src :: f(src) == Contribution(src, env, matcher)
  {
    src => Contribution(src, env, matcher)
  }

  /** `cfgs` with the value `f` gives an entry of `envs` written over its
      key, wherever `f` gives one. */
  function Overlay(cfgs: map<string, Value>, envs: map<string, EnvSource>,
                   f: EnvSource -> Option<Value>): (r: map<string, Value>)
    ensures forall k :: k in r <==> k in cfgs || (k in envs && f(envs[k]).Some?)
    ensures forall k :: k in r ==>
              if k in envs && f(envs[k]).Some? then Some(r[k]) == f(envs[k]) else r[k] == cfgs[k]
  {
    cfgs + map k | k in envs && f(envs[k]).Some? :: f(envs[k]).value
  }

  /** Overlaying one more entry writes its value, if it has one. */
  lemma OverlayStep(cfgs: map<string, Value>, done: map<string, EnvSource>, k: string,
                    src: EnvSource, f: EnvSource -> Option<Value>)
    requires k !in done
    ensures Overlay(cfgs, done[k := src], f)
            == if f(src).Some? then Overlay(cfgs, done, f)[k := f(src).value] else Overlay(cfgs, done, f)
  {
    var d := done[k := src];
    var a := Overlay(cfgs, d, f);
    var before := Overlay(cfgs, done, f);
    var b := if f(src).Some? then before[k := f(src).value] else before;
    forall j ensures j in a <==> j in b {
      if j != k { assert (j in d && f(d[j]).Some?) <==> (j in done && f(done[j]).Some?); }
    }
    forall j | j in a ensures a[j] == b[j] {
      if j != k { assert (j in d && f(d[j]).Some?) <==> (j in done && f(done[j]).Some?); }
    }
    MapExt(a, b);
  }

  /** Two maps with the same keys and values are equal. */
  lemma MapExt(a: map<string, Value>, b: map<string, Value>)
    requires forall j :: j in a <==> j in b
    requires forall j :: j in a ==> a[j] == b[j]
    ensures a == b
  {
  }

  /** `cfgs` with every entry of `envs` that is neither skipped nor failing
      written over it. */
  function Loaded(cfgs: map<string, Value>, envs: map<string, EnvSource>, env: Env, matcher: Matcher)
    : map<string, Value>
  {
    Overlay(cfgs, envs, Contributor(env, matcher))
  }

  /** The loaded map holds the stored keys and the keys of the entries that
      are neither skipped nor failing; those carry their entry's value,
      every other key its stored one. */
  lemma LoadedContents(cfgs: map<string, Value>, envs: map<string, EnvSource>, env: Env, matcher: Matcher)
    ensures var r := Loaded(cfgs, envs, env, matcher);
            && (forall k :: k in r <==>
                  k in cfgs || (k in envs && !Skipped(envs[k], env, matcher) && EntryValue(envs[k], env).Ok?))
            && (forall k :: k in r ==>
                  if k in envs && !Skipped(envs[k], env, matcher) && EntryValue(envs[k], env).Ok?
                  then Ok(r[k]) == EntryValue(envs[k], env)
                  else r[k] == cfgs[k])
  {
  }

  /** `cfgs` after one entry is loaded under `k`: unchanged when the entry
      is skipped or fails, else with the entry's value. */
  function Written(cfgs: map<string, Value>, k: string, src: EnvSource, env: Env, matcher: Matcher)
    : map<string, Value>
  {
    if !Skipped(src, env, matcher) && EntryValue(src, env).Ok? then cfgs[k := EntryValue(src, env).value]
    else cfgs
  }

  /** Adding one entry to the loaded part writes just that entry; so the
      range order does not matter on success. */
  lemma LoadedStep(cfgs: map<string, Value>, done: map<string, EnvSource>, k: string,
                   src: EnvSource, env: Env, matcher: Matcher)
    requires k !in done
    ensures Loaded(cfgs, done[k := src], env, matcher) == Written(Loaded(cfgs, done, env, matcher), k, src, env, matcher)
  {
    OverlayStep(cfgs, done, k, src, Contributor(env, matcher));
  }

  /** Some selected entry that is not skipped fails with `e`. */
  predicate FailsWith(envs: map<string, EnvSource>, env: Env, matcher: Matcher, e: LoadError) {
    exists k :: k in envs && !Skipped(envs[k], env, matcher) && EntryValue(envs[k], env) == Err(e)
  }

  /** `after` keeps every key of `before`, and each of its keys holds
      either its old value or the value of a selected entry. */
  predicate OnlyLoadedValues(before: map<string, Value>, after: map<string, Value>,
                             envs: map<string, EnvSource>, env: Env) {
    && before.Keys <= after.Keys
    && forall k :: k in after ==>
         (k in before && after[k] == before[k]) || (k in envs && EntryValue(envs[k], env) == Ok(after[k]))
  }

  /** Two entry tables with the same keys and entries are equal. */
  lemma SourceMapExt(a: map<string, EnvSource>, b: map<string, EnvSource>)
    requires forall j :: j in a <==> j in b
    requires forall j :: j in a ==> a[j] == b[j]
    ensures a == b
  {
  }

  /** Loading any part of the selection writes only loaded values. */
  lemma PartialLoad(cfgs: map<string, Value>, done: map<string, EnvSource>, envs: map<string, EnvSource>,
                    env: Env, matcher: Matcher)
    requires forall k :: k in done ==> k in envs && done[k] == envs[k]
    ensures OnlyLoadedValues(cfgs, Loaded(cfgs, done, env, matcher), envs, env)
  {
  }

  /** Loads one table entry into `cfg`: a skipped entry changes nothing, a
      failing one aborts with its error, any other is stored. */
  method LoadEntry(cfg: ConfigMap, k: string, src: EnvSource, env: Env, matcher: Matcher)
    returns (err: Option<LoadError>)
    modifies cfg
    ensures err.None? <==> Skipped(src, env, matcher) || EntryValue(src, env).Ok?
    ensures err.Some? ==> Err(err.value) == EntryValue(src, env) && cfg.items == old(cfg.items)
    ensures err.None? ==> cfg.items == Written(old(cfg.items), k, src, env, matcher)
  {
    var reloadCfg := Getenv(env, "RESET");
    match src {
      case Plain(name) =>
        if matcher(name) && EqualFold(reloadCfg, "true") {
          return None;
        }
        cfg.items := cfg.items[k := Str(Getenv(env, name))];
      case Parsed(name, kind) =>
        if matcher(name) && EqualFold(reloadCfg, "true") {
          return None;
        }
        var parsed := Parse(kind, Getenv(env, name));
        if parsed.Err? {
          return Some(ParseFailed(parsed.error));
        }
        cfg.items := cfg.items[k := parsed.value];
      case Unsupported =>
        return Some(NotStringOrParser(src));
    }
    return None;
  }

  /** A later update of a union lands in its right-hand side. */
  lemma UnionUpdate(a: map<string, EnvSource>, b: map<string, EnvSource>, k: string, v: EnvSource)
    ensures (a + b)[k := v] == a + b[k := v]
  {
    assert ((a + b)[k := v]).Keys == (a + b[k := v]).Keys;
  }

  /** The selected entries: the full table, or a copy of the repeat-load
      table completed with the unstored entries of the full table. */
  method SelectEnvs(tables: EnvTables, cfgs: map<string, Value>, all: bool)
    returns (envs: map<string, EnvSource>)
    ensures envs == EnvsToLoad(tables, cfgs, all)
  {
    if all {
      return tables.all;
    }
    envs := CopyEnvs(tables.repeat);
    envs := AddAbsentEnvs(envs, tables.all, cfgs.Keys);
  }

  /** The range loop copying a table. */
  method CopyEnvs(m: map<string, EnvSource>) returns (envs: map<string, EnvSource>)
    ensures envs == m
  {
    envs := map[];
    var todo := m.Keys;
    ghost var done: set<string> := {};
    while todo != {}
      invariant todo <= m.Keys && done == m.Keys - todo
      invariant envs == Restrict(m, done)
      decreases todo
    {
      var k :| k in todo;
      RestrictAdd(m, done, k);
      todo := todo - {k};
      done := done + {k};
      envs := envs[k := m[k]];
    }
    assert envs.Keys == m.Keys;
  }

  /** One more key of `all` considered: added exactly when it is not
      stored. */
  lemma AbsentStep(start: map<string, EnvSource>, all: map<string, EnvSource>, stored: set<string>,
                   done: set<string>, k: string)
    requires k in all
    ensures start + Restrict(all, (done + {k}) - stored)
            == if k !in stored then (start + Restrict(all, done - stored))[k := all[k]]
               else start + Restrict(all, done - stored)
  {
    var keys := done - stored;
    if k !in stored {
      RestrictAdd(all, keys, k);
      UnionUpdate(start, Restrict(all, keys), k, all[k]);
      assert (done + {k}) - stored == keys + {k};
    } else {
      assert (done + {k}) - stored == keys;
    }
  }

  /** The range loop adding each entry of `all` whose key is not among the
      stored keys. */
  method AddAbsentEnvs(start: map<string, EnvSource>, all: map<string, EnvSource>, stored: set<string>)
    returns (envs: map<string, EnvSource>)
    ensures envs == start + Restrict(all, all.Keys - stored)
  {
    envs := start;
    var todo := all.Keys;
    ghost var done: set<string> := {};
    while todo != {}
      invariant todo <= all.Keys && done == all.Keys - todo
      invariant envs == start + Restrict(all, done - stored)
      decreases todo
    {
      var k :| k in todo;
      AbsentStep(start, all, stored, done, k);
      if k !in stored {
        envs := envs[k := all[k]];
      }
      todo := todo - {k};
      done := done + {k};
    }
  }

  /** Loads the selected environment entries into `cfg`, then normalizes
      `ldap_scope`. A parse failure or an entry of no known shape aborts;
      on success the new map is exactly Loaded with the scope normalized. */
  method LoadFromEnv(tables: EnvTables, cfg: ConfigMap, all: bool, env: Env,
                     compile: string -> Option<Matcher>)
    returns (err: Option<LoadError>)
    modifies cfg
    ensures var envs := EnvsToLoad(tables, old(cfg.items), all);
            err.None? <==> LoadSucceeds(envs, env, SkipMatcher(env, compile))
    ensures var envs := EnvsToLoad(tables, old(cfg.items), all);
            err.None? ==> cfg.items == WithLdapScope(Loaded(old(cfg.items), envs, env, SkipMatcher(env, compile)), false)
    ensures var envs := EnvsToLoad(tables, old(cfg.items), all);
            err.Some? ==> FailsWith(envs, env, SkipMatcher(env, compile), err.value)
    ensures err.Some? ==> OnlyLoadedValues(old(cfg.items), cfg.items, EnvsToLoad(tables, old(cfg.items), all), env)
  {
    var envs := SelectEnvs(tables, cfg.items, all);
    var matcher := SkipMatcher(env, compile);
    err := LoadEnvs(cfg, envs, env, matcher);
    if err.None? {
      ValidLdapScope(cfg, false);
    }
  }

  /** The range loop over the selected entries. */
  method LoadEnvs(cfg: ConfigMap, envs: map<string, EnvSource>, env: Env, matcher: Matcher)
    returns (err: Option<LoadError>)
    modifies cfg
    ensures err.None? <==> LoadSucceeds(envs, env, matcher)
    ensures err.None? ==> cfg.items == Loaded(old(cfg.items), envs, env, matcher)
    ensures err.Some? ==> FailsWith(envs, env, matcher, err.value)
    ensures err.Some? ==> OnlyLoadedValues(old(cfg.items), cfg.items, envs, env)
  {
    ghost var start := cfg.items;
    var todo := envs.Keys;
    ghost var done: map<string, EnvSource> := map[];
    while todo != {}
      invariant todo <= envs.Keys && done.Keys == envs.Keys - todo
      invariant forall j :: j in done ==> j in envs && done[j] == envs[j]
      invariant LoadSucceeds(done, env, matcher)
      invariant cfg.items == Loaded(start, done, env, matcher)
      decreases todo
    {
      var k :| k in todo;
      LoadedStep(start, done, k, envs[k], env, matcher);
      err := LoadEntry(cfg, k, envs[k], env, matcher);
      if err.Some? {
        assert FailsWith(envs, env, matcher, err.value) by {
          assert k in envs && !Skipped(envs[k], env, matcher) && EntryValue(envs[k], env) == Err(err.value);
        }
        PartialLoad(start, done, envs, env, matcher);
        return;
      }
      todo := todo - {k};
      done := done[k := envs[k]];
    }
    SourceMapExt(done, envs);
    return None;
  }

  // ---------------------------------------------------------------------
  // ldap_scope
  // ---------------------------------------------------------------------

  /** The stored scope as an int: an int as is, a JSON number truncated,
      anything else (or nothing) as 0. */
  function RawLdapScope(cfg: map<string, Value>): int {
    if LdapScopeKey !in cfg then 0
    else
      match cfg[LdapScopeKey]
      case Int(i) => i
      case Float(w) => w
      case _ => 0
  }

  /** Migration shifts the old scopes 1 and 2 down by one; the result is
      then clamped to 0..2. */
  function NormalizeLdapScope(raw: int, isMigrate: bool): (r: int)
    ensures 0 <= r <= 2
    ensures isMigrate && 1 <= raw <= 2 ==> r == raw - 1
    ensures !isMigrate && 0 <= raw <= 2 ==> r == raw
    ensures raw >= 3 ==> r == 2
    ensures raw <= 0 ==> r == 0
  {
    var scope := if isMigrate && raw > 0 && raw < 3 then raw - 1 else raw;
    if scope >= 3 then 2 else if scope < 0 then 0 else scope
  }

  /** `cfg` with `ldap_scope` replaced by its normalized int and nothing
      else changed. */
  function WithLdapScope(cfg: map<string, Value>, isMigrate: bool): (r: map<string, Value>)
    ensures LdapScopeKey in r && r[LdapScopeKey].Int? && 0 <= r[LdapScopeKey].i <= 2
    ensures r.Keys == cfg.Keys + {LdapScopeKey}
    ensures forall k :: k in cfg && k != LdapScopeKey ==> r[k] == cfg[k]
  {
    cfg[LdapScopeKey := Int(NormalizeLdapScope(RawLdapScope(cfg), isMigrate))]
  }

  method ValidLdapScope(cfg: ConfigMap, isMigrate: bool)
    modifies cfg
    ensures cfg.items == WithLdapScope(old(cfg.items), isMigrate)
  {
    var ldapScope := 0;
    if LdapScopeKey in cfg.items {
      match cfg.items[LdapScopeKey] {
        case Int(i) => ldapScope := i;
        case Float(w) => ldapScope := w;
        case _ =>
      }
    }
    if isMigrate && ldapScope > 0 && ldapScope < 3 {
      ldapScope := ldapScope - 1;
    }
    if ldapScope >= 3 {
      ldapScope := 2;
    }
    if ldapScope < 0 {
      ldapScope := 0;
    }
    cfg.items := cfg.items[LdapScopeKey := Int(ldapScope)];
  }

  // ---------------------------------------------------------------------
  // Defaults for missing keys
  // ---------------------------------------------------------------------

  /** `cfg` with every key of `defaults` that it lacks added. */
  function FillMissing(cfg: map<string, Value>, defaults: map<string, Value>): (r: map<string, Value>)
    ensures r.Keys == cfg.Keys + defaults.Keys
    ensures forall k :: k in cfg ==> r[k] == cfg[k]
    ensures forall k :: k in defaults && k !in cfg ==> r[k] == defaults[k]
  {
    map k | k in cfg.Keys + defaults.Keys :: if k in cfg then cfg[k] else defaults[k]
  }

  function StrValues(m: map<string, string>): (r: map<string, Value>)
    ensures r.Keys == m.Keys && forall k :: k in m ==> r[k] == Str(m[k])
  {
    map k | k in m :: Str(m[k])
  }

  function IntValues(m: map<string, int>): (r: map<string, Value>)
    ensures r.Keys == m.Keys && forall k :: k in m ==> r[k] == Int(m[k])
  {
    map k | k in m :: Int(m[k])
  }

  function BoolValues(m: map<string, bool>): (r: map<string, Value>)
    ensures r.Keys == m.Keys && forall k :: k in m ==> r[k] == Bool(m[k])
  {
    map k | k in m :: Bool(m[k])
  }

  /** The three default maps applied in turn (string, then number, then
      bool): stored keys keep their values, every default key is present,
      nothing else is added, and on overlap string beats number beats bool. */
  function WithDefaults(cfg: map<string, Value>, strs: map<string, string>,
                        nums: map<string, int>, bools: map<string, bool>): (r: map<string, Value>)
    ensures r.Keys == cfg.Keys + strs.Keys + nums.Keys + bools.Keys
    ensures forall k :: k in cfg ==> r[k] == cfg[k]
    ensures forall k :: k in strs && k !in cfg ==> r[k] == Str(strs[k])
    ensures forall k :: k in nums && k !in cfg && k !in strs ==> r[k] == Int(nums[k])
    ensures forall k :: k in bools && k !in cfg && k !in strs && k !in nums ==> r[k] == Bool(bools[k])
  {
    FillMissing(FillMissing(FillMissing(cfg, StrValues(strs)), IntValues(nums)), BoolValues(bools))
  }

  /** One range loop of AddMissedKey. */
  method AddMissing(cfg: ConfigMap, defaults: map<string, Value>)
    modifies cfg
    ensures cfg.items == FillMissing(old(cfg.items), defaults)
  {
    ghost var start := cfg.items;
    var todo := defaults.Keys;
    while todo != {}
      invariant todo <= defaults.Keys
      invariant cfg.items == FillMissing(start, map k | k in defaults && k !in todo :: defaults[k])
      decreases todo
    {
      var k :| k in todo;
      todo := todo - {k};
      if k !in cfg.items {
        cfg.items := cfg.items[k := defaults[k]];
      }
    }
    assert (map k | k in defaults && k !in todo :: defaults[k]) == defaults;
  }

  method AddMissedKey(cfg: ConfigMap, strs: map<string, string>, nums: map<string, int>, bools: map<string, bool>)
    modifies cfg
    ensures cfg.items == WithDefaults(old(cfg.items), strs, nums, bools)
  {
    AddMissing(cfg, StrValues(strs));
    AddMissing(cfg, IntValues(nums));
    AddMissing(cfg, BoolValues(bools));
  }

  // ---------------------------------------------------------------------
  // Properties of the merge
  // ---------------------------------------------------------------------

  /** A table pair in which every repeat-load entry is also an entry of the
      full table, as in Tables. */
  predicate RepeatIncluded(tables: EnvTables) {
    forall k :: k in tables.repeat ==> k in tables.all && tables.all[k] == tables.repeat[k]
  }

  /** On a restart (not `all`), exactly the repeat-load entries and the
      entries whose key is not stored are selected, each with its entry of
      the full table; a stored key outside the repeat-load table is never
      rewritten, except that `ldap_scope` is still normalized. */
  lemma RestartSelection(tables: EnvTables, cfgs: map<string, Value>, env: Env, matcher: Matcher)
    requires RepeatIncluded(tables)
    ensures var envs := EnvsToLoad(tables, cfgs, false);
            && envs.Keys == tables.repeat.Keys + (tables.all.Keys - cfgs.Keys)
            && (forall k :: k in envs ==> k in tables.all && envs[k] == tables.all[k])
            && (forall k :: k in cfgs && k !in tables.repeat && k != LdapScopeKey ==>
                  WithLdapScope(Loaded(cfgs, envs, env, matcher), false)[k] == cfgs[k])
  {
  }

  /** With the default pattern an entry is never skipped unless its env
      name is empty, which no name in the tables is. */
  lemma DefaultPatternSkipsNamedEntries(src: EnvSource, env: Env)
    requires src.Plain? || src.Parsed? ==> src.env != ""
    ensures !Skipped(src, env, DefaultSkipMatcher())
  {
  }
}
