/** The database URL check made at start-up and the engine options chosen for the URL. */
module Database {
  import opened Wrappers
  import opened Strings
  import opened Json
  import opened Environment
  import Numerals

  const DefaultUrl := "sqlite:///./openmemory.db"
  const Separator := "://"
  const ValidSchemes := ["sqlite", "mysql", "postgresql", "postgres", "mariadb"]
  const PoolRecycle := 3600

  /** Why the engine cannot be made: no URL, a scheme that is not supported, or a pool
      variable that `int()` refuses. */
  datatype DbError = MissingUrl | UnsupportedScheme(shown: string) | NotAnInteger(name: string)

  /** `sub` occurs in `s` at `i`. */
  predicate At(s: string, sub: string, i: nat) {
    i + |sub| <= |s| && s[i..i + |sub|] == sub
  }

  /** The first position where `sub` occurs in `s`. */
  function IndexOf(s: string, sub: string): (r: Option<nat>)
    ensures r.Some? ==> At(s, sub, r.value) && forall j :: 0 <= j < r.value ==> !At(s, sub, j)
    ensures r.None? ==> forall j :: 0 <= j <= |s| ==> !At(s, sub, j)
    decreases |s|
  {
    if StartsWith(s, sub) then Some(0)
    else if s == [] then None
    else
      var rest := IndexOf(s[1..], sub);
      AtShift(s, sub);
      match rest
      case Some(i) => Some(i + 1)
      case None => None
  }

  /** An occurrence after the first character is one in the rest of the text. */
  lemma AtShift(s: string, sub: string)
    requires s != []
    ensures forall j :: 1 <= j <= |s| ==> (At(s, sub, j) <==> At(s[1..], sub, j - 1))
    ensures At(s, sub, 0) <==> StartsWith(s, sub)
  {
    forall j | 1 <= j <= |s|
      ensures At(s, sub, j) <==> At(s[1..], sub, j - 1)
    {
      if j + |sub| <= |s| {
        var a, b := s[j..j + |sub|], s[1..][j - 1..j - 1 + |sub|];
        assert forall k :: 0 <= k < |sub| ==> a[k] == b[k];
        assert a == b;
      }
    }
  }

  /** `url.split('://')[0] if '://' in url else None`. */
  function Scheme(url: string): (r: Option<string>)
    ensures r.Some? ==> StartsWith(url, r.value + Separator)
  {
    match IndexOf(url, Separator)
    case Some(i) =>
      assert url[..i + |Separator|] == url[..i] + url[i..i + |Separator|];
      Some(url[..i])
    case None => None
  }

  /** The URL starts with a supported scheme followed by "://". */
  predicate ValidScheme(url: string) {
    exists k :: 0 <= k < |ValidSchemes| && StartsWith(url, ValidSchemes[k] + Separator)
  }

  /** The start-up check: `DATABASE_URL` (with a SQLite default when unset) must not be blank,
      is stripped, and a URL with a non-empty scheme must start with a supported one. The
      error shows at most the first 50 characters. */
  function ValidateUrl(env: Env): (r: Result<string, DbError>)
    ensures r == Err(MissingUrl) <==> AllSpace(GetOr(env, "DATABASE_URL", DefaultUrl))
    ensures r.Ok? ==> r.value == Strip(GetOr(env, "DATABASE_URL", DefaultUrl)) && r.value != []
    ensures r.Ok? ==> Scheme(r.value) in {None, Some([])} || ValidScheme(r.value)
  {
    var raw := GetOr(env, "DATABASE_URL", DefaultUrl);
    StripEmptyIffAllSpace(raw);
    if raw == [] || Strip(raw) == [] then Err(MissingUrl)
    else
      var url := Strip(raw);
      var scheme := Scheme(url);
      if scheme.Some? && scheme.value != [] && !ValidScheme(url) then
        Err(UnsupportedScheme(if |url| <= 50 then url else url[..50]))
      else Ok(url)
  }

  /** A URL of a supported scheme is accepted as it is (once stripped). */
  lemma SupportedSchemeAccepted(env: Env, k: nat)
    requires k < |ValidSchemes|
    requires StartsWith(Strip(GetOr(env, "DATABASE_URL", DefaultUrl)), ValidSchemes[k] + Separator)
    ensures ValidateUrl(env) == Ok(Strip(GetOr(env, "DATABASE_URL", DefaultUrl)))
  {
    StripEmptyIffAllSpace(GetOr(env, "DATABASE_URL", DefaultUrl));
  }

  /** A URL without "://" is not checked at all. */
  lemma NoSeparatorAccepted(env: Env)
    requires "DATABASE_URL" in env && !AllSpace(env["DATABASE_URL"])
    requires IndexOf(Strip(env["DATABASE_URL"]), Separator).None?
    ensures ValidateUrl(env) == Ok(Strip(env["DATABASE_URL"]))
  {
    StripEmptyIffAllSpace(env["DATABASE_URL"]);
  }

  /** A URL that starts with "://" has an empty scheme, which is not checked either. */
  lemma EmptySchemeAccepted(env: Env)
    requires "DATABASE_URL" in env && StartsWith(Strip(env["DATABASE_URL"]), Separator)
    ensures ValidateUrl(env) == Ok(Strip(env["DATABASE_URL"]))
  {
    var url := Strip(env["DATABASE_URL"]);
    StripEmptyIffAllSpace(env["DATABASE_URL"]);
    assert At(url, Separator, 0);
    assert IndexOf(url, Separator) == Some(0);
  }

  const DriverScheme := "postgresql+psycopg2"

  /** A scheme that names a driver after a supported database is refused. */
  lemma DriverSchemeRejected(env: Env, rest: string)
    requires "DATABASE_URL" in env
    requires Strip(env["DATABASE_URL"]) == DriverScheme + Separator + rest
    ensures ValidateUrl(env).Err? && ValidateUrl(env).error.UnsupportedScheme?
  {
    var url := Strip(env["DATABASE_URL"]);
    DriverUrlScheme(url, rest);
    DriverUrlNotValid(url, rest);
    assert url != [];
    StripEmptyIffAllSpace(env["DATABASE_URL"]);
  }

  /** The scheme of a driver URL is the whole driver name. */
  lemma DriverUrlScheme(url: string, rest: string)
    requires url == DriverScheme + Separator + rest
    ensures Scheme(url) == Some(DriverScheme)
  {
    var n := |DriverScheme|;
    assert url[..n] == DriverScheme;
    assert url[n..n + 3] == Separator;
    forall j | 0 <= j < n
      ensures !At(url, Separator, j)
    {
      assert url[j] == DriverScheme[j];
      assert DriverScheme[j] != ':';
      if j + 3 <= |url| {
        assert url[j..j + 3][0] == url[j];
      }
    }
    assert At(url, Separator, n);
    assert IndexOf(url, Separator) == Some(n);
  }

  /** A driver URL starts with no supported scheme followed by "://". */
  lemma DriverUrlNotValid(url: string, rest: string)
    requires url == DriverScheme + Separator + rest
    ensures !ValidScheme(url)
  {
    forall k | 0 <= k < |ValidSchemes|
      ensures !StartsWith(url, ValidSchemes[k] + Separator)
    {
      var p := ValidSchemes[k] + Separator;
      if |p| <= |url| {
        var i := |ValidSchemes[k]|;
        ValidSchemeMismatch(k);
        assert p[i] == ':';
        assert url[i] == DriverScheme[i];
        assert url[..|p|][i] == url[i];
      }
    }
  }

  /** Where each supported scheme ends, the driver scheme has no colon. */
  lemma ValidSchemeMismatch(k: nat)
    requires k < |ValidSchemes|
    ensures |ValidSchemes[k]| < |DriverScheme| && DriverScheme[|ValidSchemes[k]|] != ':'
  {
  }

  /** The default URL is accepted. */
  lemma DefaultUrlAccepted(env: Env)
    requires "DATABASE_URL" !in env
    ensures ValidateUrl(env) == Ok(DefaultUrl)
  {
    DefaultUrlIsSqlite();
    SupportedSchemeAccepted(env, 0);
  }

  lemma DefaultUrlIsSqlite()
    ensures Strip(DefaultUrl) == DefaultUrl && StartsWith(DefaultUrl, ValidSchemes[0] + Separator)
  {
    var d := DefaultUrl;
    var prefix := ValidSchemes[0] + Separator;
    assert d == prefix + "/./openmemory.db";
    assert d[..|prefix|] == prefix;
    Numerals.StripUnpadded(d);
  }

  /** The engine options for a validated URL: SQLite gets `check_same_thread` off; any other
      database gets the pool settings and a one-hour recycle. The pool variables are read for
      every URL, so a malformed one fails even for SQLite. */
  function EngineKwargs(url: string, env: Env): Result<Object, DbError> {
    var connectArgs: Object := if StartsWith(url, "sqlite") then map["check_same_thread" := JBool(false)] else map[];
    var poolSize :- PoolInt(env, "DB_POOL_SIZE", 5);
    var maxOverflow :- PoolInt(env, "DB_MAX_OVERFLOW", 10);
    var poolTimeout :- PoolInt(env, "DB_POOL_TIMEOUT", 30);
    var base := map["connect_args" := JObj(connectArgs), "pool_pre_ping" := JBool(PrePingEnabled(env))];
    if StartsWith(url, "sqlite") then Ok(base)
    else Ok(base + map[
      "pool_size" := JInt(poolSize),
      "max_overflow" := JInt(maxOverflow),
      "pool_timeout" := JInt(poolTimeout),
      "pool_recycle" := JInt(PoolRecycle)])
  }

  /** `int(os.getenv(name, default))`. */
  function PoolInt(env: Env, name: string, default: int): (r: Result<int, DbError>)
    ensures name !in env ==> r == Ok(default)
    ensures r.Err? <==> IntOr(env, name, default).None?
  {
    match IntOr(env, name, default)
    case Some(n) => Ok(n)
    case None => Err(NotAnInteger(name))
  }

  /** The pool variables all read. */
  predicate PoolInts(env: Env) {
    IntOr(env, "DB_POOL_SIZE", 5).Some? && IntOr(env, "DB_MAX_OVERFLOW", 10).Some? && IntOr(env, "DB_POOL_TIMEOUT", 30).Some?
  }

  /** What SQLite and the other databases get. */
  lemma EngineKwargsCases(url: string, env: Env)
    ensures EngineKwargs(url, env).Ok? <==> PoolInts(env)
    ensures EngineKwargs(url, env).Ok? && StartsWith(url, "sqlite") ==>
      var kw := EngineKwargs(url, env).value;
      && kw.Keys == {"connect_args", "pool_pre_ping"}
      && kw["pool_pre_ping"] == JBool(PrePingEnabled(env))
      && kw["connect_args"] == JObj(map["check_same_thread" := JBool(false)])
    ensures EngineKwargs(url, env).Ok? && !StartsWith(url, "sqlite") ==>
      var kw := EngineKwargs(url, env).value;
      && kw.Keys == {"connect_args", "pool_pre_ping", "pool_size", "max_overflow", "pool_timeout", "pool_recycle"}
      && kw["connect_args"] == JObj(map[])
      && kw["pool_pre_ping"] == JBool(PrePingEnabled(env))
      && kw["pool_recycle"] == JInt(3600)
      && kw["pool_size"] == JInt(IntOr(env, "DB_POOL_SIZE", 5).value)
      && kw["max_overflow"] == JInt(IntOr(env, "DB_MAX_OVERFLOW", 10).value)
      && kw["pool_timeout"] == JInt(IntOr(env, "DB_POOL_TIMEOUT", 30).value)
  {
  }

  /** `os.getenv("DB_POOL_PRE_PING", "true").lower() == "true"`. */
  predicate PrePingEnabled(env: Env) {
    Lower(GetOr(env, "DB_POOL_PRE_PING", "true")) == "true"
  }

  /** The health check is on unless `DB_POOL_PRE_PING` says otherwise, and the case of what
      it says does not matter. */
  lemma PrePing(env: Env)
    ensures "DB_POOL_PRE_PING" !in env ==> PrePingEnabled(env)
    ensures PrePingEnabled(env["DB_POOL_PRE_PING" := Upper(GetOr(env, "DB_POOL_PRE_PING", "true"))]) == PrePingEnabled(env)
  {
    var v := GetOr(env, "DB_POOL_PRE_PING", "true");
    LowerAbsorbsCase(v);
    assert Lower("true") == "true";
  }

  /** Unset pool variables take their defaults: 5 connections, 10 more on demand, 30
      seconds to wait. */
  lemma PoolDefaults(url: string, env: Env)
    requires !StartsWith(url, "sqlite")
    requires "DB_POOL_SIZE" !in env && "DB_MAX_OVERFLOW" !in env && "DB_POOL_TIMEOUT" !in env
    ensures EngineKwargs(url, env).Ok?
    ensures var kw := EngineKwargs(url, env).value;
      kw["pool_size"] == JInt(5) && kw["max_overflow"] == JInt(10) && kw["pool_timeout"] == JInt(30)
  {
  }

  /** Start-up as a whole: the URL is checked first, then the options are chosen. */
  function EngineSettings(env: Env): (r: Result<(string, Object), DbError>)
    ensures r.Ok? ==> ValidateUrl(env) == Ok(r.value.0) && EngineKwargs(r.value.0, env) == Ok(r.value.1)
    ensures ValidateUrl(env).Err? ==> r == Err(ValidateUrl(env).error)
  {
    var url :- ValidateUrl(env);
    var kwargs :- EngineKwargs(url, env);
    Ok((url, kwargs))
  }
}
