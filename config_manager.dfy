/**
 * `ConfigManager`: configuration values looked up first in the environment,
 * then in the loaded `application.properties`, then in the caller's default.
 *
 * The environment and the file's contents are parameters: `env` maps variable
 * names to values, and reading the file either yields its key/value pairs or
 * fails (`None`, the `IOException` case). The lookups are pure given the two
 * maps; loading and reloading change the static `properties` and
 * `initialized` fields and are modelled as a class.
 */
module Config {
  import opened JavaText

  // ---------------------------------------------------------------------
  // Environment variable names
  // ---------------------------------------------------------------------

  /** `key.replace('.', '_').toUpperCase()`: the environment variable a key is read from. */
  function EnvKey(key: string): (r: string)
    ensures |r| == |key|
    ensures '.' !in r
    ensures forall i :: 0 <= i < |r| ==> !('a' <= r[i] <= 'z')
  {
    var replaced := Replace(key, '.', "_");
    ReplaceCharLength(key, '.', '_');
    ToUpper(replaced)
  }

  /** Mapping an environment name again changes nothing. */
  lemma EnvKeyIdempotent(key: string)
    ensures EnvKey(EnvKey(key)) == EnvKey(key)
  {
    var k := EnvKey(key);
    ReplaceCharLength(k, '.', '_');
    ReplaceAbsent(k, '.', "_");
    assert forall i :: 0 <= i < |k| ==> UpperChar(k[i]) == k[i];
  }

  /** "db.url" is read from the variable DB_URL. */
  lemma EnvKeyExample()
    ensures EnvKey("db.url") == "DB_URL"
  {
    ReplaceCharLength("db.url", '.', '_');
    var replaced := Replace("db.url", '.', "_");
    assert replaced == "db_url";
    assert ToUpper("db_url") == "DB_URL";
  }

  // ---------------------------------------------------------------------
  // Lookups
  // ---------------------------------------------------------------------

  /** A map entry that is present and not empty; an empty value counts as absent. */
  predicate Set(m: map<string, string>, k: string)
  {
    k in m && m[k] != ""
  }

  /** `getString(key, defaultValue)`. */
  function GetString(env: map<string, string>, props: map<string, string>, key: string,
                     default: Option<string>): (r: Option<string>)
    ensures Set(env, EnvKey(key)) ==> r == Some(env[EnvKey(key)])
    ensures !Set(env, EnvKey(key)) && Set(props, key) ==> r == Some(props[key])
    ensures !Set(env, EnvKey(key)) && !Set(props, key) ==> r == default
  {
    var envKey := EnvKey(key);
    if envKey in env && env[envKey] != "" then Some(env[envKey])
    else if key in props && props[key] != "" then Some(props[key])
    else default
  }

  /** An empty text is returned only when it is the default. */
  lemma EmptyOnlyFromDefault(env: map<string, string>, props: map<string, string>, key: string,
                             default: Option<string>)
    requires GetString(env, props, key, default) == Some("")
    ensures default == Some("")
  {
  }

  /** An empty environment variable hides nothing: it is as if it were unset. */
  lemma EmptyEnvIsUnset(env: map<string, string>, props: map<string, string>, key: string,
                        default: Option<string>)
    ensures GetString(env[EnvKey(key) := ""], props, key, default)
         == GetString(env - {EnvKey(key)}, props, key, default)
  {
  }

  /** `getString(key)`: `getString(key, null)`. */
  function GetStringOrNull(env: map<string, string>, props: map<string, string>, key: string): (r: Option<string>)
    ensures r.Some? ==> r.value != ""
    ensures r == GetString(env, props, key, None)
  {
    GetString(env, props, key, None)
  }

  /** `getInt(key, defaultValue)`: the trimmed value parsed as an `int`; the default when
      there is no value or it does not parse. */
  function GetInt(env: map<string, string>, props: map<string, string>, key: string, default: int): (r: int)
    ensures IsInt32(default) ==> IsInt32(r)
    ensures GetStringOrNull(env, props, key).None? ==> r == default
  {
    match GetStringOrNull(env, props, key)
    case None => default
    case Some(value) =>
      match ParseInteger(Trim(value), MinInt32, MaxInt32)
      case None => default
      case Some(n) => n
  }

  /** `getLong(key, defaultValue)`: the same rule over the `long` range. */
  function GetLong(env: map<string, string>, props: map<string, string>, key: string, default: int): (r: int)
    ensures IsInt64(default) ==> IsInt64(r)
    ensures GetStringOrNull(env, props, key).None? ==> r == default
  {
    match GetStringOrNull(env, props, key)
    case None => default
    case Some(value) =>
      match ParseInteger(Trim(value), MinInt64, MaxInt64)
      case None => default
      case Some(n) => n
  }

  /** `getBoolean(key, defaultValue)`: `Boolean.parseBoolean` of the trimmed value, so any
      value other than "true" in some case is false, never the default. */
  function GetBoolean(env: map<string, string>, props: map<string, string>, key: string, default: bool): (r: bool)
    ensures GetStringOrNull(env, props, key).None? ==> r == default
    ensures GetStringOrNull(env, props, key).Some? ==>
              (r <==> EqualsIgnoreCase("true", Trim(GetStringOrNull(env, props, key).value)))
  {
    match GetStringOrNull(env, props, key)
    case None => default
    case Some(value) => EqualsIgnoreCase("true", Trim(value))
  }

  /** A printed number has nothing for `trim` to remove. */
  lemma TrimIntToString(n: int)
    ensures Trim(IntToString(n)) == IntToString(n)
  {
    var s := IntToString(n);
    if n < 0 {
      assert s[0] == '-';
    }
    assert |s| > 1 ==> IsDigit(s[|s| - 1]);
  }

  /** A number printed into the environment variable is read back by `getInt`, whatever
      the default. */
  lemma GetIntReadsStoredNumber(env: map<string, string>, props: map<string, string>, key: string,
                                n: int, default: int)
    requires IsInt32(n)
    ensures GetInt(env[EnvKey(key) := IntToString(n)], props, key, default) == n
  {
    TrimIntToString(n);
    ParseIntegerOfIntToString(n, MinInt32, MaxInt32);
  }

  /** A value that is not a number in the `int` range falls back to the default. */
  lemma GetIntFallsBack(env: map<string, string>, props: map<string, string>, key: string, default: int)
    requires Set(env, EnvKey(key))
    requires ParseInteger(Trim(env[EnvKey(key)]), MinInt32, MaxInt32).None?
    ensures GetInt(env, props, key, default) == default
  {
  }

  /** `getLong` reads a printed number back the same way, over the `long` range. */
  lemma GetLongReadsStoredNumber(env: map<string, string>, props: map<string, string>, key: string,
                                 n: int, default: int)
    requires IsInt64(n)
    ensures GetLong(env[EnvKey(key) := IntToString(n)], props, key, default) == n
  {
    TrimIntToString(n);
    ParseIntegerOfIntToString(n, MinInt64, MaxInt64);
  }

  /** Once a value is present, the default of `getBoolean` plays no part. */
  lemma GetBooleanIgnoresDefaultWhenSet(env: map<string, string>, props: map<string, string>, key: string)
    requires GetStringOrNull(env, props, key).Some?
    ensures GetBoolean(env, props, key, true) == GetBoolean(env, props, key, false)
  {
  }

  // ---------------------------------------------------------------------
  // Loading
  // ---------------------------------------------------------------------

  /** The static `properties` and `initialized` fields. */
  class ConfigStore {
    var properties: map<string, string>
    var initialized: bool

    /** The class initialiser: empty properties, then `loadConfig()`. */
    constructor (file: Option<map<string, string>>)
      ensures file.Some? ==> properties == file.value && initialized
      ensures file.None? ==> properties == map[] && !initialized
    {
      properties := map[];
      initialized := false;
      new;
      LoadConfig(file);
    }

    /** `loadConfig()`: nothing once loaded; otherwise the file's pairs are added to the
        properties and the store is marked loaded, unless reading fails, which leaves both
        as they were. */
    method LoadConfig(file: Option<map<string, string>>)
      modifies this
      ensures old(initialized) ==> properties == old(properties) && initialized
      ensures !old(initialized) && file.Some? ==> properties == old(properties) + file.value && initialized
      ensures !old(initialized) && file.None? ==> properties == old(properties) && !initialized
    {
      if initialized {
        return;
      }
      if file.Some? {
        properties := properties + file.value;
        initialized := true;
      }
    }

    /** `reload()`: clears the properties and loads again, so a failed read leaves no
        properties at all. */
    method Reload(file: Option<map<string, string>>)
      modifies this
      ensures file.Some? ==> properties == file.value && initialized
      ensures file.None? ==> properties == map[] && !initialized
    {
      properties := map[];
      initialized := false;
      LoadConfig(file);
    }
  }

  /** With no properties loaded, a lookup reads the environment or else the default. */
  lemma NoPropertiesFallsBack(env: map<string, string>, key: string, default: Option<string>)
    ensures GetString(env, map[], key, default)
         == if Set(env, EnvKey(key)) then Some(env[EnvKey(key)]) else default
  {
  }

  /** `reload()` followed by `getString(key, default)`: after a successful reload the
      lookup sees exactly the file's properties; after a failed one every key falls back
      to the environment or the default, whatever was loaded before. */
  method ReloadThenGet(store: ConfigStore, file: Option<map<string, string>>, env: map<string, string>,
                       key: string, default: Option<string>) returns (r: Option<string>)
    modifies store
    ensures file.Some? ==> r == GetString(env, file.value, key, default)
    ensures file.None? ==> r == if Set(env, EnvKey(key)) then Some(env[EnvKey(key)]) else default
    ensures r == GetString(env, store.properties, key, default)
  {
    store.Reload(file);
    r := GetString(env, store.properties, key, default);
    if file.None? {
      NoPropertiesFallsBack(env, key, default);
    }
  }
}
