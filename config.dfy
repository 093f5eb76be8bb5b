/**
 * The service configuration: built-in defaults, overridden by the keys of the YAML file when
 * it parses to a non-empty mapping, overridden in turn by the `CIRCUIT_IQ_<KEY>` environment
 * variables, converted by key. The YAML file and the environment are inputs here.
 */
module Config {
  import opened Wrappers
  import opened Text

  /** A configuration value: the shapes the defaults, the YAML file and the conversions give. */
  datatype Value = IntVal(i: int) | StrVal(s: string) | BoolVal(b: bool) | ListVal(items: seq<string>)

  type Settings = map<string, Value>

  /** The keys an environment variable can set, in the order they are looked up. */
  const Keys: seq<string> := [
    "MAX_UPLOAD_SIZE", "UPLOAD_FOLDER", "RESULTS_FOLDER", "CACHE_TYPE", "CACHE_TIMEOUT",
    "CACHE_THRESHOLD", "API_KEYS_FILE", "USAGE_LOG_FILE", "ALLOWED_ORIGINS", "HOST", "PORT", "DEBUG"]

  /** The keys whose environment value is read as an integer. */
  const IntKeys: seq<string> := ["PORT", "MAX_UPLOAD_SIZE", "CACHE_TIMEOUT", "CACHE_THRESHOLD"]

  const Defaults: Settings := map[
    "MAX_UPLOAD_SIZE" := IntVal(16 * 1024 * 1024),
    "UPLOAD_FOLDER" := StrVal("uploads"),
    "RESULTS_FOLDER" := StrVal("results"),
    "CACHE_TYPE" := StrVal("simple"),
    "CACHE_TIMEOUT" := IntVal(300),
    "CACHE_THRESHOLD" := IntVal(500),
    "API_KEYS_FILE" := StrVal("api_keys.json"),
    "USAGE_LOG_FILE" := StrVal("usage_logs.json"),
    "ALLOWED_ORIGINS" := StrVal("*"),
    "HOST" := StrVal("127.0.0.1"),
    "PORT" := IntVal(5000),
    "DEBUG" := BoolVal(false)]

  /** The environment variable that overrides a key. */
  function EnvVar(key: string): (r: string)
    ensures |r| == |key| + 11 && r[11..] == key
  {
    "CIRCUIT_IQ_" + key
  }

  /**
   * The conversion of an environment value: `int(value)` for the integer keys (its failure is
   * not caught), `value.lower() == 'true'` for DEBUG, `value.split(',')` for ALLOWED_ORIGINS,
   * the text itself otherwise.
   */
  function Convert(key: string, raw: string): (r: Result<Value, string>)
  {
    if key in IntKeys then
      match ParseInt(raw)
      case Some(n) => Success(IntVal(n))
      case None => Failure("invalid literal for int() with base 10: '" + raw + "'")
    else if key == "DEBUG" then Success(BoolVal(Lower(raw) == "true"))
    else if key == "ALLOWED_ORIGINS" then Success(ListVal(Split(raw, ',')))
    else Success(StrVal(raw))
  }

  /** `config.update(yaml_config)` when the parsed YAML is non-empty; `None` when absent or unreadable. */
  function WithYaml(config: Settings, yaml: Option<Settings>): Settings
  {
    if yaml.Some? && |yaml.value| > 0 then config + yaml.value else config
  }

  /** The environment overrides for `keys`, in order; the first failed conversion ends the load. */
  function ApplyEnv(config: Settings, keys: seq<string>, env: map<string, string>): Result<Settings, string>
    decreases |keys|
  {
    if |keys| == 0 then Success(config)
    else if EnvVar(keys[0]) in env then
      match Convert(keys[0], env[EnvVar(keys[0])])
      case Failure(e) => Failure(e)
      case Success(v) => ApplyEnv(config[keys[0] := v], keys[1..], env)
    else ApplyEnv(config, keys[1..], env)
  }

  /** `load_config`. */
  function Loaded(yaml: Option<Settings>, env: map<string, string>): Result<Settings, string>
  {
    ApplyEnv(WithYaml(Defaults, yaml), Keys, env)
  }

  // ---------------------------------------------------------------------------------------
  // Conversions

  /** An integer key accepts exactly the decimal integers and reads back the written number. */
  lemma ConvertInt(key: string, raw: string, n: int)
    requires key in IntKeys
    ensures Convert(key, raw).Success? <==> ParseInt(raw).Some?
    ensures Convert(key, IntToString(n)) == Success(IntVal(n))
  {
    ParseIntToString(n);
  }

  /** DEBUG never fails, and is true only for a four-letter value that lower-cases to `true`. */
  lemma ConvertDebug(raw: string)
    ensures Convert("DEBUG", raw).Success? && Convert("DEBUG", raw).value.BoolVal?
    ensures Convert("DEBUG", raw).value.b ==> |raw| == 4 && Lower(raw) == "true"
    ensures Convert("DEBUG", "True") == Success(BoolVal(true))
  {
    assert Lower("True") == "true";
  }

  /** ALLOWED_ORIGINS becomes a non-empty list of comma-free origins that join back to the value. */
  lemma ConvertOrigins(raw: string)
    ensures var r := Convert("ALLOWED_ORIGINS", raw);
      r.Success? && r.value.ListVal? && |r.value.items| >= 1 && Join(r.value.items, ',') == raw
      && forall k :: 0 <= k < |r.value.items| ==> ',' !in r.value.items[k]
  {
    JoinSplit(raw, ',');
  }

  // ---------------------------------------------------------------------------------------
  // Precedence

  /** The overrides fail exactly when some present variable of `keys` fails to convert. */
  lemma {:induction false} ApplyEnvFails(config: Settings, keys: seq<string>, env: map<string, string>)
    ensures ApplyEnv(config, keys, env).Failure? <==>
      exists i :: 0 <= i < |keys| && EnvVar(keys[i]) in env && Convert(keys[i], env[EnvVar(keys[i])]).Failure?
    decreases |keys|
  {
    if |keys| > 0 {
      var next := if EnvVar(keys[0]) in env && Convert(keys[0], env[EnvVar(keys[0])]).Success?
        then config[keys[0] := Convert(keys[0], env[EnvVar(keys[0])]).value] else config;
      ApplyEnvFails(next, keys[1..], env);
      if exists i :: 0 <= i < |keys| && EnvVar(keys[i]) in env && Convert(keys[i], env[EnvVar(keys[i])]).Failure? {
        var i :| 0 <= i < |keys| && EnvVar(keys[i]) in env && Convert(keys[i], env[EnvVar(keys[i])]).Failure?;
        if i > 0 {
          assert keys[1..][i - 1] == keys[i];
        }
      }
      if exists i :: 0 <= i < |keys[1..]| && EnvVar(keys[1..][i]) in env && Convert(keys[1..][i], env[EnvVar(keys[1..][i])]).Failure? {
        var i :| 0 <= i < |keys[1..]| && EnvVar(keys[1..][i]) in env && Convert(keys[1..][i], env[EnvVar(keys[1..][i])]).Failure?;
        assert keys[i + 1] == keys[1..][i];
      }
    }
  }

  /** A key whose variable is not among the overrides keeps its presence and its earlier value. */
  lemma {:induction false} ApplyEnvKeeps(config: Settings, keys: seq<string>, env: map<string, string>, k: string)
    requires ApplyEnv(config, keys, env).Success?
    requires !(k in keys && EnvVar(k) in env)
    ensures var r := ApplyEnv(config, keys, env).value;
      (k in r <==> k in config) && (k in config ==> r[k] == config[k])
    decreases |keys|
  {
    if |keys| > 0 {
      assert k in keys ==> k in keys[1..] || k == keys[0];
      if EnvVar(keys[0]) in env {
        var v := Convert(keys[0], env[EnvVar(keys[0])]).value;
        ApplyEnvKeeps(config[keys[0] := v], keys[1..], env, k);
      } else {
        ApplyEnvKeeps(config, keys[1..], env, k);
      }
    }
  }

  /** With distinct keys, an overridden key holds the converted value of its variable. */
  lemma {:induction false} ApplyEnvSets(config: Settings, keys: seq<string>, env: map<string, string>, k: string)
    requires ApplyEnv(config, keys, env).Success?
    requires forall i, j :: 0 <= i < j < |keys| ==> keys[i] != keys[j]
    requires k in keys && EnvVar(k) in env
    ensures k in ApplyEnv(config, keys, env).value
    ensures Convert(k, env[EnvVar(k)]) == Success(ApplyEnv(config, keys, env).value[k])
    decreases |keys|
  {
    var rest := keys[1..];
    if EnvVar(keys[0]) in env {
      var v := Convert(keys[0], env[EnvVar(keys[0])]).value;
      if k == keys[0] {
        forall j | 0 <= j < |rest|
          ensures rest[j] != k
        {
          assert rest[j] == keys[j + 1];
        }
        ApplyEnvKeeps(config[keys[0] := v], rest, env, k);
      } else {
        ApplyEnvSets(config[keys[0] := v], rest, env, k);
      }
    } else {
      assert k != keys[0];
      ApplyEnvSets(config, rest, env, k);
    }
  }

  /** No two overridable keys coincide. */
  lemma KeysDistinct()
    ensures forall i, j :: 0 <= i < j < |Keys| ==> Keys[i] != Keys[j]
  {
  }

  /**
   * Precedence of a successful load: a set environment variable wins; otherwise the YAML key,
   * when the YAML is non-empty; otherwise the default. No other keys appear.
   */
  lemma LoadedPrecedence(yaml: Option<Settings>, env: map<string, string>, k: string)
    requires Loaded(yaml, env).Success?
    ensures var r := Loaded(yaml, env).value;
      var fromEnv := k in Keys && EnvVar(k) in env;
      var fromYaml := yaml.Some? && |yaml.value| > 0 && k in yaml.value;
      && (fromEnv ==> k in r && Convert(k, env[EnvVar(k)]) == Success(r[k]))
      && (!fromEnv && fromYaml ==> k in r && r[k] == yaml.value[k])
      && (!fromEnv && !fromYaml ==> (k in r <==> k in Defaults) && (k in Defaults ==> r[k] == Defaults[k]))
  {
    if k in Keys && EnvVar(k) in env {
      KeysDistinct();
      ApplyEnvSets(WithYaml(Defaults, yaml), Keys, env, k);
    } else {
      ApplyEnvKeeps(WithYaml(Defaults, yaml), Keys, env, k);
    }
  }

  /** Only an integer key's conversion can fail, and it fails on a non-integer. */
  lemma ConvertFails(key: string, raw: string)
    ensures Convert(key, raw).Failure? <==> key in IntKeys && ParseInt(raw).None?
  {
  }

  /** The overrides fail exactly when an integer key's variable holds a non-integer. */
  lemma ApplyEnvFailsInt(config: Settings, keys: seq<string>, env: map<string, string>)
    ensures ApplyEnv(config, keys, env).Failure? <==>
      exists i :: 0 <= i < |keys| && keys[i] in IntKeys && EnvVar(keys[i]) in env && ParseInt(env[EnvVar(keys[i])]).None?
  {
    ApplyEnvFails(config, keys, env);
    forall i | 0 <= i < |keys| && EnvVar(keys[i]) in env {
      ConvertFails(keys[i], env[EnvVar(keys[i])]);
    }
  }

  /** The load fails exactly when an integer key's variable is set to a non-integer. */
  lemma LoadedFails(yaml: Option<Settings>, env: map<string, string>)
    ensures Loaded(yaml, env).Failure? <==>
      exists i :: 0 <= i < |Keys| && Keys[i] in IntKeys && EnvVar(Keys[i]) in env && ParseInt(env[EnvVar(Keys[i])]).None?
  {
    ApplyEnvFailsInt(WithYaml(Defaults, yaml), Keys, env);
  }

  /** The loop of `load_config` over the environment mapping. */
  method OverrideFromEnv(config: Settings, keys: seq<string>, env: map<string, string>) returns (r: Result<Settings, string>)
    ensures r == ApplyEnv(config, keys, env)
  {
    var current := config;
    for i := 0 to |keys|
      invariant ApplyEnv(config, keys, env) == ApplyEnv(current, keys[i..], env)
    {
      assert keys[i..][1..] == keys[i + 1..];
      var name := EnvVar(keys[i]);
      if name in env {
        var converted := Convert(keys[i], env[name]);
        if converted.Failure? {
          return Failure(converted.error);
        }
        current := current[keys[i] := converted.value];
      }
    }
    return Success(current);
  }

  /** `load_config`: the defaults, the YAML update, then the environment overrides. */
  method LoadConfig(yaml: Option<Settings>, env: map<string, string>) returns (r: Result<Settings, string>)
    ensures r == Loaded(yaml, env)
  {
    var config := Defaults;
    if yaml.Some? && |yaml.value| > 0 {
      config := config + yaml.value;
    }
    r := OverrideFromEnv(config, Keys, env);
  }
}
