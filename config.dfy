/** Application configuration read from the process environment
    (config.js): the defaults, the list variables split on commas, the check
    that every setting is present, and the per-user store key. */
module Config {
  import opened Wrappers
  import Js
  import Conf

  /** The process environment: an unset variable is absent from the map. */
  type Env = map<string, string>

  /** `process.env[name]`: `undefined` when the variable is not set. */
  function Var(env: Env, name: string): Option<string>
  {
    if name in env then Some(env[name]) else None
  }

  /** A variable is set when it is present and not empty (JavaScript truthiness). */
  predicate IsSet(env: Env, name: string)
  {
    Js.Truthy(Var(env, name))
  }

  /** `process.env[name] || fallback` for a string fallback. */
  function EnvOr(env: Env, name: string, fallback: string): (r: string)
    ensures IsSet(env, name) ==> r == env[name]
    ensures !IsSet(env, name) ==> r == fallback
  {
    Js.Or(Var(env, name), fallback)
  }

  /** The JavaScript values that appear in the application configuration. */
  datatype JsValue = JsString(s: string) | JsNumber(n: int) | JsObject | JsArray(items: seq<string>)

  /** JavaScript truthiness: objects and arrays are always truthy. */
  predicate Truthy(v: JsValue)
  {
    match v
    case JsString(s) => Js.Truthy(Some(s))
    case JsNumber(n) => n != 0
    case JsObject => true
    case JsArray(_) => true
  }

  /** `PLAID_SECRETS`: one secret per Plaid environment, possibly unset. */
  datatype PlaidSecrets = PlaidSecrets(development: Option<string>, sandbox: Option<string>)

  datatype AppConfig = AppConfig(
    appPort: JsValue,
    plaidClientId: string,
    plaidSecrets: PlaidSecrets,
    plaidEnv: string,
    plaidProducts: seq<string>,
    plaidCountryCodes: seq<string>,
    actualServerUrl: string,
    actualServerPassword: string)

  datatype ConfigError = MissingEnvironmentVariable(key: string)

  /** `s.split(sep)` for a one-character separator. */
  function Split(s: string, sep: char): (parts: seq<string>)
    ensures |parts| >= 1
  {
    if s == [] then [""]
    else
      var rest := Split(s[1..], sep);
      if s[0] == sep then [""] + rest
      else [[s[0]] + rest[0]] + rest[1..]
  }

  /** One part more than there are separators, so an empty string is one
      empty part. */
  lemma {:induction false} SplitCount(s: string, sep: char)
    ensures |Split(s, sep)| == multiset(s)[sep] + 1
  {
    if s != [] {
      SplitCount(s[1..], sep);
      assert s == [s[0]] + s[1..];
    }
  }

  /** No part contains the separator. */
  lemma {:induction false} SplitPartsOmitSeparator(s: string, sep: char)
    ensures forall i :: 0 <= i < |Split(s, sep)| ==> sep !in Split(s, sep)[i]
  {
    if s != [] {
      SplitPartsOmitSeparator(s[1..], sep);
      var rest := Split(s[1..], sep);
      if s[0] != sep {
        assert sep !in [s[0]] + rest[0];
      }
    }
  }

  /** `parts.join(sep)`. */
  function Join(parts: seq<string>, sep: char): string
    requires |parts| >= 1
  {
    if |parts| == 1 then parts[0] else parts[0] + [sep] + Join(parts[1..], sep)
  }

  /** Splitting loses nothing: joining the parts back gives the input. */
  lemma {:induction false} JoinSplit(s: string, sep: char)
    ensures Join(Split(s, sep), sep) == s
  {
    if s != [] {
      JoinSplit(s[1..], sep);
      var rest := Split(s[1..], sep);
      if s[0] != sep && |rest| > 1 {
        calc {
          Join(Split(s, sep), sep);
          ([s[0]] + rest[0]) + [sep] + Join(rest[1..], sep);
          [s[0]] + (rest[0] + [sep] + Join(rest[1..], sep));
          [s[0]] + Join(rest, sep);
        }
      }
    }
  }

  /** A string without the separator splits into itself alone. */
  lemma {:induction false} SplitWithoutSeparator(s: string, sep: char)
    requires sep !in s
    ensures Split(s, sep) == [s]
  {
    if s != [] {
      assert s[0] != sep && sep !in s[1..];
      SplitWithoutSeparator(s[1..], sep);
      assert [s[0]] + s[1..] == s;
    }
  }

  /** The module-level settings of config.js, read once from the environment.
      Port, environment name and the two lists are always truthy; the
      client id and the server settings are empty exactly when unset; each
      secret is `undefined` exactly when its variable is absent. */
  function FromEnv(env: Env): (c: AppConfig)
    ensures Truthy(c.appPort) && c.plaidEnv != ""
    ensures |c.plaidProducts| >= 1 && |c.plaidCountryCodes| >= 1
    ensures c.plaidClientId == "" <==> !IsSet(env, "PLAID_CLIENT_ID")
    ensures c.actualServerUrl == "" <==> !IsSet(env, "ACTUAL_SERVER_URL")
    ensures c.actualServerPassword == "" <==> !IsSet(env, "ACTUAL_SERVER_PASSWORD")
    ensures c.plaidSecrets.development.Some? <==> "PLAID_SECRET_DEVELOPMENT" in env
    ensures c.plaidSecrets.sandbox.Some? <==> "PLAID_SECRET_SANDBOX" in env
  {
    AppConfig(
      appPort := if IsSet(env, "APP_PORT") then JsString(env["APP_PORT"]) else JsNumber(3000),
      plaidClientId := EnvOr(env, "PLAID_CLIENT_ID", ""),
      plaidSecrets := PlaidSecrets(
        if "PLAID_SECRET_DEVELOPMENT" in env then Some(env["PLAID_SECRET_DEVELOPMENT"]) else None,
        if "PLAID_SECRET_SANDBOX" in env then Some(env["PLAID_SECRET_SANDBOX"]) else None),
      plaidEnv := EnvOr(env, "PLAID_ENV", "sandbox"),
      plaidProducts := Split(EnvOr(env, "PLAID_PRODUCTS", "transactions"), ','),
      plaidCountryCodes := Split(EnvOr(env, "PLAID_COUNTRY_CODES", "EN"), ','),
      actualServerUrl := EnvOr(env, "ACTUAL_SERVER_URL", ""),
      actualServerPassword := EnvOr(env, "ACTUAL_SERVER_PASSWORD", ""))
  }

  /** The defaulting rules for the optional settings. */
  lemma Defaults(env: Env)
    ensures FromEnv(env).plaidEnv == (if IsSet(env, "PLAID_ENV") then env["PLAID_ENV"] else "sandbox")
    ensures FromEnv(env).appPort == (if IsSet(env, "APP_PORT") then JsString(env["APP_PORT"]) else JsNumber(3000))
    ensures FromEnv(env).plaidProducts
            == (if IsSet(env, "PLAID_PRODUCTS") then Split(env["PLAID_PRODUCTS"], ',') else ["transactions"])
    ensures FromEnv(env).plaidCountryCodes
            == (if IsSet(env, "PLAID_COUNTRY_CODES") then Split(env["PLAID_COUNTRY_CODES"], ',') else ["EN"])
  {
    SplitWithoutSeparator("transactions", ',');
    SplitWithoutSeparator("EN", ',');
  }

  /** The keys of the application configuration object, in the order the
      object literal declares them. */
  const ConfigKeys: seq<string> := [
    "APP_PORT", "PLAID_CLIENT_ID", "PLAID_SECRETS", "PLAID_ENV",
    "PLAID_PRODUCTS", "PLAID_COUNTRY_CODES", "ACTUAL_SERVER_URL", "ACTUAL_SERVER_PASSWORD"]

  /** The entries of the application configuration object, in declaration
      order: one per key, the keys distinct. */
  function Entries(c: AppConfig): (es: seq<(string, JsValue)>)
    ensures |es| == |ConfigKeys| == 8
    ensures forall i :: 0 <= i < |es| ==> es[i].0 == ConfigKeys[i]
    ensures forall i, j :: 0 <= i < j < |es| ==> es[i].0 != es[j].0
  {
    [ ("APP_PORT", c.appPort),
      ("PLAID_CLIENT_ID", JsString(c.plaidClientId)),
      ("PLAID_SECRETS", JsObject),
      ("PLAID_ENV", JsString(c.plaidEnv)),
      ("PLAID_PRODUCTS", JsArray(c.plaidProducts)),
      ("PLAID_COUNTRY_CODES", JsArray(c.plaidCountryCodes)),
      ("ACTUAL_SERVER_URL", JsString(c.actualServerUrl)),
      ("ACTUAL_SERVER_PASSWORD", JsString(c.actualServerPassword)) ]
  }

  /** The position of the first falsy entry, if any. */
  function FirstFalsy(es: seq<(string, JsValue)>): (r: Option<nat>)
    ensures r.None? <==> forall i :: 0 <= i < |es| ==> Truthy(es[i].1)
    ensures r.Some? ==> r.value < |es| && !Truthy(es[r.value].1)
    ensures r.Some? ==> forall i :: 0 <= i < r.value ==> Truthy(es[i].1)
  {
    if es == [] then None
    else if !Truthy(es[0].1) then Some(0)
    else
      match FirstFalsy(es[1..])
      case None => None
      case Some(i) => Some(i + 1)
  }

  /** The first falsy entry is the falsy one with only truthy entries before it. */
  lemma FirstFalsyAt(es: seq<(string, JsValue)>, i: nat)
    requires i < |es| && !Truthy(es[i].1)
    requires forall j :: 0 <= j < i ==> Truthy(es[j].1)
    ensures FirstFalsy(es) == Some(i)
  {
  }

  /** The loop of `getAppConfigFromEnv()`: walks the entries in order and
      stops at the first falsy one. */
  method FindFalsy(es: seq<(string, JsValue)>) returns (r: Option<nat>)
    ensures r == FirstFalsy(es)
  {
    var i := 0;
    while i < |es|
      invariant 0 <= i <= |es|
      invariant forall j :: 0 <= j < i ==> Truthy(es[j].1)
    {
      if !Truthy(es[i].1) {
        FirstFalsyAt(es, i);
        return Some(i);
      }
      i := i + 1;
    }
    return None;
  }

  /** `getAppConfigFromEnv()`: fails on the first falsy entry, naming its
      key, and otherwise yields the configuration. */
  method GetAppConfigFromEnv(env: Env) returns (r: Result<AppConfig, ConfigError>)
    ensures r.Success? <==> FirstFalsy(Entries(FromEnv(env))).None?
    ensures r.Success? ==> r.value == FromEnv(env)
    ensures r.Failure? ==> r.error == MissingEnvironmentVariable(Entries(FromEnv(env))[FirstFalsy(Entries(FromEnv(env))).value].0)
  {
    var appConfig := FromEnv(env);
    var es := Entries(appConfig);
    var falsy := FindFalsy(es);
    if falsy.Some? {
      return Failure(MissingEnvironmentVariable(es[falsy.value].0));
    }
    return Success(appConfig);
  }

  /** On any configuration whose port and environment name are truthy (as
      the defaults make them), only the client id and the two Actual server
      settings can fail, and they are checked in that order. */
  lemma {:induction false} EntriesOutcome(c: AppConfig)
    requires Truthy(c.appPort) && c.plaidEnv != ""
    ensures FirstFalsy(Entries(c))
            == if c.plaidClientId == "" then Some(1)
               else if c.actualServerUrl == "" then Some(6)
               else if c.actualServerPassword == "" then Some(7)
               else None
  {
    var es := Entries(c);
    if c.plaidClientId == "" {
      FirstFalsyAt(es, 1);
    } else {
      var n := if c.actualServerUrl == "" then 6 else if c.actualServerPassword == "" then 7 else 8;
      forall j | 0 <= j < n
        ensures Truthy(es[j].1)
      {
        assert j == 0 || j == 1 || j == 2 || j == 3 || j == 4 || j == 5 || j == 6 || j == 7;
      }
      if n < 8 {
        FirstFalsyAt(es, n);
      }
    }
  }

  /** Which variables decide validation: `PLAID_CLIENT_ID`,
      `ACTUAL_SERVER_URL` and `ACTUAL_SERVER_PASSWORD`, in that order.
      `PLAID_SECRETS` is an object and passes even with both secrets unset;
      `APP_PORT`, `PLAID_ENV` and the two lists always have a truthy default. */
  lemma ValidationOutcome(env: Env)
    ensures FirstFalsy(Entries(FromEnv(env)))
            == if !IsSet(env, "PLAID_CLIENT_ID") then Some(1)
               else if !IsSet(env, "ACTUAL_SERVER_URL") then Some(6)
               else if !IsSet(env, "ACTUAL_SERVER_PASSWORD") then Some(7)
               else None
    ensures var first := FirstFalsy(Entries(FromEnv(env)));
            first.Some? ==>
              Entries(FromEnv(env))[first.value].0
              == if !IsSet(env, "PLAID_CLIENT_ID") then "PLAID_CLIENT_ID"
                 else if !IsSet(env, "ACTUAL_SERVER_URL") then "ACTUAL_SERVER_URL"
                 else "ACTUAL_SERVER_PASSWORD"
  {
    EntriesOutcome(FromEnv(env));
  }

  /** The name of the store for a user: `<username>_<PLAID_ENV>`. */
  function ConfKey(username: string, plaidEnv: string): (key: string)
    ensures |key| == |username| + 1 + |plaidEnv|
    ensures key[..|username|] == username && key[|username|] == '_' && key[|username| + 1..] == plaidEnv
  {
    username + "_" + plaidEnv
  }

  /** Different users get different stores in one Plaid environment, and a
      user gets a different store per environment whose name has no `_`. */
  lemma ConfKeyInjective(u1: string, e1: string, u2: string, e2: string)
    requires '_' !in e1 && '_' !in e2
    requires ConfKey(u1, e1) == ConfKey(u2, e2)
    ensures u1 == u2 && e1 == e2
  {
    var k := ConfKey(u1, e1);
  }

  /** `getConf(username)`: validates the environment, then opens the store
      named by `ConfKey` (whose stored contents `disk` gives) and records the
      key as its user. */
  method GetConf(env: Env, username: string, disk: string -> Conf.StoreData) returns (r: Result<Conf.Store, ConfigError>)
    requires forall name :: Conf.ValidData(disk(name))
    ensures r.Failure? <==> FirstFalsy(Entries(FromEnv(env))).Some?
    ensures r.Failure? ==>
              r.error == MissingEnvironmentVariable(Entries(FromEnv(env))[FirstFalsy(Entries(FromEnv(env))).value].0)
    ensures r.Success? ==> fresh(r.value) && r.value.Valid()
    ensures r.Success? ==> var key := ConfKey(username, FromEnv(env).plaidEnv);
              && r.value.configName == key
              && r.value.user == Some(key)
              && r.value.actualSync == disk(key).actualSync
              && r.value.plaidAccounts == disk(key).plaidAccounts
  {
    var appConfig := GetAppConfigFromEnv(env);
    if appConfig.Failure? {
      return Failure(appConfig.error);
    }
    var key := ConfKey(username, appConfig.value.plaidEnv);
    var tmp := new Conf.Store(key, disk(key));
    tmp.SetUser(key);
    return Success(tmp);
  }
}
