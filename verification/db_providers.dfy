/**
 * The providers table of `db/providers_db.rs`: one row per provider with
 * its API key and whether that key was validated, the validation by a test
 * message, and the development-mode import of keys from the environment.
 */
module ProvidersDb {
  import opened Wrappers
  import opened Types
  import opened LlmProviders
  import Init

  /** The providers whose keys the development-mode import overwrites. */
  const ENV_PROVIDERS: seq<string> := ["google", "openai", "anthropic", "mistralai", "groqcloud"]

  /** The display text of the engine's "no row" error, which `fetch_one` returns on an empty result. */
  const ROW_NOT_FOUND := "no rows returned by a query that expected to return at least one row"

  /** The first model of the list whose provider is `name`: `Iterator::find`. */
  function FindModel(models: seq<Model>, name: string): (r: Option<Model>)
    ensures r.None? <==> forall k :: 0 <= k < |models| ==> models[k].providerName != name
    ensures r.Some? ==> exists i :: 0 <= i < |models| && models[i] == r.value && r.value.providerName == name
                                    && forall k :: 0 <= k < i ==> models[k].providerName != name
  {
    if models == [] then None
    else if models[0].providerName == name then Some(models[0])
    else
      var rest := FindModel(models[1..], name);
      assert forall k :: 0 <= k < |models| - 1 ==> models[1..][k] == models[k + 1];
      assert forall k :: 1 <= k < |models| ==> models[k] == models[1..][k - 1];
      rest
  }

  /** The one-message conversation used to test a key. */
  function TestMessages(model: Model): MessageHistory
  {
    [Message("", "user", "Hello", model.modelName, None)]
  }

  /** The test send of `validate_api_key`, once a default model and a provider are found. */
  function TestSend(p: ProviderData, model: Model, net: Network): Result<string, string>
    requires NewProvider(p.providerName, p.apiKey).Ok?
  {
    SendMessage(NewProvider(p.providerName, p.apiKey).value, TestMessages(model), model.modelName, DEFAULT_CONFIG, net)
  }

  /**
   * `validate_api_key`: sends `Hello` to the provider's default model with
   * the default configuration. It is never `Ok(false)`: a key is either
   * valid or the reason it is not is returned.
   */
  function ValidateApiKey(p: ProviderData, net: Network): (r: Result<bool, string>)
    ensures r != Ok(false)
    ensures FindModel(Init.DEFAULT_MODELS, p.providerName).None? ==>
              r == Err("No default model found for provider: " + p.providerName)
    ensures FindModel(Init.DEFAULT_MODELS, p.providerName).Some? && NewProvider(p.providerName, p.apiKey).Err? ==>
              r == Err("Failed to create provider: " + NewProvider(p.providerName, p.apiKey).error)
    ensures r.Ok? <==> FindModel(Init.DEFAULT_MODELS, p.providerName).Some? && NewProvider(p.providerName, p.apiKey).Ok?
                       && TestSend(p, FindModel(Init.DEFAULT_MODELS, p.providerName).value, net).Ok?
  {
    match FindModel(Init.DEFAULT_MODELS, p.providerName)
    case None => Err("No default model found for provider: " + p.providerName)
    case Some(model) =>
      match NewProvider(p.providerName, p.apiKey)
      case Err(e) => Err("Failed to create provider: " + e)
      case Ok(llm) =>
        match SendMessage(llm, TestMessages(model), model.modelName, DEFAULT_CONFIG, net)
        case Ok(_) => Ok(true)
        case Err(e) => Err(e)
  }

  /** Every row of the provider gets the key and the validity flag; nothing else changes. */
  function KeySet(rows: seq<ProviderData>, name: string, key: string, valid: bool): (r: seq<ProviderData>)
    ensures |r| == |rows|
    ensures forall i :: 0 <= i < |rows| ==>
              r[i] == if rows[i].providerName == name then rows[i].(apiKey := key, apiKeyValid := valid) else rows[i]
  {
    seq(|rows|, i requires 0 <= i < |rows| =>
      if rows[i].providerName == name then rows[i].(apiKey := key, apiKeyValid := valid) else rows[i])
  }

  /** `env::var(name).unwrap_or_default()`. */
  function EnvValue(env: map<string, string>, name: string): string
  {
    if name in env then env[name] else ""
  }

  /** Development mode: `DEVELOPMENT` is set to something other than `0`. */
  predicate DevelopmentMode(env: map<string, string>)
  {
    "DEVELOPMENT" in env && env["DEVELOPMENT"] != "0"
  }

  /** Every row of a provider in `names` gets that provider's key from the environment; nothing else changes. */
  function Rekeyed(rows: seq<ProviderData>, names: seq<string>, env: map<string, string>): (r: seq<ProviderData>)
    ensures |r| == |rows|
    ensures forall i :: 0 <= i < |rows| ==>
              r[i] == if rows[i].providerName in names then rows[i].(apiKey := EnvValue(env, rows[i].providerName)) else rows[i]
  {
    seq(|rows|, i requires 0 <= i < |rows| =>
      if rows[i].providerName in names then rows[i].(apiKey := EnvValue(env, rows[i].providerName)) else rows[i])
  }

  /** The position of the first name whose UPDATE fails, or `|order|` when none does. */
  function FirstFailed(order: seq<string>, updateErrors: map<string, string>): (k: nat)
    ensures k <= |order|
    ensures forall j :: 0 <= j < k ==> order[j] !in updateErrors
    ensures k < |order| ==> order[k] in updateErrors
  {
    if order == [] || order[0] in updateErrors then 0
    else
      var k := FirstFailed(order[1..], updateErrors);
      assert forall j :: 1 <= j < k + 1 ==> order[j] == order[1..][j - 1];
      k + 1
  }

  class ProvidersTable {
    var rows: seq<ProviderData>

    constructor (initial: seq<ProviderData>)
      ensures rows == initial
    {
      rows := initial;
    }

    /** `load_providers`. */
    function LoadProviders(fetchError: Option<string>): (r: Result<seq<ProviderData>, string>)
      reads this
      ensures r.Err? <==> fetchError.Some?
      ensures r.Err? ==> r.error == "Error getting providers: " + fetchError.value
      ensures r.Ok? ==> r.value == rows
    {
      if fetchError.Some? then Err("Error getting providers: " + fetchError.value) else Ok(rows)
    }

    /** `get_api_key`: the key of the first row of the provider. */
    function GetApiKey(name: string, fetchError: Option<string>): (r: Result<string, string>)
      reads this
      ensures fetchError.Some? ==> r == Err("Error fetching API key for provider " + name + ": " + fetchError.value)
      ensures fetchError.None? && (forall i :: 0 <= i < |rows| ==> rows[i].providerName != name) ==>
                r == Err("Error fetching API key for provider " + name + ": " + ROW_NOT_FOUND)
      ensures r.Ok? <==> fetchError.None? && exists i :: 0 <= i < |rows| && rows[i].providerName == name
      ensures r.Ok? ==> exists i :: 0 <= i < |rows| && rows[i].providerName == name && rows[i].apiKey == r.value
                                    && forall j :: 0 <= j < i ==> rows[j].providerName != name
      ensures fetchError.None? && FirstRow(rows, name).Some? ==> r == Ok(FirstRow(rows, name).value.apiKey)
    {
      if fetchError.Some? then Err("Error fetching API key for provider " + name + ": " + fetchError.value)
      else match FirstRow(rows, name)
        case None => Err("Error fetching API key for provider " + name + ": " + ROW_NOT_FOUND)
        case Some(p) => Ok(p.apiKey)
    }

    /**
     * `set_api_key`: validates first and returns the failure untouched;
     * only a valid key is stored, with `api_key_valid` set.
     */
    method SetApiKey(provider: ProviderData, net: Network, updateError: Option<string>) returns (r: Result<(), string>)
      modifies this
      ensures ValidateApiKey(provider, net).Err? ==> r == Err(ValidateApiKey(provider, net).error) && rows == old(rows)
      ensures ValidateApiKey(provider, net).Ok? && updateError.Some? ==>
                r == Err("Error updating API key for provider " + provider.providerName + ": " + updateError.value)
                && rows == old(rows)
      ensures ValidateApiKey(provider, net).Ok? && updateError.None? ==>
                r == Ok(()) && rows == KeySet(old(rows), provider.providerName, provider.apiKey, true)
      ensures r.Ok? ==> ValidateApiKey(provider, net) == Ok(true)
    {
      var isValid := ValidateApiKey(provider, net);
      if isValid.Err? {
        return Err(isValid.error);
      }
      if updateError.Some? {
        return Err("Error updating API key for provider " + provider.providerName + ": " + updateError.value);
      }
      rows := KeySet(rows, provider.providerName, provider.apiKey, isValid.value);
      r := Ok(());
    }

    /**
     * `read_api_keys_from_env`. `order` is the order in which the map of
     * five keys is walked, which the hash map leaves unspecified;
     * `updateErrors` holds the providers whose UPDATE fails.
     */
    method ReadApiKeysFromEnv(env: map<string, string>, order: seq<string>, updateErrors: map<string, string>)
      returns (r: Result<(), string>)
      requires multiset(order) == multiset(ENV_PROVIDERS)
      modifies this
      ensures !DevelopmentMode(env) ==> r == Ok(()) && rows == old(rows)
      ensures DevelopmentMode(env) && FirstFailed(order, updateErrors) == |order| ==>
                r == Ok(()) && rows == Rekeyed(old(rows), ENV_PROVIDERS, env)
      ensures DevelopmentMode(env) && FirstFailed(order, updateErrors) < |order| ==>
                var name := order[FirstFailed(order, updateErrors)];
                r == Err("Error saving API key for provider " + name + ": " + updateErrors[name])
                && rows == Rekeyed(old(rows), order[..FirstFailed(order, updateErrors)], env)
    {
      var development := if "DEVELOPMENT" in env then env["DEVELOPMENT"] else "0";
      if development == "0" {
        return Ok(());
      }
      ghost var start := rows;
      var i := 0;
      while i < |order|
        invariant 0 <= i <= |order|
        invariant forall j :: 0 <= j < i ==> order[j] !in updateErrors
        invariant rows == Rekeyed(start, order[..i], env)
      {
        var name := order[i];
        if name in updateErrors {
          FirstFailedIs(order, updateErrors, i);
          return Err("Error saving API key for provider " + name + ": " + updateErrors[name]);
        }
        RekeyedStep(start, order, i, env);
        rows := Rekeyed(rows, [name], env);
        i := i + 1;
      }
      FirstFailedIs(order, updateErrors, i);
      RekeyedAll(start, order, env);
      r := Ok(());
    }
  }

  /** The first row of the provider: what `fetch_one` returns. */
  function FirstRow(rows: seq<ProviderData>, name: string): (r: Option<ProviderData>)
    ensures r.None? <==> forall i :: 0 <= i < |rows| ==> rows[i].providerName != name
    ensures r.Some? ==> exists i :: 0 <= i < |rows| && rows[i] == r.value && r.value.providerName == name
                                    && forall j :: 0 <= j < i ==> rows[j].providerName != name
  {
    if rows == [] then None
    else if rows[0].providerName == name then Some(rows[0])
    else
      var rest := FirstRow(rows[1..], name);
      assert forall i :: 0 <= i < |rows| - 1 ==> rows[1..][i] == rows[i + 1];
      assert forall i :: 1 <= i < |rows| ==> rows[i] == rows[1..][i - 1];
      rest
  }

  // ---------------------------------------------------------------------
  // Properties

  /** The walk stops at the first failing name and at no other. */
  lemma {:induction false} FirstFailedIs(order: seq<string>, updateErrors: map<string, string>, i: nat)
    requires i <= |order|
    requires forall j :: 0 <= j < i ==> order[j] !in updateErrors
    requires i < |order| ==> order[i] in updateErrors
    ensures FirstFailed(order, updateErrors) == i
  {
    if i > 0 {
      assert order[0] !in updateErrors;
      forall j | 0 <= j < i - 1
        ensures order[1..][j] !in updateErrors
      {
        assert order[1..][j] == order[j + 1];
      }
      FirstFailedIs(order[1..], updateErrors, i - 1);
    }
  }

  /** One more name of the walk rekeys its provider's rows as well. */
  lemma RekeyedStep(rows: seq<ProviderData>, order: seq<string>, i: nat, env: map<string, string>)
    requires i < |order|
    ensures Rekeyed(Rekeyed(rows, order[..i], env), [order[i]], env) == Rekeyed(rows, order[..i + 1], env)
  {
    assert order[..i + 1] == order[..i] + [order[i]];
  }

  /** The whole walk rekeys the five providers, whatever its order. */
  lemma RekeyedAll(rows: seq<ProviderData>, order: seq<string>, env: map<string, string>)
    requires multiset(order) == multiset(ENV_PROVIDERS)
    ensures Rekeyed(rows, order[..|order|], env) == Rekeyed(rows, ENV_PROVIDERS, env)
  {
    assert order[..|order|] == order;
    forall n
      ensures n in order <==> n in ENV_PROVIDERS
    {
      assert n in order <==> n in multiset(order);
      assert n in ENV_PROVIDERS <==> n in multiset(ENV_PROVIDERS);
    }
  }

  /** A provider with no default model can never be validated. */
  lemma GoogleNeverValidates(p: ProviderData, net: Network)
    requires p.providerName == "google"
    ensures ValidateApiKey(p, net) == Err("No default model found for provider: " + p.providerName)
  {
    Init.DefaultModelsShape();
    assert p.providerName[0] == 'g' && |p.providerName| == 6;
    forall k | 0 <= k < |Init.DEFAULT_MODELS|
      ensures Init.DEFAULT_MODELS[k].providerName != p.providerName
    {
      var n := Init.DEFAULT_MODELS[k].providerName;
      assert n[0] != 'g' || |n| != 6;
    }
  }

  /**
   * Mistral and Groq have default models but no provider handle, so their
   * keys can never be validated, and `set_api_key` never stores one.
   */
  lemma MistralAndGroqNeverValidate(p: ProviderData, net: Network)
    requires p.providerName == "mistralai" || p.providerName == "groqcloud"
    ensures ValidateApiKey(p, net).Err?
    ensures ValidateApiKey(p, net).error == "Failed to create provider: " + ("Unsupported provider: " + p.providerName)
  {
    HasDefaultModel(p.providerName);
    OtherNamesUnsupported(p.apiKey);
  }

  lemma HasDefaultModel(name: string)
    requires name == "mistralai" || name == "groqcloud"
    ensures FindModel(Init.DEFAULT_MODELS, name).Some?
  {
    Init.DefaultModelsShape();
    var k := if name == "mistralai" then 2 else 3;
    assert Init.DEFAULT_MODELS[k].providerName == name;
  }

  /** A successful `get_api_key` after `set_api_key` returns the key just stored. */
  lemma StoredKeyIsRead(rows: seq<ProviderData>, name: string, key: string)
    requires exists i :: 0 <= i < |rows| && rows[i].providerName == name
    ensures FirstRow(KeySet(rows, name, key, true), name).Some?
    ensures FirstRow(KeySet(rows, name, key, true), name).value.apiKey == key
    ensures FirstRow(KeySet(rows, name, key, true), name).value.apiKeyValid
  {
    var r := KeySet(rows, name, key, true);
    var i :| 0 <= i < |rows| && rows[i].providerName == name;
    assert r[i].providerName == name;
  }

  /** Once `set_api_key` has stored a key, a `get_api_key` whose fetch succeeds returns it. */
  lemma GetAfterSet(t: ProvidersTable, before: seq<ProviderData>, name: string, key: string)
    requires exists i :: 0 <= i < |before| && before[i].providerName == name
    requires t.rows == KeySet(before, name, key, true)
    ensures t.GetApiKey(name, None) == Ok(key)
  {
    StoredKeyIsRead(before, name, key);
  }
}
