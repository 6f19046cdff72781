/**
 * The default models of `db/init.rs` and the loop that seeds the models
 * table with them when the database is opened.
 */
module Init {
  import opened Wrappers
  import opened Types
  import opened ModelsDb

  /** `DEFAULT_MODELS`: one model for each provider the store knows, in this order. */
  const DEFAULT_MODELS: seq<Model> := [
    Model("openai", "chatgpt-4o-latest", "ChatGPT", true, 16384, 128000),
    Model("anthropic", "claude-3-5-sonnet-latest", "Claude", true, 8192, 200000),
    Model("mistralai", "mistral-large-latest", "Mistral", true, 32768, 32768),
    Model("groqcloud", "llama-3.1-70b-versatile", "LLaMA", true, 2048, 131072)
  ]

  /** The table after `insert_model` has been called on each model in turn; `insertOk[i]` is the fate of the i-th INSERT. */
  function Seeded(rows: seq<Model>, models: seq<Model>, insertOk: seq<bool>): (r: seq<Model>)
    requires |insertOk| == |models|
    ensures |rows| <= |r| && r[..|rows|] == rows
    decreases |models|
  {
    if models == [] then rows
    else
      var n := |models| - 1;
      var before := Seeded(rows, models[..n], insertOk[..n]);
      InsertedProperties(before, models[n], insertOk[n]);
      Inserted(before, models[n], insertOk[n])
  }

  /** The seeding loop of `init`: every default model is offered to `insert_model`, whose result is ignored. */
  method SeedDefaults(table: ModelsTable, insertOk: seq<bool>)
    requires |insertOk| == |DEFAULT_MODELS|
    modifies table
    ensures table.rows == Seeded(old(table.rows), DEFAULT_MODELS, insertOk)
  {
    ghost var start := table.rows;
    var i := 0;
    while i < |DEFAULT_MODELS|
      invariant 0 <= i <= |DEFAULT_MODELS|
      invariant table.rows == Seeded(start, DEFAULT_MODELS[..i], insertOk[..i])
    {
      var _ := table.InsertModel(DEFAULT_MODELS[i], insertOk[i]);
      assert DEFAULT_MODELS[..i + 1][..i] == DEFAULT_MODELS[..i];
      assert insertOk[..i + 1][..i] == insertOk[..i];
      i := i + 1;
    }
    assert DEFAULT_MODELS[..i] == DEFAULT_MODELS && insertOk[..i] == insertOk;
  }

  // ---------------------------------------------------------------------
  // Properties

  /** Four defaults, one per provider, with pairwise different keys. */
  lemma DefaultModelsShape()
    ensures |DEFAULT_MODELS| == 4
    ensures DEFAULT_MODELS[0].providerName == "openai" && DEFAULT_MODELS[1].providerName == "anthropic"
    ensures DEFAULT_MODELS[2].providerName == "mistralai" && DEFAULT_MODELS[3].providerName == "groqcloud"
    ensures UniqueKeys(DEFAULT_MODELS)
  {
    assert DEFAULT_MODELS[0].providerName[0] == 'o';
    assert DEFAULT_MODELS[1].providerName[0] == 'a';
    assert DEFAULT_MODELS[2].providerName[0] == 'm';
    assert DEFAULT_MODELS[3].providerName[0] == 'g';
  }

  /** Seeding keeps unique keys unique. */
  lemma {:induction false} SeedKeepsUnique(rows: seq<Model>, models: seq<Model>, insertOk: seq<bool>)
    requires |insertOk| == |models|
    requires UniqueKeys(rows)
    ensures UniqueKeys(Seeded(rows, models, insertOk))
    decreases |models|
  {
    if models != [] {
      var n := |models| - 1;
      SeedKeepsUnique(rows, models[..n], insertOk[..n]);
      InsertedProperties(Seeded(rows, models[..n], insertOk[..n]), models[n], insertOk[n]);
    }
  }

  /** A key already present stays present through seeding. */
  lemma {:induction false} SeedKeepsKey(rows: seq<Model>, models: seq<Model>, insertOk: seq<bool>, p: string, m: string)
    requires |insertOk| == |models|
    requires HasKey(rows, p, m)
    ensures HasKey(Seeded(rows, models, insertOk), p, m)
  {
    var r := Seeded(rows, models, insertOk);
    var i :| 0 <= i < |rows| && HasKeyOf(rows[i], p, m);
    assert r[..|rows|][i] == r[i];
  }

  /** When every INSERT succeeds, every default key is present afterwards. */
  lemma {:induction false} SeedAddsKeys(rows: seq<Model>, models: seq<Model>, insertOk: seq<bool>)
    requires |insertOk| == |models|
    requires forall i :: 0 <= i < |insertOk| ==> insertOk[i]
    ensures forall k :: 0 <= k < |models| ==> HasKey(Seeded(rows, models, insertOk), models[k].providerName, models[k].modelName)
    decreases |models|
  {
    if models != [] {
      var n := |models| - 1;
      var before := Seeded(rows, models[..n], insertOk[..n]);
      SeedAddsKeys(rows, models[..n], insertOk[..n]);
      InsertedProperties(before, models[n], insertOk[n]);
      forall k | 0 <= k < |models|
        ensures HasKey(Seeded(rows, models, insertOk), models[k].providerName, models[k].modelName)
      {
        if k < n {
          assert models[..n][k] == models[k];
          SeedKeepsKey(before, [models[n]], [insertOk[n]], models[k].providerName, models[k].modelName);
          assert [models[n]][..0] == [] && [insertOk[n]][..0] == [];
        }
      }
    }
  }

  /** Seeding a table that already holds every key of the models changes nothing. */
  lemma {:induction false} SeedPresentKeys(rows: seq<Model>, models: seq<Model>, insertOk: seq<bool>)
    requires |insertOk| == |models|
    requires forall k :: 0 <= k < |models| ==> HasKey(rows, models[k].providerName, models[k].modelName)
    ensures Seeded(rows, models, insertOk) == rows
    decreases |models|
  {
    if models != [] {
      var n := |models| - 1;
      forall k | 0 <= k < n
        ensures HasKey(rows, models[..n][k].providerName, models[..n][k].modelName)
      {
        assert models[..n][k] == models[k];
      }
      SeedPresentKeys(rows, models[..n], insertOk[..n]);
      InsertedProperties(rows, models[n], insertOk[n]);
    }
  }

  /**
   * Seeding is idempotent: after a seeding whose INSERTs all succeeded, a
   * second seeding leaves the table as it is, whatever becomes of its INSERTs.
   */
  lemma SeedIdempotent(rows: seq<Model>, allOk: seq<bool>, insertOk: seq<bool>)
    requires |allOk| == |DEFAULT_MODELS| && |insertOk| == |DEFAULT_MODELS|
    requires forall i :: 0 <= i < |allOk| ==> allOk[i]
    ensures Seeded(Seeded(rows, DEFAULT_MODELS, allOk), DEFAULT_MODELS, insertOk) == Seeded(rows, DEFAULT_MODELS, allOk)
  {
    SeedAddsKeys(rows, DEFAULT_MODELS, allOk);
    SeedPresentKeys(Seeded(rows, DEFAULT_MODELS, allOk), DEFAULT_MODELS, insertOk);
  }
}
