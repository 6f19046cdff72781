/**
 * The models table of `db/models.rs`, keyed by the pair (provider name,
 * model name). Every SQL statement is one atomic step; a statement that the
 * database engine fails is an input carrying the engine's error text.
 */
module ModelsDb {
  import Strings
  import opened Wrappers
  import opened Types

  const DUPLICATE_MODEL := "A model with this provider and name already exists"
  const MODEL_NOT_FOUND := "Model not found"
  const CHECK_FAILED := "Error checking model existence: "

  /** `ModelUpdate`: the key the row had before, and the whole new row. */
  datatype ModelUpdate = ModelUpdate(originalProviderName: string, originalModelName: string, model: Model)

  predicate HasKeyOf(m: Model, provider: string, name: string)
  {
    m.providerName == provider && m.modelName == name
  }

  /** Some row has the key: what the existence queries find. */
  predicate HasKey(rows: seq<Model>, provider: string, name: string)
  {
    exists i :: 0 <= i < |rows| && HasKeyOf(rows[i], provider, name)
  }

  /** No two rows share a key. */
  predicate UniqueKeys(rows: seq<Model>)
  {
    forall i, j :: 0 <= i < j < |rows| ==> !HasKeyOf(rows[j], rows[i].providerName, rows[i].modelName)
  }

  predicate KeyChanged(u: ModelUpdate)
  {
    u.originalProviderName != u.model.providerName || u.originalModelName != u.model.modelName
  }

  /** The number of rows a statement with `WHERE provider_name = $p AND model_name = $n` touches. */
  function RowsAffected(rows: seq<Model>, provider: string, name: string): (n: nat)
    ensures n <= |rows|
    ensures n == 0 <==> !HasKey(rows, provider, name)
  {
    if rows == [] then 0
    else
      var rest := RowsAffected(rows[1..], provider, name);
      assert HasKey(rows, provider, name) <==> HasKeyOf(rows[0], provider, name) || HasKey(rows[1..], provider, name) by {
        if HasKey(rows[1..], provider, name) {
          var i :| 0 <= i < |rows[1..]| && HasKeyOf(rows[1..][i], provider, name);
          assert rows[i + 1] == rows[1..][i];
        }
        if HasKey(rows, provider, name) && !HasKeyOf(rows[0], provider, name) {
          var i :| 0 <= i < |rows| && HasKeyOf(rows[i], provider, name);
          assert rows[1..][i - 1] == rows[i];
        }
      }
      (if HasKeyOf(rows[0], provider, name) then 1 else 0) + rest
  }

  /** The table after `insert_model`: the row is added only when its key is new and the INSERT succeeds. */
  function Inserted(rows: seq<Model>, model: Model, insertOk: bool): seq<Model>
  {
    if HasKey(rows, model.providerName, model.modelName) || !insertOk then rows else rows + [model]
  }

  /** The table after the UPDATE of `update_model`: every row with the original key becomes the new row. */
  function Updated(rows: seq<Model>, u: ModelUpdate): (r: seq<Model>)
    ensures |r| == |rows|
    ensures forall i :: 0 <= i < |rows| ==>
              r[i] == if HasKeyOf(rows[i], u.originalProviderName, u.originalModelName) then u.model else rows[i]
  {
    seq(|rows|, i requires 0 <= i < |rows| =>
      if HasKeyOf(rows[i], u.originalProviderName, u.originalModelName) then u.model else rows[i])
  }

  /** The table after the DELETE of `delete_model`: the rows without the key, in their order. */
  function Deleted(rows: seq<Model>, provider: string, name: string): (r: seq<Model>)
    ensures forall m :: m in r <==> m in rows && !HasKeyOf(m, provider, name)
    ensures |r| == |rows| - RowsAffected(rows, provider, name)
  {
    if rows == [] then []
    else
      (if HasKeyOf(rows[0], provider, name) then [] else [rows[0]]) + Deleted(rows[1..], provider, name)
  }

  /** A provider whose models `get_models` lists: `local`, or one with a non-empty stored key. */
  predicate Usable(providers: seq<ProviderData>, name: string)
  {
    name == "local" || exists i :: 0 <= i < |providers| && providers[i].providerName == name && providers[i].apiKey != ""
  }

  /** The rows `get_models` selects, in table order. */
  function Visible(rows: seq<Model>, providers: seq<ProviderData>): (r: seq<Model>)
    ensures |r| <= |rows|
    ensures forall m :: m in r <==> m in rows && Usable(providers, m.providerName)
  {
    if rows == [] then []
    else
      (if Usable(providers, rows[0].providerName) then [rows[0]] else []) + Visible(rows[1..], providers)
  }

  /** Each usable row is listed as many times as it is stored, any other not at all. */
  lemma {:induction false} VisibleCounts(rows: seq<Model>, providers: seq<ProviderData>)
    ensures forall m :: multiset(Visible(rows, providers))[m]
                        == if Usable(providers, m.providerName) then multiset(rows)[m] else 0
    decreases |rows|
  {
    if rows != [] {
      VisibleCounts(rows[1..], providers);
      assert rows == [rows[0]] + rows[1..];
    }
  }

  /** A row added at the end is listed last, if its provider is usable. */
  lemma {:induction false} VisibleSnoc(rows: seq<Model>, m: Model, providers: seq<ProviderData>)
    ensures Visible(rows + [m], providers)
            == Visible(rows, providers) + (if Usable(providers, m.providerName) then [m] else [])
    decreases |rows|
  {
    if rows == [] {
      assert [m][1..] == [];
    } else {
      var h := if Usable(providers, rows[0].providerName) then [rows[0]] else [];
      var t := if Usable(providers, m.providerName) then [m] else [];
      var v := Visible(rows[1..], providers);
      assert Visible(rows + [m], providers) == h + Visible(rows[1..] + [m], providers) by {
        assert (rows + [m])[0] == rows[0];
        assert (rows + [m])[1..] == rows[1..] + [m];
      }
      VisibleSnoc(rows[1..], m, providers);
      Strings.Assoc(h, v, t);
    }
  }

  class ModelsTable {
    var rows: seq<Model>

    constructor (initial: seq<Model>)
      ensures rows == initial
    {
      rows := initial;
    }

    /** `get_models`. */
    function GetModels(providers: seq<ProviderData>, fetchError: Option<string>): (r: Result<seq<Model>, string>)
      reads this
      ensures r.Err? <==> fetchError.Some?
      ensures r.Err? ==> r.error == fetchError.value
      ensures r.Ok? ==> r.value == Visible(rows, providers)
      ensures r.Ok? ==> forall m :: m in r.value <==> m in rows && Usable(providers, m.providerName)
      ensures r.Ok? ==> forall m ::
                multiset(r.value)[m] == if Usable(providers, m.providerName) then multiset(rows)[m] else 0
    {
      if fetchError.Some? then Err(fetchError.value)
      else
        VisibleCounts(rows, providers);
        Ok(Visible(rows, providers))
    }

    /** `get_all_models`. */
    function GetAllModels(fetchError: Option<string>): (r: Result<seq<Model>, string>)
      reads this
      ensures r.Err? <==> fetchError.Some?
      ensures r.Err? ==> r.error == fetchError.value
      ensures r.Ok? ==> r.value == rows
    {
      if fetchError.Some? then Err(fetchError.value) else Ok(rows)
    }

    /** `insert_model`: a present key leaves the table alone, and a failed INSERT is ignored. */
    method InsertModel(model: Model, insertOk: bool) returns (r: Result<(), string>)
      modifies this
      ensures r == Ok(())
      ensures rows == Inserted(old(rows), model, insertOk)
      ensures UniqueKeys(old(rows)) ==> UniqueKeys(rows)
    {
      if HasKey(rows, model.providerName, model.modelName) {
        return Ok(());
      }
      if insertOk {
        AppendKeepsUnique(rows, model);
        rows := rows + [model];
      }
      r := Ok(());
    }

    /** `add_model`: rejects a taken key, and otherwise inserts. */
    method AddModel(model: Model, checkError: Option<string>, insertError: Option<string>) returns (r: Result<(), string>)
      modifies this
      ensures checkError.Some? ==> r == Err(CHECK_FAILED + checkError.value) && rows == old(rows)
      ensures checkError.None? && HasKey(old(rows), model.providerName, model.modelName) ==>
                r == Err(DUPLICATE_MODEL) && rows == old(rows)
      ensures checkError.None? && !HasKey(old(rows), model.providerName, model.modelName) && insertError.Some? ==>
                r == Err(insertError.value) && rows == old(rows)
      ensures checkError.None? && !HasKey(old(rows), model.providerName, model.modelName) && insertError.None? ==>
                r == Ok(()) && rows == old(rows) + [model]
      ensures UniqueKeys(old(rows)) ==> UniqueKeys(rows)
    {
      if checkError.Some? {
        return Err(CHECK_FAILED + checkError.value);
      }
      if HasKey(rows, model.providerName, model.modelName) {
        return Err(DUPLICATE_MODEL);
      }
      if insertError.Some? {
        return Err(insertError.value);
      }
      AppendKeepsUnique(rows, model);
      rows := rows + [model];
      r := Ok(());
    }

    /**
     * `update_model`: a change of key is checked against the rows first;
     * then every row with the original key is overwritten, and no such row
     * is `Model not found`.
     */
    method UpdateModel(update: ModelUpdate, checkError: Option<string>, updateError: Option<string>)
      returns (r: Result<(), string>)
      modifies this
      ensures KeyChanged(update) && checkError.Some? ==> r == Err(CHECK_FAILED + checkError.value) && rows == old(rows)
      ensures KeyChanged(update) && checkError.None? && HasKey(old(rows), update.model.providerName, update.model.modelName) ==>
                r == Err(DUPLICATE_MODEL) && rows == old(rows)
      ensures MayUpdate(old(rows), update, checkError) && updateError.Some? ==> r == Err(updateError.value) && rows == old(rows)
      ensures MayUpdate(old(rows), update, checkError) && updateError.None? ==>
                rows == Updated(old(rows), update)
                && r == if HasKey(old(rows), update.originalProviderName, update.originalModelName) then Ok(()) else Err(MODEL_NOT_FOUND)
      ensures UniqueKeys(old(rows)) ==> UniqueKeys(rows)
    {
      if KeyChanged(update) {
        if checkError.Some? {
          return Err(CHECK_FAILED + checkError.value);
        }
        if HasKey(rows, update.model.providerName, update.model.modelName) {
          return Err(DUPLICATE_MODEL);
        }
      }
      if updateError.Some? {
        return Err(updateError.value);
      }
      var affected := RowsAffected(rows, update.originalProviderName, update.originalModelName);
      if UniqueKeys(rows) {
        UpdateKeepsUnique(rows, update);
      }
      rows := Updated(rows, update);
      r := if affected == 0 then Err(MODEL_NOT_FOUND) else Ok(());
    }

    /** `delete_model`: removes the rows with the key; none is `Model not found`. */
    method DeleteModel(provider: string, name: string, deleteError: Option<string>) returns (r: Result<(), string>)
      modifies this
      ensures deleteError.Some? ==> r == Err(deleteError.value) && rows == old(rows)
      ensures deleteError.None? ==>
                rows == Deleted(old(rows), provider, name)
                && r == if HasKey(old(rows), provider, name) then Ok(()) else Err(MODEL_NOT_FOUND)
      ensures deleteError.None? ==> !HasKey(rows, provider, name)
      ensures UniqueKeys(old(rows)) ==> UniqueKeys(rows)
    {
      if deleteError.Some? {
        return Err(deleteError.value);
      }
      var affected := RowsAffected(rows, provider, name);
      DeletedKeepsUnique(rows, provider, name);
      rows := Deleted(rows, provider, name);
      r := if affected == 0 then Err(MODEL_NOT_FOUND) else Ok(());
    }
  }

  /** The duplicate check of `update_model` lets the UPDATE run. */
  predicate MayUpdate(rows: seq<Model>, u: ModelUpdate, checkError: Option<string>)
  {
    !KeyChanged(u) || (checkError.None? && !HasKey(rows, u.model.providerName, u.model.modelName))
  }

  // ---------------------------------------------------------------------
  // Properties

  /** Appending a row with a new key keeps the keys unique. */
  lemma AppendKeepsUnique(rows: seq<Model>, m: Model)
    requires !HasKey(rows, m.providerName, m.modelName)
    ensures UniqueKeys(rows) ==> UniqueKeys(rows + [m])
  {
    var r := rows + [m];
    if UniqueKeys(rows) {
      forall i, j | 0 <= i < j < |r|
        ensures !HasKeyOf(r[j], r[i].providerName, r[i].modelName)
      {
        assert r[i] == rows[i];
        if j < |rows| {
          assert r[j] == rows[j];
        }
      }
    }
  }

  /** `insert_model` keeps the keys unique and, when its INSERT succeeds, leaves the key present. */
  lemma InsertedProperties(rows: seq<Model>, m: Model, insertOk: bool)
    ensures UniqueKeys(rows) ==> UniqueKeys(Inserted(rows, m, insertOk))
    ensures insertOk ==> HasKey(Inserted(rows, m, insertOk), m.providerName, m.modelName)
    ensures |rows| <= |Inserted(rows, m, insertOk)| && Inserted(rows, m, insertOk)[..|rows|] == rows
    ensures HasKey(rows, m.providerName, m.modelName) ==> Inserted(rows, m, insertOk) == rows
  {
    if !HasKey(rows, m.providerName, m.modelName) && insertOk {
      AppendKeepsUnique(rows, m);
      assert (rows + [m])[|rows|] == m;
    }
  }

  /** Rewriting the rows of one key keeps the keys unique when the new key is that key or a free one. */
  lemma UpdateKeepsUnique(rows: seq<Model>, u: ModelUpdate)
    requires UniqueKeys(rows)
    requires !KeyChanged(u) || !HasKey(rows, u.model.providerName, u.model.modelName)
    ensures UniqueKeys(Updated(rows, u))
  {
    var r := Updated(rows, u);
    forall i, j | 0 <= i < j < |r|
      ensures !HasKeyOf(r[j], r[i].providerName, r[i].modelName)
    {
      var hi := HasKeyOf(rows[i], u.originalProviderName, u.originalModelName);
      var hj := HasKeyOf(rows[j], u.originalProviderName, u.originalModelName);
      if hi && !hj {
        assert r[i] == u.model && r[j] == rows[j];
        assert !HasKeyOf(rows[j], u.model.providerName, u.model.modelName);
      } else if !hi && hj {
        assert r[j] == u.model && r[i] == rows[i];
        assert !HasKeyOf(rows[i], u.model.providerName, u.model.modelName);
      }
    }
  }

  /** An update that matches no row changes nothing, which is when it answers `Model not found`. */
  lemma UpdateOfMissingKey(rows: seq<Model>, u: ModelUpdate)
    requires !HasKey(rows, u.originalProviderName, u.originalModelName)
    ensures Updated(rows, u) == rows
  {
  }

  /** Deleting keeps the keys unique, leaves the key absent, and deleting an absent key changes nothing. */
  lemma DeletedKeepsUnique(rows: seq<Model>, provider: string, name: string)
    ensures UniqueKeys(rows) ==> UniqueKeys(Deleted(rows, provider, name))
    ensures !HasKey(Deleted(rows, provider, name), provider, name)
    ensures !HasKey(rows, provider, name) ==> Deleted(rows, provider, name) == rows
  {
    DeletedStaysUnique(rows, provider, name);
    DeletedOfAbsent(rows, provider, name);
  }

  /** The rows a delete keeps have unique keys when the table had. */
  lemma {:induction false} DeletedStaysUnique(rows: seq<Model>, provider: string, name: string)
    ensures UniqueKeys(rows) ==> UniqueKeys(Deleted(rows, provider, name))
    decreases |rows|
  {
    if rows != [] && UniqueKeys(rows) {
      var tail := rows[1..];
      assert UniqueKeys(tail) by {
        forall i, j | 0 <= i < j < |tail|
          ensures !HasKeyOf(tail[j], tail[i].providerName, tail[i].modelName)
        {
          assert tail[i] == rows[i + 1] && tail[j] == rows[j + 1];
        }
      }
      DeletedStaysUnique(tail, provider, name);
      var rest := Deleted(tail, provider, name);
      forall k | 0 <= k < |rest|
        ensures !HasKeyOf(rest[k], rows[0].providerName, rows[0].modelName)
      {
        assert rest[k] in tail;
        var j :| 0 <= j < |tail| && tail[j] == rest[k];
        assert rows[j + 1] == tail[j];
      }
      if !HasKeyOf(rows[0], provider, name) {
        PrependKeepsUnique(rows[0], rest);
      }
    }
  }

  lemma PrependKeepsUnique(m: Model, rows: seq<Model>)
    requires UniqueKeys(rows) && !HasKey(rows, m.providerName, m.modelName)
    ensures UniqueKeys([m] + rows)
  {
    var r := [m] + rows;
    forall i, j | 0 <= i < j < |r|
      ensures !HasKeyOf(r[j], r[i].providerName, r[i].modelName)
    {
      assert r[j] == rows[j - 1];
      if i > 0 {
        assert r[i] == rows[i - 1];
      }
    }
  }

  lemma {:induction false} DeletedOfAbsent(rows: seq<Model>, provider: string, name: string)
    ensures !HasKey(rows, provider, name) ==> Deleted(rows, provider, name) == rows
    decreases |rows|
  {
    if rows != [] && !HasKey(rows, provider, name) {
      assert !HasKeyOf(rows[0], provider, name);
      assert !HasKey(rows[1..], provider, name);
      DeletedOfAbsent(rows[1..], provider, name);
      assert [rows[0]] + rows[1..] == rows;
    }
  }

  /** What `get_models` lists is part of what `get_all_models` lists. */
  lemma VisibleAmongAll(t: ModelsTable, providers: seq<ProviderData>)
    ensures t.GetModels(providers, None).Ok? && t.GetAllModels(None).Ok?
    ensures forall m :: m in t.GetModels(providers, None).value ==> m in t.GetAllModels(None).value
  {
  }

  /** Models of `local` are listed whatever the providers table holds. */
  lemma LocalAlwaysVisible(rows: seq<Model>, providers: seq<ProviderData>, m: Model)
    requires m in rows && m.providerName == "local"
    ensures m in Visible(rows, providers)
  {
  }
}
