/** `Model.ts`: the instance side of a model, its attribute dictionary with mass assignment,
    hidden fields and the update payload, and the check of the configured database type. */
module Models {
  import opened Wrappers
  import Js
  import DatabaseFactory

  /** The value `assign` stores under `key`: the datum itself when the key is fillable and
      not guarded, otherwise `data["id"]`. */
  function Chosen(data: Js.Props, key: string, fillable: seq<string>, guarded: seq<string>): Js.Value {
    if key in fillable && key !in guarded then Js.Lookup(data, key).GetOr(Js.Undefined)
    else Js.Lookup(data, "id").GetOr(Js.Undefined)
  }

  /** The attributes after assigning the given keys of `data` one after the other. */
  function AssignKeys(attrs: Js.Props, data: Js.Props, keys: seq<string>, fillable: seq<string>, guarded: seq<string>): Js.Props
  {
    if keys == [] then attrs
    else
      var k := keys[|keys| - 1];
      Js.Put(AssignKeys(attrs, data, keys[..|keys| - 1], fillable, guarded), k, Chosen(data, k, fillable, guarded))
  }

  /** The attributes with every hidden field deleted, one after the other. */
  function Hide(attrs: Js.Props, fields: seq<string>): Js.Props
  {
    if fields == [] then attrs else Js.Remove(Hide(attrs, fields[..|fields| - 1]), fields[|fields| - 1])
  }

  /** `attributes[key]`: `undefined` for a key never set. */
  function Attribute(attrs: Js.Props, key: string): Js.Value {
    Js.Lookup(attrs, key).GetOr(Js.Undefined)
  }

  /** Writing a key twice keeps only the second value, in the key's first place. */
  lemma {:induction false} PutPut(props: Js.Props, k: string, v1: Js.Value, v2: Js.Value)
    ensures Js.Put(Js.Put(props, k, v1), k, v2) == Js.Put(props, k, v2)
  {
    if props != [] && props[0].0 != k {
      PutPut(props[1..], k, v1, v2);
    }
  }

  lemma AssignStep(attrs: Js.Props, data: Js.Props, keys: seq<string>, i: nat, fillable: seq<string>, guarded: seq<string>)
    requires i < |keys|
    ensures AssignKeys(attrs, data, keys[..i + 1], fillable, guarded)
         == Js.Put(AssignKeys(attrs, data, keys[..i], fillable, guarded), keys[i], Chosen(data, keys[i], fillable, guarded))
  {
    assert keys[..i + 1][..i] == keys[..i];
  }

  /** After `assign(data)`: a key of `data` holds its chosen value; any other key keeps its
      value. */
  lemma {:induction false} AssignLookup(attrs: Js.Props, data: Js.Props, keys: seq<string>, fillable: seq<string>,
                                        guarded: seq<string>, k: string)
    ensures Attribute(AssignKeys(attrs, data, keys, fillable, guarded), k)
         == if k in keys then Chosen(data, k, fillable, guarded) else Attribute(attrs, k)
  {
    if keys != [] {
      var before := keys[..|keys| - 1];
      assert keys == before + [keys[|keys| - 1]];
      Js.LookupPut(AssignKeys(attrs, data, before, fillable, guarded), keys[|keys| - 1],
                   Chosen(data, keys[|keys| - 1], fillable, guarded), k);
      AssignLookup(attrs, data, before, fillable, guarded, k);
    }
  }

  /** The fillable, unguarded keys of `data` receive their own value; the others receive the
      record's `id`. */
  lemma AssignMassAssignment(attrs: Js.Props, data: Js.Props, fillable: seq<string>, guarded: seq<string>, k: string)
    requires Js.HasKey(data, k)
    ensures var after := AssignKeys(attrs, data, Js.Keys(data), fillable, guarded);
      (k in fillable && k !in guarded ==> Attribute(after, k) == Attribute(data, k)) &&
      (k !in fillable || k in guarded ==> Attribute(after, k) == Attribute(data, "id"))
  {
    var i :| 0 <= i < |data| && data[i].0 == k;
    assert Js.Keys(data)[i] == k;
    AssignLookup(attrs, data, Js.Keys(data), fillable, guarded, k);
  }

  /** The assignment the loop evidently means: a key that is not fillable, or is guarded, is
      left alone instead of receiving `data["id"]`. */
  function IntendedAssignKeys(attrs: Js.Props, data: Js.Props, keys: seq<string>, fillable: seq<string>, guarded: seq<string>): Js.Props
  {
    if keys == [] then attrs
    else
      var k := keys[|keys| - 1];
      var before := IntendedAssignKeys(attrs, data, keys[..|keys| - 1], fillable, guarded);
      if k in fillable && k !in guarded then Js.Put(before, k, Attribute(data, k)) else before
  }

  /** With the intended assignment, exactly the fillable, unguarded keys of `data` change, each
      to its own value. */
  lemma {:induction false} IntendedAssignLookup(attrs: Js.Props, data: Js.Props, keys: seq<string>, fillable: seq<string>,
                                                guarded: seq<string>, k: string)
    ensures Attribute(IntendedAssignKeys(attrs, data, keys, fillable, guarded), k)
         == if k in keys && k in fillable && k !in guarded then Attribute(data, k) else Attribute(attrs, k)
  {
    if keys != [] {
      var before := keys[..|keys| - 1];
      var last := keys[|keys| - 1];
      assert keys == before + [last];
      IntendedAssignLookup(attrs, data, before, fillable, guarded, k);
      if last in fillable && last !in guarded {
        Js.LookupPut(IntendedAssignKeys(attrs, data, before, fillable, guarded), last, Attribute(data, last), k);
      }
    }
  }

  /** As written, a guarded key takes the record's `id`: assigning `{id: 1, role: "admin"}` to a
      model that guards `role` stores `role = 1`; the intended assignment leaves it unset. */
  lemma GuardedKeyTakesId()
    ensures var data := [("id", Js.Num(1)), ("role", Js.Str("admin"))];
      Attribute(AssignKeys([], data, Js.Keys(data), ["role"], ["role"]), "role") == Js.Num(1)
      && Attribute(IntendedAssignKeys([], data, Js.Keys(data), ["role"], ["role"]), "role") == Js.Undefined
  {
    var data := [("id", Js.Num(1)), ("role", Js.Str("admin"))];
    AssignMassAssignment([], data, ["role"], ["role"], "role");
    IntendedAssignLookup([], data, Js.Keys(data), ["role"], ["role"], "role");
  }

  /** After hiding, the hidden fields are gone and every other field reads as before. */
  lemma {:induction false} HideLookup(attrs: Js.Props, fields: seq<string>, k: string)
    ensures Js.Lookup(Hide(attrs, fields), k) == if k in fields then None else Js.Lookup(attrs, k)
  {
    if fields != [] {
      var before := fields[..|fields| - 1];
      assert fields == before + [fields[|fields| - 1]];
      Js.LookupRemove(Hide(attrs, before), fields[|fields| - 1], k);
      HideLookup(attrs, before, k);
    }
  }

  /** `setAttribute(k, v)` then `getAttribute(k)` gives `v`; other keys read as before. */
  lemma SetThenGet(attrs: Js.Props, key: string, v: Js.Value, k2: string)
    ensures Attribute(Js.Put(attrs, key, v), k2) == if k2 == key then v else Attribute(attrs, k2)
  {
    Js.LookupPut(attrs, key, v, k2);
  }

  /** `{ ...attributes }` without `id`: every other attribute is kept. */
  function UpdatePayload(attrs: Js.Props): (r: Js.Props)
    ensures Js.Lookup(r, "id") == None
    ensures forall k :: k != "id" ==> Js.Lookup(r, k) == Js.Lookup(attrs, k)
  {
    Js.LookupRemove(attrs, "id", "id");
    Js.RemoveKeeps(attrs, "id");
    Js.Remove(attrs, "id")
  }

  class Model {
    var fillable: seq<string>
    var hidden: seq<string>
    var guarded: seq<string>
    var attributes: Js.Props

    constructor (fillable: seq<string>, hidden: seq<string>, guarded: seq<string>)
      ensures this.fillable == fillable && this.hidden == hidden && this.guarded == guarded
      ensures attributes == []
    {
      this.fillable := fillable;
      this.hidden := hidden;
      this.guarded := guarded;
      attributes := [];
    }

    method Assign(data: Js.Props)
      modifies this
      ensures attributes == AssignKeys(old(attributes), data, Js.Keys(data), fillable, guarded)
      ensures fillable == old(fillable) && hidden == old(hidden) && guarded == old(guarded)
    {
      var keys := Js.Keys(data);
      var idValue := Js.Lookup(data, "id").GetOr(Js.Undefined);
      var i := 0;
      while i < |keys|
        invariant 0 <= i <= |keys|
        invariant fillable == old(fillable) && hidden == old(hidden) && guarded == old(guarded)
        invariant attributes == AssignKeys(old(attributes), data, keys[..i], fillable, guarded)
      {
        var key := keys[i];
        ghost var before := attributes;
        attributes := Js.Put(attributes, key, idValue);
        if key in fillable && key !in guarded {
          attributes := Js.Put(attributes, key, Js.Lookup(data, key).GetOr(Js.Undefined));
          PutPut(before, key, idValue, Js.Lookup(data, key).GetOr(Js.Undefined));
        }
        AssignStep(old(attributes), data, keys, i, fillable, guarded);
        i := i + 1;
      }
      assert keys[..i] == keys;
    }

    /** A copy of the attributes without the hidden fields; the attributes stay as they were. */
    method ToJson() returns (raw: Js.Props)
      ensures raw == Hide(attributes, hidden)
    {
      raw := attributes;
      var i := 0;
      while i < |hidden|
        invariant 0 <= i <= |hidden|
        invariant raw == Hide(attributes, hidden[..i])
      {
        assert hidden[..i + 1][..i] == hidden[..i];
        raw := Js.Remove(raw, hidden[i]);
        i := i + 1;
      }
      assert hidden[..i] == hidden;
    }

    function GetAttribute(key: string): (r: Js.Value)
      reads this
      ensures Js.HasKey(attributes, key) ==>
        exists i :: 0 <= i < |attributes| && attributes[i] == (key, r) && forall j :: 0 <= j < i ==> attributes[j].0 != key
      ensures !Js.HasKey(attributes, key) ==> r == Js.Undefined
    {
      Js.LookupFirst(attributes, key);
      Attribute(attributes, key)
    }

    method SetAttribute(key: string, value: Js.Value)
      modifies this
      ensures attributes == Js.Put(old(attributes), key, value)
      ensures fillable == old(fillable) && hidden == old(hidden) && guarded == old(guarded)
    {
      attributes := Js.Put(attributes, key, value);
    }

    /** The instance part of `update(data)`: assign, then hand the query builder the
        attributes without `id` as the payload and `attributes.id` as the where value. */
    method Update(data: Js.Props) returns (payload: Js.Props, id: Js.Value)
      modifies this
      ensures attributes == AssignKeys(old(attributes), data, Js.Keys(data), fillable, guarded)
      ensures fillable == old(fillable) && hidden == old(hidden) && guarded == old(guarded)
      ensures payload == UpdatePayload(attributes)
      ensures id == Attribute(attributes, "id")
    {
      Assign(data);
      payload := Js.Remove(attributes, "id");
      id := Attribute(attributes, "id");
    }
  }

  /** `isValidDatabaseType`, as written: it admits "pg" and not "postgresql". */
  predicate IsValidDatabaseType(t: string) {
    t in ["mysql", "sqlite", "pg"]
  }

  /** The configuration the model hands the factory: the connection settings with `type`. */
  function FullConfig(dbConfig: Js.Props, dbType: string): (r: Js.Props)
    ensures Js.Lookup(r, "type") == Some(Js.Str(dbType))
  {
    Js.LookupPut(dbConfig, "type", Js.Str(dbType), "type");
    Js.Put(dbConfig, "type", Js.Str(dbType))
  }

  /** As written, no database type the model admits gets a PostgreSQL adapter: "pg" passes
      `isValidDatabaseType` and then the factory refuses it. */
  lemma PostgresUnreachable(dbConfig: Js.Props, dbType: string)
    requires IsValidDatabaseType(dbType)
    ensures DatabaseFactory.CreateAdapter(FullConfig(dbConfig, dbType)) != Ok(DatabaseFactory.PostgreSqlAdapter)
    ensures dbType == "pg" ==>
              DatabaseFactory.CreateAdapter(FullConfig(dbConfig, dbType)) == Err("Unsupported database type: pg")
  {
  }

  /** The check the factory supports: the types `isValidDatabase` admits. */
  predicate IsSupportedDatabaseType(t: string) {
    DatabaseFactory.IsValidDatabase(t)
  }

  /** Every type the corrected check admits gets an adapter, and every adapter is reached. */
  lemma SupportedTypesReachEveryAdapter(dbConfig: Js.Props, dbType: string, k: DatabaseFactory.AdapterKind)
    ensures IsSupportedDatabaseType(dbType) ==> DatabaseFactory.CreateAdapter(FullConfig(dbConfig, dbType)).Ok?
    ensures IsSupportedDatabaseType(DatabaseFactory.TypeName(k))
    ensures DatabaseFactory.CreateAdapter(FullConfig(dbConfig, DatabaseFactory.TypeName(k))) == Ok(k)
  {
    AdapterOfType(dbConfig, dbType);
    AdapterOfType(dbConfig, DatabaseFactory.TypeName(k));
  }

  lemma AdapterOfType(dbConfig: Js.Props, t: string)
    ensures t == "mysql" ==> DatabaseFactory.CreateAdapter(FullConfig(dbConfig, t)) == Ok(DatabaseFactory.MySqlAdapter)
    ensures t == "sqlite" ==> DatabaseFactory.CreateAdapter(FullConfig(dbConfig, t)) == Ok(DatabaseFactory.SqliteAdapter)
    ensures t == "postgresql" ==>
              DatabaseFactory.CreateAdapter(FullConfig(dbConfig, t)) == Ok(DatabaseFactory.PostgreSqlAdapter)
    ensures IsSupportedDatabaseType(t) <==> t == "mysql" || t == "sqlite" || t == "postgresql"
  {
    var config := FullConfig(dbConfig, t);
    DatabaseFactory.CreateAdapterSelects(config, DatabaseFactory.MySqlAdapter);
    DatabaseFactory.CreateAdapterSelects(config, DatabaseFactory.SqliteAdapter);
    DatabaseFactory.CreateAdapterSelects(config, DatabaseFactory.PostgreSqlAdapter);
  }
}
