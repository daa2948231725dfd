/** `MetadataManager.ts`: a registry from model name to the data type of each decorated
    property, and the `Column` decorator that fills it. The static map is the field of the
    one registry object. */
module Metadata {
  import opened Wrappers
  import opened Text

  datatype DataType = STRING | NUMBER | BOOLEAN | DATE | TEXT

  type Registry = map<string, map<string, DataType>>

  /** A decorated property's key: a name, or a symbol with an optional description. */
  datatype PropertyKey = Name(name: string) | Symbol(description: Option<string>)

  /** The registry after `setColumnMetadata(m, p, t)`: an unseen model first gets an empty
      map, then `p` maps to `t`; nothing else changes. */
  function Registered(md: Registry, m: string, p: string, t: DataType): (r: Registry)
    ensures m in r && p in r[m] && r[m][p] == t
    ensures r.Keys == md.Keys + {m}
    ensures r[m].Keys == (if m in md then md[m].Keys else {}) + {p}
    ensures forall m2 :: m2 in md && m2 != m ==> r[m2] == md[m2]
    ensures m in md ==> forall p2 :: p2 in md[m] && p2 != p ==> r[m][p2] == md[m][p2]
  {
    var inner := if m in md then md[m] else map[];
    md[m := inner[p := t]]
  }

  /** `typeof k === "symbol" ? k.toString() : k`. */
  function KeyText(k: PropertyKey): (r: string)
    ensures k.Name? ==> r == k.name
    ensures k.Symbol? ==> StartsWith(r, "Symbol(") && EndsWith(r, ")")
    ensures k.Symbol? ==> |r| == 8 + |k.description.GetOr("")|
    ensures k.Symbol? ==> r[7..|r| - 1] == k.description.GetOr("")
  {
    match k
    case Name(n) => n
    case Symbol(d) => "Symbol(" + d.GetOr("") + ")"
  }

  class MetadataManager {
    var columnMetadata: Registry

    constructor ()
      ensures columnMetadata == map[]
    {
      columnMetadata := map[];
    }

    method SetColumnMetadata(modelName: string, propertyKey: string, dataType: DataType)
      modifies this
      ensures columnMetadata == Registered(old(columnMetadata), modelName, propertyKey, dataType)
    {
      if modelName !in columnMetadata {
        columnMetadata := columnMetadata[modelName := map[]];
      }
      columnMetadata := columnMetadata[modelName := columnMetadata[modelName][propertyKey := dataType]];
    }

    /** `undefined` for a model nothing was registered for. */
    function GetColumnMetadata(modelName: string): (r: Option<map<string, DataType>>)
      reads this
      ensures r.None? <==> modelName !in columnMetadata
      ensures r.Some? ==> r.value == columnMetadata[modelName]
    {
      if modelName in columnMetadata then Some(columnMetadata[modelName]) else None
    }

    /** `@Column(dataType)` on property `propertyKey` of a class named `modelName` (the
        target's `constructor.name`). */
    method Column(dataType: DataType, modelName: string, propertyKey: PropertyKey)
      modifies this
      ensures columnMetadata == Registered(old(columnMetadata), modelName, KeyText(propertyKey), dataType)
    {
      SetColumnMetadata(modelName, KeyText(propertyKey), dataType);
    }
  }

  /** After registering, reading the model's metadata gives back the data type, and every
      other model reads as before. */
  lemma SetThenGet(manager: MetadataManager, md: Registry, m: string, p: string, t: DataType, m2: string)
    requires manager.columnMetadata == Registered(md, m, p, t)
    ensures manager.GetColumnMetadata(m).Some? && manager.GetColumnMetadata(m).value[p] == t
    ensures m2 != m ==> manager.GetColumnMetadata(m2) == (if m2 in md then Some(md[m2]) else None)
  {
  }
}
