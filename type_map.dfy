/** The fixed table from numpy dtype names to ERDDAP type tags, and `dict.get`. */
module TypeMap {

  /** The ERDDAP type tags the table can produce. */
  const ErddapTypes: set<string> := {"byte", "short", "char", "int", "long", "float", "double", "String"}

  /** The table of the full assembler. */
  const NpyTypeMap: map<string, string> := map[
    "byte" := "byte",
    "int8" := "byte",
    "int16" := "short",
    "uint16" := "char",
    "int32" := "int",
    "int64" := "long",
    "float" := "float",
    "float32" := "float",
    "float64" := "double",
    "|S1" := "String",
    "string" := "String",
    "str" := "String"
  ]

  /** `d.get(key, default)`. */
  function Get<K, V>(d: map<K, V>, key: K, default: V): V {
    if key in d then d[key] else default
  }

  /** What Python's `str(type(x))` prints for a value of class `typeName`. */
  function ClassRepr(typeName: string): (r: string)
    ensures |r| > 0 && r[0] == '<'
  {
    "<class '" + typeName + "'>"
  }

  /** Every tag in the table is an ERDDAP type. */
  lemma TableTagsAreErddapTypes(key: string)
    requires key in NpyTypeMap
    ensures NpyTypeMap[key] in ErddapTypes
  {
  }

  /** No key of the table has the shape of a printed class, so looking up
      `str(type(x))` always falls back to the default. */
  lemma ClassReprIsNeverAKey(typeName: string, default: string)
    ensures ClassRepr(typeName) !in NpyTypeMap
    ensures Get(NpyTypeMap, ClassRepr(typeName), default) == default
  {
  }
}
