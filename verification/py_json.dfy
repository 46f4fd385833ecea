/**
 A parsed JSON request body as the Python `json` module hands it to the
 handler, together with the two pieces of Python behaviour the handler relies
 on: `dict.get` with a default, and `isinstance(v, (int, float))`.
 */
module PyJson {

  /** A decoded JSON value. Objects decode to `dict`, arrays to `list`,
      `true`/`false` to `bool`, `null` to `None`. Floats are kept as reals. */
  datatype Json =
    | JNull
    | JBool(b: bool)
    | JInt(i: int)
    | JFloat(f: real)
    | JStr(s: string)
    | JArr(items: seq<Json>)
    | JObj(fields: map<string, Json>)

  /** The classes a value of Python type `t` is an instance of, for the types
      a decoded JSON value can have: its own class, its bases and `object`.
      `bool` is the one subclass among them: it derives from `int`. */
  function ClassesOf(t: string): set<string> {
    if t == "bool" then {"bool", "int", "object"} else {t, "object"}
  }

  /** Python's `isinstance(v, (int, float))`. */
  predicate IsNumeric(v: Json)
    ensures IsNumeric(v) <==> v.JInt? || v.JFloat? || v.JBool?
  {
    "int" in ClassesOf(TypeName(v)) || "float" in ClassesOf(TypeName(v))
  }

  /** `d.get(key, default)` on a decoded object: the stored value when the key
      is present, and otherwise the default. */
  function Get(fields: map<string, Json>, key: string, default: Json): (v: Json)
    ensures v in fields.Values || v == default
    ensures key in fields ==> v == fields[key]
    ensures key !in fields ==> v == default
  {
    if key in fields then fields[key] else default
  }

  /** The name of the Python type a value decodes to, as it is spelled in
      exception messages. */
  function TypeName(v: Json): (name: string)
    ensures name == "dict" <==> v.JObj?
    ensures name == "bool" <==> v.JBool?
  {
    match v
    case JNull => "NoneType"
    case JBool(_) => "bool"
    case JInt(_) => "int"
    case JFloat(_) => "float"
    case JStr(_) => "str"
    case JArr(_) => "list"
    case JObj(_) => "dict"
  }

  /** Two values get the same type name exactly when they decode to the same
      Python type, so the name in an error message identifies the type. */
  lemma TypeNameIdentifiesType(a: Json, b: Json)
    ensures TypeName(a) == TypeName(b) <==> SameType(a, b)
  {
  }

  /** Both values are built by the same constructor. */
  predicate SameType(a: Json, b: Json) {
    match (a, b)
    case (JNull, JNull) => true
    case (JBool(_), JBool(_)) => true
    case (JInt(_), JInt(_)) => true
    case (JFloat(_), JFloat(_)) => true
    case (JStr(_), JStr(_)) => true
    case (JArr(_), JArr(_)) => true
    case (JObj(_), JObj(_)) => true
    case _ => false
  }
}
