/**
 * The JavaScript values the handlers manipulate: what `JSON.parse` returns,
 * plus `undefined` (written `None` wherever a value may be missing), and the
 * few operations on them that the handlers and pages perform: member and index
 * reads (which throw a TypeError on `undefined` and `null`), `.length`,
 * truthiness, and conversion to a string inside a template literal.
 */
module JsonValues {
  import opened Outcomes
  import opened Strings

  /**
   * A JSON value. Numbers are whole numbers in this model. An object keeps its
   * members in insertion order; `JSON.parse` gives each key once.
   */
  datatype Json =
    | JNull
    | JBool(b: bool)
    | JNum(n: int)
    | JStr(s: string)
    | JArr(items: seq<Json>)
    | JObj(fields: seq<(string, Json)>)

  /** A JavaScript `Error`: its `name` and its `message`. */
  datatype JsError = JsError(name: string, message: string) {

    /** `Error.prototype.toString()`. */
    function ToString(): string {
      if name == "" then message
      else if message == "" then name
      else name + ": " + message
    }
  }

  // ---------------------------------------------------------------------------
  // Object members

  /** The value bound to `key`, taking the first binding. */
  function Lookup(fields: seq<(string, Json)>, key: string): (r: Option<Json>)
    ensures r.None? <==> forall k :: 0 <= k < |fields| ==> fields[k].0 != key
    ensures r.Some? ==> exists k :: 0 <= k < |fields| && fields[k] == (key, r.value)
  {
    if fields == [] then None
    else if fields[0].0 == key then Some(fields[0].1)
    else
      var r := Lookup(fields[1..], key);
      assert r.Some? ==> exists k :: 0 <= k < |fields[1..]| && fields[1..][k] == (key, r.value);
      assert forall k :: 0 <= k < |fields| - 1 ==> fields[1..][k] == fields[k + 1];
      r
  }

  /** `obj[key] = value`: overwrite the binding in place, or add it at the end. */
  function SetField(fields: seq<(string, Json)>, key: string, value: Json): seq<(string, Json)> {
    if fields == [] then [(key, value)]
    else if fields[0].0 == key then [(key, value)] + fields[1..]
    else [fields[0]] + SetField(fields[1..], key, value)
  }

  /** After the assignment `key` reads as `value` and every other key as before. */
  lemma {:induction false} SetFieldLookup(fields: seq<(string, Json)>, key: string, value: Json, other: string)
    ensures Lookup(SetField(fields, key, value), key) == Some(value)
    ensures other != key ==> Lookup(SetField(fields, key, value), other) == Lookup(fields, other)
  {
    if fields != [] && fields[0].0 != key {
      SetFieldLookup(fields[1..], key, value, other);
      assert SetField(fields, key, value)[1..] == SetField(fields[1..], key, value);
    } else if fields != [] {
      assert SetField(fields, key, value)[1..] == fields[1..];
    }
  }

  // ---------------------------------------------------------------------------
  // Reading members, indices and lengths

  /** `undefined` or `null`: the values whose members cannot be read. */
  predicate Nullish(v: Option<Json>) {
    v.None? || v.value.JNull?
  }

  /** The TypeError V8 throws for `v[key]` when `v` is `undefined` or `null`. */
  function ReadError(v: Option<Json>, key: string): JsError {
    JsError("TypeError", "Cannot read properties of " + (if v.None? then "undefined" else "null")
                         + " (reading '" + key + "')")
  }

  /**
   * `v.key` on a value that is not `undefined` or `null`, for a key that is
   * neither an array index nor `length` (as are all keys the handlers name).
   */
  function Member(v: Json, key: string): Option<Json> {
    match v
    case JObj(fields) => Lookup(fields, key)
    case _ => None
  }

  /** `v.key`, throwing on `undefined` and `null`. */
  function Get(v: Option<Json>, key: string): (r: Result<Option<Json>, JsError>)
    ensures r.Err? <==> Nullish(v)
  {
    if Nullish(v) then Err(ReadError(v, key)) else Ok(Member(v.value, key))
  }

  /** `v[i]`, throwing on `undefined` and `null`. */
  function At(v: Option<Json>, i: nat): (r: Result<Option<Json>, JsError>)
    ensures r.Err? <==> Nullish(v)
  {
    if Nullish(v) then Err(ReadError(v, NatToString(i)))
    else match v.value
      case JArr(items) => Ok(if i < |items| then Some(items[i]) else None)
      case JStr(s) => Ok(if i < |s| then Some(JStr([s[i]])) else None)
      case JObj(fields) => Ok(Lookup(fields, NatToString(i)))
      case _ => Ok(None)
  }

  /** `v.length`, throwing on `undefined` and `null`. */
  function Length(v: Option<Json>): (r: Result<Option<Json>, JsError>)
    ensures r.Err? <==> Nullish(v)
  {
    if Nullish(v) then Err(ReadError(v, "length"))
    else match v.value
      case JArr(items) => Ok(Some(JNum(|items|)))
      case JStr(s) => Ok(Some(JNum(|s|)))
      case JObj(fields) => Ok(Lookup(fields, "length"))
      case _ => Ok(None)
  }

  // ---------------------------------------------------------------------------
  // Truthiness and string conversion

  /** JavaScript truthiness: `undefined`, `null`, `false`, `0` and `""` are falsy. */
  predicate Truthy(v: Option<Json>) {
    match v
    case None => false
    case Some(JNull) => false
    case Some(JBool(b)) => b
    case Some(JNum(n)) => n != 0
    case Some(JStr(s)) => s != ""
    case Some(_) => true
  }

  /** `String(v)` for a value that is not `undefined`. */
  function Text(v: Json): string
    decreases v
  {
    match v
    case JNull => "null"
    case JBool(b) => if b then "true" else "false"
    case JNum(n) => IntToString(n)
    case JStr(s) => s
    case JArr(items) =>
      // Array.prototype.join(","): a `null` element contributes the empty string
      Join(seq(|items|, i requires 0 <= i < |items| => if items[i].JNull? then "" else Text(items[i])))
    case JObj(_) => "[object Object]"
  }

  function Join(parts: seq<string>): string {
    if parts == [] then ""
    else if |parts| == 1 then parts[0]
    else parts[0] + "," + Join(parts[1..])
  }

  /** `${v}` in a template literal. */
  function Display(v: Option<Json>): string {
    match v
    case None => "undefined"
    case Some(x) => Text(x)
  }
}
