/** The JSON-like values that travel through the adapter, with JavaScript's truthiness
    and string conversion. Numbers are integers; `undefined` is `Wrappers.None`. */
module Json {
  import opened Wrappers
  import Text

  datatype Value =
    | JNull
    | JBool(b: bool)
    | JNum(n: int)
    | JStr(s: string)
    | JArr(items: seq<Value>)
    | JObj(fields: map<string, Value>)

  /** JavaScript truthiness: null, false, 0 and "" are falsy; arrays and objects are truthy. */
  predicate Truthy(v: Value) {
    match v
    case JNull => false
    case JBool(b) => b
    case JNum(n) => n != 0
    case JStr(s) => s != ""
    case JArr(_) => true
    case JObj(_) => true
  }

  /** Truthiness of a possibly undefined value. */
  predicate TruthyOpt(o: Option<Value>) {
    o.Some? && Truthy(o.value)
  }

  /** A non-empty string argument (the only strings that pass `if (x)`). */
  predicate HasText(o: Option<string>) {
    o.Some? && o.value != ""
  }

  /** A non-zero number argument (the only numbers that pass `if (x)`). */
  predicate HasNumber(o: Option<int>) {
    o.Some? && o.value != 0
  }

  /** Property access `v[key]` on an object; anything else yields undefined. */
  function Get(v: Value, key: string): (r: Option<Value>)
    ensures r.Some? <==> v.JObj? && key in v.fields
  {
    if v.JObj? && key in v.fields then Some(v.fields[key]) else None
  }

  /** Property access on a possibly undefined value (`v?.key`). */
  function GetOpt(o: Option<Value>, key: string): Option<Value> {
    if o.Some? then Get(o.value, key) else None
  }

  /** `String(v)`: how a value reads when placed in a template string. */
  function Display(v: Value): string
    decreases v
  {
    match v
    case JNull => "null"
    case JBool(b) => if b then "true" else "false"
    case JNum(n) => Text.IntToString(n)
    case JStr(s) => s
    case JArr(items) =>
      Text.Join(seq(|items|, i requires 0 <= i < |items| =>
                      if items[i].JNull? then "" else Display(items[i])), ",")
    case JObj(_) => "[object Object]"
  }

  /** `${o}` for a possibly undefined value. */
  function DisplayOpt(o: Option<Value>): string {
    if o.Some? then Display(o.value) else "undefined"
  }

  function BoolText(b: bool): string {
    if b then "true" else "false"
  }

  /** The object `{success: true}` that delete operations resolve to. */
  const SuccessFlag: Value := JObj(map["success" := JBool(true)])
}
