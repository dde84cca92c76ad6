/**
 * The JavaScript values that flow through the decision pipeline: state
 * values, contexts, tool arguments and events. Numbers are integers; an
 * object is its ordered list of own entries.
 */
module JsValue {
  import opened Options
  import opened Strings
  import E = Entries

  datatype Value =
    | Undef
    | Null
    | Bool(b: bool)
    | Num(n: int)
    | Str(s: string)
    | Arr(items: seq<Value>)
    | Obj(entries: seq<(string, Value)>)

  /** JavaScript truthiness, as tested by `x ? a : b` and `filter(Boolean)`. */
  predicate Truthy(v: Value)
  {
    match v
    case Undef => false
    case Null => false
    case Bool(b) => b
    case Num(n) => n != 0
    case Str(s) => s != ""
    case Arr(_) => true
    case Obj(_) => true
  }

  /** `undefined` or `null`, the values that `??` replaces. */
  predicate Nullish(v: Value)
  {
    v.Undef? || v.Null?
  }

  /** `a ?? b` */
  function Coalesce(a: Value, b: Value): Value
  {
    if Nullish(a) then b else a
  }

  /** `typeof v === 'object' && v !== null`: the values whose entries can be listed. */
  predicate IsObject(v: Value)
  {
    v.Arr? || v.Obj?
  }

  /** `Object.entries(v)` for an object or an array (whose keys are its indices). */
  function EntriesOf(v: Value): (r: E.Entries<Value>)
    requires IsObject(v)
    ensures v.Obj? ==> r == v.entries
    ensures v.Arr? ==> |r| == |v.items|
  {
    match v
    case Obj(es) => es
    case Arr(xs) => seq(|xs|, i requires 0 <= i < |xs| => (IntToString(i), xs[i]))
  }

  /** `String(v)`, as used when a value is placed in a template literal. */
  function TemplateString(v: Value): string
  {
    match v
    case Undef => "undefined"
    case Null => "null"
    case Bool(b) => if b then "true" else "false"
    case Num(n) => IntToString(n)
    case Str(s) => s
    case Arr(xs) => Join(seq(|xs|, i requires 0 <= i < |xs| => if Nullish(xs[i]) then "" else TemplateString(xs[i])), ",")
    case Obj(_) => "[object Object]"
  }
}
