/**
 * `JSON.stringify(value)` and `JSON.stringify(value, null, 2)` over the
 * modelled values, following the serialisation algorithm of ECMA-262
 * (SerializeJSONProperty, SerializeJSONObject, SerializeJSONArray): members
 * whose value is undefined are left out of objects, undefined array
 * elements print as `null`, and undefined itself has no serialisation.
 */
module Json {
  import opened Options
  import opened Strings
  import opened JsValue

  /** The four lowest hexadecimal digits of `n`, lower case, as in `\u001f`. */
  function Hex4(n: nat): string
    requires n < 0x1_0000
  {
    [HexDigit(n / 0x1000), HexDigit(n / 0x100 % 16), HexDigit(n / 16 % 16), HexDigit(n % 16)]
  }

  function HexDigit(d: nat): char
    requires d < 16
  {
    if d < 10 then (48 + d) as char else (87 + d) as char
  }

  /** QuoteJSONString's escape of one code point. */
  function EscapeChar(c: char): string
  {
    if c == '"' then "\\\""
    else if c == '\\' then "\\\\"
    else if c as int == 0x08 then "\\b"
    else if c as int == 0x0C then "\\f"
    else if c == '\n' then "\\n"
    else if c == '\r' then "\\r"
    else if c == '\t' then "\\t"
    else if c as int < 0x20 then "\\u" + Hex4(c as int)
    else [c]
  }

  function EscapeString(s: string): string
  {
    if |s| == 0 then "" else EscapeChar(s[0]) + EscapeString(s[1..])
  }

  /** QuoteJSONString */
  function Quote(s: string): (r: string)
    ensures |r| >= 2 && r[0] == '"' && r[|r| - 1] == '"'
  {
    "\"" + EscapeString(s) + "\""
  }

  /** Keep the defined entries of a list, in order. */
  function Somes(xs: seq<Option<string>>): (r: seq<string>)
    ensures |r| <= |xs|
  {
    if |xs| == 0 then [] else (if xs[0].Some? then [xs[0].value] else []) + Somes(xs[1..])
  }

  lemma {:induction false} SomesSnoc(xs: seq<Option<string>>, x: Option<string>)
    ensures Somes(xs + [x]) == Somes(xs) + (if x.Some? then [x.value] else [])
  {
    if |xs| > 0 {
      assert (xs + [x])[1..] == xs[1..] + [x];
      SomesSnoc(xs[1..], x);
    } else {
      assert xs + [x] == [x];
    }
  }

  function Repeat(s: string, n: nat): string
  {
    if n == 0 then "" else s + Repeat(s, n - 1)
  }

  /** One object member `"key":value` (or `"key": value` with a gap), absent when the value has no serialisation. */
  function Member(key: string, value: Option<string>, gap: string): Option<string>
  {
    match value
    case None => None
    case Some(t) => Some(Quote(key) + (if gap == "" then ":" else ": ") + t)
  }

  /** Wrap serialised parts in brackets, on separate indented lines when there is a gap. */
  function Bracket(open: string, close: string, parts: seq<string>, gap: string, depth: nat): string
  {
    if |parts| == 0 then open + close
    else if gap == "" then open + Join(parts, ",") + close
    else
      var inner := "\n" + Repeat(gap, depth + 1);
      open + inner + Join(parts, "," + inner) + "\n" + Repeat(gap, depth) + close
  }

  /** SerializeJSONProperty at nesting `depth` with indentation unit `gap` (empty for compact output). */
  function Serialize(v: Value, gap: string, depth: nat): (r: Option<string>)
    ensures r.None? <==> v.Undef?
  {
    match v
    case Undef => None
    case Null => Some("null")
    case Bool(b) => Some(if b then "true" else "false")
    case Num(n) => Some(IntToString(n))
    case Str(s) => Some(Quote(s))
    case Arr(xs) =>
      Some(Bracket("[", "]", seq(|xs|, i requires 0 <= i < |xs| => Serialize(xs[i], gap, depth + 1).GetOr("null")), gap, depth))
    case Obj(es) =>
      Some(Bracket("{", "}", Somes(seq(|es|, i requires 0 <= i < |es| => Member(es[i].0, Serialize(es[i].1, gap, depth + 1), gap))), gap, depth))
  }

  /** `JSON.stringify(v)` */
  function Stringify(v: Value): Option<string>
  {
    Serialize(v, "", 0)
  }

  /** `JSON.stringify(v, null, 2)` */
  function StringifyPretty(v: Value): Option<string>
  {
    Serialize(v, "  ", 0)
  }

  /** The members of an object that serialise, in order. */
  function MemberTexts(es: seq<(string, Value)>, gap: string, depth: nat): seq<string>
  {
    Somes(seq(|es|, i requires 0 <= i < |es| => Member(es[i].0, Serialize(es[i].1, gap, depth + 1), gap)))
  }

  /**
   * A member whose value is undefined does not appear in the serialisation:
   * `JSON.stringify({...o, k: undefined})` equals `JSON.stringify(o)` when `k` is new.
   */
  lemma UndefinedMemberIsDropped(es: seq<(string, Value)>, k: string, gap: string, depth: nat)
    ensures Serialize(Obj(es + [(k, Undef)]), gap, depth) == Serialize(Obj(es), gap, depth)
  {
    var es' := es + [(k, Undef)];
    var f := (i: int) requires 0 <= i < |es| => Member(es[i].0, Serialize(es[i].1, gap, depth + 1), gap);
    var f' := (i: int) requires 0 <= i < |es'| => Member(es'[i].0, Serialize(es'[i].1, gap, depth + 1), gap);
    assert seq(|es'|, f') == seq(|es|, f) + [None];
    SomesSnoc(seq(|es|, f), None);
    assert Somes(seq(|es'|, f')) == Somes(seq(|es|, f));
    assert Serialize(Obj(es'), gap, depth) == Some(Bracket("{", "}", Somes(seq(|es'|, f')), gap, depth));
    assert Serialize(Obj(es), gap, depth) == Some(Bracket("{", "}", Somes(seq(|es|, f)), gap, depth));
  }

  /** Hence two different values can have the same serialisation. */
  lemma SerialisationIsNotInjective()
    ensures Obj([("a", Undef)]) != Obj([]) && Stringify(Obj([("a", Undef)])) == Stringify(Obj([]))
  {
    UndefinedMemberIsDropped([], "a", "", 0);
    assert [] + [("a", Undef)] == [("a", Undef)];
  }
}
