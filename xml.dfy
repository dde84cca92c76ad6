/**
 * The tag-delimited rendering of prompt data (`wrapInXml` and
 * `convertToXml` in src/utils.ts).
 */
module Xml {
  import opened Options
  import opened Strings
  import opened JsValue

  /** `<tag>content</tag>` */
  function WrapInXml(tag: string, content: string): string
  {
    "<" + tag + ">" + content + "</" + tag + ">"
  }

  /** Take the content out of `<tag>…</tag>`, if the text has that shape. */
  function Unwrap(tag: string, text: string): Option<string>
  {
    var open := "<" + tag + ">";
    var close := "</" + tag + ">";
    if |open| + |close| <= |text| && text[..|open|] == open && text[|text| - |close|..] == close
    then Some(text[|open|..|text| - |close|])
    else None
  }

  /** Unwrapping gives back exactly what was wrapped. */
  lemma UnwrapWrap(tag: string, content: string)
    ensures Unwrap(tag, WrapInXml(tag, content)) == Some(content)
  {
    var open := "<" + tag + ">";
    var close := "</" + tag + ">";
    var text := WrapInXml(tag, content);
    assert text == open + content + close;
    assert text[..|open|] == open;
    assert text[|text| - |close|..] == close;
    assert text[|open|..|text| - |close|] == content;
  }

  /** One entry of `convertToXml`: a non-null object value is rendered recursively inside its tag, anything else as text. */
  function Element(key: string, value: Value): string
    decreases value, 1
  {
    if IsObject(value) then WrapInXml(key, ConvertToXml(value)) else WrapInXml(key, TemplateString(value))
  }

  /** `convertToXml(obj)`: the elements of the entries, in entry order, with no separator. */
  function ConvertToXml(obj: Value): string
    requires IsObject(obj)
    decreases obj, 0
  {
    match obj
    case Obj(es) => Join(seq(|es|, i requires 0 <= i < |es| => Element(es[i].0, es[i].1)), "")
    case Arr(xs) => Join(seq(|xs|, i requires 0 <= i < |xs| => Element(IntToString(i), xs[i])), "")
  }

  /** The rendering of an object is the concatenation of its elements, so it grows entry by entry. */
  lemma ConvertToXmlSnoc(es: seq<(string, Value)>, key: string, value: Value)
    ensures ConvertToXml(Obj([])) == ""
    ensures ConvertToXml(Obj(es + [(key, value)])) == ConvertToXml(Obj(es)) + Element(key, value)
  {
    var es' := es + [(key, value)];
    var f := (i: int) requires 0 <= i < |es| => Element(es[i].0, es[i].1);
    var f' := (i: int) requires 0 <= i < |es'| => Element(es'[i].0, es'[i].1);
    assert seq(|es'|, f') == seq(|es|, f) + [Element(key, value)];
    JoinEmptySepAppend(seq(|es|, f), [Element(key, value)]);
    assert ConvertToXml(Obj(es')) == Join(seq(|es'|, f'), "");
    assert ConvertToXml(Obj(es)) == Join(seq(|es|, f), "");
  }

  /** Rendering a two-entry object, as the prompt templates do: the first element, then the second. */
  lemma ConvertPair(k1: string, v1: Value, k2: string, v2: Value)
    ensures ConvertToXml(Obj([(k1, v1), (k2, v2)])) == Element(k1, v1) + Element(k2, v2)
  {
    ConvertToXmlSnoc([(k1, v1)], k2, v2);
    ConvertToXmlSnoc([], k1, v1);
    assert [] + [(k1, v1)] == [(k1, v1)];
    assert [(k1, v1)] + [(k2, v2)] == [(k1, v1), (k2, v2)];
  }

  /** Rendering a three-entry object. */
  lemma ConvertTriple(k1: string, v1: Value, k2: string, v2: Value, k3: string, v3: Value)
    ensures ConvertToXml(Obj([(k1, v1), (k2, v2), (k3, v3)])) == Element(k1, v1) + Element(k2, v2) + Element(k3, v3)
  {
    ConvertPair(k1, v1, k2, v2);
    ConvertToXmlSnoc([(k1, v1), (k2, v2)], k3, v3);
    assert [(k1, v1), (k2, v2)] + [(k3, v3)] == [(k1, v1), (k2, v2), (k3, v3)];
  }

  /** A non-empty rendering starts with `<` and ends with `>`, so trimming never eats into it. */
  lemma {:induction false} ElementDelimited(key: string, value: Value)
    ensures var t := Element(key, value); |t| > 0 && t[0] == '<' && t[|t| - 1] == '>'
  {
  }

  lemma {:induction false} JoinDelimited(parts: seq<string>)
    requires |parts| > 0
    requires forall i :: 0 <= i < |parts| ==> |parts[i]| > 0 && parts[i][0] == '<' && parts[i][|parts[i]| - 1] == '>'
    ensures var t := Join(parts, ""); |t| > 0 && t[0] == '<' && t[|t| - 1] == '>'
  {
    if |parts| > 1 {
      JoinDelimited(parts[1..]);
      var t := Join(parts, "");
      assert t == parts[0] + Join(parts[1..], "");
      assert t[0] == parts[0][0];
    }
  }

  /** The rendering of an object with at least one entry is delimited by `<` and `>`. */
  lemma ConvertToXmlDelimited(obj: Value)
    requires obj.Obj? && |obj.entries| > 0
    ensures var t := ConvertToXml(obj); |t| > 0 && t[0] == '<' && t[|t| - 1] == '>'
  {
    var es := obj.entries;
    var parts := seq(|es|, i requires 0 <= i < |es| => Element(es[i].0, es[i].1));
    forall i | 0 <= i < |parts| ensures |parts[i]| > 0 && parts[i][0] == '<' && parts[i][|parts[i]| - 1] == '>' {
      ElementDelimited(es[i].0, es[i].1);
    }
    JoinDelimited(parts);
  }
}
