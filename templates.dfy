/** The default prompt template (src/templates/defaultText.ts). */
module Templates {
  import opened Options
  import opened Strings
  import opened JsValue
  import J = Json
  import X = Xml

  /** The `<tag>JSON</tag>` line for a truthy value, nothing otherwise. */
  function PreambleLine(tag: string, v: Value): (r: Option<string>)
    ensures r.Some? <==> Truthy(v)
    ensures r.Some? ==> r == Some(X.WrapInXml(tag, J.Stringify(v).value))
  {
    if Truthy(v) then
      assert !v.Undef?;
      Some(X.WrapInXml(tag, J.Stringify(v).value))
    else None
  }

  /** `[stateValue line, context line].filter(Boolean).join('\n')` */
  function Preamble(stateValue: Value, context: Value): string
  {
    Join(J.Somes([PreambleLine("stateValue", stateValue), PreambleLine("context", context)]), "\n")
  }

  /** `defaultTextTemplate({stateValue, context, goal})` */
  function DefaultTextTemplate(stateValue: Value, context: Value, goal: string): string
  {
    Trim("\n" + Preamble(stateValue, context) + "\n\n" + goal + "\n  ")
  }

  /** The lines of the preamble: the state value line only when it is truthy, the context line only when it is truthy, in that order, one newline apart. */
  lemma PreambleLines(stateValue: Value, context: Value)
    ensures !Truthy(stateValue) && !Truthy(context) ==> Preamble(stateValue, context) == ""
    ensures Truthy(stateValue) && !Truthy(context) ==>
      Preamble(stateValue, context) == X.WrapInXml("stateValue", J.Stringify(stateValue).value)
    ensures !Truthy(stateValue) && Truthy(context) ==>
      Preamble(stateValue, context) == X.WrapInXml("context", J.Stringify(context).value)
    ensures Truthy(stateValue) && Truthy(context) ==>
      Preamble(stateValue, context) == X.WrapInXml("stateValue", J.Stringify(stateValue).value) + "\n" + X.WrapInXml("context", J.Stringify(context).value)
  {
    var a, b := PreambleLine("stateValue", stateValue), PreambleLine("context", context);
    J.SomesSnoc([a], b);
    J.SomesSnoc([], a);
    assert [a] == [] + [a];
    assert [a, b] == [a] + [b];
    assert J.Somes([]) == [];
    if Truthy(stateValue) && Truthy(context) {
      var x, y := a.value, b.value;
      assert J.Somes([a, b]) == [x, y];
      assert [x, y][1..] == [y];
      assert Join([x, y], "\n") == x + "\n" + y;
    }
  }

  /** A non-empty preamble is delimited by `<` and `>`. */
  lemma PreambleDelimited(stateValue: Value, context: Value)
    ensures var p := Preamble(stateValue, context); p == "" || (p[0] == '<' && p[|p| - 1] == '>')
  {
    PreambleLines(stateValue, context);
  }

  /** Without a preamble the prompt is the trimmed goal. */
  lemma TemplateWithoutPreamble(stateValue: Value, context: Value, goal: string)
    requires !Truthy(stateValue) && !Truthy(context)
    ensures DefaultTextTemplate(stateValue, context, goal) == Trim(goal)
  {
    PreambleLines(stateValue, context);
    assert "\n" + "" + "\n\n" + goal + "\n  " == "\n" + "\n\n" + goal + "\n  ";
    TrimBlankHead("\n", goal, "\n  ");
  }

  /** With a preamble, the goal follows it after a blank line; a blank goal leaves the preamble alone. */
  lemma TemplateWithPreamble(stateValue: Value, context: Value, goal: string)
    requires Truthy(stateValue) || Truthy(context)
    ensures var p := Preamble(stateValue, context);
      DefaultTextTemplate(stateValue, context, goal) == if TrimEnd(goal) == "" then p else p + "\n\n" + TrimEnd(goal)
  {
    PreambleLines(stateValue, context);
    PreambleDelimited(stateValue, context);
    TrimFramed("\n", Preamble(stateValue, context), goal, "\n  ");
  }
}
