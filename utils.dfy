/**
 * Token substitution (Utils.java): placeholders "{key}" in a template are
 * replaced, property by property in list order, with Java String.replace.
 */
module Utils {
  import opened Common

  /** A key/value property of a request payload (model/Property.java). */
  datatype Property = Property(key: string, value: string)

  /** The placeholder text "{key}" that stands for a property in a template. */
  function Placeholder(key: string): (p: string)
    ensures |p| == |key| + 2 && p[0] == '{' && p[|p| - 1] == '}' && p[1..|p| - 1] == key
  {
    "{" + key + "}"
  }

  /**
   * The meaning of mergePromptwithToken: a left fold over the properties in
   * list order, each step replacing every "{key}" of the text built so far.
   */
  function Merged(properties: seq<Property>, template: string): string
    decreases |properties|
  {
    if properties == [] then template
    else Merged(properties[1..], ReplaceAll(template, Placeholder(properties[0].key), properties[0].value))
  }

  /** Utils.mergePromptwithToken */
  method MergePromptWithToken(properties: seq<Property>, promptTemplate: string) returns (output: string)
    ensures output == Merged(properties, promptTemplate)
    ensures properties == [] ==> output == promptTemplate
  {
    output := promptTemplate;
    for i := 0 to |properties|
      invariant Merged(properties[i..], output) == Merged(properties, promptTemplate)
    {
      assert properties[i..][1..] == properties[i + 1..];
      var placeholder := Placeholder(properties[i].key);
      var value := properties[i].value;
      output := ReplaceAll(output, placeholder, value);
    }
    assert properties[|properties|..] == [];
  }

  /** Merging in two batches is merging the first batch, then the second one on its result. */
  lemma {:induction false} MergedAppend(first: seq<Property>, second: seq<Property>, template: string)
    ensures Merged(first + second, template) == Merged(second, Merged(first, template))
    decreases |first|
  {
    if first != [] {
      assert (first + second)[1..] == first[1..] + second;
      MergedAppend(first[1..], second, ReplaceAll(template, Placeholder(first[0].key), first[0].value));
    } else {
      assert first + second == second;
    }
  }

  /** The last property is substituted last, into the text the earlier ones produced. */
  lemma MergedLast(properties: seq<Property>, last: Property, template: string)
    ensures Merged(properties + [last], template)
         == ReplaceAll(Merged(properties, template), Placeholder(last.key), last.value)
  {
    MergedAppend(properties, [last], template);
  }

  /** A template that contains none of the properties' placeholders comes back unchanged. */
  lemma {:induction false} MergedWithoutPlaceholders(properties: seq<Property>, template: string)
    requires forall p | p in properties :: !Contains(template, Placeholder(p.key))
    ensures Merged(properties, template) == template
    decreases |properties|
  {
    if properties != [] {
      assert properties[0] in properties;
      MergedWithoutPlaceholders(properties[1..], template);
    }
  }

  /**
   * Substitution is sequential, not literal: a value inserted for an earlier
   * property is itself rewritten when a later property's placeholder occurs
   * in it ("{a}" with a := "{b}" and then b := x ends up as x).
   */
  lemma MergedRewritesInsertedValues(prefix: string, a: string, b: string, x: string)
    requires '{' !in prefix
    ensures Merged([Property(a, Placeholder(b)), Property(b, x)], prefix + Placeholder(a)) == prefix + x
  {
    var props := [Property(a, Placeholder(b)), Property(b, x)];
    var t0 := prefix + Placeholder(a);
    var t1 := ReplaceAll(t0, Placeholder(a), Placeholder(b));
    ReplaceSingle(prefix, Placeholder(a), Placeholder(b));
    assert t1 == prefix + Placeholder(b);
    var t2 := ReplaceAll(t1, Placeholder(b), x);
    ReplaceSingle(prefix, Placeholder(b), x);
    assert t2 == prefix + x;
    assert props[0] == Property(a, Placeholder(b));
    assert Merged(props, t0) == Merged(props[1..], t1);
    assert props[1..] == [Property(b, x)];
    assert Merged(props[1..], t1) == Merged([], t2);
  }

  /** Utils.replaceTokenWithData: the single-property case of the merge. */
  function ReplaceTokenWithData(data: string, outputVariable: string, template: string): (output: string)
    ensures output == Merged([Property(outputVariable, data)], template)
    ensures !Contains(template, Placeholder(outputVariable)) ==> output == template
  {
    ReplaceAll(template, Placeholder(outputVariable), data)
  }

  /**
   * Utils.contains(E, value): Enum.valueOf either finds the constant with
   * exactly that name or throws (also for null), and every exception is
   * answered with false.
   */
  function EnumContains(constantNames: seq<string>, value: Option<string>): (found: bool)
    ensures value.None? ==> !found
    ensures found <==> exists i | 0 <= i < |constantNames| :: value == Some(constantNames[i])
  {
    match value
    case None => false
    case Some(name) => name in constantNames
  }
}
