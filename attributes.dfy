/** Attribute rendering: the type and text of one attribute value, and the
    `<att>` lines of a variable's attributes. */
module Attributes {
  import opened Wrappers
  import opened Text
  import opened TypeMap
  import opened NetCdf

  /** The `{name, type, value}` dictionary filled into the `<att>` template. */
  datatype AttrFields = AttrFields(name: string, typ: string, value: string)

  /** The texts of a list's elements, in order. */
  function Texts(items: seq<PyValue>): (r: seq<string>)
    ensures |r| == |items|
    ensures forall k :: 0 <= k < |items| ==> r[k] == items[k].text
  {
    seq(|items|, k requires 0 <= k < |items| => items[k].text)
  }

  /** The four-way dispatch on the value's shape. A list is typed by its first
      element only, so an empty list fails at `attr[0]`. */
  function NameTypeValue(name: string, attr: AttrValue): (r: Result<AttrFields>)
    ensures r.Err? <==> attr.List? && |attr.items| == 0
    ensures r.Err? ==> r.error == IndexError
    ensures r.Ok? ==> r.value.name == name && r.value.typ in ErddapTypes
  {
    match attr
    case NumScalar(dtype, text) =>
      Ok(AttrFields(name, Get(NpyTypeMap, dtype, "float"), text))
    case NumArray(dtype, elems) =>
      Ok(AttrFields(name, Get(NpyTypeMap, dtype, "float"), Join(elems, " ")))
    case List(items) =>
      if |items| == 0 then Err(IndexError)
      else Ok(AttrFields(name, Get(NpyTypeMap, ClassRepr(items[0].typeName), "String"), Join(Texts(items), " ")))
    case Other(v) =>
      Ok(AttrFields(name, Get(NpyTypeMap, ClassRepr(v.typeName), "String"), v.text))
  }

  /** A numpy value is typed by the table entry for its dtype, `float` when there is none;
      a scalar's value is its text and an array's value is its element texts joined by
      single spaces, which split back into them, in array order. */
  lemma {:induction false} NumericAttribute(name: string, attr: AttrValue)
    requires attr.NumScalar? || attr.NumArray?
    ensures NameTypeValue(name, attr).Ok?
    ensures attr.dtype in NpyTypeMap ==> NameTypeValue(name, attr).value.typ == NpyTypeMap[attr.dtype]
    ensures attr.dtype !in NpyTypeMap ==> NameTypeValue(name, attr).value.typ == "float"
    ensures attr.NumScalar? ==> NameTypeValue(name, attr).value.value == attr.text
    ensures attr.NumArray? ==> NameTypeValue(name, attr).value.value == Join(attr.elems, " ")
    ensures attr.NumArray? && |attr.elems| > 0 && (forall k :: 0 <= k < |attr.elems| ==> ' ' !in attr.elems[k]) ==>
              Split(NameTypeValue(name, attr).value.value, ' ') == attr.elems
  {
    if attr.NumArray? && |attr.elems| > 0 && (forall k :: 0 <= k < |attr.elems| ==> ' ' !in attr.elems[k]) {
      SplitJoin(attr.elems, ' ');
    }
  }

  /** A list or any other plain value is always typed `String`: its class name is looked
      up as `<class '...'>`, which is never a key of the table. A non-empty list's value
      is its element texts joined by single spaces, which split back into them, in
      list order. */
  lemma {:induction false} PlainAttribute(name: string, attr: AttrValue)
    requires (attr.List? && |attr.items| > 0) || attr.Other?
    ensures NameTypeValue(name, attr).Ok?
    ensures NameTypeValue(name, attr).value.typ == "String"
    ensures attr.Other? ==> NameTypeValue(name, attr).value.value == attr.value.text
    ensures attr.List? ==> NameTypeValue(name, attr).value.value == Join(Texts(attr.items), " ")
    ensures attr.List? && (forall k :: 0 <= k < |attr.items| ==> ' ' !in attr.items[k].text) ==>
              Split(NameTypeValue(name, attr).value.value, ' ') == Texts(attr.items)
  {
    if attr.List? {
      ClassReprIsNeverAKey(attr.items[0].typeName, "String");
      if forall k :: 0 <= k < |attr.items| ==> ' ' !in attr.items[k].text {
        SplitJoin(Texts(attr.items), ' ');
      }
    } else {
      ClassReprIsNeverAKey(attr.value.typeName, "String");
    }
  }

  // The `<att>` template, cut at its placeholders.
  const AttHead := "    <att name=\""
  const AttType := "\" type=\""
  const AttValue := "\">"
  const AttTail := "</att>"

  /** The `<att>` template, filled: one line when the fields are. */
  function AttTag(f: AttrFields): (r: string)
    ensures SingleLine(f) ==> '\n' !in r
  {
    AttHead + f.name + AttType + f.typ + AttValue + f.value + AttTail
  }

  /** An attribute can be rendered (it is not an empty list). */
  predicate Renderable(attr: (string, AttrValue)) {
    NameTypeValue(attr.0, attr.1).Ok?
  }

  /** The `<att>` line of each attribute, in order; the first unrenderable one
      raises its error. */
  function AttLines(atts: seq<(string, AttrValue)>): Result<seq<string>>
    decreases |atts|
  {
    if |atts| == 0 then Ok([])
    else
      var head := NameTypeValue(atts[0].0, atts[0].1);
      if head.Err? then Err(head.error)
      else
        var rest := AttLines(atts[1..]);
        if rest.Err? then Err(rest.error)
        else Ok([AttTag(head.value)] + rest.value)
  }

  /** The lines render exactly when every attribute does, the error being the empty
      list's `IndexError`; there is then one line per attribute, its `<att>` tag. */
  lemma {:induction false} AttLinesMeaning(atts: seq<(string, AttrValue)>)
    ensures AttLines(atts).Ok? <==> forall k :: 0 <= k < |atts| ==> Renderable(atts[k])
    ensures AttLines(atts).Err? ==> AttLines(atts).error == IndexError
    ensures AttLines(atts).Ok? ==> |AttLines(atts).value| == |atts|
    ensures AttLines(atts).Ok? ==>
              forall k :: 0 <= k < |atts| ==> AttLines(atts).value[k] == AttTag(NameTypeValue(atts[k].0, atts[k].1).value)
    decreases |atts|
  {
    if |atts| > 0 {
      AttLinesMeaning(atts[1..]);
      assert forall k :: 0 < k < |atts| ==> atts[1..][k - 1] == atts[k];
    }
  }

  /** `create_att_tags`: the `<att>` lines joined by newlines; the only error is the
      empty list's `IndexError`, and no attributes give the empty string. */
  function CreateAttTags(atts: seq<(string, AttrValue)>): (r: Result<string>)
    ensures r.Ok? <==> AttLines(atts).Ok?
    ensures r.Ok? ==> r.value == Join(AttLines(atts).value, "\n")
    ensures r.Err? ==> r.error == IndexError
    ensures |atts| == 0 ==> r == Ok("")
  {
    AttLinesMeaning(atts);
    var lines :- AttLines(atts);
    Ok(Join(lines, "\n"))
  }

  /** The tags render exactly when every attribute does. */
  lemma CreateAttTagsMeaning(atts: seq<(string, AttrValue)>)
    ensures CreateAttTags(atts).Ok? <==> forall k :: 0 <= k < |atts| ==> Renderable(atts[k])
  {
    AttLinesMeaning(atts);
  }

  /** The rendered fields contain no newline. */
  predicate SingleLine(f: AttrFields) {
    '\n' !in f.name && '\n' !in f.typ && '\n' !in f.value
  }

  /** One line per attribute: when no rendered field contains a newline, splitting the
      tags on newlines gives back exactly the `<att>` line of each attribute, in order. */
  lemma {:induction false} OneLinePerAttribute(atts: seq<(string, AttrValue)>)
    requires |atts| > 0
    requires forall k :: 0 <= k < |atts| ==>
               Renderable(atts[k]) && SingleLine(NameTypeValue(atts[k].0, atts[k].1).value)
    ensures AttLines(atts).Ok? && CreateAttTags(atts).Ok?
    ensures Split(CreateAttTags(atts).value, '\n') == AttLines(atts).value
  {
    AttLinesMeaning(atts);
    var lines := AttLines(atts).value;
    assert forall k :: 0 <= k < |lines| ==> lines[k] == AttTag(NameTypeValue(atts[k].0, atts[k].1).value);
    SplitJoin(lines, '\n');
  }
}
