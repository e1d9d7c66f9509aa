/** Variable descriptors: the per-variable dictionaries of the full assembler,
    and their rendering as `<dataVariable>` blocks, which pops the
    `"attributes"` key out of every entry it renders. */
module Variables {
  import opened Wrappers
  import opened Text
  import opened TypeMap
  import opened NetCdf
  import opened Attributes
  import opened Collecting

  /** User configuration: variable name to its overriding fields. */
  type Overrides = map<string, map<string, string>>

  /** The user's `destinationName` for the variable when there is one, else its own name. */
  function DestinationName(name: string, overrides: Overrides): (r: string)
    ensures name in overrides && "destinationName" in overrides[name] ==> r == overrides[name]["destinationName"]
    ensures !(name in overrides && "destinationName" in overrides[name]) ==> r == name
  {
    Get(Get(overrides, name, map[]), "destinationName", name)
  }

  /** The ERDDAP data type of a variable's dtype. The fallback `float64` is not a tag of
      the table, so it appears exactly when the dtype is unknown. */
  function DataType(dtype: string): (r: string)
    ensures dtype in NpyTypeMap ==> r == NpyTypeMap[dtype]
    ensures r == "float64" <==> dtype !in NpyTypeMap
    ensures r in ErddapTypes || r == "float64"
  {
    Get(NpyTypeMap, dtype, "float64")
  }

  /** The contents of one entry dictionary; `attributes` is `None` once popped. */
  datatype EntryValue = EntryValue(
    dataType: string,
    sourceName: string,
    destinationName: string,
    attributes: Option<seq<(string, AttrValue)>>)

  /** The entry the assembler builds for one variable. */
  function Describe(v: NcVariable, overrides: Overrides): EntryValue {
    EntryValue(DataType(v.dtype), v.name, DestinationName(v.name, overrides), Some(v.attrs))
  }

  /** The entries for all variables, in variable order. */
  function Descriptions(vars: seq<NcVariable>, overrides: Overrides): seq<EntryValue> {
    seq(|vars|, i requires 0 <= i < |vars| => Describe(vars[i], overrides))
  }

  /** Every field of every descriptor: the source name is the variable's name, the
      destination name is the override's when the user gave one and the variable's
      name otherwise, the data type is looked up with fallback `float64`, and the
      attributes are the variable's own, in order. */
  lemma DescriptorFields(vars: seq<NcVariable>, overrides: Overrides, i: nat)
    requires i < |vars|
    ensures |Descriptions(vars, overrides)| == |vars|
    ensures Descriptions(vars, overrides)[i].sourceName == vars[i].name
    ensures var name := vars[i].name;
      Descriptions(vars, overrides)[i].destinationName ==
        if name in overrides && "destinationName" in overrides[name] then overrides[name]["destinationName"] else name
    ensures Descriptions(vars, overrides)[i].dataType ==
        if vars[i].dtype in NpyTypeMap then NpyTypeMap[vars[i].dtype] else "float64"
    ensures Descriptions(vars, overrides)[i].attributes == Some(vars[i].attrs)
  {
  }

  /** The entries with `attributes` popped out of the first `n`; keys and all other
      fields stay as they were. */
  function PopFirst(entries: seq<(string, EntryValue)>, n: nat): seq<(string, EntryValue)> {
    seq(|entries|, k requires 0 <= k < |entries| =>
      if k < n then (entries[k].0, entries[k].1.(attributes := None)) else entries[k])
  }

  /** The variables dictionary: variable name to its entry dictionary, in insertion
      order. An entry dictionary is held by value, so popping a key out of it replaces
      it in `entries`. */
  class VarDict {
    var entries: seq<(string, EntryValue)>

    constructor ()
      ensures entries == []
    {
      entries := [];
    }

    /** The entry dictionaries, in dictionary order. */
    function Values(): seq<EntryValue>
      reads this
    {
      seq(|entries|, k requires 0 <= k < |entries| reads this => entries[k].1)
    }

    /** `dump_variables_as_erddap_string`: maps the renderer over the entries in order,
        popping `"attributes"` out of each entry it reaches before rendering it, stops at
        the first entry that fails and joins the blocks by newlines. The assembler's
        renderer is `EntryBlock`. */
    method DumpVariables(render: Renderer) returns (r: Result<string>)
      modifies this
      ensures r == DumpWith(render, old(Values()))
      ensures entries == PopFirst(old(entries), Popped(render, old(Values())))
    {
      ghost var start := entries;
      ghost var outs := Outcomes(render, Values());
      var blocks: seq<string> := [];
      var i := 0;
      CollectStart(outs);
      assert entries == PopFirst(start, 0);
      while i < |entries|
        invariant |entries| == |start| == |outs|
        invariant 0 <= i <= |entries|
        invariant entries == PopFirst(start, i)
        invariant Collect(outs) == Then(blocks, Collect(outs[i..]))
        invariant Reached(outs) == i + Reached(outs[i..])
      {
        CollectStep(outs, i, blocks);
        var (name, entry) := entries[i];
        assert render(entry) == outs[i];
        entries := entries[i := (name, entry.(attributes := None))];
        assert entries == PopFirst(start, i + 1);
        var block := render(entry);
        if block.Err? {
          return block;
        }
        blocks := blocks + [block.value];
        i := i + 1;
      }
      CollectDone(outs, blocks);
      r := Ok(Join(blocks, "\n"));
    }
  }

  /** `assemble_erddap_variables_dict`: a new dictionary with one entry per variable,
      keyed by its name, in variable order. */
  method AssembleVariablesDict(vars: seq<NcVariable>, overrides: Overrides) returns (vd: VarDict)
    requires DistinctNames(vars)
    ensures fresh(vd)
    ensures |vd.entries| == |vars| && DistinctKeys(vd.entries)
    ensures forall i :: 0 <= i < |vars| ==> vd.entries[i].0 == vars[i].name
    ensures vd.Values() == Descriptions(vars, overrides)
  {
    vd := new VarDict();
    var i := 0;
    while i < |vars|
      invariant 0 <= i <= |vars| && |vd.entries| == i
      invariant forall k :: 0 <= k < i ==> vd.entries[k] == (vars[k].name, Describe(vars[k], overrides))
    {
      vd.entries := vd.entries + [(vars[i].name, Describe(vars[i], overrides))];
      i := i + 1;
    }
  }

  // The `<dataVariable>` template of the full assembler, cut at its placeholders.
  const BlockHead := "\n<dataVariable>\n  <sourceName>"
  const BlockDest := "</sourceName>\n  <destinationName>"
  const BlockType := "</destinationName>\n  <dataType>"
  const BlockAtts := "</dataType>\n  <addAttributes>\n"
  const BlockTail := "\n  </addAttributes>\n</dataVariable>"

  /** The `<dataVariable>` template of the full assembler, filled: the block opens with
      its head, then the source name; it closes with the `<att>` lines and then the end
      of `<addAttributes>` and `</dataVariable>`. */
  function DataVariableBlock(sourceName: string, destinationName: string, dataType: string, attributes: string): (r: string)
    ensures |r| >= |BlockHead| + |sourceName| + |attributes| + |BlockTail|
    ensures r[..|BlockHead|] == BlockHead && r[|BlockHead|..|BlockHead| + |sourceName|] == sourceName
    ensures r[|r| - |BlockTail|..] == BlockTail && r[|r| - |BlockTail| - |attributes|..|r| - |BlockTail|] == attributes
  {
    var m := BlockDest + destinationName + BlockType + dataType + BlockAtts;
    var r := BlockHead + sourceName + m + attributes + BlockTail;
    assert r == (BlockHead + sourceName) + (m + attributes + BlockTail);
    assert r == (BlockHead + sourceName + m) + attributes + BlockTail;
    r
  }

  /** The lambda mapped over the entries: `x.pop("attributes")` raises `KeyError` when
      the entry has none left; otherwise the block is the template filled with the
      entry's fields and its `<att>` lines, or the lines' error. */
  function EntryBlock(e: EntryValue): (r: Result<string>)
    ensures e.attributes.None? ==> r == Err(KeyError)
    ensures e.attributes.Some? ==> (r.Ok? <==> CreateAttTags(e.attributes.value).Ok?)
    ensures r.Err? ==> r.error == if e.attributes.None? then KeyError else IndexError
    ensures r.Ok? ==>
              r.value == DataVariableBlock(e.sourceName, e.destinationName, e.dataType, CreateAttTags(e.attributes.value).value)
  {
    match e.attributes
    case None => Err(KeyError)
    case Some(atts) =>
      var tags :- CreateAttTags(atts);
      Ok(DataVariableBlock(e.sourceName, e.destinationName, e.dataType, tags))
  }

  /** An entry renders unless its attributes were already popped or one of them is an
      empty list. */
  lemma EntryBlockMeaning(e: EntryValue)
    ensures EntryBlock(e).Err? <==>
              e.attributes.None? || exists k :: 0 <= k < |e.attributes.value| && !Renderable(e.attributes.value[k])
  {
    if e.attributes.Some? {
      CreateAttTagsMeaning(e.attributes.value);
    }
  }

  /** A function rendering one entry, as the lambda mapped over the entries does. */
  type Renderer = EntryValue -> Result<string>

  /** The blocks of the entries in order, or the error of the first that fails. */
  function Blocks(render: Renderer, vals: seq<EntryValue>): Result<seq<string>> {
    Collect(Outcomes(render, vals))
  }

  /** The number of entries whose `attributes` have been popped when rendering stops:
      all of them, or those up to and including the first that fails. */
  function Popped(render: Renderer, vals: seq<EntryValue>): nat {
    Reached(Outcomes(render, vals))
  }

  /** Mapping a renderer over the entries and joining the blocks by newlines, or the
      first error. */
  function DumpWith(render: Renderer, vals: seq<EntryValue>): Result<string> {
    var blocks :- Blocks(render, vals);
    Ok(Join(blocks, "\n"))
  }

  /** What `dump_variables_as_erddap_string` returns for the given entry contents:
      one block per entry, in order, joined by newlines, or the first entry's error. */
  function DumpSpec(vals: seq<EntryValue>): Result<string> {
    DumpWith(EntryBlock, vals)
  }

  /** The dump succeeds exactly when every entry renders; it then holds one block per
      entry, in order, and pops every entry. Otherwise it stops at the first entry that
      fails, after popping it, with that entry's error. */
  lemma DumpMeaning(render: Renderer, vals: seq<EntryValue>)
    ensures Blocks(render, vals).Ok? <==> forall k :: 0 <= k < |vals| ==> render(vals[k]).Ok?
    ensures Blocks(render, vals).Ok? ==> |Blocks(render, vals).value| == |vals| && Popped(render, vals) == |vals|
    ensures Blocks(render, vals).Ok? ==>
              forall k :: 0 <= k < |vals| ==> Blocks(render, vals).value[k] == render(vals[k]).value
    ensures Blocks(render, vals).Err? ==>
              var p := Popped(render, vals);
              0 < p <= |vals| && render(vals[p - 1]).Err? &&
              Blocks(render, vals).error == render(vals[p - 1]).error &&
              forall k :: 0 <= k < p - 1 ==> render(vals[k]).Ok?
  {
    var outs := Outcomes(render, vals);
    CollectMeaning(outs);
    assert |outs| == |vals| && forall k :: 0 <= k < |vals| ==> outs[k] == render(vals[k]);
  }

  /** Dumping the same entries a second time, after a dump that succeeded, raises
      `KeyError`: the first entry no longer has `attributes`. */
  lemma SecondDumpFails(vals: seq<EntryValue>, after: seq<EntryValue>)
    requires DumpSpec(vals).Ok? && |vals| > 0
    requires |after| == |vals| && forall k :: 0 <= k < |vals| ==> after[k] == vals[k].(attributes := None)
    ensures DumpSpec(after) == Err(KeyError)
  {
    assert Outcomes(EntryBlock, after)[0] == Err(KeyError);
  }

  /** The outcome of rendering an entry whose attributes are `atts`: success exactly
      when each of them renders, and `IndexError` otherwise. */
  predicate RendersAttributes(outcome: Result<string>, atts: seq<(string, AttrValue)>) {
    (outcome.Ok? <==> forall k :: 0 <= k < |atts| ==> Renderable(atts[k])) &&
    (outcome.Err? ==> outcome.error == IndexError)
  }

  /** Dumping fresh entries with a renderer that fails only on unrenderable attributes
      fails exactly when some attribute of some variable cannot be rendered. */
  lemma DumpOfFreshEntries(render: Renderer, vars: seq<NcVariable>, overrides: Overrides)
    requires forall i :: 0 <= i < |vars| ==> RendersAttributes(render(Describe(vars[i], overrides)), vars[i].attrs)
    ensures DumpWith(render, Descriptions(vars, overrides)).Ok? <==>
              forall i, k :: 0 <= i < |vars| && 0 <= k < |vars[i].attrs| ==> Renderable(vars[i].attrs[k])
    ensures DumpWith(render, Descriptions(vars, overrides)).Err? ==>
              DumpWith(render, Descriptions(vars, overrides)).error == IndexError
  {
    var vals := Descriptions(vars, overrides);
    DumpMeaning(render, vals);
    assert forall i :: 0 <= i < |vars| ==> vals[i] == Describe(vars[i], overrides);
    if Blocks(render, vals).Err? {
      var p := Popped(render, vals) - 1;
      assert !RendersAttributes(Ok(""), vars[p].attrs) || render(vals[p]).Err?;
    }
  }

  /** Dumping the entries built for a file's variables fails exactly when some attribute
      of some variable cannot be rendered, and then with `IndexError`: a fresh entry
      always has its attributes. */
  lemma DumpOfDescriptions(vars: seq<NcVariable>, overrides: Overrides)
    ensures DumpSpec(Descriptions(vars, overrides)).Ok? <==>
              forall i, k :: 0 <= i < |vars| && 0 <= k < |vars[i].attrs| ==> Renderable(vars[i].attrs[k])
    ensures DumpSpec(Descriptions(vars, overrides)).Err? ==> DumpSpec(Descriptions(vars, overrides)).error == IndexError
  {
    forall i | 0 <= i < |vars|
      ensures RendersAttributes(EntryBlock(Describe(vars[i], overrides)), vars[i].attrs)
    {
      EntryBlockMeaning(Describe(vars[i], overrides));
    }
    DumpOfFreshEntries(EntryBlock, vars, overrides);
  }
}
