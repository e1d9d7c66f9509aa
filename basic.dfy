/** The basic assembler: one entry per variable with its names and ERDDAP data type
    only, rendered with an empty `<addAttributes>` element. Unlike the full assembler's
    dump, this one leaves its input as it found it. */
module BasicVariables {
  import opened Text
  import opened TypeMap
  import opened NetCdf
  import Variables

  /** The basic assembler's table: the full table without its `float`, `string` and
      `str` keys. */
  const BasicNpyTypeMap: map<string, string> := map[
    "byte" := "byte",
    "int8" := "byte",
    "int16" := "short",
    "uint16" := "char",
    "int32" := "int",
    "int64" := "long",
    "float32" := "float",
    "float64" := "double",
    "|S1" := "String"
  ]

  /** The basic table is the full one restricted to all but three keys. */
  lemma BasicTableIsRestriction()
    ensures forall key :: key in BasicNpyTypeMap ==> key in NpyTypeMap && BasicNpyTypeMap[key] == NpyTypeMap[key]
    ensures NpyTypeMap.Keys - BasicNpyTypeMap.Keys == {"float", "string", "str"}
  {
    assert BasicNpyTypeMap.Keys == NpyTypeMap.Keys - {"float", "string", "str"};
  }

  /** The ERDDAP data type the basic assembler gives a dtype, with fallback `float64`. */
  function BasicDataType(dtype: string): (r: string)
    ensures dtype in BasicNpyTypeMap ==> r == BasicNpyTypeMap[dtype]
    ensures r == "float64" <==> dtype !in BasicNpyTypeMap
    ensures r in ErddapTypes || r == "float64"
  {
    Get(BasicNpyTypeMap, dtype, "float64")
  }

  /** The two assemblers agree on a dtype's data type exactly when it is not one of the
      three keys only the full table has. */
  lemma BasicDataTypeAgrees(dtype: string)
    ensures BasicDataType(dtype) == Variables.DataType(dtype) <==> dtype !in {"float", "string", "str"}
  {
  }

  /** One entry dictionary: `dataType`, `sourceName` and `destinationName`. */
  datatype BasicEntry = BasicEntry(dataType: string, sourceName: string, destinationName: string)

  /** `assemble_basic_erddap_variables_dict`: one entry per variable, keyed and named by
      the variable's own name, in variable order. */
  method AssembleBasicVariablesDict(vars: seq<NcVariable>) returns (out: seq<(string, BasicEntry)>)
    requires DistinctNames(vars)
    ensures |out| == |vars| && DistinctKeys(out)
    ensures forall i :: 0 <= i < |vars| ==>
              out[i].0 == vars[i].name && out[i].1.sourceName == vars[i].name &&
              out[i].1.destinationName == vars[i].name &&
              out[i].1.dataType == BasicDataType(vars[i].dtype)
  {
    out := [];
    var i := 0;
    while i < |vars|
      invariant 0 <= i <= |vars| && |out| == i
      invariant forall j :: 0 <= j < i ==>
                  out[j] == (vars[j].name, BasicEntry(BasicDataType(vars[j].dtype), vars[j].name, vars[j].name))
    {
      var name := vars[i].name;
      out := out + [(name, BasicEntry(BasicDataType(vars[i].dtype), name, name))];
      i := i + 1;
    }
  }

  // The basic `<dataVariable>` template, cut at its placeholders; it begins and ends
  // with a newline and its `<addAttributes>` element is empty.
  const BasicHead := "\n<dataVariable>\n    <sourceName>"
  const BasicDest := "</sourceName>\n    <destinationName>"
  const BasicType := "</destinationName>\n    <dataType>"
  const BasicTail := "</dataType>\n    <addAttributes>\n    </addAttributes>\n</dataVariable>\n"

  /** One entry's block: the template with the entry's three fields. It starts with an
      empty line and the opening tag, ends with the closing tag and a newline, and
      carries the entry's source name right after its head. */
  function BasicBlock(e: BasicEntry): (b: string)
    ensures |b| > |BasicHead| + |e.sourceName| + |BasicTail|
    ensures b[..|BasicHead|] == BasicHead && b[|b| - |BasicTail|..] == BasicTail
    ensures b[|BasicHead|..|BasicHead| + |e.sourceName|] == e.sourceName
    ensures b[0] == '\n' && b[|b| - 1] == '\n'
  {
    BasicHead + e.sourceName + BasicDest + e.destinationName + BasicType + e.dataType + BasicTail
  }

  /** The block of every entry, in dictionary order. */
  function BasicBlocks(d: seq<(string, BasicEntry)>): seq<string> {
    seq(|d|, k requires 0 <= k < |d| => BasicBlock(d[k].1))
  }

  /** `dump_variables_as_erddap`: the blocks of the entries joined by newlines. Every
      entry has all three fields, so filling the template cannot fail. An empty
      dictionary dumps to nothing and a single entry to its block. */
  function DumpVariablesAsErddap(d: seq<(string, BasicEntry)>): (r: string)
    ensures |d| == 0 ==> r == ""
    ensures |d| == 1 ==> r == BasicBlock(d[0].1)
  {
    Join(BasicBlocks(d), "\n")
  }

  /** The dump of two non-empty dictionaries one after the other is their dumps
      joined by a newline. */
  lemma DumpVariablesAppend(a: seq<(string, BasicEntry)>, b: seq<(string, BasicEntry)>)
    requires |a| > 0 && |b| > 0
    ensures DumpVariablesAsErddap(a + b) == DumpVariablesAsErddap(a) + "\n" + DumpVariablesAsErddap(b)
  {
    assert BasicBlocks(a + b) == BasicBlocks(a) + BasicBlocks(b);
    JoinAppend(BasicBlocks(a), BasicBlocks(b), "\n");
  }
}
