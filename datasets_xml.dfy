/** The pure part of the assembler's driver: the fields of one dataset, the filled
    user fragment, and the document made of all datasets. Reading the configuration,
    globbing the data directory, reading the fragment and header files and writing
    the output are left to the caller: the configuration is a value, the files are a
    sequence in glob order and the fragment and header are given. */
module DatasetsXml {
  import opened Wrappers
  import opened Text
  import opened NetCdf
  import opened Attributes
  import opened Variables
  import opened Cdm
  import opened Collecting
  import TypeMap

  /** The configuration keys the driver uses. */
  datatype Config = Config(
    erddapDatapath: string,
    cdmDataTypeDims: seq<(string, seq<string>)>,
    addHeaderFooter: bool,
    overrides: Overrides,
    useCdmVarsAsSubset: bool)

  /** The configuration is a YAML mapping, and so is each group table in it. */
  predicate WellFormed(cfg: Config) {
    DistinctKeys(cfg.cdmDataTypeDims)
  }

  /** `_fname.split(".nc")[0]`: the prefix of the file name before its first `.nc`, or
      the whole name when there is none. */
  function DatasetId(fileName: string): (id: string)
    ensures |id| <= |fileName| && fileName[..|id|] == id
    ensures forall k :: 0 <= k < |id| ==> !OccursAt(fileName, ".nc", k)
    ensures |id| < |fileName| ==> OccursAt(fileName, ".nc", |id|)
  {
    PrefixBefore(fileName, ".nc")
  }

  /** A file named after a dot-free stem, then `.nc`, then anything, has the stem as
      its dataset id. */
  lemma DatasetIdOfStem(stem: string, rest: string)
    requires '.' !in stem
    ensures DatasetId(stem + ".nc" + rest) == stem
  {
    var s := stem + ".nc" + rest;
    assert s[|stem|..|stem| + 3] == ".nc";
    assert OccursAt(s, ".nc", |stem|);
    forall k | 0 <= k < |stem| ensures !OccursAt(s, ".nc", k) {
      assert s[k] == stem[k];
    }
    assert s[..|stem|] == stem;
  }

  /** The group dictionary the driver builds for a file. */
  function CdmDict(vars: seq<NcVariable>, cfg: Config): seq<(string, string)> {
    seq(|cfg.cdmDataTypeDims|, g requires 0 <= g < |cfg.cdmDataTypeDims| =>
      (cfg.cdmDataTypeDims[g].0, CdmVariablesString(vars, cfg.cdmDataTypeDims[g].1, cfg.overrides)))
  }

  // The keys of the fields dictionary, in the driver's order.
  const DatasetIdKey := "dataset_id"
  const FileNameKey := "filename"
  const DataVariablesKey := "dataVariables"
  const CdmVariablesKey := "cdm_variables"
  const SubsetVariablesKey := "subsetVariables"
  const DatapathKey := "erddap_datapath"
  const FieldKeys := [DatasetIdKey, FileNameKey, DataVariablesKey, CdmVariablesKey, SubsetVariablesKey, DatapathKey]

  /** The fields dictionary of one file, in the driver's key order; the variable dump is
      evaluated before the subset tag, so its error comes first. */
  function FieldsSpec(file: NcFile, cfg: Config): Result<seq<(string, string)>> {
    var cdm := CdmDict(file.variables, cfg);
    var dataVariables :- DumpSpec(Descriptions(file.variables, cfg.overrides));
    var subset :- if cfg.useCdmVarsAsSubset then SubsetVariablesTag(cdm) else Ok("");
    Ok([(DatasetIdKey, DatasetId(file.fileName)),
        (FileNameKey, file.fileName),
        (DataVariablesKey, dataVariables),
        (CdmVariablesKey, Join(CdmTags(cdm), "\n")),
        (SubsetVariablesKey, subset),
        (DatapathKey, cfg.erddapDatapath)])
  }

  /** A file's fields are ready exactly when every attribute of every variable renders
      and, when the groups are used as subset variables, there is exactly one group.
      The subset field is then empty or that group's list in its tag, and the other
      fields are the file's id and name, its blocks, its group tags and the data path. */
  lemma FieldsMeaning(file: NcFile, cfg: Config)
    ensures FieldsSpec(file, cfg).Ok? <==>
              (forall i, k :: 0 <= i < |file.variables| && 0 <= k < |file.variables[i].attrs| ==>
                 Renderable(file.variables[i].attrs[k])) &&
              (cfg.useCdmVarsAsSubset ==> |cfg.cdmDataTypeDims| == 1)
    ensures FieldsSpec(file, cfg).Err? ==> FieldsSpec(file, cfg).error in {IndexError, TypeError}
    ensures FieldsSpec(file, cfg).Ok? ==>
              var f := FieldsSpec(file, cfg).value;
              |f| == 6 && (forall k :: 0 <= k < 6 ==> f[k].0 == FieldKeys[k]) && f[0] == (DatasetIdKey, DatasetId(file.fileName)) && f[1] == (FileNameKey, file.fileName) &&
              f[2].1 == DumpSpec(Descriptions(file.variables, cfg.overrides)).value &&
              f[3].1 == Join(CdmTags(CdmDict(file.variables, cfg)), "\n") &&
              f[4].1 == (if cfg.useCdmVarsAsSubset
                         then SubsetHead + CdmVariablesString(file.variables, cfg.cdmDataTypeDims[0].1, cfg.overrides) + TagTail
                         else "") &&
              f[5] == (DatapathKey, cfg.erddapDatapath)
  {
    DumpOfDescriptions(file.variables, cfg.overrides);
  }

  /** The body of the driver's loop for one file: the group dictionary, the variables
      dictionary and its dump, the group tags and, when enabled, the subset tag. */
  method DatasetFields(file: NcFile, cfg: Config) returns (r: Result<seq<(string, string)>>)
    requires DistinctNames(file.variables) && WellFormed(cfg)
    ensures r == FieldsSpec(file, cfg)
  {
    var cdm := CreateCdmVariablesDict(cfg.cdmDataTypeDims, file.variables, cfg.overrides);
    assert cdm == CdmDict(file.variables, cfg);
    var vd := AssembleVariablesDict(file.variables, cfg.overrides);
    var dataVariables := vd.DumpVariables(EntryBlock);
    if dataVariables.Err? {
      return Err(dataVariables.error);
    }
    var cdmTags := CreateCdmVariablesTags(cdm);
    var subset := if cfg.useCdmVarsAsSubset then SubsetVariablesTag(cdm) else Ok("");
    if subset.Err? {
      return Err(subset.error);
    }
    r := Ok([(DatasetIdKey, DatasetId(file.fileName)),
             (FileNameKey, file.fileName),
             (DataVariablesKey, dataVariables.value),
             (CdmVariablesKey, cdmTags),
             (SubsetVariablesKey, subset.value),
             (DatapathKey, cfg.erddapDatapath)]);
  }

  /** The user's `<dataset>` fragment, split at its `{name}` placeholders. */
  datatype Piece = Literal(text: string) | Placeholder(name: string)

  /** The value of the first pair with the given key. */
  function Lookup(d: seq<(string, string)>, key: string): (r: Option<string>)
    ensures r.None? <==> forall k :: 0 <= k < |d| ==> d[k].0 != key
    ensures r.Some? ==> exists k :: 0 <= k < |d| && d[k] == (key, r.value) && forall j :: 0 <= j < k ==> d[j].0 != key
    decreases |d|
  {
    if |d| == 0 then None
    else if d[0].0 == key then Some(d[0].1)
    else Lookup(d[1..], key)
  }

  /** One piece filled: its text, or the named field's value. */
  function PieceText(piece: Piece, fields: seq<(string, string)>): Result<string> {
    match piece
    case Literal(t) => Ok(t)
    case Placeholder(n) => if Lookup(fields, n).Some? then Ok(Lookup(fields, n).value) else Err(KeyError)
  }

  /** `fragment.format(**fields)`: the fragment with each placeholder replaced by its
      field; a placeholder naming no field raises `KeyError`, the only error. */
  function Format(fragment: seq<Piece>, fields: seq<(string, string)>): (r: Result<string>)
    ensures r.Err? ==> r.error == KeyError
    decreases |fragment|
  {
    if |fragment| == 0 then Ok("")
    else
      var head :- PieceText(fragment[0], fields);
      var rest :- Format(fragment[1..], fields);
      Ok(head + rest)
  }

  /** Filling fails exactly when some placeholder names no field. */
  lemma {:induction false} FormatMeaning(fragment: seq<Piece>, fields: seq<(string, string)>)
    ensures Format(fragment, fields).Ok? <==>
              forall k :: 0 <= k < |fragment| && fragment[k].Placeholder? ==> Lookup(fields, fragment[k].name).Some?
    decreases |fragment|
  {
    if |fragment| > 0 {
      FormatMeaning(fragment[1..], fields);
      assert forall k :: 0 < k < |fragment| ==> fragment[1..][k - 1] == fragment[k];
    }
  }

  /** A piece of text is kept as written; a placeholder becomes its field's value. */
  lemma FormatPiece(piece: Piece, fields: seq<(string, string)>)
    ensures piece.Literal? ==> Format([piece], fields) == Ok(piece.text)
    ensures piece.Placeholder? && Lookup(fields, piece.name).Some? ==>
              Format([piece], fields) == Ok(Lookup(fields, piece.name).value)
  {
    assert [piece][0] == piece && [piece][1..] == [];
    var r := PieceText(piece, fields);
    if r.Ok? {
      assert r.value + "" == r.value;
    }
  }

  /** Filling a fragment distributes over concatenating fragments. */
  lemma {:induction false} FormatAppend(a: seq<Piece>, b: seq<Piece>, fields: seq<(string, string)>)
    requires Format(a, fields).Ok? && Format(b, fields).Ok?
    ensures Format(a + b, fields) == Ok(Format(a, fields).value + Format(b, fields).value)
    decreases |a|
  {
    if |a| == 0 {
      assert a + b == b;
      assert "" + Format(b, fields).value == Format(b, fields).value;
    } else {
      assert (a + b)[0] == a[0] && (a + b)[1..] == a[1..] + b;
      FormatAppend(a[1..], b, fields);
      var h := PieceText(a[0], fields).value;
      var x := Format(a[1..], fields).value;
      var y := Format(b, fields).value;
      assert h + (x + y) == (h + x) + y;
    }
  }

  const Footer := "</erddapDatasets>"

  /** The output document: the header, the datasets and the closing tag, each on its
      own line, or the bare datasets. The wrapped document starts with the header and
      ends with the closing tag. */
  function Document(addHeaderFooter: bool, header: string, datasets: seq<string>): (r: string)
    ensures addHeaderFooter ==> |r| > |header| + |Footer| && r[..|header|] == header && r[|r| - |Footer|..] == Footer
  {
    if addHeaderFooter then header + "\n" + Join(datasets, "\n") + "\n" + Footer
    else Join(datasets, "\n")
  }

  /** The wrapped document is the bare one between the header line and the closing
      tag; with no datasets it is the header, an empty line and the closing tag, and
      the bare document is empty. */
  lemma DocumentShape(header: string, datasets: seq<string>)
    ensures Document(true, header, datasets) == header + "\n" + Document(false, header, datasets) + "\n" + Footer
    ensures Document(true, header, []) == header + "\n" + "\n" + Footer
    ensures Document(false, header, []) == ""
  {
    assert Join([], "\n") == "";
  }

  /** One file's dataset: its fields filled into the fragment. */
  function FileDataset(file: NcFile, cfg: Config, fragment: seq<Piece>): Result<string> {
    var fields :- FieldsSpec(file, cfg);
    Format(fragment, fields)
  }

  /** A file's dataset is ready exactly when its fields are and every placeholder of the
      fragment names one of the six fields; a failure is `IndexError` or `TypeError`
      from the fields, or `KeyError` from the fragment. */
  lemma FileDatasetMeaning(file: NcFile, cfg: Config, fragment: seq<Piece>)
    ensures FileDataset(file, cfg, fragment).Ok? <==>
              FieldsSpec(file, cfg).Ok? &&
              forall k :: 0 <= k < |fragment| && fragment[k].Placeholder? ==> fragment[k].name in FieldKeys
    ensures FileDataset(file, cfg, fragment).Err? ==> FileDataset(file, cfg, fragment).error in {IndexError, TypeError, KeyError}
  {
    FieldsMeaning(file, cfg);
    var fields := FieldsSpec(file, cfg);
    if fields.Ok? {
      FormatMeaning(fragment, fields.value);
      forall k | 0 <= k < |fragment| && fragment[k].Placeholder?
        ensures Lookup(fields.value, fragment[k].name).Some? <==> fragment[k].name in FieldKeys
      {
        var n := fragment[k].name;
        if n in FieldKeys {
          var j :| 0 <= j < 6 && FieldKeys[j] == n;
          assert fields.value[j].0 == n;
        }
      }
    }
  }

  /** A function producing one file's dataset, as the driver's loop body does. */
  type FileRenderer = NcFile -> Result<string>

  /** The driver's loop body, with the configuration and the fragment fixed. */
  function DatasetOf(cfg: Config, fragment: seq<Piece>): FileRenderer {
    file => FileDataset(file, cfg, fragment)
  }

  /** The datasets of the files in order, or the first file's error. */
  function Datasets(process: FileRenderer, files: seq<NcFile>): Result<seq<string>> {
    Collect(Outcomes(process, files))
  }

  /** There is one dataset per file, in file order, exactly when every file's dataset
      is ready; otherwise the output is the first failing file's error. */
  lemma DatasetsMeaning(process: FileRenderer, files: seq<NcFile>)
    ensures Datasets(process, files).Ok? <==> forall k :: 0 <= k < |files| ==> process(files[k]).Ok?
    ensures Datasets(process, files).Ok? ==>
              |Datasets(process, files).value| == |files| &&
              forall k :: 0 <= k < |files| ==> Datasets(process, files).value[k] == process(files[k]).value
    ensures Datasets(process, files).Err? ==>
              exists k :: 0 <= k < |files| && process(files[k]).Err? &&
                Datasets(process, files).error == process(files[k]).error &&
                forall j :: 0 <= j < k ==> process(files[j]).Ok?
  {
    var outs := Outcomes(process, files);
    CollectMeaning(outs);
    assert |outs| == |files| && forall k :: 0 <= k < |files| ==> outs[k] == process(files[k]);
    if Collect(outs).Err? {
      var k := Reached(outs) - 1;
      assert outs[k].Err?;
    }
  }

  /** The loop body for one file: its fields, then the filled fragment. */
  method FileStep(file: NcFile, cfg: Config, fragment: seq<Piece>) returns (r: Result<string>)
    requires DistinctNames(file.variables) && WellFormed(cfg)
    ensures r == FileDataset(file, cfg, fragment)
  {
    var fields := DatasetFields(file, cfg);
    if fields.Err? {
      return Err(fields.error);
    }
    r := Format(fragment, fields.value);
  }

  /** The whole output: every dataset, then the document around them. */
  function AssembleSpec(files: seq<NcFile>, cfg: Config, fragment: seq<Piece>, header: string): Result<string> {
    var datasets :- Datasets(DatasetOf(cfg, fragment), files);
    Ok(Document(cfg.addHeaderFooter, header, datasets))
  }

  /** The loop of `main` over the data files, then the header/footer join. */
  method Assemble(files: seq<NcFile>, cfg: Config, fragment: seq<Piece>, header: string) returns (r: Result<string>)
    requires forall k :: 0 <= k < |files| ==> DistinctNames(files[k].variables)
    requires WellFormed(cfg)
    ensures r == AssembleSpec(files, cfg, fragment, header)
  {
    ghost var outs := Outcomes(DatasetOf(cfg, fragment), files);
    var datasets: seq<string> := [];
    var i := 0;
    CollectStart(outs);
    while i < |files|
      invariant 0 <= i <= |files| == |outs|
      invariant Collect(outs) == Then(datasets, Collect(outs[i..]))
      invariant Reached(outs) == i + Reached(outs[i..])
    {
      CollectStep(outs, i, datasets);
      var dataset := FileStep(files[i], cfg, fragment);
      assert dataset == outs[i];
      if dataset.Err? {
        return Err(dataset.error);
      }
      datasets := datasets + [dataset.value];
      i := i + 1;
    }
    CollectDone(outs, datasets);
    r := Ok(Document(cfg.addHeaderFooter, header, datasets));
  }

  // A worked example: one file `X.nc` holding one `float64` variable `T` whose only
  // attribute is the string `units = "degC"`, no groups, no header, and a fragment
  // that shows the dataset id and the variable blocks.
  const ExampleUnits: (string, AttrValue) := ("units", Other(PyValue("str", "degC")))
  const ExampleVariable := NcVariable("T", "float64", [], [ExampleUnits])
  const ExampleFile := NcFile("X.nc", [ExampleVariable])
  const ExampleConfig := Config("", [], false, map[], false)
  const ExampleFragment := [Literal("<dataset>"), Placeholder(DatasetIdKey), Literal(":"),
                            Placeholder(DataVariablesKey), Literal("</dataset>")]
  const ExampleAtt := "    <att name=\"" + "units" + "\" type=\"" + "String" + "\">" + "degC" + "</att>"

  /** The string attribute is typed `String` and renders as one `<att>` line. */
  lemma ExampleAttTags()
    ensures CreateAttTags([ExampleUnits]) == Ok(ExampleAtt)
  {
    TypeMap.ClassReprIsNeverAKey("str", "String");
    assert NameTypeValue("units", ExampleUnits.1) == Ok(AttrFields("units", "String", "degC"));
    AttLinesMeaning([ExampleUnits]);
    var f := AttrFields("units", "String", "degC");
    assert AttLines([ExampleUnits]).value == [AttTag(f)];
    assert AttTag(f) == ExampleAtt;
  }

  const ExampleBlock := "\n<dataVariable>\n  <sourceName>" + "T" + "</sourceName>\n  <destinationName>" + "T"
                        + "</destinationName>\n  <dataType>" + "double" + "</dataType>\n  <addAttributes>\n"
                        + ExampleAtt + "\n  </addAttributes>\n</dataVariable>"

  /** The template filled with the example variable's fields. */
  lemma ExampleBlockText()
    ensures DataVariableBlock("T", "T", "double", ExampleAtt) == ExampleBlock
  {
    var m := BlockDest + "T" + BlockType + "double" + BlockAtts;
    assert DataVariableBlock("T", "T", "double", ExampleAtt) == BlockHead + "T" + m + ExampleAtt + BlockTail;
    assert BlockHead + "T" + m == BlockHead + "T" + BlockDest + "T" + BlockType + "double" + BlockAtts;
  }

  /** The variable's entry renders as its block. */
  lemma ExampleEntryBlock()
    ensures EntryBlock(Describe(ExampleVariable, map[])) == Ok(ExampleBlock)
  {
    ExampleAttTags();
    ExampleBlockText();
    var e := Describe(ExampleVariable, map[]);
    assert e == EntryValue("double", "T", "T", Some([ExampleUnits]));
  }

  /** The variable's entry renders as the one block of the dump. */
  lemma ExampleDump()
    ensures DumpSpec(Descriptions([ExampleVariable], map[])) == Ok(ExampleBlock)
  {
    ExampleEntryBlock();
    var outs := Outcomes(EntryBlock, Descriptions([ExampleVariable], map[]));
    assert outs == [Ok(ExampleBlock)];
    assert Collect(outs[1..]) == Ok([]);
  }

  const ExampleFields := [(DatasetIdKey, "X"), (FileNameKey, "X.nc"), (DataVariablesKey, ExampleBlock),
                          (CdmVariablesKey, ""), (SubsetVariablesKey, ""), (DatapathKey, "")]

  /** The file's fields: id `X`, its name, its one block and empty group tags, subset
      tag and data path. */
  lemma ExampleFieldsOfFile()
    ensures FieldsSpec(ExampleFile, ExampleConfig) == Ok(ExampleFields)
  {
    ExampleDump();
    DatasetIdOfStem("X", "");
    assert "X" + ".nc" + "" == "X.nc";
    assert CdmDict(ExampleFile.variables, ExampleConfig) == [];
  }

  /** The two fields the fragment names are found. */
  lemma ExampleLookups()
    ensures Lookup(ExampleFields, DatasetIdKey) == Some("X")
    ensures Lookup(ExampleFields, DataVariablesKey) == Some(ExampleBlock)
  {
    var f := ExampleFields;
    assert DatasetIdKey[4] != DataVariablesKey[4] && FileNameKey[0] != DataVariablesKey[0];
    assert Lookup(f[2..], DataVariablesKey) == Some(ExampleBlock);
  }

  /** The fragment filled with the file's fields. */
  lemma ExampleFill()
    ensures Format(ExampleFragment, ExampleFields) == Ok("<dataset>" + "X" + ":" + ExampleBlock + "</dataset>")
  {
    var f := ExampleFields;
    var p := ExampleFragment;
    ExampleLookups();
    FormatPiece(p[0], f);
    FormatPiece(p[1], f);
    FormatPiece(p[2], f);
    FormatPiece(p[3], f);
    FormatPiece(p[4], f);
    FormatAppend([p[0]], [p[1]], f);
    FormatAppend([p[0]] + [p[1]], [p[2]], f);
    FormatAppend([p[0]] + [p[1]] + [p[2]], [p[3]], f);
    FormatAppend([p[0]] + [p[1]] + [p[2]] + [p[3]], [p[4]], f);
    assert p == [p[0]] + [p[1]] + [p[2]] + [p[3]] + [p[4]];
  }

  /** The whole output for the example: the one dataset, with no header or footer. */
  lemma SingleVariableExample()
    ensures AssembleSpec([ExampleFile], ExampleConfig, ExampleFragment, "") ==
              Ok("<dataset>" + "X" + ":" + ExampleBlock + "</dataset>")
  {
    ExampleFieldsOfFile();
    ExampleFill();
    var outs := Outcomes(DatasetOf(ExampleConfig, ExampleFragment), [ExampleFile]);
    assert outs[0] == Ok("<dataset>" + "X" + ":" + ExampleBlock + "</dataset>");
    assert Collect(outs[1..]) == Ok([]);
  }
}
