# ERDDAP `datasets.xml` assembler, modelled in Dafny

This project models the scripts that turn netCDF files into ERDDAP dataset
descriptors.

The full assembler (`erddap/assemble_erddap_datasets_xml.py`) works on each data
file in turn:

- It builds a dictionary of variable entries: data type, source name, destination
  name and attributes. A user override can rename a variable.
- It renders every entry as a `<dataVariable>` block with one `<att>` line per
  attribute. Rendering pops `"attributes"` out of each entry.
- It lists, for every configured CDM dimension group, the variables that use one of
  the group's dimensions, and renders the `cdm_*_variables` tags. When enabled, it
  also renders the `subsetVariables` tag.
- It fills the user's `<dataset>` fragment with these fields.

Finally it joins all datasets, optionally between a header and the closing
`</erddapDatasets>` tag.

The basic assembler (`erddap/assemble_basic_errdap_variables_dict.py`) has a smaller
type table, no attributes and no CDM groups.

Python's exceptions are modelled as the error side of a `Result`:
- `IndexError`: an attribute whose value is an empty list.
- `KeyError`: an entry whose attributes were already popped, or a fragment
  placeholder that names no field.
- `TypeError`: the subset tag with anything other than exactly one group.

Modules:

- `Wrappers`: `Option`, `Result` and the error kinds.
- `Text`: `str.join`, `str.split` on one character, and `s.split(sep)[0]`.
- `TypeMap`: the dtype table and `dict.get`.
- `NetCdf`: a file's variables as values.
- `Attributes`: type and text of an attribute value, and the `<att>` lines.
- `Collecting`: rendering items one by one and collecting the texts in order, or
  the first error, after which nothing more is rendered.
- `Variables`: the variables dictionary. `VarDict` is a class whose
  `DumpVariables` pops the entries it renders.
- `Cdm`: dimension groups and their tags.
- `DatasetsXml`: the fields of one file, fragment filling, the driver loop and the
  output document.
- `BasicVariables`: the basic assembler.

Two behaviours of the code are easy to misread:

- **Subset tag.** `create_subset_variables_tag` passes every group list to
  `"".join` as a separate argument. It therefore raises `TypeError` unless there is
  exactly one group. It does not concatenate the first group's list.
- **Empty-list attributes.** An attribute whose value is an empty list raises
  `IndexError` when the code looks up its first element. It does not fall back to a
  default type.

## Model

| member | source | states |
|---|---|---|
| TypeMap.TableTagsAreErddapTypes | erddap/assemble_erddap_datasets_xml.py:17-30 | every value of the twelve-entry dtype table is one of the eight ERDDAP type tags |
| TypeMap.ClassReprIsNeverAKey | erddap/assemble_erddap_datasets_xml.py:72-76 | a printed class name `<class '...'>` is never a key of the table, so looking it up always gives the default |
| Attributes.NameTypeValue | erddap/assemble_erddap_datasets_xml.py:54-79 | fails exactly for an empty list, with `IndexError`; otherwise it keeps the name and gives a type that is an ERDDAP tag |
| Attributes.NumericAttribute | erddap/assemble_erddap_datasets_xml.py:61-67 | a numpy scalar or array is typed by its dtype's table entry, or `float` when there is none; a scalar's value is its text; an array's value is its element texts joined by single spaces, which split back into them |
| Attributes.PlainAttribute | erddap/assemble_erddap_datasets_xml.py:69-77 | a non-empty list or any other value is always typed `String`; a list's value is its element texts joined by single spaces, which split back into them, in order |
| Attributes.AttTag | erddap/assemble_erddap_datasets_xml.py:45 | the filled `<att>` template is a single line when the name, type and value are |
| Attributes.AttLinesMeaning | erddap/assemble_erddap_datasets_xml.py:47-52 | the `<att>` lines exist exactly when every attribute renders, else `IndexError`; there is one line per attribute, in order, each that attribute's tag |
| Attributes.CreateAttTags | erddap/assemble_erddap_datasets_xml.py:47-52 | the `<att>` lines joined by newlines, failing exactly when the lines do; the only error is `IndexError`; no attributes give `""` |
| Attributes.CreateAttTagsMeaning | erddap/assemble_erddap_datasets_xml.py:47-52 | the joined tags exist exactly when every attribute renders |
| Attributes.OneLinePerAttribute | erddap/assemble_erddap_datasets_xml.py:45-52 | when no rendered field contains a newline, splitting the tags on newlines gives back each attribute's `<att>` line, in order |
| Variables.DestinationName | erddap/assemble_erddap_datasets_xml.py:94-104 | the user's `destinationName` override when there is one, the variable's own name otherwise |
| Variables.DataType | erddap/assemble_erddap_datasets_xml.py:98 | the table's tag for a known dtype; `float64` exactly when the dtype is unknown; always an ERDDAP tag or `float64` |
| Variables.DescriptorFields | erddap/assemble_erddap_datasets_xml.py:93-107 | every field of every entry: source name, overridden destination name, data type with fallback `float64`, and the variable's own attributes |
| Variables.AssembleVariablesDict | erddap/assemble_erddap_datasets_xml.py:84-109 | a fresh dictionary with one entry per variable, keyed by the variable's name in variable order, with unique keys and the described entries as values |
| Variables.VarDict.DumpVariables | erddap/assemble_erddap_datasets_xml.py:111-124 | returns the rendered blocks joined by newlines, or the first failing entry's error; afterwards exactly the entries it reached (all of them, or up to the failing one) have lost `attributes`, and nothing else changed |
| Variables.DataVariableBlock | erddap/assemble_erddap_datasets_xml.py:35-43 | the filled `<dataVariable>` template opens with its head and then the source name, and closes with the `<att>` lines, then the end of `<addAttributes>` and `</dataVariable>` |
| Variables.EntryBlock | erddap/assemble_erddap_datasets_xml.py:118-121 | an entry with no attributes left fails with `KeyError`; otherwise it renders exactly when its `<att>` tags do, the only other error being `IndexError`, and the block is the template filled with the entry's fields and tags |
| Variables.EntryBlockMeaning | erddap/assemble_erddap_datasets_xml.py:117-121 | an entry fails to render exactly when its attributes were already popped or one of them is an empty list |
| Variables.DumpMeaning | erddap/assemble_erddap_datasets_xml.py:117-123 | the dump succeeds exactly when every entry renders; it then has one block per entry, in order, and pops them all; otherwise it stops at the first failing entry, after popping it, with that entry's error |
| Variables.SecondDumpFails | erddap/assemble_erddap_datasets_xml.py:119 | dumping the same entries again after a successful dump raises `KeyError` |
| Variables.DumpOfFreshEntries | erddap/assemble_erddap_datasets_xml.py:218-222 | for freshly built entries and a renderer that fails only on unrenderable attributes, the dump fails exactly when some attribute of some variable is an empty list, and then with `IndexError` |
| Variables.DumpOfDescriptions | erddap/assemble_erddap_datasets_xml.py:218-222 | the assembler's own dump of a file's fresh entries fails exactly when some attribute is an empty list, and then with `IndexError`; it never raises `KeyError` |
| Cdm.MatchedIndices | erddap/assemble_erddap_datasets_xml.py:133-137 | the positions of the variables that have a dimension of the group: increasing, in range, and exactly those variables |
| Cdm.CdmMembersAreMatches | erddap/assemble_erddap_datasets_xml.py:133-137 | the listed names are the destination names of the matching variables: each match once, no other variable, in variable order |
| Cdm.CdmVariablesString | erddap/assemble_erddap_datasets_xml.py:139 | the comma-joined names: `""` when no variable matches, the single name when one does |
| Cdm.CdmVariablesStringRoundTrip | erddap/assemble_erddap_datasets_xml.py:139 | when no name contains a comma, the list splits on commas back into the names |
| Cdm.GetCdmVariables | erddap/assemble_erddap_datasets_xml.py:126-139 | the nested scan with `break` yields the comma-joined names of the matching variables |
| Cdm.CreateCdmVariablesDict | erddap/assemble_erddap_datasets_xml.py:148-169 | one entry per group, in group order and with unique keys, holding that group's variable list |
| Cdm.CreateCdmVariablesTags | erddap/assemble_erddap_datasets_xml.py:171-176 | the `cdm_*_variables` tag of every group, in group order, joined by newlines |
| Cdm.CdmTag | erddap/assemble_erddap_datasets_xml.py:141-146 | the tag is a single line when the group name and the list are |
| Cdm.OneLinePerGroup | erddap/assemble_erddap_datasets_xml.py:141-146 | when no group name or list contains a newline, splitting the tags on newlines gives back each group's tag |
| Cdm.SubsetVariablesTag | erddap/assemble_erddap_datasets_xml.py:178-179 | succeeds exactly when there is one group, and then holds that group's list unchanged; otherwise `TypeError` |
| DatasetsXml.DatasetIdOfStem | erddap/assemble_erddap_datasets_xml.py:216 | a file named after a dot-free stem, then `.nc`, then anything, has that stem as its dataset id |
| DatasetsXml.DatasetId | erddap/assemble_erddap_datasets_xml.py:216 | the dataset id is the prefix of the file name before its first `.nc`, or the whole name when there is none |
| DatasetsXml.FieldsMeaning | erddap/assemble_erddap_datasets_xml.py:214-226 | a file's fields exist exactly when every attribute renders and, if subset tagging is on, there is one group; a failure is `IndexError` or `TypeError`; the six fields in order are the id, file name, blocks, group tags, subset tag (that group's list, or empty) and data path |
| DatasetsXml.DatasetFields | erddap/assemble_erddap_datasets_xml.py:212-226 | the loop body's calls, in the driver's evaluation order, produce the file's fields or its first error |
| DatasetsXml.Lookup | erddap/assemble_erddap_datasets_xml.py:229 | a field is found exactly when some pair has its name, and then it is the value of the first such pair |
| DatasetsXml.Format | erddap/assemble_erddap_datasets_xml.py:229 | filling the fragment can only fail with `KeyError` |
| DatasetsXml.FormatMeaning | erddap/assemble_erddap_datasets_xml.py:229 | filling the fragment fails exactly when some placeholder names no field |
| DatasetsXml.FormatPiece | erddap/assemble_erddap_datasets_xml.py:229 | literal text is kept as written; a placeholder becomes its field's value |
| DatasetsXml.FormatAppend | erddap/assemble_erddap_datasets_xml.py:229 | filling distributes over concatenation of fragments |
| DatasetsXml.FileDatasetMeaning | erddap/assemble_erddap_datasets_xml.py:212-229 | a file's dataset exists exactly when its fields do and every placeholder names one of the six fields; a failure is `IndexError`, `TypeError` or `KeyError` |
| DatasetsXml.DatasetsMeaning | erddap/assemble_erddap_datasets_xml.py:209-229 | there is one dataset per file, in file order, exactly when every file succeeds; otherwise the result is the first failing file's error |
| DatasetsXml.FileStep | erddap/assemble_erddap_datasets_xml.py:212-229 | one iteration of the file loop yields that file's dataset or error |
| DatasetsXml.Document | erddap/assemble_erddap_datasets_xml.py:231-240 | with the header and footer, the document starts with the header and ends with `</erddapDatasets>` |
| DatasetsXml.DocumentShape | erddap/assemble_erddap_datasets_xml.py:231-240 | the wrapped document is the header line, the bare document and the closing tag; with no datasets it is the header, an empty line and the closing tag, and the bare document is empty |
| DatasetsXml.Assemble | erddap/assemble_erddap_datasets_xml.py:209-240 | the driver loop stops at the first failing file; otherwise it returns the document around every file's dataset, in file order |
| DatasetsXml.SingleVariableExample | erddap/assemble_erddap_datasets_xml.py:209-240 | for one file `X.nc` with one `float64` variable `T` carrying `units = "degC"`, a fragment showing the dataset id and blocks gives `<dataset>X:` then the block of `T` (type `double`, one `String` attribute) then `</dataset>` |
| BasicVariables.BasicTableIsRestriction | erddap/assemble_basic_errdap_variables_dict.py:11-21 | the basic table agrees with the full one on each of its keys and lacks exactly `float`, `string` and `str` |
| BasicVariables.BasicDataType | erddap/assemble_basic_errdap_variables_dict.py:44 | the basic table's tag for a known dtype; `float64` exactly when the dtype is unknown |
| BasicVariables.BasicDataTypeAgrees | erddap/assemble_basic_errdap_variables_dict.py:44 | the two assemblers give a dtype the same data type exactly when it is not `float`, `string` or `str` |
| BasicVariables.AssembleBasicVariablesDict | erddap/assemble_basic_errdap_variables_dict.py:33-49 | one entry per variable, in order and with unique keys; key, source name and destination name are the variable's name, and the data type comes from the basic table |
| BasicVariables.BasicBlock | erddap/assemble_basic_errdap_variables_dict.py:23-31 | each block begins and ends with a newline, opens with the template head, closes with the empty `<addAttributes>` and `</dataVariable>`, and carries the source name right after the head |
| BasicVariables.DumpVariablesAsErddap | erddap/assemble_basic_errdap_variables_dict.py:51-61 | the blocks of the entries joined by newlines: an empty dictionary dumps to `""` and one entry to its block |
| BasicVariables.DumpVariablesAppend | erddap/assemble_basic_errdap_variables_dict.py:51-61 | the dump of two non-empty dictionaries in sequence is their dumps joined by a newline |

## Left out

- Reading netCDF files is not modelled. A file is given as its name and its variables, in iteration order, with each variable's dtype name, dimension names and attributes.
- Variables.DataType takes the dtype's text as given. Line 98 computes it with `var.dtype.__str__()`. When netCDF4 reports a variable-length string variable's dtype as the builtin class `str`, that call raises `TypeError` and aborts the run; this error is not modelled.
- Number formatting is not modelled. A numpy scalar or element is given by its `str()` text.
- YAML parsing, the configuration keys other than those the driver uses, and a missing configuration key are not modelled. The configuration is a value.
- File access is not modelled: the data directory glob, reading the fragment and header files, and writing `datasets.<outname>.xml`. The files arrive as a sequence in glob order; the fragment and header arrive as values. The output is the returned document.
- `str.format` parsing of the fragment is not modelled. The fragment is given already cut into literal text and `{name}` placeholders. Format specifications, conversions, positional fields and `{{`/`}}` escapes are not modelled.
- Dictionary keys are unique: variable names within a file, and CDM group names. This is stated as a precondition, not derived from the data.
- Each entry dictionary is held by value. Two entries cannot alias the same dictionary.
- Variables.VarDict.DumpVariables takes the renderer as a parameter. The driver passes `EntryBlock`, the block template filled with the entry's `<att>` lines.
- `load_var_attr_dict` (lines 81-82) is not modelled separately. It is the attribute sequence of a variable.
- The basic script's `__main__` block (a fixed file path and a `print`) is not modelled. The full script's `__main__` block passes `sys.argv[1]` to `main`; reading that configuration is left out above.
- get_geo_attrs.py and plot/swan_orthographic_projection.py are not part of this model.
