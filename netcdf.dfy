/** What the assembler reads out of a netCDF file, as plain values. The reading
    itself (`netCDF4.Dataset`, `ncattrs`, `getncattr`, `dtype`, `dimensions`)
    is not modelled: a file is given as the sequence of its variables in the
    order the library iterates them. */
module NetCdf {

  /** A plain Python value: the name of its class and its `str()` text. */
  datatype PyValue = PyValue(typeName: string, text: string)

  /** An attribute value, by the shape the renderer dispatches on. Number
      formatting is abstracted: element texts are given. */
  datatype AttrValue =
    | NumScalar(dtype: string, text: string)          // a numpy scalar (`np.generic`)
    | NumArray(dtype: string, elems: seq<string>)     // a numpy array, its element dtype and element texts
    | List(items: seq<PyValue>)                       // a Python list
    | Other(value: PyValue)                           // anything else, e.g. a `str`

  /** A netCDF variable: its name, dtype name, dimension names and attributes
      in the file's attribute order. */
  datatype NcVariable = NcVariable(
    name: string,
    dtype: string,
    dims: seq<string>,
    attrs: seq<(string, AttrValue)>)

  /** A source file: its file name and its variables in iteration order. */
  datatype NcFile = NcFile(fileName: string, variables: seq<NcVariable>)

  /** Variable names are unique within a file (they are the keys of `variables`). */
  predicate DistinctNames(vars: seq<NcVariable>) {
    forall i, j :: 0 <= i < j < |vars| ==> vars[i].name != vars[j].name
  }

  /** The keys of an insertion-ordered dictionary given as a sequence of pairs are unique. */
  predicate DistinctKeys<V>(d: seq<(string, V)>) {
    forall i, j :: 0 <= i < j < |d| ==> d[i].0 != d[j].0
  }
}
