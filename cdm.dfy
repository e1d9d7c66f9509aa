/** CDM dimension-group tagging: for each configured group of dimension names, the
    variables that have at least one of those dimensions, and the `cdm_*_variables`
    and `subsetVariables` attribute tags built from them. */
module Cdm {
  import opened Wrappers
  import opened Text
  import opened NetCdf
  import opened Variables

  /** At least one of the variable's dimensions is one of the group's. */
  predicate HasGroupDim(v: NcVariable, dimNames: seq<string>) {
    exists j :: 0 <= j < |v.dims| && v.dims[j] in dimNames
  }

  /** The positions of the variables that belong to the group, in increasing order. */
  function MatchedIndices(vars: seq<NcVariable>, dimNames: seq<string>): (r: seq<nat>)
    ensures forall k :: 0 <= k < |r| ==> r[k] < |vars|
    ensures forall k, l :: 0 <= k < l < |r| ==> r[k] < r[l]
    ensures forall i :: 0 <= i < |vars| ==> (i in r <==> HasGroupDim(vars[i], dimNames))
    decreases |vars|
  {
    if |vars| == 0 then []
    else
      var n := |vars| - 1;
      MatchedIndices(vars[..n], dimNames) + (if HasGroupDim(vars[n], dimNames) then [n] else [])
  }

  /** The names listed for a group: the destination name of every variable that has one
      of the group's dimensions, once each, in variable order. */
  function CdmMembers(vars: seq<NcVariable>, dimNames: seq<string>, overrides: Overrides): seq<string>
    decreases |vars|
  {
    if |vars| == 0 then []
    else
      var n := |vars| - 1;
      CdmMembers(vars[..n], dimNames, overrides)
        + (if HasGroupDim(vars[n], dimNames) then [DestinationName(vars[n].name, overrides)] else [])
  }

  /** The k-th listed name is the destination name of the k-th matching variable: every
      variable with one of the group's dimensions is listed exactly once, no other is,
      and the order is the variables' order. */
  lemma {:induction false} CdmMembersAreMatches(vars: seq<NcVariable>, dimNames: seq<string>, overrides: Overrides)
    ensures |CdmMembers(vars, dimNames, overrides)| == |MatchedIndices(vars, dimNames)|
    ensures forall k :: 0 <= k < |MatchedIndices(vars, dimNames)| ==>
              CdmMembers(vars, dimNames, overrides)[k] == DestinationName(vars[MatchedIndices(vars, dimNames)[k]].name, overrides)
    decreases |vars|
  {
    if |vars| > 0 {
      var n := |vars| - 1;
      CdmMembersAreMatches(vars[..n], dimNames, overrides);
      var front := MatchedIndices(vars[..n], dimNames);
      var names := CdmMembers(vars[..n], dimNames, overrides);
      var m := HasGroupDim(vars[n], dimNames);
      var r := MatchedIndices(vars, dimNames);
      var c := CdmMembers(vars, dimNames, overrides);
      assert r == front + (if m then [n] else []);
      assert c == names + (if m then [DestinationName(vars[n].name, overrides)] else []);
      forall k | 0 <= k < |r|
        ensures c[k] == DestinationName(vars[r[k]].name, overrides)
      {
        if k < |front| {
          assert r[k] == front[k] && c[k] == names[k];
          assert vars[..n][front[k]] == vars[front[k]];
        }
      }
    }
  }

  /** `get_cdm_variables`'s result for one group: the listed names joined by commas;
      empty when no variable matches, and the one name when one does. */
  function CdmVariablesString(vars: seq<NcVariable>, dimNames: seq<string>, overrides: Overrides): (r: string)
    ensures CdmMembers(vars, dimNames, overrides) == [] ==> r == ""
    ensures |CdmMembers(vars, dimNames, overrides)| == 1 ==> r == CdmMembers(vars, dimNames, overrides)[0]
  {
    Join(CdmMembers(vars, dimNames, overrides), ",")
  }

  /** The comma-joined list splits back into the listed names when no name contains a
      comma. */
  lemma CdmVariablesStringRoundTrip(vars: seq<NcVariable>, dimNames: seq<string>, overrides: Overrides)
    ensures var names := CdmMembers(vars, dimNames, overrides);
      |names| > 0 && (forall k :: 0 <= k < |names| ==> ',' !in names[k]) ==>
        Split(CdmVariablesString(vars, dimNames, overrides), ',') == names
  {
    var names := CdmMembers(vars, dimNames, overrides);
    if |names| > 0 && (forall k :: 0 <= k < |names| ==> ',' !in names[k]) {
      SplitJoin(names, ',');
    }
  }

  /** `get_cdm_variables`: scans the variables in order, appending a variable's
      destination name at its first dimension that is in the group (then `break`). */
  method GetCdmVariables(vars: seq<NcVariable>, dimNames: seq<string>, overrides: Overrides) returns (s: string)
    ensures s == CdmVariablesString(vars, dimNames, overrides)
  {
    var outVars: seq<string> := [];
    var i := 0;
    while i < |vars|
      invariant 0 <= i <= |vars|
      invariant outVars == CdmMembers(vars[..i], dimNames, overrides)
    {
      var v := vars[i];
      assert vars[..i + 1][..i] == vars[..i];
      var j := 0;
      while j < |v.dims|
        invariant 0 <= j <= |v.dims|
        invariant forall l :: 0 <= l < j ==> v.dims[l] !in dimNames
        invariant outVars == CdmMembers(vars[..i], dimNames, overrides)
      {
        if v.dims[j] in dimNames {
          outVars := outVars + [DestinationName(v.name, overrides)];
          break;
        }
        j := j + 1;
      }
      i := i + 1;
    }
    assert vars[..i] == vars;
    s := Join(outVars, ",");
  }

  /** `create_cdm_variables_dict`: one entry per group, in group order, holding the
      group's comma-joined variable list. */
  method CreateCdmVariablesDict(groups: seq<(string, seq<string>)>, vars: seq<NcVariable>, overrides: Overrides)
    returns (out: seq<(string, string)>)
    requires DistinctKeys(groups)
    ensures |out| == |groups| && DistinctKeys(out)
    ensures forall g :: 0 <= g < |groups| ==>
              out[g] == (groups[g].0, CdmVariablesString(vars, groups[g].1, overrides))
  {
    out := [];
    var g := 0;
    while g < |groups|
      invariant 0 <= g <= |groups| && |out| == g
      invariant forall h :: 0 <= h < g ==> out[h] == (groups[h].0, CdmVariablesString(vars, groups[h].1, overrides))
    {
      var varStr := GetCdmVariables(vars, groups[g].1, overrides);
      out := out + [(groups[g].0, varStr)];
      g := g + 1;
    }
  }

  // The `cdm_*_variables` tag, cut at its placeholders.
  const CdmHead := "<att name=\"cdm_"
  const CdmMid := "_variables\">"
  const TagTail := "</att>"

  /** `create_cdm_variables_tag`: the group name inside the attribute name and the
      list as its text; one line when both are. */
  function CdmTag(cdmDataType: string, varStr: string): (r: string)
    ensures '\n' !in cdmDataType && '\n' !in varStr ==> '\n' !in r
  {
    CdmHead + cdmDataType + CdmMid + varStr + TagTail
  }

  /** The tag of every group, in group order. */
  function CdmTags(d: seq<(string, string)>): seq<string> {
    seq(|d|, g requires 0 <= g < |d| => CdmTag(d[g].0, d[g].1))
  }

  /** `create_cdm_variables_tags`: collects one tag per group, then joins them by newlines. */
  method CreateCdmVariablesTags(d: seq<(string, string)>) returns (s: string)
    ensures s == Join(CdmTags(d), "\n")
  {
    var out: seq<string> := [];
    var g := 0;
    while g < |d|
      invariant 0 <= g <= |d| && |out| == g
      invariant forall h :: 0 <= h < g ==> out[h] == CdmTag(d[h].0, d[h].1)
    {
      out := out + [CdmTag(d[g].0, d[g].1)];
      g := g + 1;
    }
    assert out == CdmTags(d);
    s := Join(out, "\n");
  }

  /** One line per group: when no group name or list contains a newline, the tags split
      on newlines give back each group's tag, in group order. */
  lemma OneLinePerGroup(d: seq<(string, string)>)
    requires |d| > 0
    requires forall g :: 0 <= g < |d| ==> '\n' !in d[g].0 && '\n' !in d[g].1
    ensures Split(Join(CdmTags(d), "\n"), '\n') == CdmTags(d)
  {
    var tags := CdmTags(d);
    assert forall g :: 0 <= g < |tags| ==> tags[g] == CdmTag(d[g].0, d[g].1);
    SplitJoin(tags, '\n');
  }

  const SubsetHead := "<att name=\"subsetVariables\">"

  /** `create_subset_variables_tag`: `"".join(*values)` unpacks the group lists as the
      arguments of `join`, which takes exactly one; given one string it joins that
      string's characters, which gives the string back. */
  function SubsetVariablesTag(d: seq<(string, string)>): (r: Result<string>)
    ensures r.Ok? <==> |d| == 1
    ensures r.Err? ==> r.error == TypeError
    ensures r.Ok? ==> r.value == SubsetHead + d[0].1 + TagTail
  {
    if |d| != 1 then Err(TypeError)
    else
      JoinChars(d[0].1);
      Ok(SubsetHead + Join(Chars(d[0].1), "") + TagTail)
  }
}
