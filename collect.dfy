/** Rendering a sequence of items one by one and collecting the results: all of
    them in order, or the first error, after which nothing more is rendered. The
    variable dump and the driver's loop over the data files both work this way. */
module Collecting {
  import opened Wrappers

  /** The outcome of rendering each item on its own, in order: the entries of a
      dictionary, or the data files of the driver. */
  function Outcomes<T>(render: T -> Result<string>, items: seq<T>): seq<Result<string>> {
    seq(|items|, k requires 0 <= k < |items| => render(items[k]))
  }

  /** The rendered texts in order, or the first error. */
  function Collect(outs: seq<Result<string>>): Result<seq<string>>
    decreases |outs|
  {
    if |outs| == 0 then Ok([])
    else
      var head :- outs[0];
      var rest :- Collect(outs[1..]);
      Ok([head] + rest)
  }

  /** How many outcomes are computed before collecting stops: all of them, or those
      up to and including the first error. */
  function Reached(outs: seq<Result<string>>): nat
    decreases |outs|
  {
    if |outs| == 0 then 0
    else if outs[0].Err? then 1
    else 1 + Reached(outs[1..])
  }

  /** Collecting succeeds exactly when every outcome is a block, and then gives them all,
      in order; otherwise it gives the first error and stops right after it. */
  lemma {:induction false} CollectMeaning(outs: seq<Result<string>>)
    ensures Collect(outs).Ok? <==> forall k :: 0 <= k < |outs| ==> outs[k].Ok?
    ensures Collect(outs).Ok? ==> |Collect(outs).value| == |outs| && Reached(outs) == |outs|
    ensures Collect(outs).Ok? ==> forall k :: 0 <= k < |outs| ==> Collect(outs).value[k] == outs[k].value
    ensures Collect(outs).Err? ==>
              0 < Reached(outs) <= |outs| && outs[Reached(outs) - 1].Err? &&
              Collect(outs).error == outs[Reached(outs) - 1].error &&
              forall k :: 0 <= k < Reached(outs) - 1 ==> outs[k].Ok?
    decreases |outs|
  {
    if |outs| > 0 {
      CollectMeaning(outs[1..]);
      if outs[0].Ok? {
        forall k | 0 < k < |outs| ensures outs[1..][k - 1] == outs[k] {}
      }
    }
  }

  /** `blocks` followed by the outcome of collecting the remaining items. */
  function Then(blocks: seq<string>, rest: Result<seq<string>>): Result<seq<string>> {
    if rest.Ok? then Ok(blocks + rest.value) else rest
  }

  /** Before a collecting loop: nothing collected yet, every outcome still to come. */
  lemma CollectStart(outs: seq<Result<string>>)
    ensures Collect(outs) == Then([], Collect(outs[0..]))
    ensures Reached(outs) == 0 + Reached(outs[0..])
  {
    assert outs[0..] == outs;
    assert Collect(outs).Ok? ==> [] + Collect(outs).value == Collect(outs).value;
  }

  /** One step of a collecting loop: the outcome at `i` either stops it with its error,
      `i + 1` outcomes having been computed, or appends its block. */
  lemma CollectStep(outs: seq<Result<string>>, i: nat, blocks: seq<string>)
    requires i < |outs|
    requires Collect(outs) == Then(blocks, Collect(outs[i..]))
    requires Reached(outs) == i + Reached(outs[i..])
    ensures outs[i].Err? ==> Collect(outs) == Err(outs[i].error) && Reached(outs) == i + 1
    ensures outs[i].Ok? ==>
              Collect(outs) == Then(blocks + [outs[i].value], Collect(outs[i + 1..])) &&
              Reached(outs) == i + 1 + Reached(outs[i + 1..])
  {
    assert outs[i..][0] == outs[i] && outs[i..][1..] == outs[i + 1..];
    if outs[i].Ok? && Collect(outs[i + 1..]).Ok? {
      var rest := Collect(outs[i + 1..]).value;
      assert blocks + ([outs[i].value] + rest) == blocks + [outs[i].value] + rest;
    }
  }

  /** After a collecting loop: every outcome collected. */
  lemma CollectDone(outs: seq<Result<string>>, blocks: seq<string>)
    requires Collect(outs) == Then(blocks, Collect(outs[|outs|..]))
    requires Reached(outs) == |outs| + Reached(outs[|outs|..])
    ensures Collect(outs) == Ok(blocks) && Reached(outs) == |outs|
  {
    assert outs[|outs|..] == [];
    assert blocks + [] == blocks;
  }
}
