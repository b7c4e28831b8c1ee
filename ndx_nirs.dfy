/** The older docval rewriter of src/pynwb/ndx_nirs/__init__.py,
    `update_docval(overridden_fn, **kwargs)`: every keyword argument is an
    update for the docval item of that name; there is no filtering. */
module NdxNirs {
  import opened Wrappers
  import opened DocvalItems
  import Utils  // only to state, in the contract, that the two versions agree

  /** Copy the docval (the deep copy) and merge each keyword's fields into the
      first item of that name, raising when there is none. Its nested
      `for`/`else` loop is the one `_make_updates` runs, so the copy is handed
      to the shared `MakeUpdates`. A keyword cannot be called `overridden_fn`:
      Python rejects such a call with a TypeError before the body runs. */
  method LegacyUpdateDocval(original: seq<Item>, kwargs: seq<Update>, fnName: string)
    returns (r: Result<seq<Item>, Error>)
    requires forall k :: 0 <= k < |kwargs| ==> kwargs[k].0 != "overridden_fn"
    ensures r == ApplyUpdates(original, kwargs, fnName)
    ensures r == Utils.UpdateDocvalSpec(original, None, None, Some(kwargs), fnName)
    ensures r.Success? ==> |r.value| == |original|
  {
    var a := new Item[|original|](i requires 0 <= i < |original| => original[i]);
    assert a[..] == original;
    var err := MakeUpdates(a, kwargs, fnName);
    if err.Some? {
      return Failure(err.value);
    }
    r := Success(a[..]);
  }
}
