# ndx-nirs docval rewriter

ndx-nirs extends a neurodata file format with tables for NIRS (near-infrared
spectroscopy) sources, detectors and channels. Its table classes build their
constructor's parameter list, the *docval*, from the docval of the host
framework's `DynamicTable.__init__` with a small rewriter, `update_docval`.
A docval is an ordered list of items; each item is a dict with a mandatory
`"name"` field and other fields such as `"type"`, `"doc"` and `"default"`.

This project models that rewriter in both of its versions and proves what it
does:

- `src/pynwb/ndx_nirs/utils.py` (module `Utils`): `update_docval(fn, *, keep,
  remove, updates)` copies the docval, then keeps only or removes the named
  items (rejecting unknown names and the use of both options), then hands the
  copy to `_make_updates`, which merges each update dict into the first item of
  that name in place and raises on a name no item has.
- `src/pynwb/ndx_nirs/__init__.py` (module `NdxNirs`): the older
  `update_docval(overridden_fn, **kwargs)`, which only applies updates.

Module `DocvalItems` holds the data model shared by both, the pure
specification of the updates (`FirstMatch`, the first item with a name;
`Merge`, `dict.update`; `ApplyUpdate`, one pass of the outer loop;
`ApplyUpdates`, all of them in dict order) and `MakeUpdates`, the in-place
nested loop over an `array<Item>` that both files run. Its `for`/`else` is a
`while` with `break` followed by a test of whether the loop ran to the end;
it is proved to leave the array equal to `ApplyUpdates` of its old contents
or to return that function's error. `Utils.UpdateDocval` and
`NdxNirs.LegacyUpdateDocval` copy into a fresh array (the deep copy) the
items to update (for the current version, the items the pure `Select` step
kept, a new list as `list(filter(...))` builds), run `MakeUpdates` on it and
are proved equal to `Utils.UpdateDocvalSpec`. Module `UtilsExamples` states
every unit-test scenario of `update_docval` in
`src/pynwb/tests/unit/test_utils.py` and `src/pynwb/tests/unit/test_ndx_nirs.py`
about the model, one member per test.

Modelling decisions:

- An item is a `map<string, Value>` constrained to contain `"name"` (the host
  framework's docval always names its parameters). `Value` is `Str(text)` or an
  opaque token standing for any other Python object (a type, `None`, ...):
  the rewriter only compares a `"name"` field with strings, and only a string
  can equal a string.
- The function `fn` is replaced by two parameters: its docval (`get_docval(fn)`
  is a call into the host framework) and its `__name__`, which appears in the
  error.
- `keep` and `remove` are `Option<seq<string>>`, `updates` an
  `Option<seq<Update>>` (a dict iterates in insertion order); the keyword
  arguments of the older version are a `seq<Update>`.
- The four `ValueError`s are the constructors of `DocvalItems.Error`; the
  unknown-update error carries the update's name and the function's name that
  the message is built from.
- An update dict may itself contain `"name"` and so rename its item; the
  functions model this. Every lemma about the updates' outcome (which names
  are unknown, which items stay unchanged, what the merged items hold)
  assumes it does not happen (`NoRenames`), and the lemmas about merged
  contents also assume distinct update names, which a dict's keys always
  are. The hypothesis is needed: `UtilsExamples.RenameRedirectsLaterUpdate`
  shows a renaming update sending a later update of the same name to the
  next item with that name, a later duplicate that then changes.
- `src/pynwb/tests/unit/test_utils.py` imports `update_docval` from the
  package, whose `__init__.py` defines the older version. That version takes
  the keywords `keep=`, `remove=` and `updates=` for item names and raises
  the unknown-item `ValueError` on them
  (`UtilsExamples.LegacyTakesKeepForAnItemName`). Against it all four tests
  that expect a `ValueError` would pass (both options, an unknown name in
  'keep', an unknown name in 'remove', an unknown update name), and the other
  four would fail (the original docval left unchanged, keep filtering, remove
  filtering and field updates). The
  examples follow the tests' evident intent and use the `utils.py` version.

## Model

| member | source | states |
|---|---|---|
| DocvalItems.ItemNames | src/pynwb/ndx_nirs/utils.py:36 | the name set contains every item's name and nothing else |
| DocvalItems.NameIs | src/pynwb/ndx_nirs/utils.py:66 | `item["name"] == name` holds exactly when the item's name is the string `name` |
| DocvalItems.Merge | src/pynwb/ndx_nirs/utils.py:67 | `dict.update`: keys are the union, update values win, other fields are kept |
| DocvalItems.FirstMatch | src/pynwb/ndx_nirs/utils.py:65-68 | none exactly when no item has the name; otherwise an index whose item has the name and before which no item has it |
| DocvalItems.KnownIffMatched | src/pynwb/ndx_nirs/utils.py:36 | a name is in the name set exactly when some item matches it |
| DocvalItems.ApplyUpdate | src/pynwb/ndx_nirs/utils.py:65-71 | fails, with the update's name and the function's name, exactly when no item has the name; otherwise the first such item is merged, every other item and the length are unchanged, and without a `"name"` field in the update all names are unchanged |
| DocvalItems.ApplyUpdates | src/pynwb/ndx_nirs/utils.py:64-72 | on success the length is unchanged; every error is an unknown-update error for this function |
| DocvalItems.SameNamesSameMatch | src/pynwb/ndx_nirs/utils.py:66 | lookups by name and the name set depend only on the items' names |
| DocvalItems.UpdatesKeepNames | src/pynwb/ndx_nirs/utils.py:64-68 | updates without a `"name"` field leave every item's name in place |
| DocvalItems.UnknownUpdateFails | src/pynwb/ndx_nirs/utils.py:69-71 | an update naming no item makes the whole call fail, unless an earlier update renamed an item |
| DocvalItems.FirstUnknownIsReported | src/pynwb/ndx_nirs/utils.py:69-71 | without renames before it, the error names the first update whose name is unknown |
| DocvalItems.UpdatesSucceedIffNamesKnown | src/pynwb/ndx_nirs/utils.py:64-71 | without renames, the updates succeed exactly when every update names an existing item |
| DocvalItems.UntouchedItemsUnchanged | src/pynwb/ndx_nirs/utils.py:65-68 | without renames, an item that is not the first match of any update name is returned as it was |
| DocvalItems.UnnamedItemUnchanged | src/pynwb/ndx_nirs/__init__.py:40-44 | without renames, an item whose name no update uses is returned as it was |
| DocvalItems.FirstUpdateMerged | src/pynwb/ndx_nirs/utils.py:64-68 | with distinct update names and no renames, the first update's item ends as that item merged with its fields, untouched by the later updates |
| DocvalItems.UpdatedItemsMerged | src/pynwb/ndx_nirs/utils.py:64-68 | with distinct update names and no renames, the first item with an update's name is that item merged with the update's fields |
| DocvalItems.LaterDuplicateUntouched | src/pynwb/ndx_nirs/__init__.py:41-44 | without renames, of several items sharing a name only the first can change; later ones are returned as they were |
| Utils.Listed | src/pynwb/ndx_nirs/utils.py:44 | `x["name"] in names` holds exactly when some listed string equals the item's name, so a non-string name is never listed |
| Utils.AllKnown | src/pynwb/ndx_nirs/utils.py:40 | the negated `any(name not in item_names ...)` holds exactly when every listed name has a matching item |
| Utils.Filter | src/pynwb/ndx_nirs/utils.py:44 | the result holds exactly the items of the docval whose listed-ness is the one asked for, and is no longer than the docval |
| Utils.FilterConcat | src/pynwb/ndx_nirs/utils.py:50 | filtering distributes over concatenation |
| Utils.FilterAt | src/pynwb/ndx_nirs/utils.py:44 | every selected item sits in the result at its rank among the selected items before it, so order is preserved |
| Utils.FilterOnto | src/pynwb/ndx_nirs/utils.py:44 | every position of the result holds a selected item whose rank is that position, so the result holds nothing else |
| Utils.FilterPositions | src/pynwb/ndx_nirs/utils.py:44 | the result's positions are exactly the ranks of the selected items, in both directions |
| Utils.FilterMembersOnly | src/pynwb/ndx_nirs/utils.py:44 | name lists with the same members filter identically |
| Utils.Select | src/pynwb/ndx_nirs/utils.py:37-50 | the filtering step raises only the keep/remove errors |
| Utils.UpdateDocvalSpec | src/pynwb/ndx_nirs/utils.py:34-54 | the result is never longer than the docval |
| Utils.UpdateDocval | src/pynwb/ndx_nirs/utils.py:6-54 | returns or raises exactly what `UpdateDocvalSpec` gives; the caller's docval is a value and is not changed |
| DocvalItems.MakeUpdates | src/pynwb/ndx_nirs/utils.py:57-72 | the array ends equal to `ApplyUpdates` of its old contents, or the method returns that function's error |
| Utils.KeepAndRemoveRejected | src/pynwb/ndx_nirs/utils.py:37-38 | giving both 'keep' and 'remove' always raises that error |
| Utils.KeepValidated | src/pynwb/ndx_nirs/utils.py:39-43 | 'keep' raises its error exactly when it lists a name no item has |
| Utils.RemoveValidated | src/pynwb/ndx_nirs/utils.py:45-49 | 'remove' raises its error exactly when it lists a name no item has |
| Utils.KeepSelectsListedInOrder | src/pynwb/ndx_nirs/utils.py:44 | a valid 'keep' returns exactly the listed items in original order: each listed item sits at its rank, and every position holds the listed item of that rank |
| Utils.RemoveDropsListedInOrder | src/pynwb/ndx_nirs/utils.py:50 | a valid 'remove' returns exactly the unlisted items in original order: each unlisted item sits at its rank, and every position holds the unlisted item of that rank |
| Utils.KeepOrderIrrelevant | src/pynwb/ndx_nirs/utils.py:40-44 | the order and repetitions of 'keep' do not change the outcome |
| Utils.NoOptionsIsCopy | src/pynwb/ndx_nirs/utils.py:34-35 | without options the result is the docval itself |
| Utils.UpdateOfUnkeptItemFails | src/pynwb/ndx_nirs/utils.py:52-53 | updates run after filtering: without renames before it, updating an item 'keep' left out raises |
| Utils.UpdateOfRemovedItemFails | src/pynwb/ndx_nirs/utils.py:52-53 | updates run after filtering: without renames before it, updating an item 'remove' took out raises |
| NdxNirs.LegacyUpdateDocval | src/pynwb/ndx_nirs/__init__.py:36-50 | for every call Python accepts (no keyword named `overridden_fn`), returns or raises exactly `ApplyUpdates` of the docval, which is the current version with only updates; the length is unchanged |
| UtilsExamples.FakeDocval | src/pynwb/tests/unit/test_utils.py:8-12 | the test docval has three items, the first named foo without a default |
| UtilsExamples.BothOptionsExample | src/pynwb/tests/unit/test_utils.py:25-32 | keeping baz and removing foo at once raises that error |
| UtilsExamples.KeepFiltersExample | src/pynwb/tests/unit/test_utils.py:35-40 | keeping foo and baz yields those two items in that order |
| UtilsExamples.UnknownKeepExample | src/pynwb/tests/unit/test_utils.py:43-51 | keeping an unknown name raises |
| UtilsExamples.RemoveFiltersExample | src/pynwb/tests/unit/test_utils.py:54-58 | removing foo and baz yields bar alone |
| UtilsExamples.UnknownRemoveExample | src/pynwb/tests/unit/test_utils.py:61-69 | removing an unknown name raises |
| UtilsExamples.UpdatesExample | src/pynwb/tests/unit/test_utils.py:72-83 | the updated fields of foo and bar hold the new values |
| UtilsExamples.UnknownUpdateExample | src/pynwb/tests/unit/test_utils.py:86-92 | an update of an unknown parameter raises with its name |
| UtilsExamples.CopyIsIndependent | src/pynwb/tests/unit/test_utils.py:18-22 | after an update the caller's docval still has no default while the result has it |
| UtilsExamples.LegacyCopyIsIndependent | src/pynwb/tests/unit/test_ndx_nirs.py:16-20 | after an update by the older rewriter the caller's docval still has no default while the result has it |
| UtilsExamples.LegacyUpdatesExample | src/pynwb/tests/unit/test_ndx_nirs.py:23-32 | the older rewriter gives name the new default and miscfield and description required False |
| UtilsExamples.LegacyUnknownExample | src/pynwb/tests/unit/test_ndx_nirs.py:35-42 | the older rewriter raises on the unknown keyword foo |
| UtilsExamples.LegacyTakesKeepForAnItemName | src/pynwb/ndx_nirs/__init__.py:40-49 | the older rewriter raises the unknown-item error for a keyword named keep |
| UtilsExamples.RenameRedirectsLaterUpdate | src/pynwb/ndx_nirs/utils.py:64-68 | after an update renames the first of two same-named items, a later update of that name changes the second |

## Left out

- `get_docval`, `deepcopy` and the host framework's `docval`, `call_docval_func`, `popargs` and `getargs`: calls into other libraries. The docval is a parameter and copying is value semantics plus a fresh array.
- The table classes `NIRSSourcesTable`, `NIRSDetectorsTable` and `NIRSChannelsTable` and their calls to `update_docval`: column declarations on the host framework's tables, with no logic of their own.
- `NIRSDevice` and `NIRSSeries` (`get_class`) and the namespace path lookup and `load_namespaces`: generated by the framework or file-system I/O.
- `src/spec/create_extension_spec.py`, `setup.py` and the integration test: schema export, packaging and HDF5 round trips.
- The order of keys inside an item dict: items are maps, so dict key order is not modelled.
- Python values other than strings are opaque tokens; a KeyError for an item without `"name"` cannot arise, since every item has one.
- DocvalItems.MakeUpdates: on error the partially updated array is not described, because both callers discard the copy when the error is raised.
- DocvalItems.UpdatesSucceedIffNamesKnown: assumes no update contains a `"name"` field, since such an update renames its item and changes which later updates find a match.
- DocvalItems.UpdatedItemsMerged: assumes distinct update names and no renames; a dict's keys are distinct, and renames are covered by the functions but not by this lemma.
- DocvalItems.UntouchedItemsUnchanged: assumes no update contains a `"name"` field; a renaming update can redirect a later update to another item (`UtilsExamples.RenameRedirectsLaterUpdate`).
- DocvalItems.LaterDuplicateUntouched: assumes no renames, for the same reason.
- DocvalItems.UnnamedItemUnchanged: assumes no renames, for the same reason.
- DocvalItems.FirstUnknownIsReported: assumes no update before the unknown one contains a `"name"` field, since such an update can rename an item to the unknown name.
- DocvalItems.FirstUpdateMerged: assumes distinct update names and no renames; a later update could otherwise rename the merged item or be redirected to it.
- Utils.UpdateOfUnkeptItemFails: assumes no earlier update renames an item; with keep `["a"]` and updates `a={"name": "b"}, b={}` the first update renames the kept item to `b` and the call succeeds.
- Utils.UpdateOfRemovedItemFails: assumes no earlier update renames an item, for the same reason.
- Names are assumed hashable: `{item["name"] for item in new_docval}` raises `TypeError` for a list or dict name, which the model, treating every non-string name as an opaque token, does not; the host framework's parameter names are strings.
