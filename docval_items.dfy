/** Docval items and the field updates applied to them.

    A docval is the list of parameter descriptions that the host framework's
    validation decorator attaches to a function. Each description is a dict with
    a mandatory "name" field and any number of other fields ("type", "doc",
    "default", "required", ...). This module defines that data model and, as
    pure functions, what it means to merge an update dict into the first item
    with a given name: the behaviour shared by `_make_updates` in
    src/pynwb/ndx_nirs/utils.py and the older `update_docval` in
    src/pynwb/ndx_nirs/__init__.py. */
module DocvalItems {
  import opened Wrappers

  /** A field value. The rewriter only ever compares the "name" field with a
      string, so strings are modelled as such and every other Python object
      (a type, None, a boolean, ...) is an opaque token. */
  datatype Value = Str(text: string) | Opaque(id: int)

  /** A docval item: a dict of fields that always holds a "name" field. */
  type Item = fields: map<string, Value> | "name" in fields witness map["name" := Str("")]

  /** One entry of an updates dict: the name of the item to update and the
      fields to merge into it. Python dicts iterate in insertion order, so a
      dict of updates is a sequence of entries. */
  type Update = (string, map<string, Value>)

  /** The ValueErrors raised by the rewriter. */
  datatype Error =
    | KeepAndRemove                                // both 'keep' and 'remove' given
    | UnknownKeep                                  // 'keep' names an item that does not exist
    | UnknownRemove                                // 'remove' names an item that does not exist
    | UnknownUpdate(name: string, fnName: string)  // an update names no item of the function

  /** `item["name"] == name`: only a string name can equal a string. */
  function NameIs(item: Item, name: string): (b: bool)
    ensures b <==> item["name"].Str? && item["name"].text == name
  {
    item["name"] == Str(name)
  }

  /** The set of item names, `{item["name"] for item in docval}`. */
  function ItemNames(d: seq<Item>): (names: set<Value>)
    ensures forall i :: 0 <= i < |d| ==> d[i]["name"] in names
    ensures forall v :: v in names ==> exists i :: 0 <= i < |d| && d[i]["name"] == v
  {
    set i | 0 <= i < |d| :: d[i]["name"]
  }

  /** `item.update(vals)`: fields of `vals` win, the other fields of `item`
      are kept, and keys new to `item` are added. */
  function Merge(item: Item, vals: map<string, Value>): (r: Item)
    ensures r.Keys == item.Keys + vals.Keys
    ensures forall k :: k in vals ==> r[k] == vals[k]
    ensures forall k :: k in item && k !in vals ==> r[k] == item[k]
  {
    item + vals
  }

  /** The index of the first item called `name`, if there is one. */
  function FirstMatch(d: seq<Item>, name: string): (r: Option<nat>)
    ensures r.None? <==> forall i :: 0 <= i < |d| ==> !NameIs(d[i], name)
    ensures r.Some? ==> r.value < |d| && NameIs(d[r.value], name)
    ensures r.Some? ==> forall j :: 0 <= j < r.value ==> !NameIs(d[j], name)
  {
    if d == [] then None
    else if NameIs(d[0], name) then Some(0)
    else match FirstMatch(d[1..], name)
      case None => None
      case Some(i) => Some(i + 1)
  }

  /** A name matches some item exactly when it is among the item names. */
  lemma KnownIffMatched(d: seq<Item>, name: string)
    ensures Str(name) in ItemNames(d) <==> FirstMatch(d, name).Some?
  {
  }

  /** One pass of the outer update loop: merge `u.1` into the first item called
      `u.0`, or raise when there is none. */
  function ApplyUpdate(d: seq<Item>, u: Update, fnName: string): (r: Result<seq<Item>, Error>)
    ensures r.Failure? <==> FirstMatch(d, u.0).None?
    ensures r.Failure? ==> r.error == UnknownUpdate(u.0, fnName)
    ensures r.Success? ==> |r.value| == |d|
    ensures r.Success? ==> var i := FirstMatch(d, u.0).value;
      r.value[i] == Merge(d[i], u.1) && forall j :: 0 <= j < |d| && j != i ==> r.value[j] == d[j]
    ensures r.Success? && "name" !in u.1 ==> forall j :: 0 <= j < |d| ==> r.value[j]["name"] == d[j]["name"]
  {
    match FirstMatch(d, u.0)
    case None => Failure(UnknownUpdate(u.0, fnName))
    case Some(i) => Success(d[i := Merge(d[i], u.1)])
  }

  /** All updates, in order, each one seeing the items as earlier updates left
      them; the first update that names no item raises. */
  function ApplyUpdates(d: seq<Item>, ups: seq<Update>, fnName: string): (r: Result<seq<Item>, Error>)
    ensures r.Success? ==> |r.value| == |d|
    ensures r.Failure? ==> r.error.UnknownUpdate? && r.error.fnName == fnName
    decreases |ups|
  {
    if ups == [] then Success(d)
    else
      var d' :- ApplyUpdate(d, ups[0], fnName);
      ApplyUpdates(d', ups[1..], fnName)
  }

  /** No update dict renames its item (none of them has a "name" field). */
  predicate NoRenames(ups: seq<Update>) {
    forall k :: 0 <= k < |ups| ==> "name" !in ups[k].1
  }

  /** The names of the updates are pairwise distinct, as the keys of a dict are. */
  predicate DistinctNames(ups: seq<Update>) {
    forall k, l :: 0 <= k < l < |ups| ==> ups[k].0 != ups[l].0
  }

  /** Two docvals whose items carry the same names, position by position. */
  predicate SameNames(d: seq<Item>, e: seq<Item>) {
    |d| == |e| && forall i :: 0 <= i < |d| ==> d[i]["name"] == e[i]["name"]
  }

  /** Dropping the first update keeps a rename-free prefix rename-free. */
  lemma NoRenamesPrefixTail(ups: seq<Update>, k: nat)
    requires 0 < k <= |ups| && NoRenames(ups[..k])
    ensures "name" !in ups[0].1 && NoRenames(ups[1..][..k - 1])
  {
  }

  /** Lookups by name only see the names. */
  lemma SameNamesSameMatch(d: seq<Item>, e: seq<Item>, name: string)
    requires SameNames(d, e)
    ensures FirstMatch(d, name) == FirstMatch(e, name)
    ensures ItemNames(d) == ItemNames(e)
  {
  }

  /** Updates that rename nothing leave every name where it was. */
  lemma {:induction false} UpdatesKeepNames(d: seq<Item>, ups: seq<Update>, fnName: string)
    requires NoRenames(ups)
    requires ApplyUpdates(d, ups, fnName).Success?
    ensures SameNames(d, ApplyUpdates(d, ups, fnName).value)
    decreases |ups|
  {
    if ups != [] {
      var d' := ApplyUpdate(d, ups[0], fnName).value;
      assert NoRenames(ups[1..]) by {
        forall k | 0 <= k < |ups| - 1 ensures "name" !in ups[1..][k].1 {
          assert ups[1..][k] == ups[k + 1];
        }
      }
      UpdatesKeepNames(d', ups[1..], fnName);
    }
  }

  /** An update naming no item raises, provided no earlier update renamed an
      item to that name. */
  lemma {:induction false} UnknownUpdateFails(d: seq<Item>, ups: seq<Update>, fnName: string, k: nat)
    requires k < |ups|
    requires Str(ups[k].0) !in ItemNames(d)
    requires NoRenames(ups[..k])
    ensures ApplyUpdates(d, ups, fnName).Failure?
    decreases |ups|
  {
    KnownIffMatched(d, ups[k].0);
    if k > 0 && ApplyUpdate(d, ups[0], fnName).Success? {
      var d' := ApplyUpdate(d, ups[0], fnName).value;
      assert "name" !in ups[..k][0].1;
      assert SameNames(d, d');
      SameNamesSameMatch(d, d', ups[k].0);
      assert ups[1..][k - 1] == ups[k];
      NoRenamesPrefixTail(ups, k);
      UnknownUpdateFails(d', ups[1..], fnName, k - 1);
    }
  }

  /** The error reports the first update whose name is unknown. */
  lemma {:induction false} FirstUnknownIsReported(d: seq<Item>, ups: seq<Update>, fnName: string, k: nat)
    requires k < |ups|
    requires forall j :: 0 <= j < k ==> Str(ups[j].0) in ItemNames(d)
    requires Str(ups[k].0) !in ItemNames(d)
    requires NoRenames(ups[..k])
    ensures ApplyUpdates(d, ups, fnName) == Failure(UnknownUpdate(ups[k].0, fnName))
    decreases |ups|
  {
    KnownIffMatched(d, ups[0].0);
    if k > 0 {
      var d' := ApplyUpdate(d, ups[0], fnName).value;
      assert "name" !in ups[..k][0].1;
      assert SameNames(d, d');
      SameNamesSameMatch(d, d', ups[k].0);
      assert ups[1..][k - 1] == ups[k];
      forall j | 0 <= j < k - 1 ensures Str(ups[1..][j].0) in ItemNames(d') {
        assert ups[1..][j] == ups[j + 1];
      }
      NoRenamesPrefixTail(ups, k);
      FirstUnknownIsReported(d', ups[1..], fnName, k - 1);
    }
  }

  /** Without renames, the updates succeed exactly when every update names an
      existing item. */
  lemma {:induction false} UpdatesSucceedIffNamesKnown(d: seq<Item>, ups: seq<Update>, fnName: string)
    requires NoRenames(ups)
    ensures ApplyUpdates(d, ups, fnName).Success? <==>
      forall k :: 0 <= k < |ups| ==> Str(ups[k].0) in ItemNames(d)
    decreases |ups|
  {
    if exists k :: 0 <= k < |ups| && Str(ups[k].0) !in ItemNames(d) {
      var k :| 0 <= k < |ups| && Str(ups[k].0) !in ItemNames(d);
      assert NoRenames(ups[..k]) by {
        forall j | 0 <= j < k ensures "name" !in ups[..k][j].1 {
          assert ups[..k][j] == ups[j];
        }
      }
      UnknownUpdateFails(d, ups, fnName, k);
    } else if ups != [] {
      KnownIffMatched(d, ups[0].0);
      var d' := ApplyUpdate(d, ups[0], fnName).value;
      assert SameNames(d, d');
      SameNamesSameMatch(d, d', ups[0].0);
      forall j | 0 <= j < |ups| - 1 ensures Str(ups[1..][j].0) in ItemNames(d') && "name" !in ups[1..][j].1 {
        assert ups[1..][j] == ups[j + 1];
      }
      UpdatesSucceedIffNamesKnown(d', ups[1..], fnName);
    }
  }

  /** An item that is not the first match of any update name is left as it was.
      This covers items no update names and later items sharing a name with an
      earlier one. */
  lemma {:induction false} UntouchedItemsUnchanged(d: seq<Item>, ups: seq<Update>, fnName: string, i: nat)
    requires NoRenames(ups)
    requires ApplyUpdates(d, ups, fnName).Success?
    requires i < |d|
    requires forall k :: 0 <= k < |ups| ==> FirstMatch(d, ups[k].0) != Some(i)
    ensures ApplyUpdates(d, ups, fnName).value[i] == d[i]
    decreases |ups|
  {
    if ups != [] {
      var d' := ApplyUpdate(d, ups[0], fnName).value;
      assert SameNames(d, d');
      forall k | 0 <= k < |ups| - 1
        ensures FirstMatch(d', ups[1..][k].0) != Some(i) && "name" !in ups[1..][k].1
      {
        assert ups[1..][k] == ups[k + 1];
        SameNamesSameMatch(d, d', ups[k + 1].0);
      }
      UntouchedItemsUnchanged(d', ups[1..], fnName, i);
    }
  }

  /** The updates after the first of a dict-like sequence are dict-like and
      all differ in name from the first. */
  lemma TailOfDictLike(ups: seq<Update>)
    requires |ups| > 0 && NoRenames(ups) && DistinctNames(ups)
    ensures NoRenames(ups[1..]) && DistinctNames(ups[1..])
    ensures forall j :: 0 <= j < |ups| - 1 ==> ups[1..][j].0 != ups[0].0
  {
  }

  /** An item carrying a name that no update uses is left as it was. */
  lemma UnnamedItemUnchanged(d: seq<Item>, ups: seq<Update>, fnName: string, i: nat, name: string)
    requires NoRenames(ups)
    requires ApplyUpdates(d, ups, fnName).Success?
    requires i < |d| && NameIs(d[i], name)
    requires forall j :: 0 <= j < |ups| ==> ups[j].0 != name
    ensures ApplyUpdates(d, ups, fnName).value[i] == d[i]
  {
    forall j | 0 <= j < |ups| ensures FirstMatch(d, ups[j].0) != Some(i) { }
    UntouchedItemsUnchanged(d, ups, fnName, i);
  }

  /** The first of dict-like updates is merged into its item, and later
      updates leave that item alone. */
  lemma FirstUpdateMerged(d: seq<Item>, ups: seq<Update>, fnName: string)
    requires |ups| > 0 && NoRenames(ups) && DistinctNames(ups)
    requires ApplyUpdates(d, ups, fnName).Success?
    ensures FirstMatch(d, ups[0].0).Some?
    ensures var i := FirstMatch(d, ups[0].0).value;
      ApplyUpdates(d, ups, fnName).value[i] == Merge(d[i], ups[0].1)
  {
    var d' := ApplyUpdate(d, ups[0], fnName).value;
    assert ApplyUpdates(d, ups, fnName) == ApplyUpdates(d', ups[1..], fnName);
    var i0 := FirstMatch(d, ups[0].0).value;
    assert d'[i0] == Merge(d[i0], ups[0].1);
    assert NameIs(d'[i0], ups[0].0);
    TailOfDictLike(ups);
    UnnamedItemUnchanged(d', ups[1..], fnName, i0, ups[0].0);
  }

  /** With dict-like updates (distinct names, no renames), the first item called
      by an update's name ends up as that item merged with the update's fields. */
  lemma {:induction false} UpdatedItemsMerged(d: seq<Item>, ups: seq<Update>, fnName: string, k: nat)
    requires NoRenames(ups) && DistinctNames(ups)
    requires ApplyUpdates(d, ups, fnName).Success?
    requires k < |ups|
    ensures FirstMatch(d, ups[k].0).Some?
    ensures var i := FirstMatch(d, ups[k].0).value;
      ApplyUpdates(d, ups, fnName).value[i] == Merge(d[i], ups[k].1)
    decreases |ups|
  {
    if k == 0 {
      FirstUpdateMerged(d, ups, fnName);
    } else {
      var d' := ApplyUpdate(d, ups[0], fnName).value;
      assert ApplyUpdates(d, ups, fnName) == ApplyUpdates(d', ups[1..], fnName);
      assert "name" !in ups[0].1;
      assert SameNames(d, d');
      TailOfDictLike(ups);
      assert ups[1..][k - 1] == ups[k];
      SameNamesSameMatch(d, d', ups[k].0);
      UpdatedItemsMerged(d', ups[1..], fnName, k - 1);
      var i := FirstMatch(d, ups[k].0).value;
      assert i != FirstMatch(d, ups[0].0).value;
      assert d'[i] == d[i];
    }
  }

  /** Only the first of several items sharing a name is ever updated. */
  lemma LaterDuplicateUntouched(d: seq<Item>, ups: seq<Update>, fnName: string, i: nat, j: nat)
    requires NoRenames(ups)
    requires ApplyUpdates(d, ups, fnName).Success?
    requires i < j < |d| && d[i]["name"] == d[j]["name"]
    ensures ApplyUpdates(d, ups, fnName).value[j] == d[j]
  {
    forall k | 0 <= k < |ups| ensures FirstMatch(d, ups[k].0) != Some(j) {
      if NameIs(d[j], ups[k].0) {
        assert NameIs(d[i], ups[k].0);
      }
    }
    UntouchedItemsUnchanged(d, ups, fnName, j);
  }

  /** The nested `for`/`else` loop of `_make_updates` in utils.py and of the
      older `update_docval` in __init__.py: for each update in order, merge its
      fields in place into the first item of `a` with its name; stop with the
      error when no item has the name. */
  method MakeUpdates(a: array<Item>, updates: seq<Update>, fnName: string) returns (err: Option<Error>)
    modifies a
    ensures match ApplyUpdates(old(a[..]), updates, fnName)
      case Success(s) => err.None? && a[..] == s
      case Failure(e) => err == Some(e)
  {
    for i := 0 to |updates|
      invariant ApplyUpdates(a[..], updates[i..], fnName) == ApplyUpdates(old(a[..]), updates, fnName)
    {
      var (name, vals) := updates[i];
      ghost var before := a[..];
      assert updates[i..][0] == updates[i] && updates[i..][1..] == updates[i + 1..];
      var j := 0;
      while j < a.Length
        invariant 0 <= j <= a.Length
        invariant a[..] == before
        invariant forall k :: 0 <= k < j ==> !NameIs(before[k], name)
      {
        if NameIs(a[j], name) {
          a[j] := Merge(a[j], vals);
          break;
        }
        j := j + 1;
      }
      if j == a.Length {
        // the `else` of the inner `for`: no item has the name
        err := Some(UnknownUpdate(name, fnName));
        return;
      }
      assert FirstMatch(before, name) == Some(j);
      assert a[..] == before[j := Merge(before[j], vals)];
    }
    err := None;
  }
}
