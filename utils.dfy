/** The current docval rewriter of src/pynwb/ndx_nirs/utils.py: copy the
    docval of a function, optionally keep only or remove the named items, then
    merge field updates into the items by name. */
module Utils {
  import opened Wrappers
  import opened DocvalItems

  /** `x["name"] in names`: some listed string equals the item's name, so a
      name that is not a string is never listed. */
  function Listed(item: Item, names: seq<string>): (b: bool)
    ensures b <==> exists k :: 0 <= k < |names| && item["name"] == Str(names[k])
  {
    item["name"].Str? && item["name"].text in names
  }

  /** Every name in `names` is the name of some item
      (the negation of `any(name not in item_names for name in names)`). */
  function AllKnown(d: seq<Item>, names: seq<string>): (b: bool)
    ensures b <==> forall k :: 0 <= k < |names| ==> FirstMatch(d, names[k]).Some?
  {
    forall k :: 0 <= k < |names| ==> Str(names[k]) in ItemNames(d)
  }

  /** `list(filter(...))` on names: with `keepListed` the items listed in
      `names` (the 'keep' filter), otherwise the items not listed (the
      'remove' filter), in their original order. */
  function Filter(d: seq<Item>, names: seq<string>, keepListed: bool): (r: seq<Item>)
    ensures |r| <= |d|
    ensures forall x :: x in r <==> x in d && Listed(x, names) == keepListed
  {
    if d == [] then []
    else if Listed(d[0], names) == keepListed then [d[0]] + Filter(d[1..], names, keepListed)
    else Filter(d[1..], names, keepListed)
  }

  /** Filtering a concatenation filters each part. */
  lemma {:induction false} FilterConcat(a: seq<Item>, b: seq<Item>, names: seq<string>, keepListed: bool)
    ensures Filter(a + b, names, keepListed) == Filter(a, names, keepListed) + Filter(b, names, keepListed)
  {
    if a != [] {
      assert (a + b)[0] == a[0];
      assert (a + b)[1..] == a[1..] + b;
      FilterConcat(a[1..], b, names, keepListed);
    } else {
      assert a + b == b;
    }
  }

  /** Order is preserved: a selected item lands right after the selected items
      that precede it. Together with the membership property of `Filter` this
      makes the result exactly the order-preserving subsequence of the
      selected items. */
  lemma FilterAt(d: seq<Item>, names: seq<string>, keepListed: bool, i: nat)
    requires i < |d| && Listed(d[i], names) == keepListed
    ensures var rank := |Filter(d[..i], names, keepListed)|;
      rank < |Filter(d, names, keepListed)| && Filter(d, names, keepListed)[rank] == d[i]
  {
    assert d == d[..i] + [d[i]] + d[i + 1..];
    FilterConcat(d[..i] + [d[i]], d[i + 1..], names, keepListed);
    FilterConcat(d[..i], [d[i]], names, keepListed);
    assert Filter([d[i]], names, keepListed) == [d[i]];
  }

  /** Nothing else is in the result: every position of the result holds a
      selected item that sits there by its rank. With `FilterAt` this makes
      the result exactly the order-preserving subsequence of the selected
      items. */
  lemma {:induction false} FilterOnto(d: seq<Item>, names: seq<string>, keepListed: bool, p: nat)
    requires p < |Filter(d, names, keepListed)|
    ensures exists i :: (0 <= i < |d| && Listed(d[i], names) == keepListed
                         && |Filter(d[..i], names, keepListed)| == p && Filter(d, names, keepListed)[p] == d[i])
    decreases |d|
  {
    var sel := Listed(d[0], names) == keepListed;
    if sel && p == 0 {
      assert Filter(d[..0], names, keepListed) == [];
    } else {
      var q := if sel then p - 1 else p;
      FilterOnto(d[1..], names, keepListed, q);
      var j :| 0 <= j < |d| - 1 && Listed(d[1..][j], names) == keepListed
        && |Filter(d[1..][..j], names, keepListed)| == q && Filter(d[1..], names, keepListed)[q] == d[1..][j];
      FilterPrefixCons(d, names, keepListed, j);
      assert d[1..][j] == d[j + 1];
    }
  }

  /** Filtering a prefix of `d` longer than one item: `d[0]`, if selected,
      then the filtered prefix of the rest. */
  lemma FilterPrefixCons(d: seq<Item>, names: seq<string>, keepListed: bool, j: nat)
    requires j < |d|
    ensures var head := if Listed(d[0], names) == keepListed then [d[0]] else [];
      && Filter(d[..j + 1], names, keepListed) == head + Filter(d[1..][..j], names, keepListed)
      && Filter(d, names, keepListed) == head + Filter(d[1..], names, keepListed)
  {
    var pre := d[..j + 1];
    assert pre[0] == d[0];
    assert pre[1..] == d[1..j + 1];
    assert d[1..][..j] == d[1..j + 1];
  }

  /** The positions of the result are exactly the ranks of the selected items. */
  lemma {:induction false} FilterPositions(d: seq<Item>, names: seq<string>, keepListed: bool)
    ensures forall i :: 0 <= i < |d| && Listed(d[i], names) == keepListed ==>
      var rank := |Filter(d[..i], names, keepListed)|;
      rank < |Filter(d, names, keepListed)| && Filter(d, names, keepListed)[rank] == d[i]
    ensures forall p :: 0 <= p < |Filter(d, names, keepListed)| ==>
      && Listed(Filter(d, names, keepListed)[p], names) == keepListed
      && exists i :: (0 <= i < |d| && Listed(d[i], names) == keepListed
                      && |Filter(d[..i], names, keepListed)| == p && Filter(d, names, keepListed)[p] == d[i])
  {
    var r := Filter(d, names, keepListed);
    forall i | 0 <= i < |d| && Listed(d[i], names) == keepListed
      ensures var rank := |Filter(d[..i], names, keepListed)|;
        rank < |r| && r[rank] == d[i]
    {
      FilterAt(d, names, keepListed, i);
    }
    forall p | 0 <= p < |r|
      ensures && Listed(r[p], names) == keepListed
              && exists i :: (0 <= i < |d| && Listed(d[i], names) == keepListed
                              && |Filter(d[..i], names, keepListed)| == p && r[p] == d[i])
    {
      FilterOnto(d, names, keepListed, p);
    }
  }

  /** The filters only test membership: two name lists with the same members
      select the same items, whatever their order or repetitions. */
  lemma {:induction false} FilterMembersOnly(d: seq<Item>, n1: seq<string>, n2: seq<string>, keepListed: bool)
    requires forall n :: n in n1 <==> n in n2
    ensures Filter(d, n1, keepListed) == Filter(d, n2, keepListed)
  {
    if d != [] {
      assert Listed(d[0], n1) == Listed(d[0], n2);
      FilterMembersOnly(d[1..], n1, n2, keepListed);
    }
  }

  /** The filtering step of `update_docval`, with its validation. */
  function Select(d: seq<Item>, keep: Option<seq<string>>, remove: Option<seq<string>>): (r: Result<seq<Item>, Error>)
    ensures r.Failure? ==> r.error in {KeepAndRemove, UnknownKeep, UnknownRemove}
  {
    if keep.Some? && remove.Some? then Failure(KeepAndRemove)
    else if keep.Some? then
      if !AllKnown(d, keep.value) then Failure(UnknownKeep)
      else Success(Filter(d, keep.value, true))
    else if remove.Some? then
      if !AllKnown(d, remove.value) then Failure(UnknownRemove)
      else Success(Filter(d, remove.value, false))
    else Success(d)
  }

  /** What `update_docval(fn, keep=..., remove=..., updates=...)` returns or
      raises, given `d`, the docval of `fn`, and `fnName`, its `__name__`. */
  function UpdateDocvalSpec(d: seq<Item>, keep: Option<seq<string>>, remove: Option<seq<string>>,
                            updates: Option<seq<Update>>, fnName: string): (r: Result<seq<Item>, Error>)
    ensures r.Success? ==> |r.value| <= |d|
  {
    var selected :- Select(d, keep, remove);
    if updates.Some? then ApplyUpdates(selected, updates.value, fnName) else Success(selected)
  }

  /** `update_docval` itself. The items are filtered into a new list, which is
      copied into a fresh array (the deep copy) and updated there in place, so
      the caller's docval is never changed. */
  method UpdateDocval(original: seq<Item>, keep: Option<seq<string>>, remove: Option<seq<string>>,
                      updates: Option<seq<Update>>, fnName: string) returns (r: Result<seq<Item>, Error>)
    ensures r == UpdateDocvalSpec(original, keep, remove, updates, fnName)
  {
    var selected := Select(original, keep, remove);
    if selected.Failure? {
      return Failure(selected.error);
    }
    var s := selected.value;
    var a := new Item[|s|](i requires 0 <= i < |s| => s[i]);
    assert a[..] == s;
    if updates.Some? {
      var err := DocvalItems.MakeUpdates(a, updates.value, fnName);
      if err.Some? {
        return Failure(err.value);
      }
    }
    r := Success(a[..]);
  }

  /** Supplying both 'keep' and 'remove' always raises. */
  lemma KeepAndRemoveRejected(d: seq<Item>, keep: seq<string>, remove: seq<string>,
                              updates: Option<seq<Update>>, fnName: string)
    ensures UpdateDocvalSpec(d, Some(keep), Some(remove), updates, fnName) == Failure(KeepAndRemove)
  {
  }

  /** 'keep' raises exactly when it lists a name that is not an item's. */
  lemma KeepValidated(d: seq<Item>, keep: seq<string>, updates: Option<seq<Update>>, fnName: string)
    ensures UpdateDocvalSpec(d, Some(keep), None, updates, fnName) == Failure(UnknownKeep) <==>
      exists k :: 0 <= k < |keep| && Str(keep[k]) !in ItemNames(d)
  {
  }

  /** 'remove' raises exactly when it lists a name that is not an item's. */
  lemma RemoveValidated(d: seq<Item>, remove: seq<string>, updates: Option<seq<Update>>, fnName: string)
    ensures UpdateDocvalSpec(d, None, Some(remove), updates, fnName) == Failure(UnknownRemove) <==>
      exists k :: 0 <= k < |remove| && Str(remove[k]) !in ItemNames(d)
  {
  }

  /** A valid 'keep' yields exactly the listed items, in their original order:
      every result item is a listed item of the docval and every listed item
      appears at its rank among the listed items before it, and every position
      of the result is such a rank, so nothing else is there. */
  lemma KeepSelectsListedInOrder(d: seq<Item>, keep: seq<string>, fnName: string)
    requires AllKnown(d, keep)
    ensures var r := UpdateDocvalSpec(d, Some(keep), None, None, fnName);
      && r.Success?
      && (forall x :: x in r.value <==> x in d && Listed(x, keep))
      && (forall i :: 0 <= i < |d| && Listed(d[i], keep) ==>
            var rank := |Filter(d[..i], keep, true)|;
            rank < |r.value| && r.value[rank] == d[i])
      && (forall p :: 0 <= p < |r.value| ==>
            && Listed(r.value[p], keep)
            && exists i :: (0 <= i < |d| && Listed(d[i], keep)
                            && |Filter(d[..i], keep, true)| == p && r.value[p] == d[i]))
  {
    assert UpdateDocvalSpec(d, Some(keep), None, None, fnName) == Success(Filter(d, keep, true));
    FilterPositions(d, keep, true);
  }

  /** A valid 'remove' yields exactly the unlisted items, in their original
      order, and nothing else. */
  lemma RemoveDropsListedInOrder(d: seq<Item>, remove: seq<string>, fnName: string)
    requires AllKnown(d, remove)
    ensures var r := UpdateDocvalSpec(d, None, Some(remove), None, fnName);
      && r.Success?
      && (forall x :: x in r.value <==> x in d && !Listed(x, remove))
      && (forall i :: 0 <= i < |d| && !Listed(d[i], remove) ==>
            var rank := |Filter(d[..i], remove, false)|;
            rank < |r.value| && r.value[rank] == d[i])
      && (forall p :: 0 <= p < |r.value| ==>
            && !Listed(r.value[p], remove)
            && exists i :: (0 <= i < |d| && !Listed(d[i], remove)
                            && |Filter(d[..i], remove, false)| == p && r.value[p] == d[i]))
  {
    assert UpdateDocvalSpec(d, None, Some(remove), None, fnName) == Success(Filter(d, remove, false));
    FilterPositions(d, remove, false);
  }

  /** The order of the 'keep' list does not matter, only its members. */
  lemma KeepOrderIrrelevant(d: seq<Item>, k1: seq<string>, k2: seq<string>,
                            updates: Option<seq<Update>>, fnName: string)
    requires forall n :: n in k1 <==> n in k2
    ensures UpdateDocvalSpec(d, Some(k1), None, updates, fnName) == UpdateDocvalSpec(d, Some(k2), None, updates, fnName)
  {
    assert AllKnown(d, k1) <==> AllKnown(d, k2) by {
      if AllKnown(d, k1) {
        forall k | 0 <= k < |k2| ensures Str(k2[k]) in ItemNames(d) {
          assert k2[k] in k1;
        }
      }
      if AllKnown(d, k2) {
        forall k | 0 <= k < |k1| ensures Str(k1[k]) in ItemNames(d) {
          assert k1[k] in k2;
        }
      }
    }
    FilterMembersOnly(d, k1, k2, true);
  }

  /** Without 'keep', 'remove' and 'updates' the result is the docval itself. */
  lemma NoOptionsIsCopy(d: seq<Item>, fnName: string)
    ensures UpdateDocvalSpec(d, None, None, None, fnName) == Success(d)
  {
  }

  /** Updates are applied after filtering: an update naming an item that
      'keep' left out raises, unless an earlier update renamed an item to it. */
  lemma UpdateOfUnkeptItemFails(d: seq<Item>, keep: seq<string>, ups: seq<Update>, fnName: string, k: nat)
    requires AllKnown(d, keep)
    requires k < |ups| && ups[k].0 !in keep
    requires NoRenames(ups[..k])
    ensures UpdateDocvalSpec(d, Some(keep), None, Some(ups), fnName).Failure?
  {
    var s := Filter(d, keep, true);
    forall i | 0 <= i < |s| ensures s[i]["name"] != Str(ups[k].0) {
      assert s[i] in s;
    }
    UnknownUpdateFails(s, ups, fnName, k);
  }

  /** Updates are applied after filtering: an update naming an item that
      'remove' took out raises, unless an earlier update renamed an item to it. */
  lemma UpdateOfRemovedItemFails(d: seq<Item>, remove: seq<string>, ups: seq<Update>, fnName: string, k: nat)
    requires AllKnown(d, remove)
    requires k < |ups| && ups[k].0 in remove
    requires NoRenames(ups[..k])
    ensures UpdateDocvalSpec(d, None, Some(remove), Some(ups), fnName).Failure?
  {
    var s := Filter(d, remove, false);
    forall i | 0 <= i < |s| ensures s[i]["name"] != Str(ups[k].0) {
      assert s[i] in s;
    }
    UnknownUpdateFails(s, ups, fnName, k);
  }
}
