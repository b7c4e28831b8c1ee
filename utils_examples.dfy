/** The unit-test scenarios of src/pynwb/tests/unit/test_utils.py and
    src/pynwb/tests/unit/test_ndx_nirs.py, stated about the model. */
module UtilsExamples {
  import opened Wrappers
  import opened DocvalItems
  import Utils
  import NdxNirs

  // Stand-ins for the Python objects `str`, `int`, `None` and `False`.
  const StrType := Opaque(0)
  const IntType := Opaque(1)
  const NoneValue := Opaque(2)
  const FalseValue := Opaque(3)

  const Foo: Item := map["name" := Str("foo"), "type" := StrType, "doc" := Str("a parameter named foo")]
  const Bar: Item := map["name" := Str("bar"), "type" := IntType, "doc" := Str("a parameter named bar"),
                         "default" := NoneValue]
  const Baz: Item := map["name" := Str("baz"), "type" := StrType, "doc" := Str("a parameter named baz"),
                         "default" := Str("BAZ")]

  /** The docval of the test module's `fake_function`. */
  function FakeDocval(): (d: seq<Item>)
    ensures |d| == 3 && NameIs(d[0], "foo") && "default" !in d[0]
  {
    [Foo, Bar, Baz]
  }

  /** Both names of the 'keep' and 'remove' lists of the tests are item names. */
  lemma FooAndBazKnown()
    ensures Utils.AllKnown(FakeDocval(), ["foo", "baz"])
  {
    var d := FakeDocval();
    assert d[0]["name"] == Str("foo") && d[2]["name"] == Str("baz");
    assert Str("foo") in ItemNames(d) && Str("baz") in ItemNames(d);
  }

  lemma BothOptionsExample()
    ensures Utils.UpdateDocvalSpec(FakeDocval(), Some(["baz"]), Some(["foo"]), None, "fake_function")
      == Failure(KeepAndRemove)
  {
  }

  lemma KeepFiltersExample()
    ensures Utils.UpdateDocvalSpec(FakeDocval(), Some(["foo", "baz"]), None, None, "fake_function")
      == Success([Foo, Baz])
  {
    FooAndBazKnown();
    var d := FakeDocval();
    var names := ["foo", "baz"];
    assert Utils.Listed(Foo, names) && !Utils.Listed(Bar, names) && Utils.Listed(Baz, names);
    assert d[1..] == [Bar, Baz] && d[1..][1..] == [Baz] && [Baz][1..] == [];
    assert Utils.Filter([Baz], names, true) == [Baz];
    assert Utils.Filter([Bar, Baz], names, true) == [Baz];
    assert Utils.Filter(d, names, true) == [Foo, Baz];
  }

  lemma RemoveFiltersExample()
    ensures Utils.UpdateDocvalSpec(FakeDocval(), None, Some(["foo", "baz"]), None, "fake_function")
      == Success([Bar])
  {
    FooAndBazKnown();
    var d := FakeDocval();
    var names := ["foo", "baz"];
    assert Utils.Listed(Foo, names) && !Utils.Listed(Bar, names) && Utils.Listed(Baz, names);
    assert d[1..] == [Bar, Baz] && d[1..][1..] == [Baz] && [Baz][1..] == [];
    assert Utils.Filter([Baz], names, false) == [];
    assert Utils.Filter([Bar, Baz], names, false) == [Bar];
    assert Utils.Filter(d, names, false) == [Bar];
  }

  lemma UnknownKeepExample()
    ensures Utils.UpdateDocvalSpec(FakeDocval(), Some(["nonexistant_item"]), None, None, "fake_function")
      == Failure(UnknownKeep)
  {
    var d := FakeDocval();
    var keep := ["nonexistant_item"];
    assert Str(keep[0]) !in ItemNames(d);
    assert !Utils.AllKnown(d, keep);
  }

  lemma UnknownRemoveExample()
    ensures Utils.UpdateDocvalSpec(FakeDocval(), None, Some(["nonexistant_item"]), None, "fake_function")
      == Failure(UnknownRemove)
  {
    var d := FakeDocval();
    var remove := ["nonexistant_item"];
    assert Str(remove[0]) !in ItemNames(d);
    assert !Utils.AllKnown(d, remove);
  }

  lemma UpdatesExample()
    ensures var r := Utils.UpdateDocvalSpec(FakeDocval(), None, None,
                       Some([("foo", map["default" := Str("FOO"), "miscfield" := Str("xyz")]),
                             ("bar", map["default" := NoneValue])]), "fake_function");
      && r.Success? && |r.value| == 3
      && "default" in r.value[0] && r.value[0]["default"] == Str("FOO")
      && "miscfield" in r.value[0] && r.value[0]["miscfield"] == Str("xyz")
      && "default" in r.value[1] && r.value[1]["default"] == NoneValue
  {
    var d := FakeDocval();
    var v1 := map["default" := Str("FOO"), "miscfield" := Str("xyz")];
    var v2 := map["default" := NoneValue];
    var ups := [("foo", v1), ("bar", v2)];
    assert NameIs(d[0], "foo") && !NameIs(d[0], "bar") && NameIs(d[1], "bar");
    assert FirstMatch(d, "foo") == Some(0);
    var d1 := d[0 := Merge(d[0], v1)];
    assert ApplyUpdate(d, ups[0], "fake_function") == Success(d1);
    assert !NameIs(d1[0], "bar") && NameIs(d1[1], "bar");
    assert FirstMatch(d1, "bar") == Some(1);
    var d2 := d1[1 := Merge(d1[1], v2)];
    assert ApplyUpdate(d1, ups[1], "fake_function") == Success(d2);
    assert ups[1..][0] == ups[1] && ups[1..][1..] == [];
    assert ApplyUpdates(d1, ups[1..], "fake_function") == Success(d2);
    assert ApplyUpdates(d, ups, "fake_function") == Success(d2);
  }

  lemma UnknownUpdateExample()
    ensures Utils.UpdateDocvalSpec(FakeDocval(), None, None,
              Some([("badparam", map["doc" := Str("this parameter doesn't exist")])]), "fake_function")
      == Failure(UnknownUpdate("badparam", "fake_function"))
  {
  }

  /** Updating the copy leaves the caller's docval as it was. */
  method CopyIsIndependent() returns (original: seq<Item>, updated: seq<Item>)
    ensures original == FakeDocval() && "default" !in original[0]
    ensures |updated| == 3 && "default" in updated[0] && updated[0]["default"] == Str("FOO")
  {
    original := FakeDocval();
    var ups := [("foo", map["default" := Str("FOO")])];
    var r := Utils.UpdateDocval(original, None, None, Some(ups), "fake_function");
    assert FirstMatch(original, "foo") == Some(0);
    assert ups[1..] == [];
    updated := r.value;
  }

  /** The first two items of the docval of `DynamicTable.__init__`, the ones
      the tests of the older rewriter update. */
  const TableName: Item := map["name" := Str("name"), "type" := StrType, "doc" := Str("the name of this table")]
  const TableDescription: Item := map["name" := Str("description"), "type" := StrType,
                                      "doc" := Str("a description of what is in this table")]

  /** Updating the copy made by the older rewriter leaves the caller's docval
      as it was. */
  method LegacyCopyIsIndependent() returns (original: seq<Item>, updated: seq<Item>)
    ensures original == [TableName, TableDescription] && "default" !in original[0]
    ensures |updated| == 2 && "default" in updated[0] && updated[0]["default"] == Str("FOO")
  {
    original := [TableName, TableDescription];
    var ups := [("name", map["default" := Str("FOO")])];
    var r := NdxNirs.LegacyUpdateDocval(original, ups, "__init__");
    assert NameIs(original[0], "name");
    assert FirstMatch(original, "name") == Some(0);
    assert ups[1..] == [];
    updated := r.value;
  }

  /** The older rewriter merges each keyword's fields into its item. */
  method LegacyUpdatesExample() returns (r: Result<seq<Item>, Error>)
    ensures r.Success? && |r.value| == 2
    ensures "default" in r.value[0] && r.value[0]["default"] == Str("FOO")
    ensures "miscfield" in r.value[0] && r.value[0]["miscfield"] == Str("xyz")
    ensures "required" in r.value[1] && r.value[1]["required"] == FalseValue
  {
    var d := [TableName, TableDescription];
    var v1 := map["default" := Str("FOO"), "miscfield" := Str("xyz")];
    var v2 := map["required" := FalseValue];
    var ups := [("name", v1), ("description", v2)];
    r := NdxNirs.LegacyUpdateDocval(d, ups, "__init__");
    assert NameIs(d[0], "name") && !NameIs(d[0], "description") && NameIs(d[1], "description");
    assert FirstMatch(d, "name") == Some(0);
    var d1 := d[0 := Merge(d[0], v1)];
    assert ApplyUpdate(d, ups[0], "__init__") == Success(d1);
    assert !NameIs(d1[0], "description") && NameIs(d1[1], "description");
    assert FirstMatch(d1, "description") == Some(1);
    var d2 := d1[1 := Merge(d1[1], v2)];
    assert ApplyUpdate(d1, ups[1], "__init__") == Success(d2);
    assert ups[1..][0] == ups[1] && ups[1..][1..] == [];
    assert ApplyUpdates(d1, ups[1..], "__init__") == Success(d2);
  }

  /** The older rewriter raises on a keyword that names no item. */
  method LegacyUnknownExample() returns (r: Result<seq<Item>, Error>)
    ensures r == Failure(UnknownUpdate("foo", "__init__"))
  {
    var d := [TableName, TableDescription];
    assert !NameIs(d[0], "foo") && !NameIs(d[1], "foo");
    r := NdxNirs.LegacyUpdateDocval(d, [("foo", map["default" := Str("bar")])], "__init__");
  }

  /** The older rewriter takes the keywords 'keep' and 'remove' for item names
      and so raises on them: the tests of the keep/remove options that expect
      an error pass against it, the others do not. (The list given as their
      value is never looked at; an empty dict stands in for it.) */
  lemma LegacyTakesKeepForAnItemName()
    ensures ApplyUpdates(FakeDocval(), [("keep", map[]), ("remove", map[])], "fake_function")
      == Failure(UnknownUpdate("keep", "fake_function"))
  {
    var d := FakeDocval();
    assert !NameIs(d[0], "keep") && !NameIs(d[1], "keep") && !NameIs(d[2], "keep");
  }

  /** A renaming update redirects a later update of the same name to the next
      item with that name: the no-renames hypothesis of the lemmas about
      unchanged items is needed. */
  lemma RenameRedirectsLaterUpdate()
    ensures var d := [map["name" := Str("x"), "k" := Opaque(0)], map["name" := Str("x"), "k" := Opaque(1)]];
      var r := ApplyUpdates(d, [("x", map["name" := Str("y")]), ("x", map["k" := Opaque(7)])], "f");
      r.Success? && |r.value| == 2 && r.value[1] != d[1]
  {
    var d: seq<Item> := [map["name" := Str("x"), "k" := Opaque(0)], map["name" := Str("x"), "k" := Opaque(1)]];
    var ups := [("x", map["name" := Str("y")]), ("x", map["k" := Opaque(7)])];
    assert NameIs(d[0], "x");
    assert FirstMatch(d, "x") == Some(0);
    var d1 := d[0 := Merge(d[0], ups[0].1)];
    assert ApplyUpdate(d, ups[0], "f") == Success(d1);
    assert !NameIs(d1[0], "x") && NameIs(d1[1], "x");
    assert FirstMatch(d1, "x") == Some(1);
    var d2 := d1[1 := Merge(d1[1], ups[1].1)];
    assert ApplyUpdate(d1, ups[1], "f") == Success(d2);
    assert ups[1..][0] == ups[1] && ups[1..][1..] == [];
    assert ApplyUpdates(d1, ups[1..], "f") == Success(d2);
    assert d2[1]["k"] == Opaque(7);
  }
}
