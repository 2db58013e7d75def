/** The test types of the repository's unit tests, as schemas, and what the
    uniqueness engine decides for each of them. */
module RepositoryOracles {
  import opened Wrappers
  import opened Bson
  import opened BsonUnique
  import opened MongoRepository

  /** `TestModel`: `StringValue` is self-unique. */
  const TestModelSchema: Schema := [
    Property("Id", None),
    Property("StringValue", Some(SelfUnique())),
    Property("StringValue2", None),
    Property("IntValue", None),
    Property("LongValue", None),
    Property("DateTimeValue", None),
    Property("BoolValue", None),
    Property("CharValue", None),
    Property("ByteValue", None),
    Property("StringList", None)
  ]

  /** `TestModel2`: `StringValue` is unique together with `StringValue2` and
      `IntValue`, named in lower case. */
  const TestModel2Schema: Schema := [
    Property("Id", None),
    Property("StringValue", Some(Declared(false, ["stringvalue2", "intvalue"]))),
    Property("StringValue2", None),
    Property("IntValue", None),
    Property("LongValue", None)
  ]

  /** `TestModel3`: `StringValue` is self-unique and also unique together with
      `StringValue2` and `DateTimeValue`. */
  const TestModel3Schema: Schema := [
    Property("Id", None),
    Property("StringValue", Some(Declared(true, ["stringvalue2", "datetimevalue"]))),
    Property("StringValue2", None),
    Property("DateTimeValue", None)
  ]

  /** `TestModel4`: no descriptor. */
  const TestModel4Schema: Schema := [
    Property("Id", None),
    Property("StringValue", None),
    Property("StringValue2", None),
    Property("DateTimeValue", None)
  ]

  lemma TestModel2StringValue2()
    ensures Resolve(TestModel2Schema, "stringvalue2") == Success(Property("StringValue2", None))
  {
    var s, n := TestModel2Schema, "stringvalue2";
    assert SameIgnoringCase(s[2].name, n);
    forall j | 0 <= j < |s| && j != 2 ensures !SameIgnoringCase(s[j].name, n) {
      assert j == 0 || j == 1 || j == 3 || j == 4;
    }
    ResolvesUniquely(s, 2, n);
  }

  lemma TestModel2IntValue()
    ensures Resolve(TestModel2Schema, "intvalue") == Success(Property("IntValue", None))
  {
    var s, n := TestModel2Schema, "intvalue";
    assert SameIgnoringCase(s[3].name, n);
    forall j | 0 <= j < |s| && j != 3 ensures !SameIgnoringCase(s[j].name, n) {
      assert j == 0 || j == 1 || j == 2 || j == 4;
    }
    ResolvesUniquely(s, 3, n);
  }

  lemma TestModel3StringValue2()
    ensures Resolve(TestModel3Schema, "stringvalue2") == Success(Property("StringValue2", None))
  {
    var s, n := TestModel3Schema, "stringvalue2";
    assert SameIgnoringCase(s[2].name, n);
    forall j | 0 <= j < |s| && j != 2 ensures !SameIgnoringCase(s[j].name, n) {
      assert j == 0 || j == 1 || j == 3;
    }
    ResolvesUniquely(s, 2, n);
  }

  lemma TestModel3DateTimeValue()
    ensures Resolve(TestModel3Schema, "datetimevalue") == Success(Property("DateTimeValue", None))
  {
    var s, n := TestModel3Schema, "datetimevalue";
    assert SameIgnoringCase(s[3].name, n);
    forall j | 0 <= j < |s| && j != 3 ensures !SameIgnoringCase(s[j].name, n) {
      assert j == 0 || j == 1 || j == 2;
    }
    ResolvesUniquely(s, 3, n);
  }

  /** The sibling names of `TestModel2` resolve, and agreeing on them means
      agreeing on `StringValue2` and `IntValue`. */
  lemma TestModel2Siblings(a: Fields, b: Fields)
    ensures forall n :: n in ["stringvalue2", "intvalue"] ==> Resolve(TestModel2Schema, n).Success?
    ensures AgreeOnSiblings(TestModel2Schema, ["stringvalue2", "intvalue"], a, b) <==>
      Agree(a, b, "StringValue2") && Agree(a, b, "IntValue")
  {
    TestModel2StringValue2();
    TestModel2IntValue();
    AgreeOnTwoSiblings(TestModel2Schema, "stringvalue2", "intvalue",
      Property("StringValue2", None), Property("IntValue", None), a, b);
  }

  /** The sibling names of `TestModel3` resolve. */
  lemma TestModel3Siblings()
    ensures forall n :: n in ["stringvalue2", "datetimevalue"] ==> Resolve(TestModel3Schema, n).Success?
  {
    TestModel3StringValue2();
    TestModel3DateTimeValue();
  }

  /** `TestModel`: a stored record of another id conflicts exactly when it
      holds the same `StringValue` (`ExistsUniqueItem_OnlySelf_*`,
      `Insert_IfHaveTheSameRecord_ReturnNull`). */
  lemma TestModelConflict(k: ObjectId, b: Fields, id: ObjectId, a: Fields)
    requires id != k
    ensures Conflict(TestModelSchema, map[k := b], id, a) == Success(Agree(a, b, "StringValue"))
  {
    var s := TestModelSchema;
    assert forall i :: 0 <= i < |s| && i != 1 ==> s[i].unique.None?;
    OneDescriptorResolvable(s, 1);
    OneDescriptorClash(s, 1, a, b);
    OneRecordConflict(s, k, b, id, a);
  }

  /** `TestModel2`: a stored record of another id conflicts exactly when it
      agrees on `StringValue`, `StringValue2` and `IntValue` together
      (`ExistsUniqueItem_WithOtherProperties_*`). */
  lemma TestModel2Conflict(k: ObjectId, b: Fields, id: ObjectId, a: Fields)
    requires id != k
    ensures Conflict(TestModel2Schema, map[k := b], id, a) ==
      Success(Agree(a, b, "StringValue") && Agree(a, b, "StringValue2") && Agree(a, b, "IntValue"))
  {
    var s := TestModel2Schema;
    TestModel2Siblings(a, b);
    assert forall i :: 0 <= i < |s| && i != 1 ==> s[i].unique.None?;
    OneDescriptorResolvable(s, 1);
    OneDescriptorClash(s, 1, a, b);
    OneRecordConflict(s, k, b, id, a);
  }

  /** `TestModel3`: the self clause decides: a stored record of another id
      conflicts exactly when it holds the same `StringValue`, whatever its
      other fields (`ExistsUniqueItem_SelfAndWithOtherProperties_*`). */
  lemma TestModel3Conflict(k: ObjectId, b: Fields, id: ObjectId, a: Fields)
    requires id != k
    ensures Conflict(TestModel3Schema, map[k := b], id, a) == Success(Agree(a, b, "StringValue"))
  {
    var s := TestModel3Schema;
    TestModel3Siblings();
    assert forall i :: 0 <= i < |s| && i != 1 ==> s[i].unique.None?;
    OneDescriptorResolvable(s, 1);
    OneDescriptorClash(s, 1, a, b);
    OneRecordConflict(s, k, b, id, a);
  }

  /** `TestModel4`: no conflict is ever reported (`ExistsUniqueItem_WithOutBsonUnique_ReturnItem`). */
  lemma TestModel4NeverConflicts(stored: map<ObjectId, Fields>, id: ObjectId, a: Fields)
    ensures Conflict(TestModel4Schema, stored, id, a) == Success(false)
  {
    var s := TestModel4Schema;
    assert forall i :: 0 <= i < |s| ==> s[i].unique.None?;
    NoDescriptorsNeverConflict(s, stored, id, a);
  }

  /** `Save_IfHaveTheSameRecord_ReturnNull`: saving a stored record with the
      `StringValue` another stored record holds is refused. */
  lemma TestModelSaveOntoTakenValue(k1: ObjectId, mine: Fields, k2: ObjectId, other: Fields, a: Fields)
    requires k1 != k2
    requires Agree(a, other, "StringValue") && !Agree(a, mine, "StringValue")
    ensures Conflict(TestModelSchema, map[k1 := mine, k2 := other], k1, a) == Success(true)
  {
    var s := TestModelSchema;
    var stored := map[k1 := mine, k2 := other];
    assert forall i :: 0 <= i < |s| && i != 1 ==> s[i].unique.None?;
    OneDescriptorResolvable(s, 1);
    OneDescriptorClash(s, 1, a, mine);
    OneDescriptorClash(s, 1, a, other);
    ConflictMeaning(s, stored, k1, a);
    assert ClashingIds(s, stored, a) == {k2};
  }
}
