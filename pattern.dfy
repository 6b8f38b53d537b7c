/** The Pattern resource: four fields and no dates. */
module Pattern {
  import opened Wrappers
  import opened PhpArrays
  import opened Values
  import opened Models

  const PatternFields: seq<string> := ["id", "label", "file", "category_id"]
  const PatternSchema: Schema := Schema(PatternFields, [])

  /** `Pattern::getInstance($data)`: a new Pattern built from `$data`; it never throws. */
  method GetInstance(parse: DateParser, init: Store) returns (r: Result<Model, ModelError>)
    ensures r.Success? && fresh(r.value) && r.value.Valid() && r.value.schema == PatternSchema && r.value.parse == parse
    ensures r.value.data == AssignAll(PatternSchema, parse, [], init).store
  {
    PatternNeverFails(parse, [], init);
    r := Model.Create(PatternSchema, parse, init);
  }

  /** Having no date fields, a Pattern never fails to store anything. */
  lemma {:induction false} PatternNeverFails(parse: DateParser, store: Store, pairs: Store)
    ensures AssignAll(PatternSchema, parse, store, pairs).failure == None
    decreases |pairs|
  {
    if pairs != [] {
      PatternNeverFails(parse, Assign(PatternSchema, parse, store, pairs[0].0, pairs[0].1).value, pairs[1..]);
    }
  }

  /** A Pattern's `toArray()` is its store, unchanged. */
  lemma PatternExportIsStore(store: Store)
    ensures Exported(PatternSchema, store) == store
  {
    assert forall i :: 0 <= i < |store| ==> Exported(PatternSchema, store)[i] == store[i];
  }

  /** Rebuilding a Pattern from its own `toArray()` gives back the same store. */
  lemma PatternRoundTrip(parse: DateParser, store: Store)
    requires WellFormed(PatternSchema, store)
    ensures AssignAll(PatternSchema, parse, [], Exported(PatternSchema, store)) == Applied(store, None)
  {
    UndatedRoundTrip(PatternSchema, parse, store);
  }

  /** Writing `id` as 1, then 55, then `foo`, then 19 leaves `id` reading 19 and `foo` absent. */
  lemma SuccessiveWrites(parse: DateParser)
    ensures var pairs := [("id", Int(1)), ("id", Int(55)), ("foo", Str("bar")), ("id", Int(19))];
            var applied := AssignAll(PatternSchema, parse, [], pairs);
            && Attribute(PatternSchema, applied.store, "id") == Int(19)
            && Attribute(PatternSchema, applied.store, "foo") == Bool(false)
  {
    var pairs := [("id", Int(1)), ("id", Int(55)), ("foo", Str("bar")), ("id", Int(19))];
    assert pairs[3].0 == "id" && PatternSchema.fields[0] == "id" && PatternSchema.dates == [];
    assert "foo" !in PatternSchema.fields;
    PatternNeverFails(parse, [], pairs);
    AssignAllLastWins(PatternSchema, parse, [], pairs, 3);
  }

  /**
   * `setData` with `id`, an unknown `foo` and `label` keeps `id` and `label` in that
   * order; `toArray()` gives exactly those two and `foo` reads as `false`.
   */
  lemma PatternSetDataExample(parse: DateParser, id: Value, foo: Value, name: Value)
    ensures var applied := AssignAll(PatternSchema, parse, [], [("id", id), ("foo", foo), ("label", name)]);
            && applied == Applied([("id", id), ("label", name)], None)
            && Exported(PatternSchema, applied.store) == [("id", id), ("label", name)]
            && Attribute(PatternSchema, applied.store, "foo") == Bool(false)
  {
    assert PatternSchema.fields[0] == "id" && PatternSchema.fields[1] == "label";
    assert "foo" !in PatternSchema.fields;
    SkipsUnknown(PatternSchema, parse, [], ("id", id), ("foo", foo), ("label", name));
    StoresTwoFields(PatternSchema, parse, ("id", id), ("label", name));
    PatternExportIsStore([("id", id), ("label", name)]);
  }
}
