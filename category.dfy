/** The Category resource: four fields, two of which are dates. */
module Category {
  import opened Wrappers
  import opened PhpArrays
  import opened Values
  import opened Models

  const CategoryFields: seq<string> := ["id", "title", "created_at", "updated_at"]
  const CategoryDates: seq<string> := ["created_at", "updated_at"]
  const CategorySchema: Schema := Schema(CategoryFields, CategoryDates)

  /** `Category::getInstance($data)`: a new Category built from `$data`. */
  method GetInstance(parse: DateParser, init: Store) returns (r: Result<Model, ModelError>)
    ensures var applied := AssignAll(CategorySchema, parse, [], init);
            match applied.failure
            case Some(e) => r == Failure(e)
            case None =>
              && r.Success? && fresh(r.value) && r.value.Valid()
              && r.value.schema == CategorySchema && r.value.parse == parse && r.value.data == applied.store
  {
    r := Model.Create(CategorySchema, parse, init);
  }

  /** Whatever is written, a Category only ever stores `id`, `title`, `created_at` and `updated_at`. */
  lemma OnlyCategoryFields(parse: DateParser, init: Store)
    ensures forall k :: k in Keys(AssignAll(CategorySchema, parse, [], init).store) ==>
              k == "id" || k == "title" || k == "created_at" || k == "updated_at"
  {
    var s := AssignAll(CategorySchema, parse, [], init).store;
    assert WellFormed(CategorySchema, []);
    assert forall m :: 0 <= m < |s| ==> Keys(s)[m] in CategoryFields;
  }

  /** The two date fields store the parsed date; every other field stores the value as given. */
  lemma CategoryCoercion(parse: DateParser, store: Store, k: string, v: Value)
    requires k in CategoryFields
    ensures k == "created_at" || k == "updated_at" ==>
              match parse(v)
              case Success(t) => Assign(CategorySchema, parse, store, k, v).Success?
                                 && Lookup(Assign(CategorySchema, parse, store, k, v).value, k) == Some(Date(t))
              case Failure(m) => Assign(CategorySchema, parse, store, k, v) == Failure(MalformedDate(m))
    ensures k == "id" || k == "title" ==>
              Lookup(Assign(CategorySchema, parse, store, k, v).value, k) == Some(v)
  {
  }

  /**
   * `setData(['id' => 1, 'foo' => 'bar', 'title' => 'foobar'])`, for any three values:
   * `id` and `title` are kept in that order, `foo` is dropped, and the export is the same array.
   */
  lemma CategorySetDataExample(parse: DateParser, id: Value, foo: Value, title: Value)
    ensures var applied := AssignAll(CategorySchema, parse, [], [("id", id), ("foo", foo), ("title", title)]);
            && applied == Applied([("id", id), ("title", title)], None)
            && Exported(CategorySchema, applied.store) == [("id", id), ("title", title)]
            && Attribute(CategorySchema, applied.store, "foo") == Bool(false)
  {
    var s3 := [("id", id), ("title", title)];
    assert "id" in CategorySchema.fields && "title" in CategorySchema.fields;
    assert "id" !in CategorySchema.dates && "title" !in CategorySchema.dates && "foo" !in CategorySchema.fields;
    SkipsUnknown(CategorySchema, parse, [], ("id", id), ("foo", foo), ("title", title));
    StoresTwoFields(CategorySchema, parse, ("id", id), ("title", title));
    UndatedExport(CategorySchema, s3);
  }

  /**
   * A Category need not survive its own round trip: when the parser refuses the exported
   * timestamp of `created_at`, `setData` stops there, and `id`, which comes after it, is lost.
   */
  lemma CategoryRoundTripCanLoseFields(parse: DateParser, t: Instant)
    requires parse(Int(t.seconds)).Failure?
    ensures var store := [("created_at", Date(t)), ("id", Int(7))];
            var back := AssignAll(CategorySchema, parse, [], Exported(CategorySchema, store));
            && WellFormed(CategorySchema, store)
            && Lookup(store, "id") == Some(Int(7))
            && back.failure.Some?
            && Lookup(back.store, "id") == None
  {
    var store := [("created_at", Date(t)), ("id", Int(7))];
    var e := Exported(CategorySchema, store);
    assert "created_at" in CategorySchema.dates && "id" !in CategorySchema.dates;
    assert "created_at" in CategorySchema.fields && "id" in CategorySchema.fields;
    assert e[0] == ("created_at", Int(t.seconds));
    assert Assign(CategorySchema, parse, [], "created_at", Int(t.seconds)).Failure?;
    assert Keys(store) == ["created_at", "id"];
    assert Lookup(store, "updated_at") == None;
  }

  /** A store holding no date field exports as itself. */
  lemma UndatedExport(schema: Schema, store: Store)
    requires forall i :: 0 <= i < |store| ==> store[i].0 !in schema.dates
    ensures Exported(schema, store) == store
  {
    assert forall i :: 0 <= i < |store| ==> Exported(schema, store)[i] == store[i];
  }
}
