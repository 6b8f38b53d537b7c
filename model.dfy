/**
 * The attribute bag behind every resource model: a store of whitelisted
 * fields, some of which hold dates, kept in insertion order.
 */
module Models {
  import opened Wrappers
  import opened PhpArrays
  import opened Values

  /** What a concrete model declares statically: its `$fields` whitelist and its `$dates`. */
  datatype Schema = Schema(fields: seq<string>, dates: seq<string>)

  /** No date field is declared twice; the export loop depends on it. */
  predicate SchemaValid(schema: Schema) {
    forall i, j :: 0 <= i < j < |schema.dates| ==> schema.dates[i] != schema.dates[j]
  }

  /**
   * `Carbon::instance(new DateTime($value))` with its timezone set to UTC.
   * A failure carries the message of the exception that DateTime throws.
   */
  type DateParser = Value -> Result<Instant, string>

  datatype ModelError = MalformedDate(message: string)

  type Store = Pairs<Value>

  /** The store invariant: distinct keys, all whitelisted, and every stored date field holds a date. */
  predicate WellFormed(schema: Schema, store: Store) {
    && DistinctKeys(store)
    && (forall i :: 0 <= i < |store| ==> store[i].0 in schema.fields)
    && (forall k :: k in schema.dates && Lookup(store, k).Some? ==> Lookup(store, k).value.Date?)
  }

  /** The value `setAttribute` stores for a whitelisted key. */
  function Coerce(schema: Schema, parse: DateParser, k: string, v: Value): (r: Result<Value, ModelError>)
    ensures r.Failure? <==> k in schema.dates && parse(v).Failure?
    ensures r.Failure? ==> r.error == MalformedDate(parse(v).error)
    ensures r.Success? && k in schema.dates ==> r.value.Date? && r.value.at == parse(v).value
    ensures k !in schema.dates ==> r == Success(v)
  {
    if k in schema.dates then
      match parse(v)
      case Success(t) => Success(Date(t))
      case Failure(m) => Failure(MalformedDate(m))
    else Success(v)
  }

  /** `setAttribute($k, $v)` on a store. */
  function Assign(schema: Schema, parse: DateParser, store: Store, k: string, v: Value): (r: Result<Store, ModelError>)
    ensures k !in schema.fields ==> r == Success(store)
    ensures r.Failure? <==> k in schema.fields && k in schema.dates && parse(v).Failure?
    ensures r.Success? && k in schema.fields ==>
              Lookup(r.value, k) == Some(if k in schema.dates then Date(parse(v).value) else v)
    ensures r.Success? ==> forall j :: j != k ==> Lookup(r.value, j) == Lookup(store, j)
    ensures r.Success? && k in Keys(store) ==> Keys(r.value) == Keys(store)
    ensures r.Success? && k !in Keys(store) && k in schema.fields ==> Keys(r.value) == Keys(store) + [k]
    ensures r.Success? && WellFormed(schema, store) ==> WellFormed(schema, r.value)
  {
    if k !in schema.fields then Success(store)
    else
      match Coerce(schema, parse, k, v)
      case Failure(e) => Failure(e)
      case Success(value) => Success(Put(store, k, value))
  }

  /** The outcome of a run of assignments: the store reached, and the error that stopped it, if any. */
  datatype Applied = Applied(store: Store, failure: Option<ModelError>)

  /** `setData($pairs)`: `setAttribute` on each pair in order, stopping at the first exception. */
  function AssignAll(schema: Schema, parse: DateParser, store: Store, pairs: Store): (r: Applied)
    ensures WellFormed(schema, store) ==> WellFormed(schema, r.store)
    ensures forall k :: (forall i :: 0 <= i < |pairs| ==> pairs[i].0 != k) ==> Lookup(r.store, k) == Lookup(store, k)
    decreases |pairs|
  {
    if pairs == [] then Applied(store, None)
    else
      match Assign(schema, parse, store, pairs[0].0, pairs[0].1)
      case Failure(e) => Applied(store, Some(e))
      case Success(next) => AssignAll(schema, parse, next, pairs[1..])
  }

  /** `getAttribute($k)` on a store: the stored value, or `false` when there is none. */
  function Attribute(schema: Schema, store: Store, k: string): (r: Value)
    ensures r == Bool(false) <==>
              k !in schema.fields || Lookup(store, k) in {None, Some(Null), Some(Bool(false))}
    ensures r != Bool(false) ==> Lookup(store, k) == Some(r)
  {
    var stored := Lookup(store, k);
    if k in schema.fields && stored.Some? && stored.value != Null then stored.value else Bool(false)
  }

  /** One entry of `toArray()` when the fields in `dates` are exported as timestamps. */
  function ExportEntry(dates: seq<string>, e: (string, Value)): (x: (string, Value)) {
    if e.0 in dates && e.1 != Null then (e.0, Timestamp(e.1)) else e
  }

  function ExportWith(dates: seq<string>, store: Store): (r: Store) {
    seq(|store|, i requires 0 <= i < |store| => ExportEntry(dates, store[i]))
  }

  /** `toArray()` on a store. */
  function Exported(schema: Schema, store: Store): (r: Store) {
    ExportWith(schema.dates, store)
  }

  /**
   * `toArray()` keeps the store's keys in order, copies every entry that is not
   * a set date field, and replaces each set date field by its timestamp.
   */
  lemma ExportedMeaning(schema: Schema, store: Store)
    ensures var r := Exported(schema, store);
            && Keys(r) == Keys(store)
            && (forall i :: 0 <= i < |store| && (store[i].0 !in schema.dates || store[i].1 == Null) ==> r[i] == store[i])
            && forall i :: 0 <= i < |store| && store[i].0 in schema.dates && store[i].1 != Null ==>
                 r[i] == (store[i].0, Timestamp(store[i].1))
  {
  }

  /** A model built with no data holds nothing and exports the empty array. */
  lemma EmptyInstance(schema: Schema, parse: DateParser)
    ensures AssignAll(schema, parse, [], []) == Applied([], None)
    ensures Exported(schema, []) == []
  {
  }

  /** Exporting one more date field changes only that field's entry, as `toArray` does on its copy. */
  lemma ExportStep(dates: seq<string>, f: string, store: Store)
    requires DistinctKeys(store) && f !in dates
    ensures ExportWith(dates + [f], store) ==
              var e := ExportWith(dates, store);
              var cur := Lookup(e, f);
              if cur.Some? && cur.value != Null then Put(e, f, Timestamp(cur.value)) else e
  {
    var e := ExportWith(dates, store);
    assert Keys(e) == Keys(store);
    IndexOfSameKeys(e, store, f);
    var i := IndexOf(store, f);
    if i < 0 {
      ExportUnlisted(dates, f, store);
    } else {
      ExportListed(dates, f, store, i);
    }
  }

  /** A field the store does not hold exports the same whether or not it is a date. */
  lemma ExportUnlisted(dates: seq<string>, f: string, store: Store)
    requires f !in Keys(store)
    ensures ExportWith(dates + [f], store) == ExportWith(dates, store)
  {
    var e := ExportWith(dates, store);
    var e' := ExportWith(dates + [f], store);
    forall m | 0 <= m < |store|
      ensures e'[m] == e[m]
    {
      assert store[m].0 in Keys(store);
    }
  }

  /** A field the store holds at `i` is the only entry that becoming a date can change. */
  lemma ExportListed(dates: seq<string>, f: string, store: Store, i: int)
    requires f !in dates && 0 <= i < |store| && store[i].0 == f
    requires DistinctKeys(store) && IndexOf(ExportWith(dates, store), f) == i
    ensures var e := ExportWith(dates, store);
            ExportWith(dates + [f], store) ==
              if store[i].1 != Null then e[i := (f, Timestamp(store[i].1))] else e
  {
    var e := ExportWith(dates, store);
    var e' := ExportWith(dates + [f], store);
    forall m | 0 <= m < |store| && m != i
      ensures e'[m] == e[m]
    {
      assert store[m].0 != f;
    }
  }

  /** Continuing a run of assignments where the previous one stopped. */
  function Then(schema: Schema, parse: DateParser, first: Applied, pairs: Store): (r: Applied) {
    if first.failure.Some? then first else AssignAll(schema, parse, first.store, pairs)
  }

  /** Running the pairs of `a` and then those of `b` is running their concatenation, unless `a`'s run throws. */
  lemma {:induction false} AssignAllAppend(schema: Schema, parse: DateParser, store: Store, a: Store, b: Store)
    ensures AssignAll(schema, parse, store, a + b) == Then(schema, parse, AssignAll(schema, parse, store, a), b)
    decreases |a|
  {
    if a == [] {
      assert a + b == b;
    } else {
      assert (a + b)[0] == a[0] && (a + b)[1..] == a[1..] + b;
      match Assign(schema, parse, store, a[0].0, a[0].1)
      case Failure(e) =>
      case Success(next) => AssignAllAppend(schema, parse, next, a[1..], b);
    }
  }

  /** The pairs of `pairs` whose keys are whitelisted, in order. */
  function Whitelisted(schema: Schema, pairs: Store): (r: Store)
    decreases |pairs|
  {
    if pairs == [] then []
    else if pairs[0].0 in schema.fields then [pairs[0]] + Whitelisted(schema, pairs[1..])
    else Whitelisted(schema, pairs[1..])
  }

  /** Keys outside the whitelist are silently dropped: `setData` behaves as if they were never given. */
  lemma {:induction false} AssignAllIgnoresUnknown(schema: Schema, parse: DateParser, store: Store, pairs: Store)
    ensures AssignAll(schema, parse, store, pairs) == AssignAll(schema, parse, store, Whitelisted(schema, pairs))
    decreases |pairs|
  {
    if pairs != [] {
      if pairs[0].0 in schema.fields {
        var w := Whitelisted(schema, pairs);
        assert w[0] == pairs[0] && w[1..] == Whitelisted(schema, pairs[1..]);
        match Assign(schema, parse, store, pairs[0].0, pairs[0].1)
        case Failure(e) =>
        case Success(next) => AssignAllIgnoresUnknown(schema, parse, next, pairs[1..]);
      } else {
        AssignAllIgnoresUnknown(schema, parse, store, pairs[1..]);
      }
    }
  }

  /** Reading back a whitelisted, non-date field returns what was written, unless null was written. */
  lemma SetThenGet(schema: Schema, parse: DateParser, store: Store, k: string, v: Value)
    requires k in schema.fields && k !in schema.dates
    ensures Assign(schema, parse, store, k, v).Success?
    ensures var after := Assign(schema, parse, store, k, v).value;
            && Attribute(schema, after, k) == (if v == Null then Bool(false) else v)
            && forall j :: j != k ==> Attribute(schema, after, j) == Attribute(schema, store, j)
  {
  }

  /** A later write to a field replaces an earlier one, in the same position. */
  lemma {:induction false} OverwriteReplaces(schema: Schema, parse: DateParser, store: Store, k: string, v1: Value, v2: Value)
    requires Assign(schema, parse, store, k, v1).Success?
    ensures Assign(schema, parse, Assign(schema, parse, store, k, v1).value, k, v2)
              == Assign(schema, parse, store, k, v2)
  {
    if k in schema.fields {
      var once := Assign(schema, parse, store, k, v1).value;
      match Coerce(schema, parse, k, v2)
      case Failure(e) =>
      case Success(w) =>
        PutTwice(store, k, Coerce(schema, parse, k, v1).value, w);
    }
  }

  lemma PutTwice<V>(a: Pairs<V>, k: string, v1: V, v2: V)
    ensures Put(Put(a, k, v1), k, v2) == Put(a, k, v2)
  {
    var i := IndexOf(a, k);
    var once := Put(a, k, v1);
    if i < 0 {
      AppendLookups(a, (k, v1));
    } else {
      IndexOfSameKeys(once, a, k);
    }
  }

  /** After a complete `setData`, a non-date field holds the value of its last occurrence in the input. */
  lemma {:induction false} AssignAllLastWins(schema: Schema, parse: DateParser, store: Store, pairs: Store, i: int)
    requires 0 <= i < |pairs| && pairs[i].0 in schema.fields && pairs[i].0 !in schema.dates
    requires forall j :: i < j < |pairs| ==> pairs[j].0 != pairs[i].0
    requires AssignAll(schema, parse, store, pairs).failure.None?
    ensures Lookup(AssignAll(schema, parse, store, pairs).store, pairs[i].0) == Some(pairs[i].1)
    decreases |pairs|
  {
    var next := Assign(schema, parse, store, pairs[0].0, pairs[0].1);
    assert next.Success?;
    var rest := AssignAll(schema, parse, next.value, pairs[1..]);
    assert AssignAll(schema, parse, store, pairs) == rest;
    if i == 0 {
      assert Lookup(next.value, pairs[0].0) == Some(pairs[0].1);
      assert forall j :: 0 <= j < |pairs[1..]| ==> pairs[1..][j].0 != pairs[0].0 by {
        forall j | 0 <= j < |pairs[1..]| ensures pairs[1..][j].0 != pairs[0].0 {
          assert pairs[1..][j] == pairs[j + 1];
        }
      }
    } else {
      assert pairs[1..][i - 1] == pairs[i];
      assert forall j :: i - 1 < j < |pairs[1..]| ==> pairs[1..][j].0 != pairs[i].0 by {
        forall j | i - 1 < j < |pairs[1..]| ensures pairs[1..][j].0 != pairs[i].0 {
          assert pairs[1..][j] == pairs[j + 1];
        }
      }
      AssignAllLastWins(schema, parse, next.value, pairs[1..], i - 1);
    }
  }

  /**
   * Without date fields, feeding a model's export back into a fresh model
   * rebuilds the same store, entry for entry and in the same order.
   */
  lemma UndatedRoundTrip(schema: Schema, parse: DateParser, store: Store)
    requires schema.dates == [] && WellFormed(schema, store)
    ensures Exported(schema, store) == store
    ensures AssignAll(schema, parse, [], Exported(schema, store)) == Applied(store, None)
  {
    assert Exported(schema, store) == store;
    assert [] + store == store;
    RebuildUndated(schema, parse, [], store);
  }

  lemma {:induction false} RebuildUndated(schema: Schema, parse: DateParser, done: Store, rest: Store)
    requires schema.dates == [] && WellFormed(schema, done + rest)
    ensures AssignAll(schema, parse, done, rest) == Applied(done + rest, None)
    decreases |rest|
  {
    if rest == [] {
      assert done + rest == done;
    } else {
      NextKeyIsNew(schema, done, rest);
      AssignAppends(schema, parse, done, rest[0]);
      assert (done + [rest[0]]) + rest[1..] == done + rest;
      RebuildUndated(schema, parse, done + [rest[0]], rest[1..]);
    }
  }

  /** In a well-formed store split in two, the first key of the second part is whitelisted and not in the first part. */
  lemma NextKeyIsNew(schema: Schema, done: Store, rest: Store)
    requires |rest| > 0 && WellFormed(schema, done + rest)
    ensures rest[0].0 in schema.fields && rest[0].0 !in Keys(done)
  {
    var all := done + rest;
    assert all[|done|] == rest[0];
    forall m | 0 <= m < |done| ensures Keys(done)[m] != rest[0].0 {
      assert all[m] == done[m];
    }
  }

  /** `setData` past a pair whose write succeeds continues from the store that write leaves. */
  lemma AssignAllStep(schema: Schema, parse: DateParser, store: Store, pairs: Store, next: Store)
    requires pairs != [] && Assign(schema, parse, store, pairs[0].0, pairs[0].1) == Success(next)
    ensures AssignAll(schema, parse, store, pairs) == AssignAll(schema, parse, next, pairs[1..])
  {
  }

  /**
   * Two distinct whitelisted fields that are not dates, written into an empty store,
   * are stored as given and in that order.
   */
  lemma StoresTwoFields(schema: Schema, parse: DateParser, a: (string, Value), b: (string, Value))
    requires a.0 in schema.fields && a.0 !in schema.dates
    requires b.0 in schema.fields && b.0 !in schema.dates && a.0 != b.0
    ensures AssignAll(schema, parse, [], [a, b]) == Applied([a, b], None)
  {
    var pairs := [a, b];
    AssignAppends(schema, parse, [], a);
    assert [] + [a] == [a];
    AssignAllStep(schema, parse, [], pairs, [a]);
    assert pairs[1..] == [b];
    assert Keys([a]) == [a.0];
    AssignAppends(schema, parse, [a], b);
    assert [a] + [b] == pairs;
    AssignAllStep(schema, parse, [a], [b], pairs);
    assert [b][1..] == [];
  }

  /** A pair whose key is not whitelisted, given between two others, has no effect. */
  lemma SkipsUnknown(schema: Schema, parse: DateParser, store: Store, a: (string, Value), u: (string, Value), b: (string, Value))
    requires u.0 !in schema.fields
    ensures AssignAll(schema, parse, store, [a, u, b]) == AssignAll(schema, parse, store, [a, b])
  {
    var pairs := [a, u, b];
    match Assign(schema, parse, store, a.0, a.1)
    case Failure(e) =>
    case Success(next) =>
      AssignAllStep(schema, parse, store, pairs, next);
      AssignAllStep(schema, parse, store, [a, b], next);
      assert pairs[1..] == [u, b] && [a, b][1..] == [b];
      AssignAllStep(schema, parse, next, [u, b], next);
      assert [u, b][1..] == [b];
  }

  /**
   * `setData(toArray())` on an empty model, when it runs to the end, gives back every
   * whitelisted field that is not a date, whatever the schema's dates are.
   */
  lemma ExportRoundTripField(schema: Schema, parse: DateParser, store: Store, k: string)
    requires WellFormed(schema, store) && k in schema.fields && k !in schema.dates
    requires AssignAll(schema, parse, [], Exported(schema, store)).failure.None?
    ensures Lookup(AssignAll(schema, parse, [], Exported(schema, store)).store, k) == Lookup(store, k)
  {
    var e := Exported(schema, store);
    ExportedMeaning(schema, store);
    var i := IndexOf(store, k);
    if i < 0 {
      forall m | 0 <= m < |e| ensures e[m].0 != k {
        assert Keys(e)[m] == Keys(store)[m];
      }
      var empty: Store := [];
      assert Lookup(empty, k) == None;
    } else {
      assert e[i] == store[i];
      forall j | i < j < |e| ensures e[j].0 != e[i].0 {
        assert Keys(e)[j] == Keys(store)[j];
      }
      AssignAllLastWins(schema, parse, [], e, i);
    }
  }

  /** Writing a new whitelisted key that is not a date appends the pair as given. */
  lemma AssignAppends(schema: Schema, parse: DateParser, store: Store, e: (string, Value))
    requires e.0 in schema.fields && e.0 !in schema.dates && e.0 !in Keys(store)
    ensures Assign(schema, parse, store, e.0, e.1) == Success(store + [e])
  {
    assert IndexOf(store, e.0) < 0;
  }

  /** A model instance: the schema its subclass declares and the data store it mutates. */
  class Model {
    const schema: Schema
    const parse: DateParser
    var data: Store

    ghost predicate Valid()
      reads this
    {
      SchemaValid(schema) && WellFormed(schema, data)
    }

    /** A model with nothing stored. */
    constructor Empty(schema: Schema, parse: DateParser)
      requires SchemaValid(schema)
      ensures Valid() && this.schema == schema && this.parse == parse && data == []
    {
      this.schema := schema;
      this.parse := parse;
      data := [];
    }

    /** `new static($data)`: a falsy (empty) argument stores nothing, any other is passed to `setData`. */
    static method Create(schema: Schema, parse: DateParser, init: Store) returns (r: Result<Model, ModelError>)
      requires SchemaValid(schema)
      ensures var applied := AssignAll(schema, parse, [], init);
              match applied.failure
              case Some(e) => r == Failure(e)
              case None =>
                && r.Success? && fresh(r.value) && r.value.Valid()
                && r.value.schema == schema && r.value.parse == parse
                && r.value.data == applied.store
    {
      var m := new Model.Empty(schema, parse);
      if |init| > 0 {
        var outcome := m.SetData(init);
        if outcome.Failure? {
          return Failure(outcome.error);
        }
      }
      r := Success(m);
    }

    /** `setData($pairs)`, which returns `$this`; an exception leaves the assignments made before it. */
    method SetData(pairs: Store) returns (r: Result<Model, ModelError>)
      requires Valid()
      modifies this
      ensures Valid()
      ensures var applied := AssignAll(schema, parse, old(data), pairs);
              && data == applied.store
              && r == if applied.failure.Some? then Failure(applied.failure.value) else Success(this)
    {
      var i := 0;
      while i < |pairs|
        invariant 0 <= i <= |pairs|
        invariant Valid()
        invariant AssignAll(schema, parse, data, pairs[i..]) == AssignAll(schema, parse, old(data), pairs)
      {
        assert pairs[i..][1..] == pairs[i + 1..];
        var thrown := SetAttribute(pairs[i].0, pairs[i].1);
        if thrown.Some? {
          return Failure(thrown.value);
        }
        i := i + 1;
      }
      r := Success(this);
    }

    /** `setAttribute($k, $v)` (also reached as `$model->k = $v`); a date field that fails to parse throws. */
    method SetAttribute(k: string, v: Value) returns (thrown: Option<ModelError>)
      requires Valid()
      modifies this
      ensures Valid()
      ensures match Assign(schema, parse, old(data), k, v)
              case Success(s) => data == s && thrown == None
              case Failure(e) => data == old(data) && thrown == Some(e)
    {
      if k in schema.fields {
        var value := v;
        if k in schema.dates {
          var parsed := parse(v);
          if parsed.Failure? {
            return Some(MalformedDate(parsed.error));
          }
          value := Date(parsed.value);
        }
        data := Put(data, k, value);
      }
      thrown := None;
    }

    /** `getAttribute($k)` (also reached as `$model->k`). */
    function GetAttribute(k: string): (r: Value)
      reads this
      ensures r == Bool(false) <==> k !in schema.fields || Lookup(data, k) in {None, Some(Null), Some(Bool(false))}
      ensures r != Bool(false) ==> Lookup(data, k) == Some(r)
    {
      Attribute(schema, data, k)
    }

    /** `toArray()`: copy the store, then overwrite each set date field with its timestamp. */
    method ToArray() returns (a: Store)
      requires Valid()
      ensures a == Exported(schema, data)
      ensures Keys(a) == Keys(data)
      ensures forall i :: 0 <= i < |data| && data[i].0 !in schema.dates ==> a[i] == data[i]
      ensures forall i :: 0 <= i < |data| && data[i].0 in schema.dates ==>
                data[i].1.Date? && a[i] == (data[i].0, Int(data[i].1.at.seconds))
    {
      a := data;
      assert a == ExportWith(schema.dates[..0], data);
      for j := 0 to |schema.dates|
        invariant a == ExportWith(schema.dates[..j], data)
      {
        var field := schema.dates[j];
        assert schema.dates[..j + 1] == schema.dates[..j] + [field];
        ExportStep(schema.dates[..j], field, data);
        var cur := Lookup(a, field);
        if cur.Some? && cur.value != Null {
          a := Put(a, field, Timestamp(cur.value));
        }
      }
      assert schema.dates[..|schema.dates|] == schema.dates;
      forall i | 0 <= i < |data| && data[i].0 in schema.dates
        ensures data[i].1.Date?
      {
        assert Lookup(data, data[i].0) == Some(data[i].1);
      }
    }

    /** `toJson()` and `__toString()`: the JSON encoding of `toArray()`. */
    method ToJson(encode: Store -> string) returns (s: string)
      requires Valid()
      ensures s == encode(Exported(schema, data))
    {
      var a := ToArray();
      s := encode(a);
    }
  }
}
