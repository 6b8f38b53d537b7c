/**
 * The API client: request shaping, file resolution and the classification
 * of transport failures into the client's exception kinds.
 */
module Rubix {
  import opened Wrappers
  import opened PhpArrays
  import opened Values
  import opened Models
  import Category
  import Pattern

  datatype Verb = GET | POST | PUT | DELETE

  /** What the HTTP transport hands back: the decoded JSON body and the raw body. */
  datatype Response = Response(json: Value, body: Value)

  /** An exception raised by the transport, with its code (the HTTP status) and message. */
  datatype Thrown = Thrown(code: int, message: string)

  /** The Guzzle client: `$client->{$verb}($resource, $options)`. */
  type Transport = (Verb, string, Store) -> Result<Response, Thrown>

  /** The exceptions a client call can end in. */
  datatype ClientError =
    | AuthorizationException(message: string)
    | ResponseException(message: string)
    | NotFoundException(message: string)
    | ServiceException(message: string)
    | InvalidArgumentException(message: string)
    | DateException(message: string)
  {
    /** The four kinds `handleException` produces. */
    predicate FromTransport() {
      AuthorizationException? || ResponseException? || NotFoundException? || ServiceException?
    }
  }

  const FileTypeMessage: string :=
    "File must be a string or an implementation of GuzzleHttp\\Post\\PostFileInterface"

  /** `handleException($e)`: choose the exception to throw from the status code, keeping the message. */
  function HandleException(e: Thrown): (r: ClientError)
    ensures r.FromTransport() && r.message == e.message
    ensures r.AuthorizationException? <==> e.code == 401
    ensures r.ResponseException? <==> e.code == 422
    ensures r.NotFoundException? <==> e.code == 404
    ensures r.ServiceException? <==> e.code != 401 && e.code != 422 && e.code != 404
  {
    if e.code == 401 then AuthorizationException(e.message)
    else if e.code == 422 then ResponseException(e.message)
    else if e.code == 404 then NotFoundException(e.message)
    else ServiceException(e.message)
  }

  /** The entries `new Model($data)` iterates over: an array's string-keyed entries, nothing otherwise. */
  function AsPairs(v: Value): (r: Store)
    ensures v.Dict? ==> r == v.entries
    ensures !v.Dict? ==> r == []
  {
    if v.Dict? then v.entries else []
  }

  /** The elements `array_map` visits, or `None` when the value is not an array. */
  function Elements(v: Value): (r: Option<seq<Value>>)
    ensures v.List? ==> r == Some(v.items)
    ensures v.Dict? ==>
              && r.Some? && |r.value| == |v.entries|
              && forall i :: 0 <= i < |v.entries| ==> r.value[i] == v.entries[i].1
    ensures !v.List? && !v.Dict? ==> r == None
  {
    match v
    case List(items) => Some(items)
    case Dict(entries) => Some(seq(|entries|, i requires 0 <= i < |entries| => entries[i].1))
    case _ => None
  }

  /** Building one model per element through the factory, stopping at the first element that throws. */
  function BuildAll(schema: Schema, parse: DateParser, elems: seq<Value>): (r: Result<seq<Store>, ModelError>)
    ensures r.Success? ==> |r.value| == |elems|
    decreases |elems|
  {
    if elems == [] then Success([])
    else
      var first := AssignAll(schema, parse, [], AsPairs(elems[0]));
      if first.failure.Some? then Failure(first.failure.value)
      else Prepend([first.store], BuildAll(schema, parse, elems[1..]))
  }

  /** A list built from a response has one store per element, in order, each the one the factory builds from it. */
  lemma {:induction false} BuildAllElementwise(schema: Schema, parse: DateParser, elems: seq<Value>)
    requires BuildAll(schema, parse, elems).Success?
    ensures var stores := BuildAll(schema, parse, elems).value;
            && |stores| == |elems|
            && forall i :: 0 <= i < |elems| ==>
                 AssignAll(schema, parse, [], AsPairs(elems[i])) == Applied(stores[i], None)
    decreases |elems|
  {
    if elems != [] {
      BuildAllCons(schema, parse, elems);
      BuildAllElementwise(schema, parse, elems[1..]);
      var stores, tail := BuildAll(schema, parse, elems).value, BuildAll(schema, parse, elems[1..]).value;
      forall i | 1 <= i < |elems|
        ensures AssignAll(schema, parse, [], AsPairs(elems[i])) == Applied(stores[i], None)
      {
        assert elems[i] == elems[1..][i - 1] && stores[i] == tail[i - 1];
      }
    }
  }

  /** A successful listing is the first element's store in front of the listing of the rest. */
  lemma BuildAllCons(schema: Schema, parse: DateParser, elems: seq<Value>)
    requires elems != [] && BuildAll(schema, parse, elems).Success?
    ensures var first := AssignAll(schema, parse, [], AsPairs(elems[0]));
            && first == Applied(first.store, None)
            && BuildAll(schema, parse, elems[1..]).Success?
            && BuildAll(schema, parse, elems).value == [first.store] + BuildAll(schema, parse, elems[1..]).value
  {
  }

  /** A list that fails, fails with the error of the first element the factory cannot build. */
  lemma {:induction false} BuildAllFirstFailure(schema: Schema, parse: DateParser, elems: seq<Value>)
    requires BuildAll(schema, parse, elems).Failure?
    ensures exists i :: 0 <= i < |elems|
              && AssignAll(schema, parse, [], AsPairs(elems[i])).failure == Some(BuildAll(schema, parse, elems).error)
              && forall j :: 0 <= j < i ==> AssignAll(schema, parse, [], AsPairs(elems[j])).failure.None?
    decreases |elems|
  {
    var first := AssignAll(schema, parse, [], AsPairs(elems[0]));
    if first.failure.None? {
      BuildAllFirstFailure(schema, parse, elems[1..]);
      var e := BuildAll(schema, parse, elems[1..]).error;
      var i :| 0 <= i < |elems[1..]|
               && AssignAll(schema, parse, [], AsPairs(elems[1..][i])).failure == Some(e)
               && forall j :: 0 <= j < i ==> AssignAll(schema, parse, [], AsPairs(elems[1..][j])).failure.None?;
      assert elems[i + 1] == elems[1..][i];
      forall j | 0 <= j < i + 1 ensures AssignAll(schema, parse, [], AsPairs(elems[j])).failure.None? {
        if j > 0 {
          assert elems[j] == elems[1..][j - 1];
        }
      }
    }
  }

  /** Stores already built, in front of the outcome for the remaining elements. */
  function Prepend(done: seq<Store>, r: Result<seq<Store>, ModelError>): (p: Result<seq<Store>, ModelError>) {
    match r
    case Failure(e) => Failure(e)
    case Success(rest) => Success(done + rest)
  }

  lemma PrependNothing(r: Result<seq<Store>, ModelError>)
    ensures Prepend([], r) == r
  {
    if r.Success? {
      assert [] + r.value == r.value;
    }
  }

  lemma PrependTwice(done: seq<Store>, s: Store, r: Result<seq<Store>, ModelError>)
    ensures Prepend(done, Prepend([s], r)) == Prepend(done + [s], r)
  {
    if r.Success? {
      assert done + ([s] + r.value) == (done + [s]) + r.value;
    }
  }

  /** One element of the suffix starting at `i`. */
  lemma BuildAllFrom(schema: Schema, parse: DateParser, elems: seq<Value>, i: int)
    requires 0 <= i < |elems|
    ensures var first := AssignAll(schema, parse, [], AsPairs(elems[i]));
            BuildAll(schema, parse, elems[i..]) ==
              if first.failure.Some? then Failure(first.failure.value)
              else Prepend([first.store], BuildAll(schema, parse, elems[i + 1..]))
  {
    assert elems[i..][0] == elems[i] && elems[i..][1..] == elems[i + 1..];
  }

  /** `array_map` of a model factory over the elements of a response. */
  method MakeAll(schema: Schema, parse: DateParser, elems: seq<Value>) returns (r: Result<seq<Model>, ModelError>)
    requires SchemaValid(schema)
    ensures match BuildAll(schema, parse, elems)
            case Failure(e) => r == Failure(e)
            case Success(stores) =>
              && r.Success? && |r.value| == |stores|
              && (forall i :: 0 <= i < |stores| ==>
                    && fresh(r.value[i]) && r.value[i].Valid()
                    && r.value[i].schema == schema && r.value[i].parse == parse && r.value[i].data == stores[i])
              && forall i, j :: 0 <= i < j < |stores| ==> r.value[i] != r.value[j]
  {
    var models: seq<Model> := [];
    ghost var stores: seq<Store> := [];
    assert elems[0..] == elems;
    PrependNothing(BuildAll(schema, parse, elems));
    for i := 0 to |elems|
      invariant |models| == |stores| == i
      invariant forall j :: 0 <= j < i ==>
                  && fresh(models[j]) && models[j].Valid()
                  && models[j].schema == schema && models[j].parse == parse && models[j].data == stores[j]
      invariant forall j, k :: 0 <= j < k < i ==> models[j] != models[k]
      invariant BuildAll(schema, parse, elems) == Prepend(stores, BuildAll(schema, parse, elems[i..]))
    {
      BuildAllFrom(schema, parse, elems, i);
      var m := Model.Create(schema, parse, AsPairs(elems[i]));
      if m.Failure? {
        return Failure(m.error);
      }
      PrependTwice(stores, m.value.data, BuildAll(schema, parse, elems[i + 1..]));
      models := models + [m.value];
      stores := stores + [m.value.data];
    }
    assert elems[|elems|..] == [];
    assert stores + [] == stores;
    r := Success(models);
  }

  /** The outcome a list endpoint promises for a response. */
  ghost predicate ListedAs(r: Result<Option<seq<Model>>, ClientError>, schema: Schema, parse: DateParser,
                           resp: Result<Response, ClientError>)
    reads if r.Success? && r.value.Some? then set m | m in r.value.value else {}
  {
    match resp
    case Failure(e) => r == Failure(e)
    case Success(response) =>
      match Elements(response.json)
      case None => r == Success(None)
      case Some(elems) =>
        match BuildAll(schema, parse, elems)
        case Failure(e) => r == Failure(DateException(e.message))
        case Success(stores) =>
          && r.Success? && r.value.Some? && |r.value.value| == |stores|
          && (forall i :: 0 <= i < |stores| ==>
                && r.value.value[i].Valid() && r.value.value[i].schema == schema
                && r.value.value[i].parse == parse && r.value.value[i].data == stores[i])
          && forall i, j :: 0 <= i < j < |stores| ==> r.value.value[i] != r.value.value[j]
  }

  /** The request body `addPattern` posts: each key `k` renamed `pattern[k]`. */
  function PatternKey(k: string): (pk: string)
    ensures |pk| == |k| + 9
  {
    "pattern[" + k + "]"
  }

  /** One turn of the `addPattern` loop: write `pattern[k]`, then unset `k`. */
  function RenameStep(acc: Store, e: (string, Value)): (r: Store) {
    Unset(Put(acc, PatternKey(e.0), e.1), e.0)
  }

  /**
   * On an array with distinct keys, one turn moves the value to `pattern[k]`,
   * removes `k`, leaves every other key as it was, and keeps the keys distinct.
   */
  lemma RenameStepMeaning(acc: Store, e: (string, Value))
    requires DistinctKeys(acc)
    ensures var r := RenameStep(acc, e);
            && DistinctKeys(r)
            && Lookup(r, PatternKey(e.0)) == Some(e.1)
            && Lookup(r, e.0) == None
            && forall j :: j != e.0 && j != PatternKey(e.0) ==> Lookup(r, j) == Lookup(acc, j)
  {
    assert PatternKey(e.0) != e.0;
  }

  /** The body the loop sends has distinct keys whenever the data it started from had. */
  lemma {:induction false} RenameAllDistinct(acc: Store, rest: Store)
    requires DistinctKeys(acc)
    ensures DistinctKeys(RenameAll(acc, rest))
    decreases |rest|
  {
    if rest != [] {
      RenameStepMeaning(acc, rest[0]);
      RenameAllDistinct(RenameStep(acc, rest[0]), rest[1..]);
    }
  }

  /** The rest of the loop, from working array `acc`, over the remaining entries of the original. */
  function RenameAll(acc: Store, rest: Store): (r: Store)
    decreases |rest|
  {
    if rest == [] then acc else RenameAll(RenameStep(acc, rest[0]), rest[1..])
  }

  /** The plain renaming: every entry keeps its value and position under `pattern[k]`. */
  function Prefixed(data: Store): (r: Store) {
    seq(|data|, i requires 0 <= i < |data| => (PatternKey(data[i].0), data[i].1))
  }

  /** No key of `data` is already the renamed form of a key of `data`. */
  predicate NoPrefixedKeys(data: Store) {
    forall i, j :: 0 <= i < |data| && 0 <= j < |data| ==> data[i].0 != PatternKey(data[j].0)
  }

  /**
   * The loop of `addPattern`: it iterates over the original entries while
   * rewriting its own copy of the array in place.
   */
  method RenameKeys(data: Store) returns (r: Store)
    ensures r == RenameAll(data, data)
    ensures DistinctKeys(data) && NoPrefixedKeys(data) ==> r == Prefixed(data)
  {
    r := data;
    for i := 0 to |data|
      invariant RenameAll(r, data[i..]) == RenameAll(data, data)
    {
      assert data[i..][0] == data[i] && data[i..][1..] == data[i + 1..];
      var (k, v) := data[i];
      r := Put(r, PatternKey(k), v);
      r := Unset(r, k);
    }
    assert data[|data|..] == [];
    if DistinctKeys(data) && NoPrefixedKeys(data) {
      RenamePrefixes(data);
    }
  }

  /** Different keys are renamed to different keys. */
  lemma PatternKeyInjective(a: string, b: string)
    requires PatternKey(a) == PatternKey(b)
    ensures a == b
  {
    assert a == PatternKey(a)[8..|PatternKey(a)| - 1];
    assert b == PatternKey(b)[8..|PatternKey(b)| - 1];
  }

  /** When no key collides with a renamed one, the loop performs exactly the plain renaming. */
  lemma RenamePrefixes(data: Store)
    requires DistinctKeys(data) && NoPrefixedKeys(data)
    ensures RenameAll(data, data) == Prefixed(data)
  {
    assert data[0..] + Prefixed(data[..0]) == data;
    RenameFrom(data, 0);
  }

  /** The working array after `i` turns of the loop on a collision-free array. */
  function Midway(data: Store, i: int): (r: Store)
    requires 0 <= i <= |data|
  {
    data[i..] + Prefixed(data[..i])
  }

  /** After `i` turns the working array holds the untouched entries, then the renamed ones. */
  lemma {:induction false} RenameFrom(data: Store, i: int)
    requires DistinctKeys(data) && NoPrefixedKeys(data) && 0 <= i <= |data|
    ensures RenameAll(Midway(data, i), data[i..]) == Prefixed(data)
    decreases |data| - i
  {
    if i == |data| {
      assert data[..i] == data;
      assert Midway(data, i) == Prefixed(data);
    } else {
      RenameTurn(data, i);
      assert data[i..][0] == data[i] && data[i..][1..] == data[i + 1..];
      RenameFrom(data, i + 1);
    }
  }

  /** Turn `i` appends the renamed entry and drops the original, which is first in line. */
  lemma RenameTurn(data: Store, i: int)
    requires DistinctKeys(data) && NoPrefixedKeys(data) && 0 <= i < |data|
    ensures RenameStep(Midway(data, i), data[i]) == Midway(data, i + 1)
  {
    var acc := Midway(data, i);
    var renamed := (PatternKey(data[i].0), data[i].1);
    RenamedKeyIsFresh(data, i);
    MidwayShape(data, i);
    RenameHead(acc, data[i]);
    PrefixedSnoc(data, i);
    SnocAssoc(data[i + 1..], Prefixed(data[..i]), renamed);
  }

  lemma SnocAssoc<T>(a: seq<T>, b: seq<T>, x: T)
    ensures (a + b) + [x] == a + (b + [x])
  {
  }

  /** The array midway through the loop starts with the entry about to be renamed. */
  lemma MidwayShape(data: Store, i: int)
    requires 0 <= i < |data|
    ensures Midway(data, i)[0] == data[i]
    ensures Midway(data, i)[1..] == data[i + 1..] + Prefixed(data[..i])
  {
    assert data[i..] == [data[i]] + data[i + 1..];
  }

  /** Renaming the first entry of an array that does not hold its renamed key yet. */
  lemma RenameHead(acc: Store, e: (string, Value))
    requires |acc| > 0 && acc[0] == e && PatternKey(e.0) !in Keys(acc)
    ensures RenameStep(acc, e) == acc[1..] + [(PatternKey(e.0), e.1)]
  {
    var put := Put(acc, PatternKey(e.0), e.1);
    assert put == acc + [(PatternKey(e.0), e.1)];
    assert put[0] == e;
    assert IndexOf(put, e.0) == 0;
    assert put[..0] + put[1..] == put[1..];
    TailOfSnoc(acc, (PatternKey(e.0), e.1));
  }

  lemma TailOfSnoc<T>(a: seq<T>, x: T)
    requires |a| > 0
    ensures (a + [x])[1..] == a[1..] + [x]
  {
  }

  lemma PrefixedSnoc(data: Store, i: int)
    requires 0 <= i < |data|
    ensures Prefixed(data[..i + 1]) == Prefixed(data[..i]) + [(PatternKey(data[i].0), data[i].1)]
  {
    var a, b := Prefixed(data[..i + 1]), Prefixed(data[..i]) + [(PatternKey(data[i].0), data[i].1)];
    assert |a| == |b|;
    forall m | 0 <= m < |a| ensures a[m] == b[m] {
      assert data[..i + 1][m] == data[m];
      if m < i {
        assert data[..i][m] == data[m];
      }
    }
  }

  lemma RenamedKeyIsFresh(data: Store, i: int)
    requires DistinctKeys(data) && NoPrefixedKeys(data) && 0 <= i < |data|
    ensures PatternKey(data[i].0) !in Keys(Midway(data, i))
  {
    var acc := Midway(data, i);
    var k := data[i].0;
    forall m | 0 <= m < |acc| ensures Keys(acc)[m] != PatternKey(k) {
      if m < |data| - i {
        assert acc[m] == data[i + m];
      } else {
        var n := m - (|data| - i);
        assert acc[m] == Prefixed(data[..i])[n] == (PatternKey(data[n].0), data[n].1);
        if PatternKey(data[n].0) == PatternKey(k) {
          PatternKeyInjective(data[n].0, k);
        }
      }
    }
  }

  datatype Client = Client(transport: Transport, readPath: string -> string, parseDate: DateParser)
  {
    /** `request($verb, $resource, $options)`: the response, or the classified exception. */
    function Request(verb: Verb, resource: string, options: Store): (r: Result<Response, ClientError>)
      ensures transport(verb, resource, options).Success? ==> r == Success(transport(verb, resource, options).value)
      ensures transport(verb, resource, options).Failure? ==>
                r == Failure(HandleException(transport(verb, resource, options).error))
      ensures r.Failure? ==> r.error.FromTransport()
    {
      match transport(verb, resource, options)
      case Success(response) => Success(response)
      case Failure(e) => Failure(HandleException(e))
    }

    /**
     * `readFile($data, $key)`: when `$data[$key]` is set, replace it by the
     * content of the part it holds, or of the file at the path it holds;
     * any other value is refused.
     */
    function ReadFile(data: Store, key: string): (r: Result<Store, ClientError>)
      ensures Lookup(data, key).None? || Lookup(data, key) == Some(Null) ==> r == Success(data)
      ensures r.Failure? <==>
                Lookup(data, key).Some? && !(Lookup(data, key).value.Null? || Lookup(data, key).value.Str? || Lookup(data, key).value.Part?)
      ensures r.Failure? ==> r.error == InvalidArgumentException(FileTypeMessage)
      ensures Lookup(data, key).Some? && Lookup(data, key).value.Part? ==>
                r.Success? && Lookup(r.value, key) == Some(Str(Lookup(data, key).value.content))
      ensures Lookup(data, key).Some? && Lookup(data, key).value.Str? ==>
                r.Success? && Lookup(r.value, key) == Some(Str(readPath(Lookup(data, key).value.s)))
      ensures r.Success? ==> Keys(r.value) == Keys(data)
      ensures r.Success? ==> forall j :: j != key ==> Lookup(r.value, j) == Lookup(data, j)
      ensures r.Success? && DistinctKeys(data) ==>
                DistinctKeys(r.value) && forall i :: 0 <= i < |data| && data[i].0 != key ==> r.value[i] == data[i]
    {
      var file := Lookup(data, key);
      if file.None? || file.value == Null then Success(data)
      else
        match file.value
        case Part(content) => Success(Put(data, key, Str(content)))
        case Str(path) => Success(Put(data, key, Str(readPath(path))))
        case _ => Failure(InvalidArgumentException(FileTypeMessage))
    }

    /** Resolve the `file` entry, then post the result to `resource` and return the decoded response. */
    function PostWithFile(resource: string, data: Store): (r: Result<Value, ClientError>)
      ensures ReadFile(data, DefaultFileKey).Failure? ==> r == Failure(ReadFile(data, DefaultFileKey).error)
      ensures ReadFile(data, DefaultFileKey).Success? ==>
                var sent := Request(POST, resource, [("body", Dict(ReadFile(data, DefaultFileKey).value))]);
                r == if sent.Success? then Success(sent.value.json) else Failure(sent.error)
      ensures r.Failure? ==> r.error.FromTransport() || r.error.InvalidArgumentException?
    {
      match ReadFile(data, DefaultFileKey)
      case Failure(e) => Failure(e)
      case Success(resolved) =>
        match Request(POST, resource, [("body", Dict(resolved))])
        case Failure(e) => Failure(e)
        case Success(response) => Success(response.json)
    }

    /** `featureMatching($data)`: the decoded response, unmodified. */
    function FeatureMatching(data: Store): (r: Result<Value, ClientError>)
      ensures ReadFile(data, DefaultFileKey).Failure? ==> r == Failure(InvalidArgumentException(FileTypeMessage))
      ensures ReadFile(data, DefaultFileKey).Success? ==>
                var sent := transport(POST, "patterns/feature_matcher", [("body", Dict(ReadFile(data, DefaultFileKey).value))]);
                && (sent.Success? ==> r == Success(sent.value.json))
                && (sent.Failure? ==> r == Failure(HandleException(sent.error)))
    {
      PostWithFile("patterns/feature_matcher", data)
    }

    /** `ocr($data)`: the decoded response, unmodified; `rectangles` travel in the body as given. */
    function Ocr(data: Store): (r: Result<Value, ClientError>)
      ensures ReadFile(data, DefaultFileKey).Failure? ==> r == Failure(InvalidArgumentException(FileTypeMessage))
      ensures ReadFile(data, DefaultFileKey).Success? ==>
                var sent := transport(POST, "patterns/ocr", [("body", Dict(ReadFile(data, DefaultFileKey).value))]);
                && (sent.Success? ==> r == Success(sent.value.json))
                && (sent.Failure? ==> r == Failure(HandleException(sent.error)))
    {
      PostWithFile("patterns/ocr", data)
    }

    /** `deletePattern($id)`: the raw body of the DELETE response cast to boolean. */
    function DeletePattern(id: int): (r: Result<bool, ClientError>)
      ensures var sent := transport(DELETE, "patterns/" + IntToString(id), []);
              && (sent.Success? ==> r == Success(Truthy(sent.value.body)))
              && (sent.Failure? ==> r == Failure(HandleException(sent.error)))
    {
      match Request(DELETE, "patterns/" + IntToString(id), [])
      case Failure(e) => Failure(e)
      case Success(response) => Success(Truthy(response.body))
    }

    /** `addPattern($data)`: resolve the file, rename the keys, post, and build a Pattern from the response. */
    method AddPattern(data: Store) returns (r: Result<Model, ClientError>)
      ensures ReadFile(data, DefaultFileKey).Failure? ==> r == Failure(ReadFile(data, DefaultFileKey).error)
      ensures ReadFile(data, DefaultFileKey).Success? ==>
                var sent := Request(POST, "patterns", [("body", Dict(RenameAll(ReadFile(data, DefaultFileKey).value, ReadFile(data, DefaultFileKey).value)))]);
                && (sent.Failure? ==> r == Failure(sent.error))
                && (sent.Success? ==>
                      && r.Success? && fresh(r.value) && r.value.Valid()
                      && r.value.schema == Pattern.PatternSchema && r.value.parse == parseDate
                      && r.value.data == AssignAll(Pattern.PatternSchema, parseDate, [], AsPairs(sent.value.json)).store)
    {
      var resolved := ReadFile(data, DefaultFileKey);
      if resolved.Failure? {
        return Failure(resolved.error);
      }
      var body := RenameKeys(resolved.value);
      var sent := Request(POST, "patterns", [("body", Dict(body))]);
      if sent.Failure? {
        return Failure(sent.error);
      }
      var made := Pattern.GetInstance(parseDate, AsPairs(sent.value.json));
      r := Success(made.value);
    }

    /** `listCategories()`: one Category per element of the response, in order. */
    method ListCategories() returns (r: Result<Option<seq<Model>>, ClientError>)
      ensures ListedAs(r, Category.CategorySchema, parseDate, Request(GET, "categories", []))
      ensures r.Success? && r.value.Some? ==> forall m :: m in r.value.value ==> fresh(m)
    {
      r := ListModels(Category.CategorySchema, "categories", []);
    }

    /** `listPatterns($page)`: one Pattern per element of the requested page, in order. */
    method ListPatterns(page: Value) returns (r: Result<Option<seq<Model>>, ClientError>)
      ensures ListedAs(r, Pattern.PatternSchema, parseDate, Request(GET, "patterns", [("query", Dict([("page", page)]))]))
      ensures r.Success? && r.value.Some? ==> forall m :: m in r.value.value ==> fresh(m)
    {
      r := ListModels(Pattern.PatternSchema, "patterns", [("query", Dict([("page", page)]))]);
    }

    method ListModels(schema: Schema, resource: string, options: Store) returns (r: Result<Option<seq<Model>>, ClientError>)
      requires SchemaValid(schema)
      ensures ListedAs(r, schema, parseDate, Request(GET, resource, options))
      ensures r.Success? && r.value.Some? ==> forall m :: m in r.value.value ==> fresh(m)
    {
      var sent := Request(GET, resource, options);
      if sent.Failure? {
        return Failure(sent.error);
      }
      var elems := Elements(sent.value.json);
      if elems.None? {
        return Success(None);
      }
      var made := MakeAll(schema, parseDate, elems.value);
      if made.Failure? {
        return Failure(DateException(made.error.message));
      }
      r := Success(Some(made.value));
    }
  }

  /** `readFile`'s default key. */
  const DefaultFileKey: string := "file"
}
