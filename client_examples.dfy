/**
 * Properties of the client that relate several calls, and the behaviour
 * its unit tests pin down, stated over the model.
 */
module ClientExamples {
  import opened Wrappers
  import opened PhpArrays
  import opened Values
  import opened Models
  import opened Rubix
  import Pattern

  /** A file entry that is neither a path nor a part is refused before any read or request, whatever the reader and transport. */
  lemma InvalidFileSendsNothing(c1: Client, c2: Client, data: Store)
    requires c1.ReadFile(data, DefaultFileKey).Failure?
    ensures c1.FeatureMatching(data) == c2.FeatureMatching(data) == Failure(InvalidArgumentException(FileTypeMessage))
    ensures c1.Ocr(data) == c2.Ocr(data) == Failure(InvalidArgumentException(FileTypeMessage))
    ensures c2.ReadFile(data, DefaultFileKey) == c1.ReadFile(data, DefaultFileKey)
  {
  }

  /** A part under the named key is replaced by its content, in place. */
  lemma ReadFilePart(c: Client)
    ensures c.ReadFile([("id", Int(1)), ("foo", Part("bar"))], "foo") == Success([("id", Int(1)), ("foo", Str("bar"))])
  {
    var data := [("id", Int(1)), ("foo", Part("bar"))];
    assert "id" != "foo";
    assert IndexOf(data, "foo") == 1;
    assert Lookup(data, "foo") == Some(Part("bar"));
    assert Put(data, "foo", Str("bar")) == data[1 := ("foo", Str("bar"))];
    assert c.ReadFile(data, "foo") == Success(Put(data, "foo", Str("bar")));
    assert data[1 := ("foo", Str("bar"))] == [("id", Int(1)), ("foo", Str("bar"))];
  }

  /** Without an entry under the key, the data is returned as given. */
  lemma ReadFileNoFile(c: Client)
    ensures c.ReadFile([("id", Int(1)), ("foo", Str("bar"))], DefaultFileKey) == Success([("id", Int(1)), ("foo", Str("bar"))])
  {
    var data := [("id", Int(1)), ("foo", Str("bar"))];
    assert "file" != "id" && "file" != "foo";
    assert IndexOf(data, "file") == -1;
  }

  /** An integer is no file. */
  lemma ReadFileNotString(c: Client)
    ensures c.ReadFile([("id", Int(1)), ("file", Int(1))], DefaultFileKey) == Failure(InvalidArgumentException(FileTypeMessage))
  {
    var data := [("id", Int(1)), ("file", Int(1))];
    assert "file" != "id";
    assert IndexOf(data, "file") == 1;
  }

  /** A path is replaced by the content of the file it names. */
  lemma ReadFileWithPath(c: Client)
    requires c.readPath("path/to/file.jpg") == "File Data."
    ensures c.ReadFile([("id", Int(1)), ("file", Str("path/to/file.jpg"))], DefaultFileKey)
         == Success([("id", Int(1)), ("file", Str("File Data."))])
  {
    var data := [("id", Int(1)), ("file", Str("path/to/file.jpg"))];
    assert "file" != "id";
    assert IndexOf(data, "file") == 1;
    assert Lookup(data, "file") == Some(Str("path/to/file.jpg"));
    assert Put(data, "file", Str("File Data.")) == data[1 := ("file", Str("File Data."))];
    assert c.ReadFile(data, "file") == Success(Put(data, "file", Str(c.readPath("path/to/file.jpg"))));
    assert data[1 := ("file", Str("File Data."))] == [("id", Int(1)), ("file", Str("File Data."))];
  }

  /** The body `addPattern` posts for a part, a label and a category name. */
  lemma AddPatternBody(c: Client)
    ensures var data := [("file", Part("filey stuff")), ("label", Str("foobar")), ("category_name", Str("matching"))];
            var resolved := c.ReadFile(data, DefaultFileKey);
            && resolved.Success?
            && RenameAll(resolved.value, resolved.value)
               == [("pattern[file]", Str("filey stuff")), ("pattern[label]", Str("foobar")), ("pattern[category_name]", Str("matching"))]
  {
    ResolveTestPart(c);
    RenameTestBody();
  }

  lemma ResolveTestPart(c: Client)
    ensures c.ReadFile([("file", Part("filey stuff")), ("label", Str("foobar")), ("category_name", Str("matching"))], DefaultFileKey)
         == Success([("file", Str("filey stuff")), ("label", Str("foobar")), ("category_name", Str("matching"))])
  {
    var data := [("file", Part("filey stuff")), ("label", Str("foobar")), ("category_name", Str("matching"))];
    assert IndexOf(data, "file") == 0;
    assert Lookup(data, "file") == Some(Part("filey stuff"));
    assert Put(data, "file", Str("filey stuff")) == data[0 := ("file", Str("filey stuff"))];
    assert c.ReadFile(data, "file") == Success(Put(data, "file", Str("filey stuff")));
    assert data[0 := ("file", Str("filey stuff"))]
        == [("file", Str("filey stuff")), ("label", Str("foobar")), ("category_name", Str("matching"))];
  }

  lemma RenameTestBody()
    ensures var resolved := [("file", Str("filey stuff")), ("label", Str("foobar")), ("category_name", Str("matching"))];
            RenameAll(resolved, resolved)
            == [("pattern[file]", Str("filey stuff")), ("pattern[label]", Str("foobar")), ("pattern[category_name]", Str("matching"))]
  {
    var resolved := [("file", Str("filey stuff")), ("label", Str("foobar")), ("category_name", Str("matching"))];
    assert DistinctKeys(resolved) by {
      assert resolved[0].0 != resolved[1].0 && resolved[0].0 != resolved[2].0 && resolved[1].0 != resolved[2].0;
    }
    assert NoPrefixedKeys(resolved) by {
      assert resolved[0].0[0] == 'f' && resolved[1].0[0] == 'l' && resolved[2].0[0] == 'c';
      NoLeadingP(resolved);
    }
    RenamePrefixes(resolved);
    PrefixedTestBody();
  }

  lemma PrefixedTestBody()
    ensures Prefixed([("file", Str("filey stuff")), ("label", Str("foobar")), ("category_name", Str("matching"))])
         == [("pattern[file]", Str("filey stuff")), ("pattern[label]", Str("foobar")), ("pattern[category_name]", Str("matching"))]
  {
    assert PatternKey("file") == "pattern[file]";
    assert PatternKey("label") == "pattern[label]";
    assert PatternKey("category_name") == "pattern[category_name]";
  }

  /** Keys that do not begin with `p` cannot be renamed forms of any key. */
  lemma NoLeadingP(data: Store)
    requires forall i :: 0 <= i < |data| ==> |data[i].0| > 0 && data[i].0[0] != 'p'
    ensures NoPrefixedKeys(data)
  {
    forall i, j | 0 <= i < |data| && 0 <= j < |data|
      ensures data[i].0 != PatternKey(data[j].0)
    {
      assert PatternKey(data[j].0)[0] == 'p';
    }
  }

  /**
   * When a key already has the renamed form of another key, the loop of
   * `addPattern` overwrites that entry and then renames it a second time:
   * `a => 1, pattern[a] => 2` is sent as `pattern[pattern[a]] => 2` alone.
   */
  lemma RenameCollision()
    ensures var data := [("a", Int(1)), ("pattern[a]", Int(2))];
            && RenameAll(data, data) == [("pattern[pattern[a]]", Int(2))]
            && RenameAll(data, data) != Prefixed(data)
  {
    var data := [("a", Int(1)), ("pattern[a]", Int(2))];
    assert PatternKey("a") == "pattern[a]";
    assert PatternKey("pattern[a]") == "pattern[pattern[a]]";
    CollisionFirstTurn("a", Int(1), Int(2));
    CollisionSecondTurn("pattern[a]", Int(1), Int(2));
    assert RenameAll(data, data) == RenameAll(RenameStep(data, data[0]), data[1..]);
    assert data[1..] == [("pattern[a]", Int(2))];
    assert RenameAll([("pattern[a]", Int(1))], [("pattern[a]", Int(2))])
        == RenameAll(RenameStep([("pattern[a]", Int(1))], ("pattern[a]", Int(2))), []);
    assert |Prefixed(data)| == 2;
  }

  /** The first turn overwrites the existing `pattern[k]` entry and drops `k`. */
  lemma CollisionFirstTurn(k: string, x: Value, y: Value)
    ensures RenameStep([(k, x), (PatternKey(k), y)], (k, x)) == [(PatternKey(k), x)]
  {
    var data := [(k, x), (PatternKey(k), y)];
    assert k != PatternKey(k) by { assert |PatternKey(k)| > |k|; }
    assert IndexOf(data, PatternKey(k)) == 1;
    var put := Put(data, PatternKey(k), x);
    assert put == data[1 := (PatternKey(k), x)];
    assert IndexOf(put, k) == 0;
    assert Unset(put, k) == put[1..];
  }

  /** The second turn renames the overwritten entry once more, with the later value. */
  lemma CollisionSecondTurn(k: string, x: Value, y: Value)
    ensures RenameStep([(k, x)], (k, y)) == [(PatternKey(k), y)]
  {
    var acc := [(k, x)];
    assert k != PatternKey(k) by { assert |PatternKey(k)| > |k|; }
    assert IndexOf(acc, PatternKey(k)) == -1;
    var put := Put(acc, PatternKey(k), y);
    assert put == acc + [(PatternKey(k), y)];
    assert IndexOf(put, k) == 0;
    assert Unset(put, k) == put[1..];
  }

  /** A DELETE answered with the body `"true"` reports success. */
  lemma DeletePatternTrue(c: Client)
    requires c.transport(DELETE, "patterns/123", []) == Success(Response(Null, Str("true")))
    ensures c.DeletePattern(123) == Success(true)
  {
    assert IntToString(123) == "123";
    assert "patterns/" + IntToString(123) == "patterns/123";
  }

  /** A DELETE of a missing pattern ends in the not-found exception. */
  lemma DeletePatternMissing(c: Client, message: string)
    requires c.transport(DELETE, "patterns/124", []) == Failure(Thrown(404, message))
    ensures c.DeletePattern(124) == Failure(NotFoundException(message))
  {
    assert IntToString(124) == "124";
    assert "patterns/" + IntToString(124) == "patterns/124";
  }

  /** A page of two patterns lists one store per pattern, each holding the fields it was given. */
  lemma ListTwoPatterns(parse: DateParser)
    ensures var one := [("id", Int(1)), ("label", Str("foo"))];
            var two := [("id", Int(2)), ("label", Str("bar"))];
            BuildAll(Pattern.PatternSchema, parse, [Dict(one), Dict(two)]) == Success([one, two])
  {
    assert Pattern.PatternFields[0] == "id" && Pattern.PatternFields[1] == "label";
    StoresTwoFields(Pattern.PatternSchema, parse, ("id", Int(1)), ("label", Str("foo")));
    StoresTwoFields(Pattern.PatternSchema, parse, ("id", Int(2)), ("label", Str("bar")));
    ListTwo(parse, [("id", Int(1)), ("label", Str("foo"))], [("id", Int(2)), ("label", Str("bar"))]);
  }

  lemma ListTwo(parse: DateParser, one: Store, two: Store)
    requires AssignAll(Pattern.PatternSchema, parse, [], one) == Applied(one, None)
    requires AssignAll(Pattern.PatternSchema, parse, [], two) == Applied(two, None)
    ensures BuildAll(Pattern.PatternSchema, parse, [Dict(one), Dict(two)]) == Success([one, two])
  {
    var elems := [Dict(one), Dict(two)];
    ListOnePattern(parse, two);
    BuildAllFrom(Pattern.PatternSchema, parse, elems, 0);
    assert elems[0..] == elems && elems[1..] == [Dict(two)];
    assert [one] + [two] == [one, two];
  }

  lemma ListOnePattern(parse: DateParser, store: Store)
    requires AssignAll(Pattern.PatternSchema, parse, [], store) == Applied(store, None)
    ensures BuildAll(Pattern.PatternSchema, parse, [Dict(store)]) == Success([store])
  {
    var elems := [Dict(store)];
    BuildAllFrom(Pattern.PatternSchema, parse, elems, 0);
    assert elems[0..] == elems && elems[1..] == [];
    assert BuildAll(Pattern.PatternSchema, parse, []) == Success([]);
    assert [store] + [] == [store];
  }
}
