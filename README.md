# rubix-php, modelled in Dafny

`rubix-php` is a PHP client for the Rubix image-recognition web API. Two parts
are modelled here:

- **The models.** `Model` is an attribute bag restricted to a whitelist of
  field names. Fields listed as dates are parsed into instants when written,
  and are exported as Unix timestamps. `Category` and `Pattern` are its two
  schemas.
- **The client.** It shapes each API request and resolves a `file` entry into
  file content. It renames the keys of a new pattern to `pattern[k]`. It turns
  each decoded response into models, and it maps transport failures to four
  exception kinds by HTTP status.

Modules:

- `Wrappers`: `Option` and `Result`.
- `PhpArrays`: PHP's ordered string-keyed arrays. These are sequences of
  key/value pairs. Writing a key overwrites it in place if present and
  appends it otherwise. `unset` removes the entry.
- `Values`: the PHP values that flow through the client.
  - `Truthy` is PHP's boolean cast.
  - `Timestamp` is Carbon's `->timestamp`.
  - `IntToString` is the integer-to-string conversion used when building
    `patterns/{id}`.
- `Models`: the store semantics as functions, and the `Model` class.
  - The functions are `Assign` (`setAttribute`), `AssignAll` (`setData`),
    `Attribute` (`getAttribute`) and `Exported` (`toArray`).
  - The `Model` class has a mutable `data` field. Each of its methods is
    proved against the function above.
- `Category`, `Pattern`: the two schemas and their factories.
- `Rubix`: the client.
  - The client is a datatype over three things it cannot see: the HTTP
    transport, a file reader and a date parser.
  - `RenameKeys` models the `addPattern` loop exactly. That loop writes
    `pattern[k]` and then unsets `k` on the array it is iterating over.
  - `MakeAll` is the `array_map` over a response.
- `ClientExamples`: cross-call properties and the behaviour the unit tests
  pin down.

The `addPattern` loop is not the same as plain prefixing:

- `RenamePrefixes` proves the two agree when the keys are distinct and no key
  already has the form `pattern[k]` of another key.
- `RenameCollision` shows the input where they differ:
  `['a' => 1, 'pattern[a]' => 2]` is sent as `['pattern[pattern[a]]' => 2]`.
- Such keys are outside the documented input of `addPattern`, so this is
  recorded as a property of the code, not as a defect.

Feeding a model's `toArray()` back to `setData` does not always rebuild it:

- `ExportRoundTripField` proves that, for any schema, a run that completes
  gives back every whitelisted field that is not a date.
- For a schema with dates, the run completes only if the date parser accepts
  the exported Unix timestamps. `CategoryRoundTripCanLoseFields` shows a
  Category whose parser refuses its own `created_at` timestamp: `setData`
  stops there, and `id`, which comes after it, is lost.
- Whether PHP's `DateTime` accepts a bare integer timestamp is outside the
  model, which takes the parser as a parameter.

## Model

| member | source | states |
|---|---|---|
| Values.Truthy | src/Client.php:106 | PHP's `(boolean)` cast is false exactly for null, `false`, `0`, `0.0`, `""`, `"0"` and the empty array. Every other value is true. |
| Values.Timestamp | src/Models/Model.php:134 | Defines the abstraction of Carbon's `->timestamp`: a date's whole Unix seconds, as an integer, and null for a value that is not a date. |
| Values.IntToStringRoundTrip | src/Client.php:108 | Reading the decimal string of `$pattern_id` back gives the same integer. |
| Values.IntToStringInjective | src/Client.php:108 | Two different ids never give the same `patterns/{id}` path. |
| PhpArrays.Lookup | src/Models/Model.php:84-85 | `$a[$k]` is absent exactly when no entry has key `k`. When keys are distinct, it is the value of the entry with key `k`. |
| PhpArrays.Put | src/Models/Model.php:72 | After `$a[$k] = $v`, `k` reads `v` and every other key reads as before. An existing key keeps its position; a new key is appended at the end. Distinct keys stay distinct. |
| PhpArrays.Unset | src/Client.php:130 | `unset($a[$k])` on a missing key changes nothing. With distinct keys, `k` becomes absent, every other key reads as before and keys stay distinct. |
| Models.Coerce | src/Models/Model.php:67-70 | A date field's value becomes the parsed instant. The write fails exactly when the field is a date and the value does not parse, and the error carries the parser's message. A value for any other field is kept as given. |
| Models.Assign | src/Models/Model.php:64-74 | A key outside the whitelist leaves the store unchanged. It fails exactly for a date field whose value does not parse. Otherwise the key reads the value, or the parsed date for a date field. Other keys are unchanged, the key is appended only if new, and the store's well-formedness is kept. |
| Models.AssignAll | src/Models/Model.php:48-55 | `setData` keeps the store well formed, and keys absent from the input read as before. |
| Models.AssignAllAppend | src/Models/Model.php:50-52 | Running the pairs of `a` and then the pairs of `b` is the same as running their concatenation, unless the run over `a` stopped at an exception. |
| Models.AssignAllIgnoresUnknown | src/Models/Model.php:66 | Pairs whose keys are not whitelisted have no effect on `setData`. |
| Models.AssignAllLastWins | src/Models/Model.php:50-52 | After a complete `setData`, a non-date field holds the value of its last occurrence in the input. |
| Models.SetThenGet | src/Models/Model.php:64-89 | Writing a whitelisted non-date field cannot fail. Reading the field back returns the value written, or `false` when null was written. Every other field reads as before. |
| Models.OverwriteReplaces | src/Models/Model.php:72 | A second write to a field replaces the first, in the same position. |
| Models.Attribute | src/Models/Model.php:82-89 | `getAttribute` is `false` exactly when the key is not whitelisted or its value is unset, null or `false`. Otherwise it is the stored value. |
| Models.Model.GetAttribute | src/Models/Model.php:82-89 | Reading the model's data gives `false` exactly when the key is not whitelisted or its value is unset, null or `false`. Otherwise it gives the stored value. |
| Models.ExportedMeaning | src/Models/Model.php:129-138 | `toArray()` keeps the store's keys in order. An entry that is not a set date field is copied, and a set date field becomes its timestamp. |
| Models.ExportStep | src/Models/Model.php:132-136 | Converting one more date field changes only that field's entry, and only when it is set. |
| Models.ExportRoundTripField | src/Models/Model.php:129-138 | For any schema, if `setData(toArray())` on an empty model runs to the end, every whitelisted field that is not a date reads as it did in the exported model. |
| Models.StoresTwoFields | src/Models/Model.php:64-74 | Two distinct whitelisted fields that are not dates, written into an empty store, are stored as given and in that order. |
| Models.SkipsUnknown | src/Models/Model.php:66 | A pair with a key outside the whitelist, given between two others, does not change what `setData` does. |
| Models.UndatedRoundTrip | src/Models/Model.php:129-138 | For a schema without dates, `toArray()` is the store itself, and `setData(toArray())` on an empty model rebuilds the same store. |
| Models.EmptyInstance | src/Models/Model.php:35-40 | A model built with no data stores nothing and exports the empty array. |
| Models.Model.Empty | src/Models/Model.php:35-40 | A model built without data stores nothing. |
| Models.Model.Create | src/Models/Model.php:35-40 | `new Model($data)` is `setData($data)` on an empty model when `$data` is non-empty. It throws the first date error of that run. |
| Models.Model.SetData | src/Models/Model.php:48-55 | The loop leaves exactly the store `AssignAll` describes and returns the model itself, or the first date error. The assignments made before that error remain. |
| Models.Model.SetAttribute | src/Models/Model.php:64-74 | The new store is the `Assign` result, or the store is unchanged with the date error returned. `__set`, at src/Models/Model.php:98-101, is the same call. |
| Models.Model.ToArray | src/Models/Model.php:129-138 | The result has the store's keys in the store's order. Non-date entries are copied, and each set date field becomes its instant's Unix timestamp. |
| Models.Model.ToJson | src/Models/Model.php:119-122 | `toJson()` encodes the `toArray()` result. `__toString()`, at src/Models/Model.php:146-149, returns the same. |
| Category.CategoryRoundTripCanLoseFields | src/Models/Model.php:50-52 | When the parser refuses the exported timestamp of `created_at`, `setData(toArray())` of `[created_at => t, id => 7]` fails, and `id` is not rebuilt. |
| Category.GetInstance | src/Models/Category.php:11-36 | A Category is built from the given data under the four-field schema with two dates, or fails with the first date error. |
| Category.OnlyCategoryFields | src/Models/Category.php:11-16 | Whatever data is given, a Category stores only `id`, `title`, `created_at` and `updated_at`. |
| Category.CategoryCoercion | src/Models/Category.php:22-25 | `created_at` and `updated_at` store the parsed date or throw the parse error. `id` and `title` store the value as given. |
| Category.CategorySetDataExample | test/Unit/Models/CategoryTest.php:38-47 | `['id' => 1, 'foo' => 'bar', 'title' => 'foobar']` stores `id` and `title` in that order. It exports the same array, and `foo` reads `false`. |
| Pattern.GetInstance | src/Models/Pattern.php:11-27 | A Pattern is always built and holds exactly what `setData` stores under its four fields. |
| Pattern.PatternNeverFails | src/Models/Pattern.php:11-16 | With no date fields, no write to a Pattern can throw. |
| Pattern.PatternExportIsStore | src/Models/Pattern.php:11-16 | A Pattern's `toArray()` is its store. |
| Pattern.PatternRoundTrip | src/Models/Pattern.php:24-27 | Rebuilding a Pattern from its own `toArray()` gives back the same store. |
| Pattern.PatternSetDataExample | test/Unit/Models/PatternTest.php:74-81 | `['id' => 1, 'foo' => 'bar', 'label' => 'foobar']` stores `id` and `label` in that order. `toArray()` gives exactly those two, and `foo` reads `false`. |
| Pattern.SuccessiveWrites | test/Unit/Models/PatternTest.php:52-69 | Writing `id` as 1, 55 and then 19, with `foo` written in between, leaves `id` reading 19 and `foo` reading `false`. |
| Rubix.HandleException | src/Client.php:221-237 | Status 401, 422 and 404 give Authorization, Response and NotFound exceptions. Every other code gives a Service exception. The message is always kept. |
| Rubix.Client.Request | src/Client.php:200-209 | Defines `request` over the transport parameter: the transport's response is returned unchanged, and a transport exception becomes the `handleException` result. |
| Rubix.Client.ReadFile | src/Client.php:250-270 | An unset or null entry leaves the data unchanged. A part is replaced by its content, and a path by the content of the file it names. Any other value throws the invalid-argument exception with its fixed message. Keys, order and every other entry are kept. |
| Rubix.Client.PostWithFile | src/Client.php:165-190 | Defines the shared shape of feature matching and OCR: the file is resolved first, and a refused file is returned as that error with no request. Otherwise the resolved data is posted as the body and the decoded JSON is returned. |
| Rubix.Client.FeatureMatching | src/Client.php:165-171 | A refused file gives the invalid-argument exception. Otherwise the result is the transport's decoded answer to a POST of the resolved data to `patterns/feature_matcher`, or the classified exception. |
| Rubix.Client.Ocr | src/Client.php:184-190 | The same as feature matching, against `patterns/ocr`. |
| Rubix.Client.DeletePattern | src/Client.php:104-110 | DELETE `patterns/{id}`, then return the boolean cast of the raw body, or the classified exception. |
| Rubix.Client.AddPattern | src/Client.php:124-151 | A refused file throws. Otherwise the renamed data is posted, and the result is a fresh Pattern built from the decoded response, or the classified exception. |
| Rubix.Client.ListCategories | src/Client.php:56-76 | GET `categories`, then one fresh Category per element of the response, in order. A failure gives the first element's date error or the classified exception. A non-array response maps to nothing. |
| Rubix.Client.ListPatterns | src/Client.php:84-93 | GET `patterns` with the query `page`, then one fresh Pattern per element, in order. Errors are as for categories. |
| Rubix.Client.ListModels | src/Client.php:56-93 | The common shape of both listings, stated through `ListedAs`. |
| Rubix.AsPairs | src/Models/Model.php:50 | Defines what `foreach ($data …)` visits in a decoded element: an associative array's entries in order, and nothing for any other value. |
| Rubix.BuildAll | src/Client.php:60-62 | A successful listing builds exactly one store per element. |
| Rubix.MakeAll | src/Client.php:60-62 | The `array_map` builds one model per element, each holding the store `BuildAll` gives for that element. It stops at the first element that throws. |
| Rubix.BuildAllElementwise | src/Client.php:60-62 | A successful listing has one store per element, each what the factory builds from that element alone. |
| Rubix.BuildAllFirstFailure | src/Client.php:60-62 | A failed listing fails with the error of the first element the factory cannot build. Every element before it builds. |
| Rubix.Elements | src/Client.php:60-62 | Defines what `array_map` visits: a list's items, or an associative array's values, in order. Any other value is not an array. |
| Rubix.RenameKeys | src/Client.php:128-131 | The loop yields exactly the iteration `RenameAll` of write-then-unset over the original entries. With distinct, unprefixed keys, that is the data with every key `k` renamed `pattern[k]`, in the same order. |
| Rubix.RenameStepMeaning | src/Client.php:129-130 | With distinct keys, one turn moves the value of `k` to `pattern[k]`, removes `k`, leaves every other key reading as before, and keeps the keys distinct. |
| Rubix.RenameAllDistinct | src/Client.php:128-131 | The body the loop produces has distinct keys whenever the data it started from had. |
| Rubix.RenamePrefixes | src/Client.php:128-131 | With distinct keys, none of them of the form `pattern[k]` for another key `k`, the loop renames every key `k` to `pattern[k]` and keeps the order. |
| Rubix.PatternKeyInjective | src/Client.php:129 | Distinct keys get distinct renamed keys. |
| ClientExamples.RenameCollision | src/Client.php:128-131 | `['a' => 1, 'pattern[a]' => 2]` is sent as `['pattern[pattern[a]]' => 2]`, not as the plain renaming. |
| ClientExamples.InvalidFileSendsNothing | src/Client.php:165-190 | When the file is refused, feature matching and OCR give the invalid-argument exception whatever the transport and the file reader. |
| ClientExamples.ReadFilePart | test/Unit/ClientTest.php:415-430 | `['id' => 1, 'foo' => part('bar')]` under key `foo` becomes `['id' => 1, 'foo' => 'bar']`. |
| ClientExamples.ReadFileNoFile | test/Unit/ClientTest.php:435-444 | Data without a `file` entry is returned as given. |
| ClientExamples.ReadFileNotString | test/Unit/ClientTest.php:472-479 | An integer under `file` throws the invalid-argument exception. |
| ClientExamples.ReadFileWithPath | test/Unit/ClientTest.php:485-495 | A path under `file` is replaced by the content the file reader gives for it, in the same position. |
| ClientExamples.AddPatternBody | test/Unit/ClientTest.php:186-235 | A part, a label and a category name are posted as `pattern[file]`, `pattern[label]` and `pattern[category_name]`, with the part's content. |
| ClientExamples.DeletePatternTrue | test/Unit/ClientTest.php:146-160 | A DELETE of `patterns/123` answered with the body `"true"` returns true. |
| ClientExamples.DeletePatternMissing | src/Client.php:104-110 | A DELETE answered with status 404 ends in the not-found exception, with the transport's message. |
| ClientExamples.ListTwoPatterns | test/Unit/ClientTest.php:104-141 | A page of two patterns lists two stores, each holding the fields given. |

## Left out

- The Guzzle HTTP client, its base URL and its default `user_key` header.
  - The model takes the transport as a parameter: verb, resource and options
    in, a response or a (status, message) exception out. `Response.json` is
    the decoded body.
  - The constructor, at src/Client.php:34-48, is not modelled. It builds the
    base URL as `{domain}/api/{version}/`, while test/Unit/ClientTest.php:37-50
    expects `{domain}/{version}/`.
- Rubix.Client.DeletePattern: the source sends `request`'s default options
  `[]`, and the model follows the code. The test's recorded `null` options
  are not modelled.
- Rubix.Client.DeletePattern: `getBody()` returns a Guzzle stream object,
  which PHP casts to true, or null when the response has no body, which
  casts to false. The model casts the body `Value` given by the transport,
  as the test does with the string `"true"`.
- Rubix.Client.Request: `->json()` throws on a body that is not valid JSON.
  That call is outside `request`'s `try`, so the exception is not
  classified. The model's transport always gives a decoded `Value`, so
  this path is not modelled.
- Rubix.MakeAll: `array_map` over an associative response keeps its string
  keys in the returned array. The model returns the models as a sequence
  and drops those keys.
- Rubix.Client.ReadFile: `fopen` on a path that does not exist emits a
  warning and returns false. The model's `readPath` always gives content,
  so that failure is not modelled.
- Models.DateParser: a pure function of the value. Inputs whose meaning
  depends on the clock, such as `"now"` or null, which `new DateTime`
  reads as the current time, are fixed once per parser.
- `fopen` and `PostFile`: reading the file at a path is the `readPath`
  parameter, and a `PostFileInterface` argument is the `Part` value holding
  its content.
- Rubix.Client.ReadFile: Guzzle's `getContent()` may return a stream object
  rather than a string, so `$data[$key]` at src/Client.php:267 may hold a
  stream. The model stores the content as a string, as the mocks at
  test/Unit/ClientTest.php:419-421 and test/Unit/ClientTest.php:454-456 do.
- Carbon and `DateTime` parsing: a parameter `DateParser` giving an instant
  or an error message. Its time zone is ignored (the instant is UTC).
  Calendar fields such as `year` are not modelled.
- JSON encoding: `toJson` takes the encoder as a parameter. The exact
  `json_encode` text is not modelled.
- Floating-point values are carried opaquely as `real`. The model does not
  compare them or encode them.
- Integer array keys are not modelled, so lists passed to `setData` and
  PHP 7's loose `in_array` comparison of `0` with the field names are out
  of scope. A response element that is not an associative array gives the
  model no data.
- `__get` and `__set` are aliases of `getAttribute` and `setAttribute`. They
  are covered by those members and not given their own.
- Rubix.Client.ListCategories ignores the unused `$category` parameter, and
  the `$category`/`$pattern` factory arguments of `makeCategory` and
  `makePattern`, which only matter for test mocks.
- Rubix.Client.ListPatterns takes the page explicitly. The PHP default of
  `1` is left to the caller.
- Models.Model.SetData: when a date fails to parse part-way, the model
  returns the error and keeps the writes made before it, as PHP does. It
  does not model the exception unwinding the caller's remaining statements.
