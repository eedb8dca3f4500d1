# Expectation store and assertion engine, in Dafny

This project models the core of `test-established-expectations`, a snapshot-testing helper.
A test asserts that a value matches the expectation recorded in a JSON file of the form
`{ topKey: { subKey: value } }` (a JSON document as in RFC 8259). The value is recorded the first
time, and whenever it changes unless overwriting is switched off. Four parts are modelled:

- **Key resolver** (`ExpectationKey.dfy`). A top key is a plain string or a descriptor object with
  one of `function`, `describe` or `context`. Resolving it gives a string or a precise error:
  too many properties, no property, or an inline anonymous function, whose name is `"function"`.
- **Expectation store** (`AssertExpectations.dfy`). It loads the document, where a missing or
  empty file counts as `{}`. It checks the document's shape, looks a value up under two keys,
  keeping "absent" distinct from a stored `null`, and builds the upserted group that is merged back.
- **Assertion engine** (`AssertExpectations.dfy`, class `FileSystem`). `AssertExpectation` follows
  the source step by step. It resolves the path and checks `.json`, then loads and validates the
  file, then resolves the keys. It normalises the result through JSON, compares it with the stored
  value, samples whether the file exists, and writes if needed. Last, it picks the error in a fixed
  priority. `AssertExpectedOutput` turns a thrown error into the text `"<name>: <message>"` and
  uses `{function: fn}` as the default top key.
- **Case runner** (`ExpectationCases.dfy`, class `Registry`). It tells its arguments apart,
  refuses an empty case list, and takes `testKey` or else the function's name as top key. It drops
  `testKey` from the forwarded options and appends one registration per case, in order.

The file system is a map from path to parsed content. A path is a key exactly when the file
exists, and `None` stands for an empty file. The process's working directory and the `CI`
variable are parameters (`Environment`). JSON normalisation (`JSON.parse(JSON.stringify(v))`) is a
real function from JavaScript values to `Json`:

- `undefined` and functions are dropped from objects and become `null` in arrays.
- A top-level `undefined` or function makes `JSON.parse` throw.
- A date becomes its ISO string, and a non-finite number becomes `null`.

Deep equality is structural equality on `Json`.

Three behaviours of the code are easy to misread:

- A file holding `null` also loads as `{}`, because the code uses `readJson(path) ?? {}`.
- A `function` key is refused only when its name is `"function"`. An empty name gets through the
  resolver and is refused later as an empty top key.
- With `noOverwriteWhenDifferent`, the "Creating it now" guidance is left off the "does not yet
  exist" and "No expectation exists" errors. The missing value is still written in that case
  (see `MissingFileIsCreated`).

## Model

| member | source | states |
|---|---|---|
| `JsonValues.Normalize` | src/assert-expectations.ts:108 | JSON round-tripping fails exactly for a top-level `undefined` or function |
| `JsonValues.NormalizeEmbed` | src/assert-expectations.ts:107-108 | any parsed JSON document survives the normalisation unchanged |
| `JsonValues.NormalizeIdempotent` | src/assert-expectations.ts:107-108 | normalising a normalised result read back from disk gives the same value, so memory and file compare alike |
| `JsonValues.DateBecomesIsoString` | src/assert-expectations.test.ts:142-154 | a date inside an object is compared and stored as its ISO string; undefined properties vanish |
| `ExpectationKey.PropertyCount` | src/expectation-key.ts:42 | a descriptor's property count is zero exactly when it has no property |
| `ExpectationKey.FunctionName` | src/expectation-key.ts:24-33 | a `function` key resolves to the function's name and fails exactly when that name is "function" |
| `ExpectationKey.PickTopKey` | src/expectation-key.ts:36-69 | a string is returned unchanged; two or more properties fail with their count whatever they hold; none fails; failure happens exactly for a malformed descriptor or an anonymous function; a lone `function` property resolves through the function's name, so an anonymous function fails with the anonymous-function error; success yields the single property's payload |
| `AssertExpectations.ExpectationsFilePath` | src/assert-expectations.ts:89-90 | an explicit file wins; otherwise the path is exactly `<cwd>/test-files/test-expectations.json`, with the process's directory when `cwd` is not given, and so passes the `.json` check |
| `AssertExpectations.LoadExpectations` | src/assert-expectations.ts:97 | a missing or empty file, or one holding `null`, loads as `{}`; any other content loads as it is |
| `AssertExpectations.AssertValidSavedExpectations` | src/assert-expectations.ts:156-174 | passes exactly when the root and every group are objects; a non-object root is reported with the path, otherwise a top key whose group is not an object is named |
| `AssertExpectations.AccessExpectationAtKey` | src/assert-expectations.ts:22-56 | resolver errors first, then "empty topKey", then "empty subKey"; a non-empty resolved top key with a non-empty sub key always succeeds, and then a value is found exactly when the group is an object holding the sub key, and it is that entry, `null` included |
| `AssertExpectations.CreateNewExpectation` | src/assert-expectations.ts:58-79 | the partial document has exactly the resolved top key; its group is the old group (or `{}` if it was not an object) with only the sub key set to the new value |
| `AssertExpectations.AppendJson` | src/assert-expectations.ts:123-127 | the write creates the file if needed, leaves every other file untouched, and the document at the path afterwards is the old one with the partial's top keys replaced wholesale |
| `AssertExpectations.Preflight` | src/assert-expectations.ts:89-116 | the comparison is reached exactly for a `.json` path, a valid document, non-empty resolved keys and a serializable result; a resolver error stops it with that error and a non-serializable result with the serialization error; a stage that reaches the comparison has resolved its top key, and its existence flag is sampled from the files before any write |
| `AssertExpectations.CapturedResult` | src/assert-expectations.ts:193-199 | a thrown error is compared and stored as the string "<name>: <message>"; a returned value is used as it is |
| `AssertExpectations.CompleteOptions` | src/assert-expectations.ts:201-208 | the top key defaults to `{function: fn}` and resolves through the function's name; every other option is passed on |
| `AssertExpectations.FileSystem.AssertExpectation` | src/assert-expectations.ts:81-154 | the new files and the outcome are those `Asserted` allows for the old files: path check, load and validate, keys, normalise, compare, write decision, error choice |
| `AssertExpectations.FileSystem.AssertExpectedOutput` | src/assert-expectations.ts:188-211 | asserts the captured result under the completed options |
| `AssertExpectations.UpsertThenLookup` | src/assert-expectations.ts:63-76 | after the merge the new value is found under its keys and every other key pair finds what it found before |
| `AssertExpectations.UpsertKeepsShape` | src/assert-expectations.ts:63-76 | merging the upsert into a valid document keeps every group an object |
| `AssertExpectations.WriteDecision` | src/assert-expectations.ts:118-128 | the file changes exactly when nothing is stored, or the value differs and overwriting is allowed; what is then stored is the normalised result |
| `AssertExpectations.WriteIsolation` | src/assert-expectations.ts:123-127 | every other file, every other top key's group and every other stored value are unchanged, and no top key other than the asserted one appears |
| `AssertExpectations.MissingFileIsCreated` | src/assert-expectations.ts:116-137 | against a missing file the call fails with "does not yet exist" but creates the file holding the normalised result, even with overwriting switched off |
| `AssertExpectations.ErrorPriority` | src/assert-expectations.ts:129-153 | a missing file, then a missing key, then a mismatch (full or terse as configured) decide the error; a stored equal value passes without a write |
| `AssertExpectations.NoOverwriteOnlyRecordsMissing` | src/assert-expectations.ts:118-122 | with overwriting switched off only a missing value is written, and a mismatch leaves the file unchanged |
| `AssertExpectations.RecordThenPass` | src/assert-expectations.ts:116-153 | after a call that recorded its value (missing file, missing key, or overwritten mismatch), the identical call passes and writes nothing |
| `AssertExpectations.MalformedBeforeKeys` | src/assert-expectations.ts:97-103 | a malformed document is reported whatever the keys are, so it wins over an empty key, and nothing is written |
| `AssertExpectations.KeyErrorWritesNothing` | src/assert-expectations.ts:100-108 | on a valid document, a resolver error, an empty top key, an empty sub key or a result JSON cannot round-trip fails with that error, and nothing is written |
| `AssertExpectations.NonJsonPathRefused` | src/assert-expectations.ts:89-95 | a path not ending in `.json` is refused before the file is read; only an explicit file can be refused |
| `ExpectationCases.ForwardedOptions` | src/expectation-cases.ts:55-61 | the forwarded options are all the options except `testKey`, with their values unchanged |
| `ExpectationCases.CasesSetup` | src/expectation-cases.ts:33-53 | an array as second argument means no options; options without a case list fail exactly then; an empty case list fails first; the top key is `testKey`, else the function's name, and the call fails for a missing top key exactly when a non-empty case list comes with neither |
| `ExpectationCases.RegistrationsAt` | src/expectation-cases.ts:63-81 | one registration per case in list order, with the shared top key, the case's name as sub key, skip/only/normal mode, the chosen inputs and the forwarded options |
| `ExpectationCases.InputsPrecedence` | src/expectation-cases.ts:66-74 | `inputs` wins over `input`, which wins over no inputs; `exclude` wins over `force` |
| `ExpectationCases.Registry.ExpectationCases` | src/expectation-cases.ts:26-89 | a setup error registers nothing; otherwise exactly the case registrations are appended, in order |

## Left out

- File I/O is abstracted to a map from path to parsed JSON. A file that does not parse is not modelled, so `readJson`'s parse errors are missing.
- `appendJson` is assumed: its source is not part of this model. It is taken to load the file as `readJson(path) ?? {}` does and to replace the named top key wholesale. Formatting and the trailing newline are not modelled.
- `path.join` is modelled as concatenation with `/`. Path normalisation (`..`, repeated separators) is not modelled.
- AssertExpectations.AssertValidSavedExpectations: reports some top key whose group is not an object, not necessarily the first one in `Object.keys` order. Key insertion order is not modelled.
- Keys inherited through the prototype chain (`__proto__`, `constructor`) are not modelled. The source's property reads would find them.
- Numbers are integers. Floating point, `-0`, `BigInt` (which makes `JSON.stringify` throw), symbols, custom `toJSON` methods, cyclic values and `Map`/`Set` are not modelled.
- The text of error messages is not modelled. Each error carries the values its message names. The full chai comparison error is opaque: `Mismatch(..., full := true)`.
- `TooManyKeys` carries the property count, not the property names the message also lists.
- A descriptor is limited to the properties `function`, `describe` and `context`, as the source's type allows. An object with some other single property is not modelled.
- `ensureError`'s conversion of non-`Error` throwables is not modelled. A thrown value is given by its name and message.
- Running registered tests (mocha's `it`, `it.skip`, `it.only`) is not modelled. Each registration records the mode, keys, inputs and options that the test body passes to `assertExpectedOutput`.
- A non-string `testKey` option is treated as absent.
- src/it-snapshots.ts is not part of this model. It chains test executions asynchronously, and its key fallback repeats the case runner's.
- src/expectation-options.ts holds type declarations only.
- Concurrency is not modelled, including the first-write race between assertions on the same file.
