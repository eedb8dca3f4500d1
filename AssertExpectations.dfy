/**
  The expectation store and the assertion engine.

  The store is a JSON file holding `{ topKey: { subKey: value } }`. One assertion resolves the
  file path, loads and validates the document, resolves the two keys, normalises the result
  through JSON, compares it with the stored value, decides whether to write the upserted group
  back, and decides which error, if any, to throw.

  The file system is a map from path to parsed content: a path is in the map exactly when the
  file exists, and `None` is an empty file.
 */
module AssertExpectations {
  import opened Errors
  import opened JsonValues
  import opened ExpectationKey

  /** join('test-files', 'test-expectations.json') */
  const DefaultExpectationFile: string := "test-files/test-expectations.json"

  /** Every file on disk, by path; `None` is a file with no content. */
  type Files = map<string, Option<Json>>

  /** What the process provides: its working directory and whether the CI variable is set. */
  datatype Environment = Environment(processCwd: string, ci: bool)

  /** The options of one assertion. An empty string is an absent path option. */
  datatype CompareOptions = CompareOptions(
    key: ExpectationKeys,
    result: JsValue,
    expectationFile: string,
    cwd: string,
    noOverwriteWhenDifferent: bool,
    showFullError: Option<bool>)

  predicate EndsWith(s: string, suffix: string) {
    |suffix| <= |s| && s[|s| - |suffix|..] == suffix
  }

  /** path.join for two non-normalised parts. */
  function Join(dir: string, file: string): string {
    if dir == "" then file else dir + "/" + file
  }

  /**
    The expectations file: `expectationFile` when given, else the default file under `cwd`,
    falling back to the process's working directory. The default path always passes the
    ".json" check.
   */
  function ExpectationsFilePath(expectationFile: string, cwd: string, processCwd: string): (path: string)
    ensures expectationFile != "" ==> path == expectationFile
    ensures expectationFile == "" ==> EndsWith(path, DefaultExpectationFile) && EndsWith(path, ".json")
    // the default file sits directly under the working directory
    ensures expectationFile == "" && cwd != "" ==> path == cwd + "/" + DefaultExpectationFile
    ensures expectationFile == "" && cwd == "" && processCwd != "" ==>
      path == processCwd + "/" + DefaultExpectationFile
  {
    var workingDir := if cwd != "" then cwd else processCwd;
    if expectationFile != "" then expectationFile
    else
      var path := Join(workingDir, DefaultExpectationFile);
      assert path[|path| - |DefaultExpectationFile|..] == DefaultExpectationFile;
      assert path[|path| - 5..] == DefaultExpectationFile[|DefaultExpectationFile| - 5..];
      path
  }

  /** readJson: the parsed content of an existing, non-empty file. */
  function ReadJson(files: Files, path: string): Option<Json> {
    if path in files then files[path] else None
  }

  /** `readJson(path) ?? {}`: a missing or empty file, and a file holding `null`, load as `{}`. */
  function LoadExpectations(content: Option<Json>): (root: Json)
    ensures content.None? || content == Some(JNull) ==> root == JObj(map[])
    ensures content.Some? && content.value != JNull ==> root == content.value
  {
    match content
    case None => JObj(map[])
    case Some(JNull) => JObj(map[])
    case Some(j) => j
  }

  /** The document shape the store demands: an object whose every value is an object. */
  predicate IsSavedExpectations(root: Json) {
    root.JObj? && forall topKey :: topKey in root.props ==> root.props[topKey].JObj?
  }

  /** `e` is a correct report that `root`, loaded from `path`, is malformed. */
  predicate ReportsMalformed(e: Error, root: Json, path: string) {
    if !root.JObj? then e == NotObjectRoot(path)
    else e.NonObjectGroup? && e.path == path && e.topKey in root.props && !root.props[e.topKey].JObj?
  }

  /**
    assertValidSavedExpectations: refuses a non-object root, then walks the top keys and
    refuses the first group that is not an object, naming its top key.
   */
  method AssertValidSavedExpectations(input: Json, path: string) returns (outcome: Outcome)
    ensures outcome.Pass? <==> IsSavedExpectations(input)
    ensures outcome.Fail? ==> ReportsMalformed(outcome.error, input, path)
  {
    if !input.JObj? {
      return Fail(NotObjectRoot(path));
    }
    var remaining := input.props.Keys;
    while remaining != {}
      invariant remaining <= input.props.Keys
      invariant forall topKey :: topKey in input.props && topKey !in remaining ==> input.props[topKey].JObj?
      decreases remaining
    {
      var topKey :| topKey in remaining;
      if !input.props[topKey].JObj? {
        return Fail(NonObjectGroup(topKey, path));
      }
      remaining := remaining - {topKey};
    }
    return Pass;
  }

  /** The value stored under `topKey` => `subKey`, None when there is none. */
  function Lookup(document: map<string, Json>, topKey: string, subKey: string): Option<Json> {
    if topKey in document && document[topKey].JObj? && subKey in document[topKey].props
    then Some(document[topKey].props[subKey])
    else None
  }

  /** The resolved keys and the value found under them. */
  datatype Access = Access(value: Option<Json>, topKey: string, subKey: string)

  /**
    accessExpectationAtKey: resolves the top key (its errors first), refuses an empty top key,
    then an empty sub key, and finds the stored value. A stored `null` is found; a missing
    group, a group that is not an object, or a missing sub key give no value.
   */
  function AccessExpectationAtKey(loaded: map<string, Json>, keys: ExpectationKeys): (r: Result<Access>)
    ensures PickTopKey(keys.topKey).Failure? ==> r == Failure(PickTopKey(keys.topKey).error)
    ensures PickTopKey(keys.topKey) == Success("") ==> r == Failure(EmptyTopKey)
    ensures PickTopKey(keys.topKey).Success? && PickTopKey(keys.topKey).value != "" && keys.subKey == ""
      ==> r == Failure(EmptySubKey)
    // good keys always resolve
    ensures PickTopKey(keys.topKey).Success? && PickTopKey(keys.topKey).value != "" && keys.subKey != ""
      ==> r.Success?
    ensures r.Success? ==>
      && PickTopKey(keys.topKey) == Success(r.value.topKey)
      && r.value.topKey != "" && r.value.subKey == keys.subKey != ""
    ensures r.Success? ==>
      var top, sub := r.value.topKey, r.value.subKey;
      && (r.value.value.Some? <==> top in loaded && loaded[top].JObj? && sub in loaded[top].props)
      && (r.value.value.Some? ==> r.value.value.value == loaded[top].props[sub])
  {
    match PickTopKey(keys.topKey)
    case Failure(e) => Failure(e)
    case Success(topKey) =>
      if topKey == "" then Failure(EmptyTopKey)
      else if keys.subKey == "" then Failure(EmptySubKey)
      else Success(Access(Lookup(loaded, topKey, keys.subKey), topKey, keys.subKey))
  }

  /** The group stored under `topKey`, or `{}` when it is missing or not an object. */
  function ExistingGroup(document: map<string, Json>, topKey: string): map<string, Json> {
    if topKey in document && document[topKey].JObj? then document[topKey].props else map[]
  }

  /**
    createNewExpectation: a partial document with exactly the resolved top key, whose group is
    the existing group with only `subKey` set to the new value.
   */
  function CreateNewExpectation(current: map<string, Json>, newResult: Json, keys: ExpectationKeys): (r: map<string, Json>)
    requires PickTopKey(keys.topKey).Success?
    ensures var top := PickTopKey(keys.topKey).value; var group := ExistingGroup(current, top);
      && r.Keys == {top}
      && r[top].JObj?
      && r[top].props.Keys == group.Keys + {keys.subKey}
      && r[top].props[keys.subKey] == newResult
      && forall sub :: sub in group && sub != keys.subKey ==> r[top].props[sub] == group[sub]
  {
    var topKey := PickTopKey(keys.topKey).value;
    map[topKey := JObj(ExistingGroup(current, topKey)[keys.subKey := newResult])]
  }

  /**
    appendJson: writes the file with the named top keys replaced wholesale and every sibling
    left alone, creating the file when it is missing.
   */
  function AppendJson(files: Files, path: string, partial: map<string, Json>): (r: Files)
    ensures r.Keys == files.Keys + {path}
    ensures forall p :: p in files && p != path ==> r[p] == files[p]
    // the document at `path` keeps its other top keys and takes the partial's groups wholesale
    ensures DocumentAt(r, path) == DocumentAt(files, path) + partial
  {
    var base := LoadExpectations(ReadJson(files, path));
    var existing := if base.JObj? then base.props else map[];
    files[path := Some(JObj(existing + partial))]
  }

  /** What an assertion that gets as far as comparing knows. */
  datatype Plan = Plan(path: string, document: map<string, Json>, access: Access, normalized: Json, existed: bool)

  /** How far an assertion gets before comparing. */
  datatype Stage =
    | Stopped(error: Error)
    | Malformed(root: Json, path: string)
    | Ready(plan: Plan)

  /**
    The steps before the comparison, in the source's order: the path check, the load and
    validation, the key resolution, the normalisation. Existence is sampled from the files as
    they are before any write.
   */
  function Preflight(files: Files, options: CompareOptions, env: Environment): (s: Stage)
    // the comparison is reached exactly for a .json path, a valid document, good keys and a
    // serializable result
    ensures var path := ExpectationsFilePath(options.expectationFile, options.cwd, env.processCwd);
      var root := LoadExpectations(ReadJson(files, path));
      var top := PickTopKey(options.key.topKey);
      s.Ready? <==>
        && EndsWith(path, ".json") && IsSavedExpectations(root)
        && top.Success? && top.value != "" && options.key.subKey != ""
        && !Omitted(options.result)
    // a resolver error on a valid document stops the assertion with that error
    ensures var path := ExpectationsFilePath(options.expectationFile, options.cwd, env.processCwd);
      var root := LoadExpectations(ReadJson(files, path));
      var top := PickTopKey(options.key.topKey);
      EndsWith(path, ".json") && IsSavedExpectations(root) && top.Failure? ==> s == Stopped(top.error)
    // with good keys, a result JSON cannot round-trip stops it as unserializable
    ensures var path := ExpectationsFilePath(options.expectationFile, options.cwd, env.processCwd);
      var root := LoadExpectations(ReadJson(files, path));
      var top := PickTopKey(options.key.topKey);
      && EndsWith(path, ".json") && IsSavedExpectations(root)
      && top.Success? && top.value != "" && options.key.subKey != ""
      && Omitted(options.result)
      ==> s == Stopped(Unserializable)
    ensures s.Ready? ==>
      && PickTopKey(options.key.topKey) == Success(s.plan.access.topKey)
      && s.plan.existed == (s.plan.path in files)
  {
    var path := ExpectationsFilePath(options.expectationFile, options.cwd, env.processCwd);
    if !EndsWith(path, ".json") then Stopped(InvalidPath(path))
    else
      var root := LoadExpectations(ReadJson(files, path));
      if !IsSavedExpectations(root) then Malformed(root, path)
      else
        match AccessExpectationAtKey(root.props, options.key)
        case Failure(e) => Stopped(e)
        case Success(access) =>
          match Normalize(options.result)
          case None => Stopped(Unserializable)
          case Some(normalized) => Ready(Plan(path, root.props, access, normalized, path in files))
  }

  /** The deep-equality comparison fails: nothing is stored, or something else is. */
  predicate Differs(plan: Plan) {
    plan.access.value != Some(plan.normalized)
  }

  /** Write when nothing is stored, or when it differs and overwriting is allowed. */
  predicate ShouldWrite(plan: Plan, noOverwriteWhenDifferent: bool) {
    plan.access.value.None? || (Differs(plan) && !noOverwriteWhenDifferent)
  }

  /** The files after the write decision. */
  function Persisted(files: Files, plan: Plan, options: CompareOptions): Files
    requires PickTopKey(options.key.topKey).Success?
  {
    if ShouldWrite(plan, options.noOverwriteWhenDifferent)
    then AppendJson(files, plan.path, CreateNewExpectation(plan.document, plan.normalized, options.key))
    else files
  }

  /** The error decision, first match wins: missing file, missing key, mismatch. */
  function Verdict(plan: Plan, options: CompareOptions, env: Environment): Outcome {
    var creating := !options.noOverwriteWhenDifferent;
    if !plan.existed then Fail(FileDidNotExist(plan.path, creating))
    else if plan.access.value.None? then Fail(NoExpectation(plan.access.topKey, plan.access.subKey, creating))
    else if Differs(plan) then Fail(Mismatch(plan.access.topKey, plan.access.subKey, options.showFullError.GetOr(env.ci)))
    else Pass
  }

  /** One assertion took the files from `before` to `after` and ended with `outcome`. */
  predicate Asserted(before: Files, after: Files, outcome: Outcome, options: CompareOptions, env: Environment) {
    match Preflight(before, options, env)
    case Stopped(e) => after == before && outcome == Fail(e)
    case Malformed(root, path) => after == before && outcome.Fail? && ReportsMalformed(outcome.error, root, path)
    case Ready(plan) => after == Persisted(before, plan, options) && outcome == Verdict(plan, options, env)
  }

  /** The parsed document stored at `path`, as the next assertion loads it. */
  function DocumentAt(files: Files, path: string): map<string, Json> {
    var root := LoadExpectations(ReadJson(files, path));
    if root.JObj? then root.props else map[]
  }

  /** The value the next assertion finds at `path`, `topKey` => `subKey`. */
  function StoredAt(files: Files, path: string, topKey: string, subKey: string): Option<Json> {
    Lookup(DocumentAt(files, path), topKey, subKey)
  }

  /**
    The upsert is isolated: after merging the partial document, the new value is found under
    its keys and every other (top key, sub key) finds what it found before.
   */
  lemma UpsertThenLookup(document: map<string, Json>, v: Json, keys: ExpectationKeys, t: string, s: string)
    requires PickTopKey(keys.topKey).Success?
    ensures var top := PickTopKey(keys.topKey).value;
      Lookup(document + CreateNewExpectation(document, v, keys), t, s) ==
        if t == top && s == keys.subKey then Some(v) else Lookup(document, t, s)
  {
  }

  /** The upsert keeps the document's shape valid. */
  lemma UpsertKeepsShape(document: map<string, Json>, v: Json, keys: ExpectationKeys)
    requires PickTopKey(keys.topKey).Success?
    requires IsSavedExpectations(JObj(document))
    ensures IsSavedExpectations(JObj(document + CreateNewExpectation(document, v, keys)))
  {
  }

  /**
    The write decision, seen from the next reader: the file changes exactly when nothing was
    stored, or the stored value differs and overwriting is allowed, and what is then stored is
    the normalised result, never the raw one.
   */
  lemma WriteDecision(before: Files, after: Files, outcome: Outcome, options: CompareOptions, env: Environment)
    requires Asserted(before, after, outcome, options, env)
    requires Preflight(before, options, env).Ready?
    ensures var plan := Preflight(before, options, env).plan;
      var write := plan.access.value.None? || (plan.access.value != Some(plan.normalized) && !options.noOverwriteWhenDifferent);
      && (after != before <==> write)
      && StoredAt(after, plan.path, plan.access.topKey, plan.access.subKey)
         == (if write then Normalize(options.result) else plan.access.value)
      && (write ==> plan.path in after && IsSavedExpectations(LoadExpectations(ReadJson(after, plan.path))))
  {
  }

  /**
    Nothing but the asserted value changes: every other file, every other top key of the
    expectations file and every other sub key of its group read as before.
   */
  lemma WriteIsolation(before: Files, after: Files, outcome: Outcome, options: CompareOptions, env: Environment,
                       p: string, t: string, s: string)
    requires Asserted(before, after, outcome, options, env)
    requires Preflight(before, options, env).Ready?
    ensures var plan := Preflight(before, options, env).plan;
      p != plan.path ==> (p in after <==> p in before) && ReadJson(after, p) == ReadJson(before, p)
    ensures var plan := Preflight(before, options, env).plan;
      t != plan.access.topKey && t in DocumentAt(before, plan.path) ==>
        t in DocumentAt(after, plan.path) && DocumentAt(after, plan.path)[t] == DocumentAt(before, plan.path)[t]
    ensures var plan := Preflight(before, options, env).plan;
      (p, t, s) != (plan.path, plan.access.topKey, plan.access.subKey) ==>
        StoredAt(after, p, t, s) == StoredAt(before, p, t, s)
    ensures var plan := Preflight(before, options, env).plan;
      DocumentAt(after, plan.path).Keys <= DocumentAt(before, plan.path).Keys + {plan.access.topKey}
  {
  }

  /**
    A missing file fails with "does not yet exist" and is created holding the normalised
    result, even when overwriting is switched off: its existence is sampled before the write.
   */
  lemma MissingFileIsCreated(before: Files, after: Files, outcome: Outcome, options: CompareOptions, env: Environment)
    requires Asserted(before, after, outcome, options, env)
    requires Preflight(before, options, env).Ready?
    requires Preflight(before, options, env).plan.path !in before
    ensures var plan := Preflight(before, options, env).plan;
      && outcome == Fail(FileDidNotExist(plan.path, !options.noOverwriteWhenDifferent))
      && plan.path in after
      && StoredAt(after, plan.path, plan.access.topKey, plan.access.subKey) == Normalize(options.result)
  {
  }

  /**
    The errors' priority once the comparison is reached: a missing file, then a missing key,
    then a mismatch (the full comparison error only when asked for); a match passes and
    leaves the files alone.
   */
  lemma ErrorPriority(before: Files, after: Files, outcome: Outcome, options: CompareOptions, env: Environment)
    requires Asserted(before, after, outcome, options, env)
    requires Preflight(before, options, env).Ready?
    ensures var plan := Preflight(before, options, env).plan;
      var top, sub, creating := plan.access.topKey, plan.access.subKey, !options.noOverwriteWhenDifferent;
      var stored := StoredAt(before, plan.path, top, sub);
      && (plan.path !in before ==> outcome == Fail(FileDidNotExist(plan.path, creating)))
      && (plan.path in before && stored.None? ==> outcome == Fail(NoExpectation(top, sub, creating)))
      && (plan.path in before && stored.Some? && stored != Normalize(options.result) ==>
            outcome == Fail(Mismatch(top, sub, options.showFullError.GetOr(env.ci))))
      && (plan.path in before && stored == Normalize(options.result) ==> outcome == Pass && after == before)
  {
  }

  /**
    With overwriting switched off, only a missing value is ever written: a mismatch leaves
    the files unchanged.
   */
  lemma NoOverwriteOnlyRecordsMissing(before: Files, after: Files, outcome: Outcome, options: CompareOptions, env: Environment)
    requires Asserted(before, after, outcome, options, env)
    requires options.noOverwriteWhenDifferent
    ensures after != before ==> outcome.Fail? && (outcome.error.FileDidNotExist? || outcome.error.NoExpectation?)
    ensures outcome.Fail? && outcome.error.Mismatch? ==> after == before
  {
  }

  /**
    Recording then passing: after an assertion that recorded its value (a missing file, a
    missing key, or an overwritten mismatch), the identical assertion passes and writes
    nothing.
   */
  lemma RecordThenPass(f0: Files, f1: Files, f2: Files, o1: Outcome, o2: Outcome, options: CompareOptions, env: Environment)
    requires Asserted(f0, f1, o1, options, env)
    requires Asserted(f1, f2, o2, options, env)
    requires o1.Fail?
    requires o1.error.FileDidNotExist? || o1.error.NoExpectation?
      || (o1.error.Mismatch? && !options.noOverwriteWhenDifferent)
    ensures o2 == Pass && f2 == f1
  {
  }

  /**
    Validation runs before key resolution: a malformed document is reported whatever the
    keys are, and nothing is written.
   */
  lemma MalformedBeforeKeys(before: Files, after: Files, outcome: Outcome, options: CompareOptions, env: Environment)
    requires Asserted(before, after, outcome, options, env)
    requires var path := ExpectationsFilePath(options.expectationFile, options.cwd, env.processCwd);
      EndsWith(path, ".json") && !IsSavedExpectations(LoadExpectations(ReadJson(before, path)))
    ensures after == before
    ensures outcome.Fail? && (outcome.error.NotObjectRoot? || outcome.error.NonObjectGroup?)
  {
  }

  /**
    A key that does not resolve, or a result JSON cannot round-trip, fails the assertion with
    that error before the comparison, and nothing is written.
   */
  lemma KeyErrorWritesNothing(before: Files, after: Files, outcome: Outcome, options: CompareOptions, env: Environment)
    requires Asserted(before, after, outcome, options, env)
    requires var path := ExpectationsFilePath(options.expectationFile, options.cwd, env.processCwd);
      EndsWith(path, ".json") && IsSavedExpectations(LoadExpectations(ReadJson(before, path)))
    requires var top := PickTopKey(options.key.topKey);
      top.Failure? || top.value == "" || options.key.subKey == "" || Omitted(options.result)
    ensures after == before
    ensures var top := PickTopKey(options.key.topKey);
      && (top.Failure? ==> outcome == Fail(top.error))
      && (top == Success("") ==> outcome == Fail(EmptyTopKey))
      && (top.Success? && top.value != "" && options.key.subKey == "" ==> outcome == Fail(EmptySubKey))
      && (top.Success? && top.value != "" && options.key.subKey != "" ==> outcome == Fail(Unserializable))
  {
  }

  /** A path that does not end in ".json" is refused before the file is read. */
  lemma NonJsonPathRefused(before: Files, after: Files, outcome: Outcome, options: CompareOptions, env: Environment)
    requires Asserted(before, after, outcome, options, env)
    requires !EndsWith(ExpectationsFilePath(options.expectationFile, options.cwd, env.processCwd), ".json")
    ensures after == before
    ensures outcome == Fail(InvalidPath(options.expectationFile))
  {
  }

  /** A function's return value, or its thrown error as "<name>: <message>". */
  datatype CallOutcome = Returned(value: JsValue) | Threw(name: string, message: string)

  /** The result assertExpectedOutput compares: a thrown error becomes comparable text. */
  function CapturedResult(call: CallOutcome): (r: JsValue)
    ensures call.Threw? ==> Normalize(r) == Some(JStr(call.name + ": " + call.message))
    ensures call.Returned? ==> r == call.value
  {
    match call
    case Returned(v) => v
    case Threw(name, message) => Text(name + ": " + message)
  }

  /** The keys of assertExpectedOutput, whose top key may be left out. */
  datatype OutputKeys = OutputKeys(topKey: Option<TopKey>, subKey: string)

  datatype OutputOptions = OutputOptions(
    key: OutputKeys,
    expectationFile: string,
    cwd: string,
    noOverwriteWhenDifferent: bool,
    showFullError: Option<bool>)

  /**
    The options assertExpectedOutput passes on: the top key defaults to `{function: fn}`,
    everything else is forwarded.
   */
  function CompleteOptions(fn: Function, options: OutputOptions, result: JsValue): (r: CompareOptions)
    ensures r.key.subKey == options.key.subKey && r.result == result
    ensures options.key.topKey.Some? ==> r.key.topKey == options.key.topKey.value
    ensures options.key.topKey.None? ==> PickTopKey(r.key.topKey) == FunctionName(fn)
    ensures r.expectationFile == options.expectationFile && r.cwd == options.cwd
    ensures r.noOverwriteWhenDifferent == options.noOverwriteWhenDifferent
    ensures r.showFullError == options.showFullError
  {
    CompareOptions(
      ExpectationKeys(options.key.topKey.GetOr(FunctionKey(fn)), options.key.subKey),
      result,
      options.expectationFile,
      options.cwd,
      options.noOverwriteWhenDifferent,
      options.showFullError)
  }

  class FileSystem {
    var files: Files

    constructor (initial: Files)
      ensures files == initial
    {
      files := initial;
    }

    /** assertExpectation: at most one write, made before the error is chosen. */
    method AssertExpectation(options: CompareOptions, env: Environment) returns (outcome: Outcome)
      modifies this
      ensures Asserted(old(files), files, outcome, options, env)
    {
      var path := ExpectationsFilePath(options.expectationFile, options.cwd, env.processCwd);
      if !EndsWith(path, ".json") {
        return Fail(InvalidPath(path));
      }

      var loaded := LoadExpectations(ReadJson(files, path));
      var validity := AssertValidSavedExpectations(loaded, path);
      if validity.Fail? {
        return validity;
      }

      var resolved := AccessExpectationAtKey(loaded.props, options.key);
      if resolved.Failure? {
        return Fail(resolved.error);
      }
      var access := resolved.value;
      var expected := access.value;

      var parsed := Normalize(options.result);
      if parsed.None? {
        return Fail(Unserializable);
      }
      var jsonParsedResult := parsed.value;

      var assertionError := expected != Some(jsonParsedResult);
      var existedAlready := path in files;

      if expected.None? || (assertionError && !options.noOverwriteWhenDifferent) {
        files := AppendJson(files, path, CreateNewExpectation(loaded.props, jsonParsedResult, options.key));
      }

      var creating := !options.noOverwriteWhenDifferent;
      if !existedAlready {
        return Fail(FileDidNotExist(path, creating));
      }
      if expected.None? {
        return Fail(NoExpectation(access.topKey, access.subKey, creating));
      }
      if assertionError {
        return Fail(Mismatch(access.topKey, access.subKey, options.showFullError.GetOr(env.ci)));
      }
      return Pass;
    }

    /**
      assertExpectedOutput: `call` is what calling the function under test with its inputs
      did; a thrown error is compared and stored as text instead of propagating.
     */
    method AssertExpectedOutput(fn: Function, call: CallOutcome, options: OutputOptions, env: Environment)
      returns (outcome: Outcome)
      modifies this
      ensures Asserted(old(files), files, outcome, CompleteOptions(fn, options, CapturedResult(call)), env)
    {
      var result := CapturedResult(call);
      outcome := AssertExpectation(CompleteOptions(fn, options, result), env);
    }
  }
}
