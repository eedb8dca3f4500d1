/**
  The top-key resolver: a top key is a plain string or a descriptor object carrying one of
  the properties `function`, `describe` or `context`; resolving it yields the string under
  which the expectation group is stored.
 */
module ExpectationKey {
  import opened Errors

  /** A JavaScript function, seen only through its `name` property. */
  datatype Function = Function(name: string)

  /**
    A top key. A descriptor is an object literal whose present properties are the `Some`
    fields; at runtime it may carry none, one or several of them.
   */
  datatype TopKey =
    | Plain(key: string)
    | Descriptor(fn: Option<Function>, describe: Option<string>, context: Option<string>)

  datatype ExpectationKeys = ExpectationKeys(topKey: TopKey, subKey: string)

  /** The descriptor `{function: f}`, the default top key of a captured function. */
  function FunctionKey(f: Function): TopKey {
    Descriptor(Some(f), None, None)
  }

  /** The number of own properties of a descriptor (Object.keys(topKey).length). */
  function PropertyCount(t: TopKey): (n: nat)
    requires t.Descriptor?
    ensures n == 0 <==> t.fn.None? && t.describe.None? && t.context.None?
  {
    (if t.fn.Some? then 1 else 0)
    + (if t.describe.Some? then 1 else 0)
    + (if t.context.Some? then 1 else 0)
  }

  /**
    The accessor for the `function` property: the function's name. An arrow function written
    inline as `{function: () => ...}` takes the property's name, "function", and is refused;
    an empty name is let through here and refused later as an empty top key.
   */
  function FunctionName(f: Function): (r: Result<string>)
    ensures r.Failure? <==> f.name == "function"
    ensures r.Failure? ==> r.error == AnonymousFunction
    ensures r.Success? ==> r.value == f.name
  {
    if f.name == "function" then Failure(AnonymousFunction) else Success(f.name)
  }

  /**
    pickTopKeyFromExpectationKeys. The property count is checked before any property is read,
    so a descriptor with two properties fails whatever they hold.
   */
  function PickTopKey(t: TopKey): (r: Result<string>)
    // a string is its own key
    ensures t.Plain? ==> r == Success(t.key)
    // two or more properties: refused, reporting how many
    ensures t.Descriptor? && PropertyCount(t) >= 2 ==> r == Failure(TooManyKeys(PropertyCount(t)))
    // no property at all
    ensures t.Descriptor? && PropertyCount(t) == 0 ==> r == Failure(NoKey)
    // a lone `function` property resolves through the function's name, its error included
    ensures t.Descriptor? && PropertyCount(t) == 1 && t.fn.Some? ==> r == FunctionName(t.fn.value)
    // it fails exactly for a malformed descriptor or an inline anonymous function
    ensures r.Failure? <==>
      t.Descriptor? &&
      (PropertyCount(t) != 1 || (t.fn.Some? && t.fn.value.name == "function"))
    // a resolved descriptor yields the payload of its single property
    ensures r.Success? && t.Descriptor? ==>
      (t.fn.Some? && r.value == t.fn.value.name) ||
      (t.describe.Some? && r.value == t.describe.value) ||
      (t.context.Some? && r.value == t.context.value)
  {
    match t
    case Plain(key) => Success(key)
    case Descriptor(fn, describe, context) =>
      var count := PropertyCount(t);
      if count >= 2 then Failure(TooManyKeys(count))
      else if count == 0 then Failure(NoKey)
      else if fn.Some? then FunctionName(fn.value)
      else if describe.Some? then Success(describe.value)
      else Success(context.value)
  }
}
