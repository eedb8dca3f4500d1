/** Failure-carrying result types and the errors the expectation store can raise. */
module Errors {

  datatype Option<+T> = None | Some(value: T) {
    function GetOr(default: T): T {
      match this
      case Some(v) => v
      case None => default
    }
  }

  /** Every error thrown by the assertion engine, the key resolver and the case runner. */
  datatype Error =
    // the expectations file path does not end in ".json"
    | InvalidPath(path: string)
    // the loaded document is not an object ("It should contain an object.")
    | NotObjectRoot(path: string)
    // the group stored under `topKey` is not an object
    | NonObjectGroup(topKey: string, path: string)
    // a top-key descriptor with two or more properties ("can only have one key")
    | TooManyKeys(count: nat)
    // a top-key descriptor without any property ("needs a valid key type property")
    | NoKey
    // a `function` descriptor whose function is named "function"
    | AnonymousFunction
    | EmptyTopKey
    | EmptySubKey
    // JSON.parse(JSON.stringify(result)) throws: the result has no JSON text at all
    | Unserializable
    // "does not yet exist"; `creating` says whether the "Creating it now" guidance is appended
    | FileDidNotExist(path: string, creating: bool)
    // "No expectation exists under keys 'top' => 'sub'"
    | NoExpectation(topKey: string, subKey: string, creating: bool)
    // a stored value differs from the normalised result; `full` rethrows the comparison error itself
    | Mismatch(topKey: string, subKey: string, full: bool)
    // options were passed as second argument but no case list followed (reading `.length` of undefined)
    | MissingCaseList
    // "No test cases were provided"
    | NoCases
    // "Please pass a testKey to expectationCases"
    | MissingTestKey

  datatype Result<+T> = Success(value: T) | Failure(error: Error)

  /** The outcome of an operation that returns nothing: it passes or throws. */
  datatype Outcome = Pass | Fail(error: Error)
}
