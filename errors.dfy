/**
 Every exception the client can raise, in one closed datatype, and the
 Result/Outcome wrappers that carry them. A Python `raise` becomes a
 `Failure`; a caller that does not catch it propagates it with `:-`.
 */
module Errors {

  datatype Error =
    // `node['children']` on a parsed node that has no children entry (KeyError)
    | KeyError(key: string)
    // reading an attribute an object does not have, including on None (AttributeError)
    | AttributeError(attribute: string)
    // a declared field type with no registered `parse_<type>`: calling None (TypeError)
    | NoConverter(tag: string)
    // `parse_nil` takes no argument but is called with the cdata (TypeError)
    | NilTakesNoValue
    // `int(text, 10)` rejects the text (ValueError)
    | InvalidLiteral(text: string)
    // 'Project must be instance of Project object' (TypeError)
    | NotAProject
    // 'Page number should be of type Integer' (TypeError)
    | PageNotInteger
    // 'Page number should be 1-indexed' (ValueError)
    | PageNotPositive
    // '%d' formatting of something that is not a number (TypeError)
    | NotANumber
    // a list or dict used as a dictionary key (TypeError)
    | Unhashable
    // `projects[0]` on an empty project list (IndexError)
    | NoProjects
    // 'Please set url properly' (ValueError)
    | UrlNotSet
    // 'Please set token properly' (ValueError)
    | TokenNotSet
    // an HTTP error status re-raised by the transport (HTTPError)
    | HttpFailure(code: int)
    // any lower-level transport failure
    | ConnectionFailed
    // a response body that is not well-formed XML (ExpatError)
    | MalformedXml

  datatype Result<+T> = Success(value: T) | Failure(error: Error) {

    predicate IsFailure() {
      Failure?
    }

    function PropagateFailure<U>(): Result<U>
      requires Failure?
    {
      Failure(error)
    }

    function Extract(): T
      requires Success?
    {
      value
    }
  }

  /** The result of an operation that returns nothing when it succeeds. */
  datatype Outcome = Pass | Fail(error: Error) {

    predicate IsFailure() {
      Fail?
    }

    function PropagateFailure(): Outcome
      requires Fail?
    {
      this
    }
  }
}
