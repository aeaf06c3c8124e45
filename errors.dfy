/** The error classes of the presentation layer, and the errors collaborators throw. */
module Errors {
  import opened Wrappers

  datatype Error =
    | MissingParam(paramName: string)   // MissingParamError
    | InvalidParam(paramName: string)   // InvalidParamError
    | Internal                          // ServerError
    | Plain(text: string)               // any other Error, e.g. one thrown by a collaborator

  const MissingPrefix: string := "Missing param: "
  const InvalidPrefix: string := "Invalid param: "
  const InternalMessage: string := "Internal server error"

  predicate IsParamError(e: Error) {
    e.MissingParam? || e.InvalidParam?
  }

  /** The `message` property each error class sets through `super(...)`. */
  function Message(e: Error): (m: string)
    ensures e.MissingParam? ==>
              |m| == |MissingPrefix| + |e.paramName|
              && m[..|MissingPrefix|] == MissingPrefix && m[|MissingPrefix|..] == e.paramName
    ensures e.InvalidParam? ==>
              |m| == |InvalidPrefix| + |e.paramName|
              && m[..|InvalidPrefix|] == InvalidPrefix && m[|InvalidPrefix|..] == e.paramName
    ensures e.Internal? ==> m == InternalMessage
  {
    match e
    case MissingParam(n) => MissingPrefix + n
    case InvalidParam(n) => InvalidPrefix + n
    case Internal => InternalMessage
    case Plain(m) => m
  }

  /** Recovers a parameter error from its message. */
  function ParseParamError(message: string): Option<Error> {
    if |message| >= |MissingPrefix| && message[..|MissingPrefix|] == MissingPrefix then
      Some(MissingParam(message[|MissingPrefix|..]))
    else if |message| >= |InvalidPrefix| && message[..|InvalidPrefix|] == InvalidPrefix then
      Some(InvalidParam(message[|InvalidPrefix|..]))
    else
      None
  }

  /** The message of a parameter error names its kind and its parameter, and nothing else. */
  lemma ParamMessageRoundTrip(e: Error)
    requires IsParamError(e)
    ensures ParseParamError(Message(e)) == Some(e)
  {
  }

  /** Two parameter errors with the same message are the same error. */
  lemma ParamMessageInjective(e1: Error, e2: Error)
    requires IsParamError(e1) && IsParamError(e2)
    requires Message(e1) == Message(e2)
    ensures e1 == e2
  {
    ParamMessageRoundTrip(e1);
    ParamMessageRoundTrip(e2);
  }
}
