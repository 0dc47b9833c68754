/**
  The Go `error` values that `DefaultClient.Request` can return
  (restclient.go), and the message each renders.
*/
module RequestErrors {
  import opened GoText
  import opened ApiErrors

  /** An error produced by a library call the model does not look into, known by its message. */
  datatype Cause = Cause(message: GoString)

  datatype Err =
    | Foreign(cause: Cause)          // returned unchanged from url, json or http
    | UnexpectedResponse             // the package-level sentinel ErrUnexpectedResponse
    | Formatted(text: GoString)      // built with fmt.Errorf
    | Api(response: ErrorResponse)   // a decoded ErrorResponse, returned as the error

  const UnavailableText: GoString := Lit("the API is currently unavailable")
  const DecodeFailureLead: GoString := Lit("could not decode response JSON, ")
  const DecodeFailureMid: GoString := Lit(": ")
  const ErrorBodyFailureLead: GoString := Lit("failed to unmarshal response json ")
  const ErrorBodyFailureMid: GoString := Lit(", error: ")

  /** `err.Error()` for each kind of error. */
  function Message(e: Err): (m: GoString)
    ensures e.Foreign? ==> m == e.cause.message
    ensures e == UnexpectedResponse ==> m == UnavailableText
    ensures e.Api? ==> |Prefix| <= |m| && m[..|Prefix|] == Prefix
  {
    match e
    case Foreign(c) => c.message
    case UnexpectedResponse => UnavailableText
    case Formatted(t) => t
    case Api(r) => ResponseMessage(r)
  }

  /**
    The error for a success body that does not decode into the target:
    the message quotes the raw body and ends with the decoder's message.
  */
  function DecodeResponseFailure(body: GoString, cause: Cause): (e: Err)
    ensures e.Formatted?
    ensures |Message(e)| == |DecodeFailureLead| + |body| + |DecodeFailureMid| + |cause.message|
    ensures Message(e)[..|DecodeFailureLead|] == DecodeFailureLead
    ensures Message(e)[|DecodeFailureLead|..|DecodeFailureLead| + |body|] == body
    ensures Message(e)[|Message(e)| - |cause.message|..] == cause.message
  {
    Formatted(DecodeFailureLead + body + DecodeFailureMid + cause.message)
  }

  /**
    The error for an error body that does not decode as an ErrorResponse:
    the message quotes the raw body and ends with the decoder's message.
  */
  function ErrorBodyFailure(body: GoString, cause: Cause): (e: Err)
    ensures e.Formatted?
    ensures |Message(e)| == |ErrorBodyFailureLead| + |body| + |ErrorBodyFailureMid| + |cause.message|
    ensures Message(e)[..|ErrorBodyFailureLead|] == ErrorBodyFailureLead
    ensures Message(e)[|ErrorBodyFailureLead|..|ErrorBodyFailureLead| + |body|] == body
    ensures Message(e)[|Message(e)| - |cause.message|..] == cause.message
  {
    Formatted(ErrorBodyFailureLead + body + ErrorBodyFailureMid + cause.message)
  }
}
