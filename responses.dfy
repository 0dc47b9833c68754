/**
  What `DefaultClient.Request` makes of a response it has read
  (restclient.go): the status-code dispatch, decoding into the caller's
  target, and the readers of error bodies.
*/
module Responses {
  import opened Wrappers
  import opened GoText
  import opened ApiErrors
  import opened RequestErrors

  const StatusOK := 200
  const StatusCreated := 201
  const StatusAccepted := 202
  const StatusNoContent := 204
  const StatusInternalServerError := 500

  /** 200, 201 and 202: the statuses whose body is the result. */
  predicate IsSuccessWithBody(status: int)
  {
    status == StatusOK || status == StatusCreated || status == StatusAccepted
  }

  /** Where the status switch sends a response. */
  datatype Route = DecodeSuccess | SuccessNoDecode | ServiceUnavailable | ToErrorReader

  /**
    The status switch: 200/201/202 decode into the target when there is
    one, 204 succeeds without looking at the body, 500 is the sentinel,
    every other status goes to an error reader.
  */
  function RouteFor(status: int, hasTarget: bool): (r: Route)
    ensures r == DecodeSuccess <==> IsSuccessWithBody(status) && hasTarget
    ensures r == SuccessNoDecode <==> status == StatusNoContent || (IsSuccessWithBody(status) && !hasTarget)
    ensures r == ServiceUnavailable <==> status == StatusInternalServerError
    ensures r == ToErrorReader <==>
      !IsSuccessWithBody(status) && status != StatusNoContent && status != StatusInternalServerError
  {
    if IsSuccessWithBody(status) then (if hasTarget then DecodeSuccess else SuccessNoDecode)
    else if status == StatusNoContent then SuccessNoDecode
    else if status == StatusInternalServerError then ServiceUnavailable
    else ToErrorReader
  }

  /** The outcome of `json.Unmarshal` into an existing value: the value afterwards and the error. */
  datatype Decoded<T> = Decoded(value: T, failure: Option<Cause>)

  /**
    `defaultErrorReader`: a body that decodes as an ErrorResponse is
    returned as the error; otherwise the error quotes the raw body.
  */
  function DefaultErrorReader(body: GoString, unmarshalErrors: GoString -> Result<ErrorResponse, Cause>): (e: Err)
    ensures unmarshalErrors(body).Success? ==> e == Api(unmarshalErrors(body).value)
    ensures unmarshalErrors(body).Failure? ==> e == ErrorBodyFailure(body, unmarshalErrors(body).error)
    ensures e.Formatted? <==> unmarshalErrors(body).Failure?
  {
    match unmarshalErrors(body)
    case Success(r) => Api(r)
    case Failure(c) => ErrorBodyFailure(body, c)
  }

  /**
    The reader of an error body: the installed custom reader when there is
    one (its result returned as it is, nil included), else the default.
  */
  function ReadErrorBody(body: GoString, custom: Option<GoString -> Option<Err>>,
                         unmarshalErrors: GoString -> Result<ErrorResponse, Cause>): (r: Option<Err>)
    ensures custom.Some? ==> r == custom.value(body)
    ensures custom.None? ==> r == Some(DefaultErrorReader(body, unmarshalErrors))
  {
    match custom
    case Some(read) => read(body)
    case None => Some(DefaultErrorReader(body, unmarshalErrors))
  }

  /** What handling a response returns, and the value written to the target, if any. */
  datatype Handled<T> = Handled(err: Option<Err>, written: Option<T>)

  /**
    The handling of a read response with `status` and `body`. `current` is
    the target's value, or None for a nil target.
  */
  function HandleResponse<T>(status: int, body: GoString, current: Option<T>,
                             unmarshal: (GoString, T) -> Decoded<T>,
                             custom: Option<GoString -> Option<Err>>,
                             unmarshalErrors: GoString -> Result<ErrorResponse, Cause>): (h: Handled<T>)
    ensures h.written.Some? ==> IsSuccessWithBody(status) && current.Some?
    ensures h.err == Some(UnexpectedResponse) <==>
      status == StatusInternalServerError || (RouteFor(status, current.Some?) == ToErrorReader && ReadErrorBody(body, custom, unmarshalErrors) == Some(UnexpectedResponse))
  {
    match RouteFor(status, current.Some?)
    case DecodeSuccess =>
      var d := unmarshal(body, current.value);
      Handled(if d.failure.Some? then Some(DecodeResponseFailure(body, d.failure.value)) else None, Some(d.value))
    case SuccessNoDecode => Handled(None, None)
    case ServiceUnavailable => Handled(Some(UnexpectedResponse), None)
    case ToErrorReader => Handled(ReadErrorBody(body, custom, unmarshalErrors), None)
  }

  /**
    200, 201 or 202 with a target: the decoded value is written, and the
    call succeeds exactly when decoding does; a failure quotes the body.
  */
  lemma SuccessDecodesIntoTarget<T>(status: int, body: GoString, current: T,
                                    unmarshal: (GoString, T) -> Decoded<T>,
                                    custom: Option<GoString -> Option<Err>>,
                                    unmarshalErrors: GoString -> Result<ErrorResponse, Cause>)
    requires IsSuccessWithBody(status)
    ensures var h := HandleResponse(status, body, Some(current), unmarshal, custom, unmarshalErrors);
      var d := unmarshal(body, current);
      && h.written == Some(d.value)
      && (h.err.None? <==> d.failure.None?)
      && (d.failure.Some? ==> h.err == Some(DecodeResponseFailure(body, d.failure.value)))
      && (h.err.Some? ==> Message(h.err.value)[|DecodeFailureLead|..|DecodeFailureLead| + |body|] == body)
  {
  }

  /** 200, 201 or 202 without a target: success, nothing decoded, whatever the body. */
  lemma SuccessWithoutTargetIgnoresBody<T>(status: int, body: GoString,
                                           unmarshal: (GoString, T) -> Decoded<T>,
                                           custom: Option<GoString -> Option<Err>>,
                                           unmarshalErrors: GoString -> Result<ErrorResponse, Cause>)
    requires IsSuccessWithBody(status)
    ensures HandleResponse(status, body, None, unmarshal, custom, unmarshalErrors) == Handled(None, None)
  {
  }

  /** 204: success without decoding, whatever the target, the body or the decoder. */
  lemma NoContentNeverDecodes<T>(body: GoString, current: Option<T>,
                                 unmarshal: (GoString, T) -> Decoded<T>,
                                 custom: Option<GoString -> Option<Err>>,
                                 unmarshalErrors: GoString -> Result<ErrorResponse, Cause>)
    ensures HandleResponse(StatusNoContent, body, current, unmarshal, custom, unmarshalErrors) == Handled(None, None)
  {
  }

  /** 500: always the sentinel, whatever the body, the target or the readers. */
  lemma ServerErrorIsSentinel<T>(body: GoString, current: Option<T>,
                                 unmarshal: (GoString, T) -> Decoded<T>,
                                 custom: Option<GoString -> Option<Err>>,
                                 unmarshalErrors: GoString -> Result<ErrorResponse, Cause>)
    ensures HandleResponse(StatusInternalServerError, body, current, unmarshal, custom, unmarshalErrors)
      == Handled(Some(UnexpectedResponse), None)
  {
  }

  /**
    Every other status goes to the custom reader when one is installed and
    to the default reader otherwise; the target is never written.
  */
  lemma OtherStatusReadsErrorBody<T>(status: int, body: GoString, current: Option<T>,
                                     unmarshal: (GoString, T) -> Decoded<T>,
                                     custom: Option<GoString -> Option<Err>>,
                                     unmarshalErrors: GoString -> Result<ErrorResponse, Cause>)
    requires !IsSuccessWithBody(status) && status != StatusNoContent && status != StatusInternalServerError
    ensures var h := HandleResponse(status, body, current, unmarshal, custom, unmarshalErrors);
      && h.written.None?
      && (custom.Some? ==> h.err == custom.value(body))
      && (custom.None? && unmarshalErrors(body).Success? ==> h.err == Some(Api(unmarshalErrors(body).value)))
      && (custom.None? && unmarshalErrors(body).Failure? ==>
            h.err == Some(ErrorBodyFailure(body, unmarshalErrors(body).error)))
  {
  }

  /**
    A 404 whose body decodes to one error described "not found" fails with
    an error whose message is "API errors: not found".
  */
  lemma NotFoundRendersDescription<T>(body: GoString, current: Option<T>,
                                      unmarshal: (GoString, T) -> Decoded<T>,
                                      unmarshalErrors: GoString -> Result<ErrorResponse, Cause>)
    requires unmarshalErrors(body) == Success(ErrorResponse([Error(40, Lit("not found"), Lit("id"))]))
    ensures var h := HandleResponse(404, body, current, unmarshal, None, unmarshalErrors);
      h.err.Some? && Message(h.err.value) == Lit("API errors: not found")
  {
  }
}
