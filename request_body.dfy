/**
  Payload preparation (`prepareRequestBody` in restclient.go): which bytes
  are sent and which content type is announced, chosen from the payload's
  shape alone.
*/
module RequestBody {
  import opened Wrappers
  import opened GoText
  import opened RequestErrors

  /**
    The payload a caller passes: nil, a Go `string`, or any other value
    (of type V), which is marshalled to JSON.
  */
  datatype Payload<V> = Nil | Text(text: GoString) | Value(value: V)

  /** The three content types the client announces. */
  datatype ContentType = Empty | Json | FormUrlEncoded

  /** The header value of each content type. */
  function Tag(ct: ContentType): (t: GoString)
    ensures |t| == 0 <==> ct == Empty
  {
    match ct
    case Empty => []
    case Json => Lit("application/json")
    case FormUrlEncoded => Lit("application/x-www-form-urlencoded")
  }

  /** Distinct content types have distinct header values. */
  lemma TagInjective(a: ContentType, b: ContentType)
    ensures Tag(a) == Tag(b) ==> a == b
  {
  }

  /** The triple `([]byte, contentType, error)`; a nil slice is `None`. */
  datatype Prepared = Prepared(body: Option<GoString>, contentType: ContentType, err: Option<Err>)

  /**
    `prepareRequestBody`: nil sends nothing and announces nothing; a string
    is sent as its own bytes as a form; anything else is marshalled and sent
    as JSON, or, when marshalling fails, nothing is sent and the marshalling
    error is returned.
  */
  function PrepareRequestBody<V>(data: Payload<V>, marshal: V -> Result<GoString, Cause>): (r: Prepared)
    ensures data.Nil? ==> r == Prepared(None, Empty, None)
    ensures data.Text? ==> r == Prepared(Some(data.text), FormUrlEncoded, None)
    ensures data.Value? && marshal(data.value).Success? ==>
      r == Prepared(Some(marshal(data.value).value), Json, None)
    ensures data.Value? && marshal(data.value).Failure? ==>
      r == Prepared(None, Empty, Some(Foreign(marshal(data.value).error)))
    ensures r.err.Some? <==> data.Value? && marshal(data.value).Failure?
  {
    match data
    case Nil => Prepared(None, Empty, None)
    case Text(s) => Prepared(Some(s), FormUrlEncoded, None)
    case Value(v) =>
      match marshal(v)
      case Failure(c) => Prepared(None, Empty, Some(Foreign(c)))
      case Success(b) => Prepared(Some(b), Json, None)
  }

  /**
    When preparation succeeds, a body is sent exactly when a content type
    is announced, and that happens exactly when there is a payload.
  */
  lemma BodyAndContentTypeAgree<V>(data: Payload<V>, marshal: V -> Result<GoString, Cause>)
    ensures var r := PrepareRequestBody(data, marshal);
      r.err.None? ==> (r.body.None? <==> r.contentType == Empty) && (r.contentType == Empty <==> data.Nil?)
  {
  }

  /** A failed preparation carries neither a body nor a content type. */
  lemma FailureCarriesNothing<V>(data: Payload<V>, marshal: V -> Result<GoString, Cause>)
    ensures var r := PrepareRequestBody(data, marshal);
      r.err.Some? ==> r.body.None? && r.contentType == Empty && Tag(r.contentType) == []
  {
  }
}
