/**
  The API's error payload (error.go): one `Error` reported by the service
  and the `ErrorResponse` that collects them, each with the message its
  `Error()` method renders.
*/
module ApiErrors {
  import opened GoText

  /** One error reported by the API. */
  datatype Error = Error(code: int, description: GoString, parameter: GoString)

  /** The decoded body of a non-success response: `{"errors": [...]}`. */
  datatype ErrorResponse = ErrorResponse(errors: seq<Error>)

  const Prefix: GoString := Lit("API errors: ")
  const Separator: GoString := Lit(", ")

  /** `Error.Error()`: the message of one API error. */
  function ErrorMessage(e: Error): (m: GoString)
    ensures m == e.description
  {
    e.description
  }

  /** The messages of the inner errors, one per error, in list order. */
  function InnerMessages(errors: seq<Error>): (r: seq<GoString>)
    ensures |r| == |errors|
    ensures forall i :: 0 <= i < |errors| ==> r[i] == errors[i].description
  {
    if |errors| == 0 then [] else [ErrorMessage(errors[0])] + InnerMessages(errors[1..])
  }

  /** `ErrorResponse.Error()`: the fixed label, then the inner messages joined by ", ". */
  function ResponseMessage(r: ErrorResponse): (m: GoString)
    ensures |Prefix| <= |m| && m[..|Prefix|] == Prefix
  {
    Prefix + Join(InnerMessages(r.errors), Separator)
  }

  /**
    `ErrorResponse.Error()` as the source computes it: collect the inner
    messages in a slice, then join them once under the label.
  */
  method RenderResponse(r: ErrorResponse) returns (m: GoString)
    ensures m == ResponseMessage(r)
  {
    var inners: seq<GoString> := [];
    for i := 0 to |r.errors|
      invariant |inners| == i
      invariant forall k :: 0 <= k < i ==> inners[k] == r.errors[k].description
    {
      inners := inners + [ErrorMessage(r.errors[i])];
    }
    assert inners == InnerMessages(r.errors);
    m := Prefix + Join(inners, Separator);
  }

  /** Only the description shows in an error's message; code and parameter do not. */
  lemma ErrorMessageIsDescription(e: Error, code: int, parameter: GoString)
    ensures ErrorMessage(e) == e.description
    ensures ErrorMessage(Error(code, e.description, parameter)) == ErrorMessage(e)
  {
  }

  /** With no inner errors the message is the bare label. */
  lemma EmptyResponseMessage(r: ErrorResponse)
    requires r.errors == []
    ensures ResponseMessage(r) == Prefix
  {
  }

  /** With one inner error the message is the label and its description, with no separator. */
  lemma SingleResponseMessage(r: ErrorResponse)
    requires |r.errors| == 1
    ensures ResponseMessage(r) == Prefix + r.errors[0].description
  {
  }

  /**
    The message is the label followed by the descriptions in list order,
    a separator between each neighbouring pair and nowhere else.
  */
  lemma ResponseMessageLayout(r: ErrorResponse)
    requires |r.errors| > 0
    ensures var pieces := Interleave(InnerMessages(r.errors), Separator);
      && |pieces| == 2 * |r.errors| - 1
      && (forall k :: 0 <= k < |r.errors| ==> pieces[2 * k] == r.errors[k].description)
      && (forall k :: 0 <= k < |r.errors| - 1 ==> pieces[2 * k + 1] == Separator)
      && ResponseMessage(r) == Prefix + Concat(pieces)
  {
    JoinIsConcatOfInterleave(InnerMessages(r.errors), Separator);
    var pieces := Interleave(InnerMessages(r.errors), Separator);
    forall k | 0 <= k < |r.errors|
      ensures pieces[2 * k] == r.errors[k].description
    {
      assert (2 * k) % 2 == 0 && (2 * k) / 2 == k;
    }
    forall k | 0 <= k < |r.errors| - 1
      ensures pieces[2 * k + 1] == Separator
    {
      assert (2 * k + 1) % 2 == 1;
    }
  }

  /**
    The message of a non-empty response is as long as the label, the
    descriptions, and |errors| - 1 separators.
  */
  lemma ResponseMessageLength(r: ErrorResponse)
    requires |r.errors| > 0
    ensures |ResponseMessage(r)| == |Prefix| + TotalLength(InnerMessages(r.errors)) + (|r.errors| - 1) * |Separator|
  {
    JoinLength(InnerMessages(r.errors), Separator);
  }

  /** One more inner error adds a separator and its description at the end of the message. */
  lemma ResponseMessageAppend(r: ErrorResponse, e: Error)
    requires |r.errors| > 0
    ensures ResponseMessage(ErrorResponse(r.errors + [e])) == ResponseMessage(r) + Separator + e.description
  {
    var inner := InnerMessages(r.errors);
    assert InnerMessages(r.errors + [e]) == inner + [e.description];
    JoinAppend(inner, e.description, Separator);
  }

  /**
    Rendering depends on the descriptions alone: responses whose errors
    have the same descriptions in the same order render identically,
    whatever their codes and parameters.
  */
  lemma SameDescriptionsSameMessage(r1: ErrorResponse, r2: ErrorResponse)
    requires |r1.errors| == |r2.errors|
    requires forall i :: 0 <= i < |r1.errors| ==> r1.errors[i].description == r2.errors[i].description
    ensures ResponseMessage(r1) == ResponseMessage(r2)
  {
    assert InnerMessages(r1.errors) == InnerMessages(r2.errors);
  }

  /** A 404 body reporting "not found" for parameter "id" renders as "API errors: not found". */
  lemma NotFoundMessage()
    ensures ResponseMessage(ErrorResponse([Error(40, Lit("not found"), Lit("id"))])) == Lit("API errors: not found")
  {
  }
}
