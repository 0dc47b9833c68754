# restclient — a Dafny model of the request and error-rendering logic

The Go package `restclient` is a small HTTP REST client. `DefaultClient.Request`
parses a URL, turns a payload into a body and a content type, builds a
request, sets the caller's headers and the content type, makes one network
call, and then classifies the response by status code: decode a success body
into the caller's target, succeed without decoding, return the fixed
"unavailable" sentinel for 500, or hand the body to an error reader. The
error reader is a custom one when installed, else the default, which decodes
an `ErrorResponse`. `Error` and `ErrorResponse` render their messages:
a description, and `"API errors: "` followed by the descriptions joined by
`", "`.

This project models that logic in Dafny:

- `wrappers.dfy`: `Option` and `Result`.
- `gotext.dfy` (module `GoText`): Go strings and byte slices as byte sequences, and
  `strings.Join` together with an independent, position-based description of a join.
- `api_errors.dfy` (module `ApiErrors`, error.go): the error payload and both message renderers.
  `RenderResponse` is the source's loop-then-join.
- `request_errors.dfy` (module `RequestErrors`): the error values `Request` returns and their messages.
- `request_body.dfy` (module `RequestBody`): `prepareRequestBody` and the content types.
- `responses.dfy` (module `Responses`): the status dispatch, `defaultErrorReader`, the choice of error reader.
- `client.dfy` (module `Client`): the steps before the network as a function (`Outgoing`).
  `DefaultClient.Request` is an imperative method. It builds an `OutgoingRequest` and sets its header
  in place, key by key, then overwrites Content-Type. It sends the request through an `HttpClient`
  object that records every request it sends. It writes the decoded value into a `Target` object.

Library calls whose semantics are not modelled are parameters. A `Library` value holds
`url.Parse` (with `String()`), `json.Marshal`, `http.NewRequest`, `json.Unmarshal` into the
target and `json.Unmarshal` into an `ErrorResponse`, each as a function giving a value or an
error. For `http.NewRequest` the value is the method and URL the built request holds, so a
method or URL that the library rewrites goes on the wire as rewritten. The network is the `server` function of an `HttpClient`. The package-level
`customErrorReader` is an `Option` parameter of `Request`.

## Model

| member | source | states |
|---|---|---|
| `GoText.JoinIsConcatOfInterleave` | error.go:27 | a join is the concatenation of the parts at even positions with the separator at each odd position between them |
| `GoText.JoinLength` | error.go:27 | joining n > 0 parts adds exactly n - 1 separators to the parts' total length |
| `GoText.JoinAppend` | error.go:23-27 | joining one more part appends the separator and that part |
| `GoText.Join` | error.go:27 | no parts join to the empty string; a non-empty join starts with the first part |
| `ApiErrors.ErrorMessage` | error.go:14-16 | an Error's message is exactly its description |
| `RequestErrors.Message` | restclient.go:19-21 | a passed-through library error keeps its own message. The sentinel reads "the API is currently unavailable". An ErrorResponse's message starts with "API errors: " |
| `ApiErrors.InnerMessages` | error.go:23-26 | the collected inner messages are the errors' descriptions, one per error, in list order |
| `ApiErrors.ResponseMessage` | error.go:22-28 | an ErrorResponse message always begins with "API errors: " |
| `ApiErrors.RenderResponse` | error.go:22-28 | the loop that collects the inner messages and then joins them yields the message that ResponseMessage specifies |
| `ApiErrors.ErrorMessageIsDescription` | error.go:14-16 | an Error's message is its description; the code and parameter do not affect it |
| `ApiErrors.EmptyResponseMessage` | error.go:23-27 | with no inner errors the message is exactly "API errors: " |
| `ApiErrors.SingleResponseMessage` | error.go:23-27 | with one inner error the message is "API errors: " and its description, with no separator |
| `ApiErrors.ResponseMessageLayout` | error.go:23-27 | after the label come the descriptions in list order with ", " between each neighbouring pair and nowhere else |
| `ApiErrors.ResponseMessageLength` | error.go:23-27 | the message holds the label, the descriptions and exactly len(Errors) - 1 separators |
| `ApiErrors.ResponseMessageAppend` | error.go:23-27 | one more inner error appends ", " and its description to the message |
| `ApiErrors.SameDescriptionsSameMessage` | error.go:14-28 | responses with equal description sequences render identically, whatever their codes and parameters |
| `ApiErrors.NotFoundMessage` | error.go:22-28 | one error described "not found" renders as "API errors: not found" |
| `RequestErrors.DecodeResponseFailure` | restclient.go:111-113 | the error for an undecodable success body quotes the raw body after its lead text and ends with the decoder's message |
| `RequestErrors.ErrorBodyFailure` | restclient.go:132-134 | the error for an undecodable error body quotes the raw body after its lead text and ends with the decoder's message |
| `RequestBody.Tag` | restclient.go:34-38 | only the empty content type has the empty header value |
| `RequestBody.TagInjective` | restclient.go:34-38 | the three content types have distinct header values |
| `RequestBody.PrepareRequestBody` | restclient.go:139-152 | nil gives a nil body, no content type and no error. A string gives its own bytes as a form, never an error. Any other value gives its JSON with the JSON tag, or a nil body, the empty tag and the marshalling error. It errs exactly when marshalling fails |
| `RequestBody.BodyAndContentTypeAgree` | restclient.go:139-152 | after a successful preparation, a body exists exactly when a content type is announced, which happens exactly when there is a payload |
| `RequestBody.FailureCarriesNothing` | restclient.go:146-149 | a failed preparation has no body and the empty tag |
| `Responses.RouteFor` | restclient.go:108-126 | 200/201/202 decode exactly when there is a target. 204, and 200/201/202 without a target, succeed without decoding. 500 and only 500 is the sentinel. Every other status goes to an error reader |
| `Responses.DefaultErrorReader` | restclient.go:129-137 | a body that decodes as an ErrorResponse is returned as the error; otherwise the error quotes the body; its message is formatted exactly when decoding failed |
| `Responses.ReadErrorBody` | restclient.go:120-125 | the custom reader's result, nil included, is returned when one is installed, otherwise the default reader's |
| `Responses.HandleResponse` | restclient.go:108-126 | the target is written only for 200/201/202 with a target. The sentinel comes back for 500, or only when an error reader itself returns it |
| `Responses.SuccessDecodesIntoTarget` | restclient.go:109-115 | with a target, 200/201/202 write the decoded value and succeed exactly when decoding does. The failure message quotes the body |
| `Responses.SuccessWithoutTargetIgnoresBody` | restclient.go:109-115 | without a target, 200/201/202 succeed and decode nothing, whatever the body |
| `Responses.NoContentNeverDecodes` | restclient.go:116-117 | 204 succeeds without decoding, whatever the target, body or decoder |
| `Responses.ServerErrorIsSentinel` | restclient.go:118-119 | 500 gives the sentinel, whatever the body, target or readers |
| `Responses.OtherStatusReadsErrorBody` | restclient.go:120-137 | any other status goes to the custom reader if installed, else to the default reader, and never writes the target |
| `Responses.NotFoundRendersDescription` | restclient.go:120-137 | a 404 body that decodes to one "not found" error fails with the message "API errors: not found" |
| `Client.ContentTypeKeyIsCanonical` | restclient.go:76 | "Content-Type" is already canonical, so setting it overwrites the caller's Content-Type entry and no other |
| `Client.HeadersSent` | restclient.go:71-77 | caller headers are set first. Content-Type is overwritten by the tag exactly when the tag is non-empty. No other header is changed |
| `Client.Outgoing` | restclient.go:53-77 | a URL that fails to parse is the error. A sent request has a parsed URL, a prepared body and a successful construction. Its method and URL are the ones the construction stored, and its body and headers are fixed by the earlier steps |
| `Client.Finish` | restclient.go:87-102 | transport and body-read errors are returned unchanged and nothing is decoded |
| `Client.UrlParsedFirst` | restclient.go:53-56 | a bad URL fails the call before any other step, whatever the payload or headers |
| `Client.BodyPreparedBeforeRequestBuilt` | restclient.go:61-64 | after a good URL, a marshalling failure is returned before the request is built |
| `Client.RequestBuildFailurePassedThrough` | restclient.go:66-69 | after a good URL and body, a construction failure is returned as it is |
| `Client.SentExactlyWhenStepsSucceed` | restclient.go:53-69 | a request is sent if and only if URL parsing, body preparation and construction all succeed |
| `Client.HeadersOfSentRequest` | restclient.go:71-77 | without a payload the caller's headers go out unchanged. With one, Content-Type is the form or JSON tag and every other header is the caller's |
| `Client.CallerContentTypeSurvivesIffNoPayload` | restclient.go:71-77 | a caller's Content-Type, unless it equals one of the tags, goes out exactly when there is no payload |
| `Client.BodyOfSentRequest` | restclient.go:61-66 | the body sent is empty for nil, the string's bytes for a string, the marshalled bytes otherwise |
| `Client.HttpClient.Do` | restclient.go:87-102 | one round trip records exactly the request sent and returns the server's response to it |
| `Client.OutgoingRequest.constructor` | restclient.go:66 | a newly built request carries the stored method, URL and body and has no headers |
| `Client.OutgoingRequest.SetHeader` | restclient.go:72 | setting a header under a canonical key gives that key exactly that value and changes no other key |
| `Client.DefaultClient.Request` | restclient.go:52-127 | when a step before the network fails, that error is returned, nothing is sent and the target is untouched. Otherwise exactly the `Outgoing` request is sent, once. The response handling's error is returned and its decoded value, if any, is written into the target |

## Left out

- Debug logging (restclient.go:79-85, 104-106) only observes; it never affects control flow and is not modelled.
- `New()` and the 15-second timeout (restclient.go:16, 44-50) configure the transport only and are not modelled.
- The `Client` interface (restclient.go:23-25) does not describe `DefaultClient.Request`, which takes a header map. The commented-out proxy lines (restclient.go:57-59) are dead code.
- The semantics of `url.Parse`, `json.Marshal`, `json.Unmarshal` and `http.NewRequest` are not modelled. Each is an arbitrary function from its inputs to a value or an error. For `http.NewRequest` the value is the stored method and URL; that an empty method becomes GET and how the URL is re-parsed are not modelled.
- `HTTPClient.Do`, `io.ReadAll` and the deferred `Body.Close` (restclient.go:87-102) are one round trip that gives a transport error, a read error, or a status and a body. The server is a fixed function of the request, so the model cannot express two identical requests getting different answers. Closing the body is not modelled.
- `Header.Set` canonicalises keys and keeps a list of values per key. The model requires the caller's keys to be canonical already (`Client.CanonicalKeys`, a precondition of `Request`, `Outgoing`, `HeadersSent` and the header lemmas), so `Set` stores each as it is and distinct keys stay distinct. A caller key such as `content-type`, which `Set` would rewrite to `Content-Type`, is outside the model. One value per key is kept, which is what `Set` leaves.
- The package-level `customErrorReader` (restclient.go:42) is a parameter of `Request`. Its process-wide mutability and any data race on it are not modelled.
- The target is a `Target?` reference. Null stands only for an untyped nil `v`, the one value for which `v != nil` is false. A typed nil pointer or a non-pointer value passes that test in Go, so it is a non-null `Target`: decoding is attempted and its errors, a syntax error included, are returned. Its `unmarshal` gives back the current value, because Go writes the decoded result into a copy the caller never sees.
- Go's `json.Unmarshal` writes nothing when the body is malformed, but may write part of the target before it reports a type error. The model's decoder is arbitrary and its value is always written back, so the model does not promise an untouched target after a failed decode, even for malformed JSON.
- Concurrency: each call is independent and holds no shared mutable state besides the transport, so it is not modelled.
- A payload whose dynamic type is exactly `string` is the `Text` case. Every other non-nil value, including values of named string types, is the `Value` case and is marshalled, as Go's type switch does.
