/**
  `DefaultClient.Request` (restclient.go): parse the URL, prepare the
  body, build the request, set the headers, make the one network call and
  hand the response to the status dispatch. The foreign calls it relies on
  are the fields of a `Library`; the network is an `HttpClient` object
  that records every request it sends.
*/
module Client {
  import opened Wrappers
  import opened GoText
  import opened ApiErrors
  import opened RequestErrors
  import opened RequestBody
  import opened Responses

  type Header = map<GoString, GoString>

  const ContentTypeKey: GoString := Lit("Content-Type")

  predicate IsUpper(b: byte) { 65 <= b <= 90 }
  predicate IsLower(b: byte) { 97 <= b <= 122 }

  /**
    A header key already in the canonical form `Header.Set` stores keys in:
    no lower-case letter first or after a hyphen, no upper-case letter
    elsewhere. `Header.Set` stores such a key as it is.
  */
  predicate CanonicalKey(k: GoString)
  {
    forall i :: 0 <= i < |k| ==> if i == 0 || k[i - 1] == 45 then !IsLower(k[i]) else !IsUpper(k[i])
  }

  /** Every caller header key is canonical, so distinct keys stay distinct once set. */
  predicate CanonicalKeys(m: Header)
  {
    forall k :: k in m ==> CanonicalKey(k)
  }

  lemma ContentTypeKeyIsCanonical()
    ensures CanonicalKey(ContentTypeKey)
  {
  }

  /** The method and URL a successfully built request holds. */
  datatype Built = Built(verb: GoString, url: GoString)

  /** A request as it goes on the wire. */
  datatype Wire = Wire(verb: GoString, url: GoString, body: GoString, header: Header)

  /** What one round trip gives: a transport error, a body-read error, or a status and a body. */
  datatype Exchange = TransportFailed(cause: Cause) | ReadFailed(cause: Cause) | Received(status: int, body: GoString)

  /**
    The library calls `Request` makes, with their outcomes:
    `parseUrl` is `url.Parse` followed by `String()`, `newRequest` is
    `http.NewRequest` with the method and URL it stores (it may turn an
    empty method into GET and re-parse the URL) or its error, `unmarshal` `json.Unmarshal` into the
    target's current value, `unmarshalErrors` `json.Unmarshal` into a
    fresh ErrorResponse.
  */
  datatype Library<-V, !T> = Library(
    parseUrl: GoString -> Result<GoString, Cause>,
    marshal: V -> Result<GoString, Cause>,
    newRequest: (GoString, GoString) -> Result<Built, Cause>,
    unmarshal: (GoString, T) -> Decoded<T>,
    unmarshalErrors: GoString -> Result<ErrorResponse, Cause>)

  /**
    The header after the two steps: every caller header set, then
    Content-Type overwritten by the content type's tag unless it is empty.
  */
  function HeadersSent(m: Header, ct: ContentType): (h: Header)
    requires CanonicalKeys(m)
    ensures ct == Empty ==> h == m
    ensures ct != Empty ==> ContentTypeKey in h && h[ContentTypeKey] == Tag(ct)
    ensures forall k :: k != ContentTypeKey ==> (k in h <==> k in m)
    ensures forall k :: k != ContentTypeKey && k in m ==> h[k] == m[k]
  {
    if Tag(ct) != [] then m[ContentTypeKey := Tag(ct)] else m
  }

  /**
    Everything `Request` does before the network: the request it sends, or
    the error of the first step that failed (URL, then body, then request
    construction).
  */
  function Outgoing<V, T>(verb: GoString, path: GoString, data: Payload<V>, m: Header,
                          lib: Library<V, T>): (r: Result<Wire, Err>)
    requires CanonicalKeys(m)
    ensures lib.parseUrl(path).Failure? ==> r == Failure(Foreign(lib.parseUrl(path).error))
    ensures r.Success? ==>
      && lib.parseUrl(path).Success?
      && PrepareRequestBody(data, lib.marshal).err.None?
      && lib.newRequest(verb, lib.parseUrl(path).value).Success?
      && r.value.verb == lib.newRequest(verb, lib.parseUrl(path).value).value.verb
      && r.value.url == lib.newRequest(verb, lib.parseUrl(path).value).value.url
      && r.value.body == PrepareRequestBody(data, lib.marshal).body.GetOr([])
      && r.value.header == HeadersSent(m, PrepareRequestBody(data, lib.marshal).contentType)
  {
    match lib.parseUrl(path)
    case Failure(c) => Failure(Foreign(c))
    case Success(uri) =>
      var prepared := PrepareRequestBody(data, lib.marshal);
      if prepared.err.Some? then Failure(prepared.err.value)
      else
        match lib.newRequest(verb, uri)
        case Failure(c) => Failure(Foreign(c))
        case Success(b) => Success(Wire(b.verb, b.url, prepared.body.GetOr([]), HeadersSent(m, prepared.contentType)))
  }

  /** What comes of the round trip: transport and read errors are returned as they are. */
  function Finish<V, T>(x: Exchange, current: Option<T>, lib: Library<V, T>,
                     custom: Option<GoString -> Option<Err>>): (h: Handled<T>)
    ensures !x.Received? ==> h == Handled(Some(Foreign(x.cause)), None)
  {
    match x
    case TransportFailed(c) => Handled(Some(Foreign(c)), None)
    case ReadFailed(c) => Handled(Some(Foreign(c)), None)
    case Received(status, body) => HandleResponse(status, body, current, lib.unmarshal, custom, lib.unmarshalErrors)
  }

  /** A URL that does not parse fails the call first, whatever the payload, headers or other library calls. */
  lemma UrlParsedFirst<V, T>(verb: GoString, path: GoString, data: Payload<V>, m: Header, lib: Library<V, T>)
    requires CanonicalKeys(m)
    requires lib.parseUrl(path).Failure?
    ensures Outgoing(verb, path, data, m, lib) == Failure(Foreign(lib.parseUrl(path).error))
  {
  }

  /** After a good URL, a payload that does not marshal fails the call before the request is built. */
  lemma BodyPreparedBeforeRequestBuilt<V, T>(verb: GoString, path: GoString, data: Payload<V>, m: Header,
                                             lib: Library<V, T>)
    requires CanonicalKeys(m)
    requires lib.parseUrl(path).Success?
    requires data.Value? && lib.marshal(data.value).Failure?
    ensures Outgoing(verb, path, data, m, lib) == Failure(Foreign(lib.marshal(data.value).error))
  {
  }

  /** After a good URL and body, a failure to build the request fails the call with that error. */
  lemma RequestBuildFailurePassedThrough<V, T>(verb: GoString, path: GoString, data: Payload<V>, m: Header,
                                               lib: Library<V, T>)
    requires CanonicalKeys(m)
    requires lib.parseUrl(path).Success?
    requires PrepareRequestBody(data, lib.marshal).err.None?
    requires lib.newRequest(verb, lib.parseUrl(path).value).Failure?
    ensures Outgoing(verb, path, data, m, lib) == Failure(Foreign(lib.newRequest(verb, lib.parseUrl(path).value).error))
  {
  }

  /** The call goes on the network exactly when all three steps before it succeed. */
  lemma SentExactlyWhenStepsSucceed<V, T>(verb: GoString, path: GoString, data: Payload<V>, m: Header,
                                          lib: Library<V, T>)
    requires CanonicalKeys(m)
    ensures Outgoing(verb, path, data, m, lib).Success? <==>
      && lib.parseUrl(path).Success?
      && (data.Value? ==> lib.marshal(data.value).Success?)
      && lib.newRequest(verb, lib.parseUrl(path).value).Success?
  {
  }

  /**
    The headers sent: without a payload they are the caller's exactly; with
    one, Content-Type is the payload's tag and every other header is the
    caller's.
  */
  lemma HeadersOfSentRequest<V, T>(verb: GoString, path: GoString, data: Payload<V>, m: Header, lib: Library<V, T>)
    requires CanonicalKeys(m)
    requires Outgoing(verb, path, data, m, lib).Success?
    ensures var h := Outgoing(verb, path, data, m, lib).value.header;
      && (data.Nil? ==> h == m)
      && (data.Text? ==> ContentTypeKey in h && h[ContentTypeKey] == Lit("application/x-www-form-urlencoded"))
      && (data.Value? ==> ContentTypeKey in h && h[ContentTypeKey] == Lit("application/json"))
      && (forall k :: k != ContentTypeKey ==> (k in h <==> k in m))
      && (forall k :: k != ContentTypeKey && k in m ==> h[k] == m[k])
  {
  }

  /**
    A Content-Type the caller sets (other than one of the two tags) reaches
    the wire exactly when there is no payload.
  */
  lemma CallerContentTypeSurvivesIffNoPayload<V, T>(verb: GoString, path: GoString, data: Payload<V>, m: Header,
                                                    lib: Library<V, T>)
    requires CanonicalKeys(m)
    requires Outgoing(verb, path, data, m, lib).Success?
    requires ContentTypeKey in m
    requires m[ContentTypeKey] != Tag(Json) && m[ContentTypeKey] != Tag(FormUrlEncoded)
    ensures var h := Outgoing(verb, path, data, m, lib).value.header;
      ContentTypeKey in h && (h[ContentTypeKey] == m[ContentTypeKey] <==> data.Nil?)
  {
  }

  /** The body sent is the string's own bytes, the marshalled value, or nothing. */
  lemma BodyOfSentRequest<V, T>(verb: GoString, path: GoString, data: Payload<V>, m: Header, lib: Library<V, T>)
    requires CanonicalKeys(m)
    requires Outgoing(verb, path, data, m, lib).Success?
    ensures var b := Outgoing(verb, path, data, m, lib).value.body;
      && (data.Nil? ==> b == [])
      && (data.Text? ==> b == data.text)
      && (data.Value? ==> b == lib.marshal(data.value).value)
  {
  }

  /** The network: every request sent is recorded, and `server` gives its outcome. */
  class HttpClient {
    const server: Wire -> Exchange
    var sent: seq<Wire>

    constructor (server: Wire -> Exchange)
      ensures this.server == server && sent == []
    {
      this.server := server;
      sent := [];
    }

    /** `Do` followed by `io.ReadAll` of the body: one round trip. */
    method Do(w: Wire) returns (x: Exchange)
      modifies this
      ensures sent == old(sent) + [w]
      ensures x == server(w)
    {
      sent := sent + [w];
      x := server(w);
    }
  }

  /** The `*http.Request` under construction, whose header is set in place. */
  class OutgoingRequest {
    const verb: GoString
    const url: GoString
    const body: GoString
    var header: Header

    /** `http.NewRequest` once it has succeeded, with the method and URL it stored: no header yet. */
    constructor (verb: GoString, url: GoString, body: GoString)
      ensures this.verb == verb && this.url == url && this.body == body && header == map[]
    {
      this.verb, this.url, this.body := verb, url, body;
      header := map[];
    }

    /** `Header.Set`: the key now holds exactly this value; no other key changes. */
    method SetHeader(k: GoString, v: GoString)
      requires CanonicalKey(k)
      modifies this
      ensures header == old(header)[k := v]
    {
      header := header[k := v];
    }

    function ToWire(): Wire
      reads this
    {
      Wire(verb, url, body, header)
    }
  }

  /**
    The caller's result value, decoded into in place. A null reference
    stands only for an untyped nil `v`. A typed nil pointer or a
    non-pointer value is a non-null target: `v != nil` holds for it in
    Go, so decoding is attempted and its errors are reported.
  */
  class Target<T> {
    var value: T

    constructor (value: T)
      ensures this.value == value
    {
      this.value := value;
    }
  }

  class DefaultClient {
    const httpClient: HttpClient

    constructor (httpClient: HttpClient)
      ensures this.httpClient == httpClient
    {
      this.httpClient := httpClient;
    }

    /**
      `Request`: sends the request `Outgoing` describes, exactly once, or
      nothing when one of the steps before the network fails; then returns
      what the response handling gives and writes the decoded value, if
      any, into the target. `custom` is the installed error reader.
    */
    method Request<V, T>(target: Target?<T>, verb: GoString, path: GoString, data: Payload<V>, m: Header,
                         lib: Library<V, T>, custom: Option<GoString -> Option<Err>>) returns (err: Option<Err>)
      requires CanonicalKeys(m)
      modifies httpClient, target
      ensures var out := Outgoing(verb, path, data, m, lib);
        out.Failure? ==>
          && err == Some(out.error)
          && httpClient.sent == old(httpClient.sent)
          && (target != null ==> target.value == old(target.value))
      ensures var out := Outgoing(verb, path, data, m, lib);
        out.Success? ==>
          var h := Finish(httpClient.server(out.value), if target == null then None else Some(old(target.value)), lib, custom);
          && httpClient.sent == old(httpClient.sent) + [out.value]
          && err == h.err
          && (target != null ==> target.value == h.written.GetOr(old(target.value)))
    {
      var uri := lib.parseUrl(path);
      if uri.Failure? {
        return Some(Foreign(uri.error));
      }
      var prepared := PrepareRequestBody(data, lib.marshal);
      if prepared.err.Some? {
        return prepared.err;
      }
      var built := lib.newRequest(verb, uri.value);
      if built.Failure? {
        return Some(Foreign(built.error));
      }
      var request := new OutgoingRequest(built.value.verb, built.value.url, prepared.body.GetOr([]));

      var pending := m.Keys;
      while pending != {}
        modifies request
        invariant pending <= m.Keys
        invariant request.header == map k | k in m.Keys - pending :: m[k]
        decreases pending
      {
        var k :| k in pending;
        request.SetHeader(k, m[k]);
        pending := pending - {k};
      }
      assert request.header == m;
      if prepared.contentType != Empty {
        ContentTypeKeyIsCanonical();
        request.SetHeader(ContentTypeKey, Tag(prepared.contentType));
      }

      assert Outgoing(verb, path, data, m, lib) == Success(request.ToWire());
      var x := httpClient.Do(request.ToWire());
      match x {
        case TransportFailed(c) =>
          return Some(Foreign(c));
        case ReadFailed(c) =>
          return Some(Foreign(c));
        case Received(status, body) =>
          match RouteFor(status, target != null) {
            case DecodeSuccess =>
              var d := lib.unmarshal(body, target.value);
              target.value := d.value;
              if d.failure.Some? {
                return Some(DecodeResponseFailure(body, d.failure.value));
              }
              return None;
            case SuccessNoDecode =>
              return None;
            case ServiceUnavailable =>
              return Some(UnexpectedResponse);
            case ToErrorReader =>
              return ReadErrorBody(body, custom, lib.unmarshalErrors);
          }
      }
    }
  }
}
