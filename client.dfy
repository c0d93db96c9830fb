/**
 * The resolution client, `fetchDownloadUrl`: which endpoint is called,
 * the request it sends, the response it accepts, and how a thrown error is
 * classified as a network/CORS failure (wrapped with guidance) or passed on
 * unchanged.
 *
 * `fetch` and `response.json()` are not modelled; what they produced is
 * the input `NetOutcome`, so resolving is a function of the configured
 * proxy and that outcome.
 */
module Client {
  import opened Wrappers
  import opened Text

  // ---------------------------------------------------------------------
  // Configuration
  // ---------------------------------------------------------------------

  /** `API_ENDPOINTS.cobalt` */
  const CobaltEndpoint := "https://api.cobalt.tools/api/json"

  /** The address of the local relay. */
  const LocalProxy := "http://localhost:3000/proxy"

  /**
   * The value `PROXY_URL` receives at startup from the page's host name
   * (the empty string when there is no `location`).
   */
  function ProxyUrlFor(hostname: string): (proxy: string)
    ensures proxy == LocalProxy <==> hostname == "localhost" || hostname == "127.0.0.1"
    ensures proxy != LocalProxy ==> proxy == ""
  {
    if hostname == "localhost" || hostname == "127.0.0.1" then LocalProxy else ""
  }

  /** `PROXY_URL ? PROXY_URL : API_ENDPOINTS.cobalt`, equally `PROXY_URL || API_ENDPOINTS.cobalt`. */
  function Endpoint(proxy: string): (endpoint: string)
    ensures endpoint != ""
    ensures proxy != "" ==> endpoint == proxy
    ensures proxy == "" ==> endpoint == CobaltEndpoint
  {
    if proxy != "" then proxy else CobaltEndpoint
  }

  /** A page served from a local host calls the relay; any other page calls the API directly. */
  lemma EndpointForHost(hostname: string)
    ensures hostname == "localhost" || hostname == "127.0.0.1" ==> Endpoint(ProxyUrlFor(hostname)) == LocalProxy
    ensures !(hostname == "localhost" || hostname == "127.0.0.1") ==> Endpoint(ProxyUrlFor(hostname)) == CobaltEndpoint
  {
  }

  // ---------------------------------------------------------------------
  // The request
  // ---------------------------------------------------------------------

  datatype Json = JString(str: string) | JBool(flag: bool)

  /** An HTTP request: its method (verb), target, headers and the JSON object sent as body, fields in order. */
  datatype Request = Request(verb: string, endpoint: string, headers: seq<(string, string)>,
                             body: seq<(string, Json)>)

  /** The value of the first field called `key`, if any. */
  function Field(fields: seq<(string, Json)>, key: string): (v: Option<Json>)
    ensures v.Some? <==> exists k :: 0 <= k < |fields| && fields[k].0 == key
  {
    if fields == [] then None
    else if fields[0].0 == key then Some(fields[0].1)
    else
      var rest := Field(fields[1..], key);
      assert forall k :: 1 <= k < |fields| ==> fields[k] == fields[1..][k - 1];
      rest
  }

  function Keys(fields: seq<(string, Json)>): seq<string>
  {
    if fields == [] then [] else [fields[0].0] + Keys(fields[1..])
  }

  /** The POST that `fetchDownloadUrl(url)` sends to `endpoint`. */
  function BuildRequest(endpoint: string, url: string): Request
  {
    Request("POST", endpoint,
            [("Accept", "application/json"), ("Content-Type", "application/json")],
            [("url", JString(url)),
             ("vCodec", JString("h264")),
             ("vQuality", JString("720")),
             ("aFormat", JString("mp3")),
             ("filenamePattern", JString("classic")),
             ("isAudioOnly", JBool(false))])
  }

  /**
   * The request is a JSON POST to the endpoint whose body has exactly the
   * six fields, carries the URL and the fixed settings, and depends on the
   * URL only through the `url` field.
   */
  lemma RequestShape(endpoint: string, url: string, other: string)
    ensures BuildRequest(endpoint, url).verb == "POST"
    ensures BuildRequest(endpoint, url).endpoint == endpoint
    ensures BuildRequest(endpoint, url).headers
      == [("Accept", "application/json"), ("Content-Type", "application/json")]
    ensures Keys(BuildRequest(endpoint, url).body)
      == ["url", "vCodec", "vQuality", "aFormat", "filenamePattern", "isAudioOnly"]
    ensures Field(BuildRequest(endpoint, url).body, "url") == Some(JString(url))
    ensures Field(BuildRequest(endpoint, url).body, "vCodec") == Some(JString("h264"))
    ensures Field(BuildRequest(endpoint, url).body, "vQuality") == Some(JString("720"))
    ensures Field(BuildRequest(endpoint, url).body, "aFormat") == Some(JString("mp3"))
    ensures Field(BuildRequest(endpoint, url).body, "filenamePattern") == Some(JString("classic"))
    ensures Field(BuildRequest(endpoint, url).body, "isAudioOnly") == Some(JBool(false))
    ensures BuildRequest(endpoint, url).body[1..] == BuildRequest(endpoint, other).body[1..]
  {
    RequestKeys(endpoint, url);
    RequestFields(endpoint, url);
  }

  lemma RequestKeys(endpoint: string, url: string)
    ensures Keys(BuildRequest(endpoint, url).body)
      == ["url", "vCodec", "vQuality", "aFormat", "filenamePattern", "isAudioOnly"]
  {
    var b := BuildRequest(endpoint, url).body;
    assert Keys(b[5..]) == ["isAudioOnly"];
    assert Keys(b[4..]) == ["filenamePattern", "isAudioOnly"];
    assert Keys(b[3..]) == ["aFormat", "filenamePattern", "isAudioOnly"];
    assert Keys(b[2..]) == ["vQuality", "aFormat", "filenamePattern", "isAudioOnly"];
    assert Keys(b[1..]) == ["vCodec", "vQuality", "aFormat", "filenamePattern", "isAudioOnly"];
  }

  lemma RequestFields(endpoint: string, url: string)
    ensures Field(BuildRequest(endpoint, url).body, "url") == Some(JString(url))
    ensures Field(BuildRequest(endpoint, url).body, "vCodec") == Some(JString("h264"))
    ensures Field(BuildRequest(endpoint, url).body, "vQuality") == Some(JString("720"))
    ensures Field(BuildRequest(endpoint, url).body, "aFormat") == Some(JString("mp3"))
    ensures Field(BuildRequest(endpoint, url).body, "filenamePattern") == Some(JString("classic"))
    ensures Field(BuildRequest(endpoint, url).body, "isAudioOnly") == Some(JBool(false))
  {
    var b := BuildRequest(endpoint, url).body;
    assert Field(b[4..], "isAudioOnly") == Some(JBool(false));
    assert Field(b[3..], "isAudioOnly") == Some(JBool(false));
    assert Field(b[2..], "isAudioOnly") == Some(JBool(false));
    assert Field(b[3..], "filenamePattern") == Some(JString("classic"));
    assert Field(b[2..], "filenamePattern") == Some(JString("classic"));
    assert Field(b[2..], "aFormat") == Some(JString("mp3"));
    assert Field(b[2..], "vQuality") == Some(JString("720"));
  }

  // ---------------------------------------------------------------------
  // The response and what can be thrown
  // ---------------------------------------------------------------------

  /**
   * One element of a `picker` array: a value whose `url` and `type` can be
   * read (None when absent or not a string; a number or a string element
   * reads as both absent), or `null`, which has no properties.
   */
  datatype PickerItem = PickerItem(url: Option<string>, mediaType: Option<string>) | NullItem

  /** The `picker` field: absent, `null`, present but not an array, or an array. */
  datatype PickerField = NoPicker | NullPicker | NotArray | Items(items: seq<PickerItem>)

  /**
   * The parsed JSON body: the fields the page reads. A string field that is
   * absent (or not a string) is None.
   */
  datatype ApiResponse = ApiResponse(status: Option<string>, url: Option<string>,
                                     picker: PickerField, text: Option<string>)

  /**
   * A thrown value: an Error object (with whether it is a `TypeError`, its
   * `name`, `message` and `cause`), or some other value given by its string
   * form.
   */
  datatype Thrown =
    | ErrorObject(isTypeError: bool, name: string, message: string, cause: Option<Thrown>)
    | Primitive(text: string)

  /** What the fetch produced. */
  datatype NetOutcome =
    | FetchFailed(error: Thrown)                 // `fetch` threw before any response
    | Responded(status: nat, body: BodyOutcome)  // a response with this status

  /** What `response.json()` produced. */
  datatype BodyOutcome = Parsed(data: ApiResponse) | Unparsable(error: Thrown)

  /** `String(error)`; for an Error object, `Error.prototype.toString`. */
  function ToText(e: Thrown): string
  {
    match e
    case ErrorObject(_, name, message, _) =>
      if name == "" then message else if message == "" then name else name + ": " + message
    case Primitive(text) => text
  }

  /** `${error.message || error}` */
  function MessageOrText(e: Thrown): string
  {
    if e.ErrorObject? && e.message != "" then e.message else ToText(e)
  }

  /** `${error.message}`: a value that is not an Error object has no message. */
  function MessageProperty(e: Thrown): string
  {
    if e.ErrorObject? then e.message else "undefined"
  }

  /** `response.ok`: a status in the range 200 to 299. */
  predicate IsOkStatus(status: nat)
  {
    200 <= status <= 299
  }

  const HttpFailurePrefix := "API request failed with status "

  /** `new Error(`API request failed with status ${response.status}`)` */
  function HttpError(status: nat): Thrown
  {
    ErrorObject(false, "Error", HttpFailurePrefix + Decimal(status), None)
  }

  /**
   * The test in the catch clause: a `TypeError`, or a value whose string
   * form matches `/Failed to fetch|NetworkError/i`.
   */
  predicate IsNetworkFailure(e: Thrown)
  {
    (e.ErrorObject? && e.isTypeError)
    || TestFolded(ToText(e), "Failed to fetch") || TestFolded(ToText(e), "NetworkError")
  }

  const CorsExplanation := "Browsers block cross-origin requests unless the server sets CORS headers. "
  const RemedyProxy := "(1) run the included local proxy at http://localhost:3000 (see README)"
  const RemedyPublicHost := "(2) deploy this site to a public host (GitHub Pages)"
  const RemedyServerCors := "(3) have the API enable CORS for your origin."

  function GuidanceLead(endpoint: string): string
  {
    "Network/CORS error when calling " + endpoint + "."
  }

  const GuidanceMiddle := " " + CorsExplanation + "To test locally either: "

  /** The guidance text for a network/CORS failure when calling `endpoint`. */
  function Guidance(endpoint: string): string
  {
    GuidanceLead(endpoint) + GuidanceMiddle
    + RemedyProxy + ", " + RemedyPublicHost + " or " + RemedyServerCors
  }

  /** The friendly error that replaces a network/CORS failure `e`. */
  function Wrapped(endpoint: string, e: Thrown): Thrown
  {
    ErrorObject(false, "Error", Guidance(endpoint) + " Original: " + MessageOrText(e), Some(e))
  }

  /** The try block: the parsed body, or what it threw. */
  function Attempt(net: NetOutcome): Result<ApiResponse, Thrown>
  {
    match net
    case FetchFailed(e) => Failure(e)
    case Responded(status, body) =>
      if !IsOkStatus(status) then Failure(HttpError(status))
      else match body
        case Parsed(data) => Success(data)
        case Unparsable(e) => Failure(e)
  }

  /** The catch block: what `fetchDownloadUrl` throws after catching `e`. */
  function Caught(proxy: string, e: Thrown): Thrown
  {
    if IsNetworkFailure(e) then Wrapped(Endpoint(proxy), e) else e
  }

  /** `fetchDownloadUrl`: the parsed response, or the error it throws. */
  function Resolve(proxy: string, net: NetOutcome): Result<ApiResponse, Thrown>
  {
    match Attempt(net)
    case Success(data) => Success(data)
    case Failure(e) => Failure(Caught(proxy, e))
  }

  // ---------------------------------------------------------------------
  // Properties
  // ---------------------------------------------------------------------

  /** Resolving succeeds exactly for an ok response whose body parsed, and returns that body. */
  lemma ResolveSucceeds(proxy: string, net: NetOutcome)
    ensures Resolve(proxy, net).Success? <==>
      net.Responded? && IsOkStatus(net.status) && net.body.Parsed?
    ensures Resolve(proxy, net).Success? ==> Resolve(proxy, net).value == net.body.data
  {
  }

  /**
   * The error for a failing status is not mistaken for a network failure:
   * it is no `TypeError`, and its text has neither "Failed to fetch" nor
   * "NetworkError" in it, in any case.
   */
  lemma HttpErrorIsNotNetworkFailure(status: nat)
    ensures !IsNetworkFailure(HttpError(status))
  {
    assert ToText(HttpError(status)) == HttpErrorTextPrefix + Decimal(status);
    NoNetworkErrorText(status);
    NoFailedToFetchText(status);
  }

  lemma NoNetworkErrorText(status: nat)
    ensures !ContainsFolded(HttpErrorTextPrefix + Decimal(status), "NetworkError")
  {
    HttpErrorTextPrefixLetters();
    NotFoldedBeforeDigits(HttpErrorTextPrefix, Decimal(status), "NetworkError", 0);
  }

  lemma NoFailedToFetchText(status: nat)
    ensures !ContainsFolded(HttpErrorTextPrefix + Decimal(status), "Failed to fetch")
  {
    HttpErrorTextPrefixLetters();
    NotFoldedBeforeDigits(HttpErrorTextPrefix, Decimal(status), "Failed to fetch", 7);
  }

  /** The string form of a status error, up to the status. */
  const HttpErrorTextPrefix := "Error: " + HttpFailurePrefix

  /** No letter of that text is an N, and its one F is followed seven places on by a w. */
  lemma HttpErrorTextPrefixLetters()
    ensures forall k :: 0 <= k < |HttpErrorTextPrefix| ==> Upper(HttpErrorTextPrefix[k]) != 'N'
    ensures forall k :: 0 <= k < |HttpErrorTextPrefix| && Upper(HttpErrorTextPrefix[k]) == 'F' ==>
      k + 7 < |HttpErrorTextPrefix| && Upper(HttpErrorTextPrefix[k + 7]) != 'T'
  {
    var p := HttpErrorTextPrefix;
    assert forall k :: 0 <= k < |p| && Upper(p[k]) == 'F' ==> k == 19;
    assert p[26] == 'w';
  }

  /**
   * A failing status fails with exactly `API request failed with status N`,
   * passed on unwrapped, from which the status can be read back.
   */
  lemma HttpFailure(proxy: string, status: nat, body: BodyOutcome)
    requires !IsOkStatus(status)
    ensures Resolve(proxy, Responded(status, body)) == Failure(HttpError(status))
    ensures HttpError(status).message == HttpFailurePrefix + Decimal(status)
    ensures DigitsValue(HttpError(status).message[|HttpFailurePrefix|..]) == status
  {
    HttpErrorIsNotNetworkFailure(status);
    DecimalRoundTrip(status);
    assert HttpError(status).message[|HttpFailurePrefix|..] == Decimal(status);
  }

  /**
   * The guidance message for `endpoint` followed by ` Original: ` and the
   * original text: it opens with the endpoint, gives the three remedies
   * and ends with the original text.
   */
  lemma WrappedMessageShape(endpoint: string, original: string)
    ensures var m := Guidance(endpoint) + " Original: " + original;
      StartsWith(m, GuidanceLead(endpoint))
      && Contains(m, RemedyProxy) && Contains(m, RemedyPublicHost) && Contains(m, RemedyServerCors)
      && EndsWith(m, " Original: " + original)
  {
    assert Guidance(endpoint) + " Original: " + original
      == GuidanceLead(endpoint) + GuidanceMiddle + RemedyProxy + ", " + RemedyPublicHost + " or "
         + RemedyServerCors + (" Original: " + original);
    Pieces(GuidanceLead(endpoint), GuidanceMiddle, RemedyProxy, ", ", RemedyPublicHost, " or ", RemedyServerCors,
           " Original: " + original);
  }

  /** The parts of the seven-part string the guidance message is made of. */
  lemma Pieces(lead: string, a: string, r1: string, b: string, r2: string, c: string, r3: string, tail: string)
    ensures var m := lead + a + r1 + b + r2 + c + r3 + tail;
      StartsWith(m, lead) && Contains(m, r1) && Contains(m, r2) && Contains(m, r3) && EndsWith(m, tail)
  {
    var x1 := lead + a + r1;
    var x3 := x1 + b + r2;
    var x5 := x3 + c + r3;
    var m := x5 + tail;
    assert OccursAt(x1, r1, |lead + a|);
    assert OccursAt(x3, r2, |x1 + b|);
    assert OccursAt(x5, r3, |x3 + c|);
    ContainsExtended(x1, b + r2, r1);
    assert x3 == x1 + (b + r2);
    ContainsExtended(x3, c + r3, r1);
    ContainsExtended(x3, c + r3, r2);
    assert x5 == x3 + (c + r3);
    ContainsExtended(x5, tail, r1);
    ContainsExtended(x5, tail, r2);
    ContainsExtended(x5, tail, r3);
    assert m[..|lead|] == lead;
    assert m[|m| - |tail|..] == tail;
  }

  /**
   * A network/CORS failure is replaced by a new error: its message names
   * the endpoint that was called, gives the three remedies and ends with
   * the original message, and its cause is the original error.
   */
  lemma NetworkFailureWrapped(proxy: string, e: Thrown)
    requires IsNetworkFailure(e)
    ensures Caught(proxy, e).ErrorObject? && !Caught(proxy, e).isTypeError
    ensures Caught(proxy, e).cause == Some(e)
    ensures StartsWith(Caught(proxy, e).message,
                       "Network/CORS error when calling " + Endpoint(proxy) + ".")
    ensures Contains(Caught(proxy, e).message, RemedyProxy)
    ensures Contains(Caught(proxy, e).message, RemedyPublicHost)
    ensures Contains(Caught(proxy, e).message, RemedyServerCors)
    ensures EndsWith(Caught(proxy, e).message, " Original: " + MessageOrText(e))
  {
    assert Caught(proxy, e) == Wrapped(Endpoint(proxy), e);
    WrappedMessageShape(Endpoint(proxy), MessageOrText(e));
  }

  /** Anything else that is caught is thrown on unchanged. */
  lemma OtherFailurePassedOn(proxy: string, e: Thrown)
    requires !IsNetworkFailure(e)
    ensures Caught(proxy, e) == e
  {
  }

  /** A `TypeError` from `fetch` itself (a refused connection, a failed preflight) is always wrapped. */
  lemma FetchTypeErrorWrapped(proxy: string, e: Thrown)
    requires e.ErrorObject? && e.isTypeError
    ensures Resolve(proxy, FetchFailed(e)) == Failure(Wrapped(Endpoint(proxy), e))
  {
  }

  /**
   * Every failure of `fetchDownloadUrl` is one of three: the status error,
   * the guidance error around a network/CORS failure, or the caught error
   * itself when it is neither.
   */
  lemma FailureKinds(proxy: string, net: NetOutcome)
    requires Resolve(proxy, net).Failure?
    ensures var f := Resolve(proxy, net).error;
      (net.Responded? && !IsOkStatus(net.status) && f == HttpError(net.status))
      || (exists e :: IsNetworkFailure(e) && f == Wrapped(Endpoint(proxy), e))
      || (!IsNetworkFailure(f) && f == Attempt(net).error)
  {
    var e := Attempt(net).error;
    if net.Responded? && !IsOkStatus(net.status) {
      HttpErrorIsNotNetworkFailure(net.status);
    } else if IsNetworkFailure(e) {
      assert Resolve(proxy, net).error == Wrapped(Endpoint(proxy), e);
    }
  }
}
