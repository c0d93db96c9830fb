/**
 * The submission handler, `handleDownload`, as a page object whose fields
 * are what the user sees: whether the button is disabled, the message area,
 * the listed download options, and the requests sent so far.
 *
 * The handler suspends once, while the request is in flight, so it is
 * split at that point: `Start` runs up to sending the request and
 * `Finish` is the continuation that receives what the fetch produced.
 * `Submit` runs both, as one click does.
 */
module Page {
  import opened Wrappers
  import opened Text
  import opened Platforms
  import opened Client
  import opened Presenter

  /** The `type` of `showMessage`. */
  datatype Tone = SuccessTone | ErrorTone

  /** The message area: hidden, or showing a text in a tone. */
  datatype Message = Hidden | Shown(tone: Tone, text: string)

  /** What the suspended handler keeps: the trimmed URL and its platform. */
  datatype Pending = Pending(url: string, platform: Platform)

  const Cross := "\U{274C} "
  const MissingUrlText := Cross + "Please enter a video URL"
  const InvalidUrlText := Cross + "Please enter a valid URL"
  const UnrecognizedText := Cross + "URL not recognized. Please enter a valid YouTube, Facebook, or Twitter video URL."
  const FailureLead := Cross + "Failed to process video: "
  const RetryTail := ". Please try again."
  const ApiErrorFallback := "Unable to process this video. Please try another URL."
  const ReadyText := "\U{2705} Video ready! Click the download button below."

  /** The message for a response whose `status` is `error`. */
  function ApiErrorMessage(text: Option<string>): Message
  {
    Shown(ErrorTone, Cross + "Error: " + OrElse(text, ApiErrorFallback))
  }

  /** The message for an error caught by the handler. */
  function FailureMessage(e: Thrown): Message
  {
    Shown(ErrorTone, FailureLead + MessageProperty(e) + RetryTail)
  }

  /**
   * The checks before any request, in their order: the trimmed input is
   * not empty, it parses as a URL, and its platform is recognised. The
   * failure carries the message shown.
   */
  ghost function Admit(url: string, valid: bool): Result<Platform, string>
  {
    if url == "" then Failure(MissingUrlText)
    else if !valid then Failure(InvalidUrlText)
    else match Classify(url)
      case None => Failure(UnrecognizedText)
      case Some(platform) => Success(platform)
  }

  /** What the page ends up showing once the request has been answered. */
  datatype Conclusion = Conclusion(message: Message, options: Option<seq<DownloadOption>>)

  /**
   * The continuation after the request: a thrown error is reported as a
   * failure, a response with status `error` as the API's message, anything
   * else as success with its download options (or as a failure when
   * presenting them throws).
   */
  function Conclude(r: Result<ApiResponse, Thrown>, platform: Platform): Conclusion
  {
    match r
    case Failure(e) => Conclusion(FailureMessage(e), None)
    case Success(data) =>
      if data.status == Some("error") then Conclusion(ApiErrorMessage(data.text), None)
      else match Present(data, platform)
        case Success(opts) => Conclusion(Shown(SuccessTone, ReadyText), Some(opts))
        case Failure(e) => Conclusion(FailureMessage(e), None)
  }

  class DownloadPage {
    /** `PROXY_URL`, fixed when the page loads. */
    const proxyUrl: string
    /** Whether `new URL(s)` succeeds: the URL parser, which is not modelled. */
    const isValidUrl: string -> bool
    /** `downloadBtn.disabled` */
    var busy: bool
    /** The message area. */
    var message: Message
    /** The download options area: hidden (None) or listing these entries. */
    var options: Option<seq<DownloadOption>>
    /** Every request sent to the resolution endpoint, in order. */
    var requests: seq<Request>

    /** The page as loaded from `hostname`, with the button enabled and nothing shown. */
    constructor (hostname: string, urlParser: string -> bool)
      ensures proxyUrl == ProxyUrlFor(hostname) && isValidUrl == urlParser
      ensures !busy && message == Hidden && options == None && requests == []
    {
      proxyUrl := ProxyUrlFor(hostname);
      isValidUrl := urlParser;
      busy := false;
      message := Hidden;
      options := None;
      requests := [];
    }

    /**
     * The handler up to the request: clear the message and options, check
     * the trimmed input; on a failed check show why and leave the button
     * and the requests alone; otherwise disable the button and send the
     * request.
     */
    method Start(input: string) returns (pending: Option<Pending>)
      modifies this
      ensures var url := Trim(input);
        match Admit(url, isValidUrl(url))
        case Failure(text) =>
          pending == None && message == Shown(ErrorTone, text) && options == None
          && busy == old(busy) && requests == old(requests)
        case Success(platform) =>
          pending == Some(Pending(url, platform)) && message == Hidden && options == None
          && busy && requests == old(requests) + [BuildRequest(Endpoint(proxyUrl), url)]
    {
      var url := Trim(input);
      message := Hidden;
      options := None;
      if url == "" {
        assert Admit(url, isValidUrl(url)) == Failure(MissingUrlText);
        message := Shown(ErrorTone, MissingUrlText);
        return None;
      }
      if !isValidUrl(url) {
        assert Admit(url, isValidUrl(url)) == Failure(InvalidUrlText);
        message := Shown(ErrorTone, InvalidUrlText);
        return None;
      }
      var platform := DetectPlatform(url);
      if platform.None? {
        assert Admit(url, isValidUrl(url)) == Failure(UnrecognizedText);
        message := Shown(ErrorTone, UnrecognizedText);
        return None;
      }
      assert Admit(url, isValidUrl(url)) == Success(platform.value);
      busy := true;
      requests := requests + [BuildRequest(Endpoint(proxyUrl), url)];
      return Some(Pending(url, platform.value));
    }

    /**
     * `showDownloadOptions`: list the entries for the response, or throw
     * (returning the error) and leave the options as they were.
     */
    method ShowDownloadOptions(data: ApiResponse, platform: Platform) returns (thrown: Option<Thrown>)
      modifies this`options
      ensures Present(data, platform).Success? ==> thrown == None && options == Some(Present(data, platform).value)
      ensures Present(data, platform).Failure? ==> thrown == Some(Present(data, platform).error) && options == old(options)
    {
      if data.status == Some("redirect") || data.status == Some("stream") {
        options := Some([DirectOption(platform, data.url)]);
      } else if data.status == Some("picker") {
        match data.picker
        case NoPicker => return Some(UndefinedPickerError);
        case NullPicker => return Some(NullPickerError);
        case NotArray => return Some(NotArrayError);
        case Items(items) =>
          var opts, failed := ListPicker(items);
          if failed.Some? {
            return failed;
          }
          options := Some(opts);
      } else {
        options := Some([FallbackOption]);
      }
      return None;
    }

    /**
     * The handler after the request: enable the button on every path and
     * show the conclusion; the options change only when they are listed.
     */
    method Finish(p: Pending, net: NetOutcome)
      modifies this
      ensures !busy && requests == old(requests)
      ensures var c := Conclude(Resolve(proxyUrl, net), p.platform);
        message == c.message && options == (if c.options.Some? then c.options else old(options))
    {
      var r := Resolve(proxyUrl, net);
      busy := false;
      if r.Failure? {
        message := FailureMessage(r.error);
        return;
      }
      var data := r.value;
      if data.status == Some("error") {
        message := ApiErrorMessage(data.text);
        return;
      }
      message := Shown(SuccessTone, ReadyText);
      var thrown := ShowDownloadOptions(data, p.platform);
      if thrown.Some? {
        message := FailureMessage(thrown.value);
      }
    }

    /**
     * One submission, `handleDownload`, with `net` what the fetch will
     * produce: a failed check shows its message and sends nothing;
     * otherwise exactly one request is sent and the button ends enabled.
     */
    method Submit(input: string, net: NetOutcome)
      modifies this
      ensures var url := Trim(input);
        match Admit(url, isValidUrl(url))
        case Failure(text) =>
          message == Shown(ErrorTone, text) && options == None
          && busy == old(busy) && requests == old(requests)
        case Success(platform) =>
          var c := Conclude(Resolve(proxyUrl, net), platform);
          message == c.message && options == c.options
          && !busy && requests == old(requests) + [BuildRequest(Endpoint(proxyUrl), url)]
    {
      var pending := Start(input);
      if pending.Some? {
        Finish(pending.value, net);
      }
    }
  }

  // ---------------------------------------------------------------------
  // Properties
  // ---------------------------------------------------------------------

  /** Input that is empty or only whitespace is reported as missing, whatever the parser says. */
  lemma BlankInputIsMissing(input: string, valid: bool)
    requires AllWhitespace(input)
    ensures Admit(Trim(input), valid) == Failure(MissingUrlText)
  {
    TrimEmptyIff(input);
  }

  /** The checks run in order, and a URL passes them exactly when it is classified. */
  lemma AdmitInOrder(url: string, valid: bool)
    ensures Admit(url, valid) == Failure(MissingUrlText) <==> url == ""
    ensures Admit(url, valid) == Failure(InvalidUrlText) <==> url != "" && !valid
    ensures Admit(url, valid) == Failure(UnrecognizedText) <==> url != "" && valid && Classify(url).None?
    ensures Admit(url, valid).Success? <==> url != "" && valid && Classify(url).Some?
    ensures Admit(url, valid).Success? ==> Some(Admit(url, valid).value) == Classify(url)
  {
    assert MissingUrlText != InvalidUrlText && MissingUrlText != UnrecognizedText && InvalidUrlText != UnrecognizedText by {
      assert |Cross| == 2;
      assert |MissingUrlText| == |InvalidUrlText| < |UnrecognizedText|;
      assert MissingUrlText[18] != InvalidUrlText[18];
    }
  }

  /** A response with status `error` fails with the API's text, or the fallback text, and lists nothing. */
  lemma ApiErrorShown(data: ApiResponse, platform: Platform)
    requires data.status == Some("error")
    ensures Conclude(Success(data), platform).options == None
    ensures Conclude(Success(data), platform).message.tone == ErrorTone
    ensures data.text.Some? && data.text.value != "" ==>
      Conclude(Success(data), platform).message.text == Cross + "Error: " + data.text.value
    ensures (data.text.None? || data.text == Some("")) ==>
      Conclude(Success(data), platform).message.text == Cross + "Error: " + ApiErrorFallback
  {
  }

  /**
   * A successful response of any other status is a success, listing the
   * presented entries, exactly when it can be presented; otherwise what
   * presenting threw is shown as a failure and nothing is listed.
   */
  lemma SuccessShown(data: ApiResponse, platform: Platform)
    requires data.status != Some("error")
    ensures Conclude(Success(data), platform).message.tone == SuccessTone <==> Present(data, platform).Success?
    ensures Present(data, platform).Success? ==>
      Conclude(Success(data), platform) == Conclusion(Shown(SuccessTone, ReadyText), Some(Present(data, platform).value))
    ensures Present(data, platform).Failure? ==>
      Conclude(Success(data), platform) == Conclusion(FailureMessage(Present(data, platform).error), None)
  {
  }

  /**
   * A `picker` response with a `null` element is shown as
   * "Failed to process video: Cannot read properties of null (reading 'type'). Please try again.",
   * and nothing is listed, not even the elements before it.
   */
  lemma NullItemShown(data: ApiResponse, platform: Platform, i: nat)
    requires data.status == Some("picker") && data.picker.Items?
    requires i < |data.picker.items| && data.picker.items[i] == NullItem
    ensures Conclude(Success(data), platform)
      == Conclusion(Shown(ErrorTone, FailureLead + "Cannot read properties of null (reading 'type')" + RetryTail), None)
  {
    PickerErrors(data, platform);
  }

  /**
   * A network/CORS failure while resolving, thrown by `fetch` or by
   * `response.json()`, is shown as a failure that begins with the guidance
   * for the endpoint called; nothing is listed.
   */
  lemma NetworkFailureShown(proxy: string, net: NetOutcome, platform: Platform)
    requires Attempt(net).Failure? && IsNetworkFailure(Attempt(net).error)
    ensures var c := Conclude(Resolve(proxy, net), platform);
      c.options == None && c.message.tone == ErrorTone
      && StartsWith(c.message.text, FailureLead + ("Network/CORS error when calling " + Endpoint(proxy) + "."))
  {
    var e := Attempt(net).error;
    NetworkFailureWrapped(proxy, e);
    StartsWithCarried(FailureLead, Caught(proxy, e).message, RetryTail,
                      "Network/CORS error when calling " + Endpoint(proxy) + ".");
  }

  /** A failing status is shown as "Failed to process video: API request failed with status N. Please try again." */
  lemma HttpFailureShown(proxy: string, status: nat, body: BodyOutcome, platform: Platform)
    requires !IsOkStatus(status)
    ensures Conclude(Resolve(proxy, Responded(status, body)), platform)
      == Conclusion(Shown(ErrorTone, FailureLead + (HttpFailurePrefix + Decimal(status)) + RetryTail), None)
  {
    HttpFailure(proxy, status, body);
  }

  /** The short link of the end-to-end test is left as it is by trimming and classifies as YouTube. */
  lemma ShortLinkQualifies()
    ensures var url := "https://youtu.be/KiPCIoqWAOI";
      Trim(url) == url && url != "" && Classify(url) == Some(YouTube)
  {
    TrimKeeps("https://youtu.be/KiPCIoqWAOI");
    ShortLinkSample();
  }

  /** A non-empty URL that parses and is classified as YouTube passes the checks. */
  lemma YouTubeAdmitted(url: string, valid: bool)
    requires url != "" && valid && Classify(url) == Some(YouTube)
    ensures Admit(url, valid) == Success(YouTube)
  {
  }

  /** What the fetch produced is an answer 200 whose body redirects to `target`, as the test's mock is. */
  predicate RedirectAnswer(net: NetOutcome, target: string)
  {
    net.Responded? && net.status == 200 && net.body.Parsed?
    && net.body.data.status == Some("redirect") && net.body.data.url == Some(target)
  }

  /**
   * Without a host name the public API is called, and the options a
   * redirect answer concludes with are one download entry, to the target.
   */
  lemma RedirectConcluded(proxy: string, net: NetOutcome, target: string, options: Option<seq<DownloadOption>>)
    requires proxy == "" && RedirectAnswer(net, target)
    requires options == Conclude(Resolve(proxy, net), YouTube).options
    ensures Endpoint(proxy) == CobaltEndpoint
    ensures options.Some? && |options.value| == 1 && options.value[0].href == Some(target)
  {
    ResolveSucceeds(proxy, net);
    PresentDirect(net.body.data, YouTube);
  }

  /**
   * The end-to-end scenario: the page is served from a host other than
   * the local one (the test opens it from a file, whose host name is
   * empty); a YouTube URL the parser accepts (the test uses the short
   * link, see `ShortLinkQualifies`) is submitted; the public API answers
   * 200 with a redirect to `target`. Exactly one request goes to the
   * public API, and the one download entry links to the target.
   */
  method RedirectScenario(host: string, url: string, urlParser: string -> bool, net: NetOutcome, target: string)
    returns (href: Option<string>, sent: seq<Request>)
    requires host != "localhost" && host != "127.0.0.1"
    requires Trim(url) == url && url != "" && urlParser(url) && Classify(url) == Some(YouTube)
    requires RedirectAnswer(net, target)
    ensures href == Some(target)
    ensures sent == [BuildRequest(CobaltEndpoint, url)]
  {
    var page := new DownloadPage(host, urlParser);
    YouTubeAdmitted(Trim(url), page.isValidUrl(Trim(url)));
    page.Submit(url, net);
    RedirectConcluded(page.proxyUrl, net, target, page.options);
    href := page.options.value[0].href;
    sent := page.requests;
  }
}
