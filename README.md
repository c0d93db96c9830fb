# yt_download client core in Dafny

This project models the decision logic of `script.js`, the browser client of a video-download page. It has four parts:

- **Platform classification.** A table of nine fixed URL patterns, three platforms in declared order (YouTube, Facebook, Twitter). `detectPlatform` searches it for the first platform with a matching pattern. `extractYouTubeId` takes capture group 1 of the first matching YouTube pattern.
- **The resolution client, `fetchDownloadUrl`.** It chooses the endpoint from `PROXY_URL`, which is fixed from the page's host name. It builds the fixed JSON POST. A status outside 200–299 becomes an error. A caught error is either classified as a network/CORS failure and wrapped with guidance text, or rethrown unchanged.
- **Result presentation, `showDownloadOptions`.** It maps the response's `status` to the list of download entries (title, note, optional link), with the markup stripped. A `picker` response whose `picker` is not an array, or has a `null` element, makes it throw a `TypeError`, which the handler reports.
- **The submission handler, `handleDownload`.** It is modelled as the class `Page.DownloadPage`:
  - `busy` stands for the disabled button, `message` for the message area, `options` for the listed entries, and `requests` for the log of requests sent.
  - `Start` runs up to sending the request and `Finish` is the continuation after the `await`. `Submit` runs both, as one click does.

Modules:

- `Wrappers`: `Option` and `Result`.
- `Text`: the JavaScript operations used, on `seq<char>`:
  - `trim` with the ECMAScript white-space and line-terminator set;
  - decimal rendering of a status or an index;
  - ASCII case folding for the `/i` test.
- `Patterns`: a small language for the nine patterns and its matcher. A pattern is a literal head, then a gap, then a literal tail, then one or more characters of a class. The gap is nothing, an optional `/`, or a run of a class.
  - `Matches` is the specification: some head occurrence that is followed by a gap and a tail.
  - `Find`/`Test` compute it.
  - `Capture` is group 1.
- `Platforms`: the table `PLATFORM_PATTERNS` as the constants `YouTubePatterns`, `FacebookPatterns`, `TwitterPatterns` and `PlatformPatterns`, `Classify` (the meaning of `detectPlatform`), the method `DetectPlatform` (its nested loop), `YouTubeId` and the method `ExtractYouTubeId`, and sample URLs.
- `Client`: `PROXY_URL`, the endpoint, the request, thrown values, and `Resolve` (the whole of `fetchDownloadUrl` as a function of what the network produced).
- `Presenter`: `Present` and the `forEach` loop `ListPicker`.
- `Page`: the checks before a request (`Admit`), the continuation (`Conclude`), and the class `DownloadPage`.

How the regular expressions are read:

- Every pattern starts with `(?:https?:\/\/)?(?:www\.)?` and is used with `test` or `match`, which are not anchored. So whether a pattern matches is decided by the rest of it, and the prefix is not modelled.
- For `match`, every YouTube head starts with `y`, a character no prefix contains. So the leftmost match's group 1 is the longest run of `[A-Za-z0-9_-]` right after the leftmost head occurrence that is followed by at least one such character. That is what `Patterns.CaptureAt` states, with `Patterns.HeadAt` for "a head occurrence followed by such a character". `Patterns.CaptureAtUnique` shows this description allows one group 1 only.
- The nine patterns, each as head, gap, tail and class (`IdChar` is `[a-zA-Z0-9_-]`, `Digit` is `[0-9]`, `Word` is `\w`, `LineChar` is `.`):
  - youtube: `youtube.com/watch?v=`, no gap, no tail, `IdChar`; `youtu.be/`, no gap, no tail, `IdChar`; `youtube.com/embed/`, no gap, no tail, `IdChar`; `youtube.com/shorts/`, no gap, no tail, `IdChar`.
  - facebook: `facebook.com/`, a run of any number of `LineChar`, `/videos/`, `Digit`; `facebook.com/watch`, an optional `/`, `?v=`, `Digit`; `fb.watch/`, no gap, no tail, `IdChar`.
  - twitter: `twitter.com/`, a run of at least one `Word`, `/status/`, `Digit`; `x.com/`, a run of at least one `Word`, `/status/`, `Digit`.
- `\w` is `[A-Za-z0-9_]`. `.` is any character but a line terminator. Backtracking through `.*` and `\w+` is covered because a match may end its gap anywhere.

Where the code differs from what one might expect of such a page, the model follows the code:

- Detection depends on order. A URL that matches patterns of two platforms is classified as the earlier one (`Platforms.OrderSample`), not independently of order.
- A `redirect` or `stream` entry links to the text `undefined` when the response has no `url`. The page does not ensure that a link target is a valid URL.
- `extractYouTubeId` is never called by the handler. It is modelled on its own.

## Model

| member | source | states |
|---|---|---|
| Text.TrimIsCore | script.js:224 | `trim` removes exactly a leading and a trailing run of ECMAScript white space: the result is the middle of the input and neither starts nor ends with white space |
| Text.TrimEmptyIff | script.js:224-234 | the trimmed input is empty exactly when the input is all white space, so `!url` rejects exactly blank input |
| Text.TrimIdempotent | script.js:224 | trimming twice is trimming once |
| Text.TrimKeeps | script.js:224 | text that neither begins nor ends with white space is left as it is |
| Text.Trim | script.js:224 | `String.prototype.trim`; what it removes is stated by `Text.TrimIsCore`, `Text.TrimEmptyIff`, `Text.TrimIdempotent` and `Text.TrimKeeps` |
| Text.Decimal | script.js:117 | the decimal text of a number is a non-empty string of digits, without a leading zero unless it is 0 |
| Text.DecimalRoundTrip | script.js:117 | reading the decimal text of a status back gives the status |
| Text.DecimalInjective | script.js:174 | different numbers have different decimal texts |
| Text.TestFolded | script.js:129 | the case-insensitive test holds exactly when some position of the text equals the needle up to ASCII case |
| Patterns.MatchOfParts | script.js:2-18 | a head, text the gap accepts, the tail and one character of the class, in that order, form a match |
| Patterns.MatchAt | script.js:2-18 | one pattern matching with its head at one index and its tail at another: the gap accepts the text between them and a character of the class follows the tail; the specification that `Patterns.StartsAt` and `Patterns.Find` are proved against |
| Patterns.Matches | script.js:52 | `pattern.test(url)` as a definition: a match exists somewhere; `Patterns.Test` is proved equal to it |
| Patterns.StartsAt | script.js:52 | true exactly when a match has its head at this index |
| Patterns.Find | script.js:52 | returns the first index (from `from` on) where a match starts, and None only when no match starts after `from` |
| Patterns.Test | script.js:52 | `pattern.test(url)`: true exactly when the pattern matches somewhere in the string |
| Patterns.MaxRun | script.js:4-7 | the greedy `+`: the run taken lies in the string, is made of the class, and is not followed by another character of the class |
| Patterns.MaxRunIs | script.js:4-7 | when some characters of the class are followed by one that is not, the greedy run is exactly those characters |
| Patterns.SimpleStartsAt | script.js:4-7 | for a head followed directly by its class, a match starts exactly where the head occurs followed by one character of the class |
| Patterns.FindStopsAt | script.js:52 | the search stops at a match when no head occurs before it |
| Patterns.Capture | script.js:202-204 | group 1 exists exactly when the pattern matches, and it is a non-empty run of the pattern's class |
| Patterns.FoundIsLeftmost | script.js:202-204 | the match the search finds is the leftmost head occurrence followed by a character of the class, and group 1 there is the longest run of the class |
| Patterns.CaptureLeftmost | script.js:202-204 | group 1 is the longest run of the class after the leftmost head occurrence that a character of the class follows |
| Patterns.CaptureAtUnique | script.js:202-204 | the leftmost-head-and-longest-run description picks out one head position and one group 1, which is the greedy run after that head |
| Patterns.LeftmostRun | script.js:202-204 | when the head first occurs at `i`, followed by `n >= 1` characters of the class and then one that is not, the search stops at `i` and group 1 is those `n` characters |
| Platforms.ClassifyInOrder | script.js:49-58 | YouTube exactly when a YouTube pattern matches; Facebook exactly when none of YouTube's does and a Facebook one does; Twitter exactly when neither does and a Twitter one does; null exactly when no pattern matches |
| Platforms.PatternTableOrder | script.js:2-18 | `PLATFORM_PATTERNS`, held in `Platforms.PlatformPatterns` and built from `YouTubePatterns`, `FacebookPatterns` and `TwitterPatterns`, lists youtube, facebook, twitter in that order, each once, with four, three and two patterns; each regex is read as head, gap, tail and class as listed above the table |
| Platforms.FirstPlatform | script.js:49-58 | the platform of the first table row with a matching pattern; its meaning for the table is stated by `Platforms.ClassifyInOrder` |
| Platforms.Classify | script.js:49-58 | what `detectPlatform` returns, as a function; `Platforms.ClassifyInOrder` states it and `Platforms.DetectPlatform` is proved equal to it |
| Platforms.DetectPlatform | script.js:49-58 | the nested search with early return yields exactly the first platform, in declared order, with a matching pattern |
| Platforms.YouTubePatternsSimple | script.js:3-8 | every YouTube pattern is a head followed directly by the captured class `[a-zA-Z0-9_-]` |
| Platforms.FirstCaptureMeaning | script.js:200-208 | the first capture exists exactly when some pattern of the list matches, and it is the capture of the first pattern in list order that matches |
| Platforms.FirstCaptureOfClass | script.js:200-208 | when every pattern captures the same class, the first capture is a non-empty run of that class |
| Platforms.FirstCapture | script.js:200-208 | group 1 of the first pattern of a list that matches; stated by `Platforms.FirstCaptureMeaning` and `Platforms.FirstCaptureOfClass` |
| Platforms.YouTubeId | script.js:200-208 | what `extractYouTubeId` returns, as a function; stated by `Platforms.YouTubeIdMeaning`, and `Platforms.ExtractYouTubeId` is proved equal to it |
| Platforms.YouTubeIdMeaning | script.js:200-208 | an id exists exactly when a YouTube pattern matches; it is non-empty, made of `[A-Za-z0-9_-]`, and the URL is then classified as YouTube |
| Platforms.ExtractYouTubeId | script.js:200-208 | the loop over the YouTube patterns returns group 1 of the first pattern that matches, or null |
| Platforms.NoneMatchWithout | script.js:2-18 | no pattern matches a URL that lacks the first character of every head |
| Platforms.ShortLinkSample | tests/runPlaywrightTest.js:27 | `https://youtu.be/KiPCIoqWAOI` is classified as YouTube |
| Platforms.ShortLinkNotWatch | script.js:4 | the watch pattern does not match the short link |
| Platforms.ShortLinkCapture | script.js:5 | the short-link pattern captures `KiPCIoqWAOI` from it |
| Platforms.ShortLinkIdSample | script.js:200-208 | the id extracted from the short link is `KiPCIoqWAOI` |
| Platforms.WatchLinkSample | script.js:4 | a `youtube.com/watch?v=` link is classified as YouTube |
| Platforms.FacebookSample | script.js:10 | a `facebook.com/<page>/videos/<n>` link is classified as Facebook |
| Platforms.TwitterSample | script.js:15 | a `twitter.com/<user>/status/<n>` link is classified as Twitter |
| Platforms.XSample | script.js:16 | an `x.com/<user>/status/<n>` link is classified as Twitter |
| Platforms.UnrecognizedSample | script.js:49-58 | `https://example.com/` matches no pattern, so detection gives null |
| Platforms.OrderSample | script.js:50-53 | a tweet link that mentions a `youtu.be/` link matches a Twitter pattern and is still classified as YouTube, the first platform in the table |
| Client.ProxyUrlFor | script.js:35-44 | `PROXY_URL` is `http://localhost:3000/proxy` exactly when the host is `localhost` or `127.0.0.1`, and empty otherwise |
| Client.Endpoint | script.js:95 | the endpoint is `PROXY_URL` when it is non-empty, else the public API address; it is never empty |
| Client.EndpointForHost | script.js:35-44 | pages served from `localhost`/`127.0.0.1` call the local proxy; all others call the public API |
| Client.Field | script.js:105-112 | a body field is found exactly when the body has a field of that name |
| Client.BuildRequest | script.js:99-113 | the request `fetch` is called with; its shape is stated by `Client.RequestShape` |
| Client.RequestShape | script.js:99-113 | a POST to the endpoint with the headers `Accept` and `Content-Type` both `application/json`, whose JSON body has exactly the fields url, vCodec, vQuality, aFormat, filenamePattern, isAudioOnly, in order, with the fixed `h264`/`720`/`mp3`/`classic`/`false` and the given url; only `url` depends on the input |
| Client.ResolveSucceeds | script.js:115-121 | resolving succeeds exactly for a response with an ok status whose body parsed, and returns that body |
| Client.IsOkStatus | script.js:115 | `response.ok`, a status from 200 to 299; used by `Client.ResolveSucceeds` and `Client.HttpFailure` |
| Client.HttpError | script.js:117 | the error thrown for a status that is not ok; its text is stated by `Client.HttpFailure` and `Client.HttpErrorIsNotNetworkFailure` |
| Client.Attempt | script.js:94-121 | the try block: the parsed body, or what `fetch`, the status check or `response.json()` threw; its outcomes are stated by `Client.ResolveSucceeds` and `Client.FailureKinds` |
| Client.HttpErrorIsNotNetworkFailure | script.js:129 | the status error is not a `TypeError` and its string form contains neither `Failed to fetch` nor `NetworkError`, in any case |
| Client.HttpErrorTextPrefixLetters | script.js:117 | `Error: API request failed with status ` has no N in any case, and its one F is not the start of `Failed to fetch` |
| Client.IsNetworkFailure | script.js:129 | the catch clause's test, a `TypeError` or a string form matching `/Failed to fetch\|NetworkError/i`; stated by `Client.HttpErrorIsNotNetworkFailure` and `Client.FetchTypeErrorWrapped` |
| Client.ToText | script.js:129 | `String(error)`, which for an Error object is its name, `: ` and its message; used in the test of `Client.IsNetworkFailure` |
| Client.HttpFailure | script.js:115-117 | a non-ok status fails with exactly `API request failed with status N`, passed on unwrapped, and N reads back as the status |
| Client.WrappedMessageShape | script.js:131-135 | the guidance message opens with `Network/CORS error when calling <endpoint>.`, contains the three remedies, and ends with ` Original: <original>` |
| Client.Pieces | script.js:131-135 | a message built from the lead, the remedies and a tail starts with the lead, contains each remedy and ends with the tail |
| Client.GuidanceLead | script.js:131 | the first sentence of the guidance, naming the endpoint called; `Client.WrappedMessageShape` states that the message opens with it |
| Client.Guidance | script.js:131-134 | the guidance text; its parts are stated by `Client.WrappedMessageShape` |
| Client.MessageOrText | script.js:135 | `error.message \|\| error`: the message when non-empty, else the string form; `Client.WrappedMessageShape` states that the wrapped message ends with it |
| Client.Wrapped | script.js:135-137 | the new Error carrying the guidance and the original as its cause; stated by `Client.NetworkFailureWrapped` |
| Client.NetworkFailureWrapped | script.js:129-137 | a network/CORS failure becomes a new Error that is no `TypeError`, names the endpoint called, gives the three remedies, ends with the original message, and has the original as its cause |
| Client.OtherFailurePassedOn | script.js:140 | any other caught error is thrown on unchanged |
| Client.Caught | script.js:122-141 | the catch block: wrap a network/CORS failure, pass anything else on; stated by `Client.NetworkFailureWrapped` and `Client.OtherFailurePassedOn` |
| Client.Resolve | script.js:93-142 | `fetchDownloadUrl` as a function of what the network produced; stated by `Client.ResolveSucceeds`, `Client.HttpFailure`, `Client.FetchTypeErrorWrapped` and `Client.FailureKinds` |
| Client.FetchTypeErrorWrapped | script.js:99-137 | a `TypeError` raised by `fetch` always comes back as the guidance error |
| Client.FailureKinds | script.js:93-142 | every failure is the status error, the guidance error around a network/CORS failure, or an error that is neither and was caught unchanged |
| Presenter.Interpolated | script.js:164 | `${v}` of a field that may be absent: its text, or `undefined`; this is how an entry links to the text `undefined` (also script.js:177), as `Presenter.PresentDirect` states |
| Presenter.OrElse | script.js:261 | `v \|\| fallback`: a non-empty value is kept, an absent or empty one gives exactly the fallback, and with a non-empty fallback the result is never empty |
| Presenter.Capitalized | script.js:161 | the platform name with its first letter upper-cased and the rest unchanged |
| Presenter.DirectOption | script.js:156-166 | the one entry for a `redirect` or `stream` response; stated by `Presenter.PresentDirect` |
| Presenter.PickerOption | script.js:172-178 | the entry for one picker item; stated by `Presenter.PresentPicker` |
| Presenter.PickerOptions | script.js:170-180 | the entries for the picker items; stated by `Presenter.PickerOptionsAt` |
| Presenter.PickerOptionsAt | script.js:170-180 | one entry per picker item, in order, the i-th numbered by its position |
| Presenter.PresentDirect | script.js:156-166 | `redirect` and `stream` give one link, to `data.url`, titled with the capitalised platform name and ` Video` |
| Presenter.PresentPicker | script.js:167-180 | `picker` gives one link per item in input order: titled `Media <i+1>`, linking to the item's url, noted with its type or `Video`; no two titles are the same |
| Presenter.PresentFallback | script.js:181-191 | any other status gives the single fallback entry, which has no link |
| Presenter.Present | script.js:147-195 | the entries `showDownloadOptions` lists, or the `TypeError` it throws; stated by `Presenter.PresentDirect`, `Presenter.PresentPicker`, `Presenter.PresentFallback`, `Presenter.PresentFailsOnlyOnBadPicker` and `Presenter.PickerErrors` |
| Presenter.PresentFailsOnlyOnBadPicker | script.js:167-180 | presenting throws exactly for a `picker` response whose `picker` is not an array or has a `null` element, and what it throws is a `TypeError` |
| Presenter.PickerErrors | script.js:170-175 | which `TypeError` is thrown: reading `forEach` of an absent or a `null` `picker`, calling the missing `forEach` of one that is not an array, or reading `type` of a `null` element anywhere in the array |
| Presenter.EndToEndRedirect | tests/runPlaywrightTest.js:10-20 | the mocked redirect gives one `Youtube Video` link to `https://cdn.example/video.mp4` |
| Presenter.TwoItemPicker | script.js:167-180 | a two-item picker whose second item is typed `image` gives `Media 1` (Video) and `Media 2` (image), in order |
| Presenter.ListPicker | script.js:170-180 | the `forEach` loop builds exactly the entries, one per item, in order, when no element is `null`, and throws the `null`-element `TypeError` otherwise |
| Page.DownloadPage.constructor | script.js:35-44 | the loaded page has its `PROXY_URL` from the host name, the button enabled, nothing shown and no requests sent |
| Page.DownloadPage.Start | script.js:224-255 | hides message and options, trims, and checks in order (empty, invalid, unrecognised). A failed check shows its message and leaves the button and the request log alone. Otherwise the button is disabled and exactly one request, for the trimmed URL, is sent to the endpoint |
| Page.DownloadPage.ShowDownloadOptions | script.js:147-195 | the entries shown are those presentation gives; when presentation throws, the method throws that same `TypeError` and the options stay as they were |
| Page.DownloadPage.Finish | script.js:255-279 | the button is re-enabled on every path and no request is sent; the message and the options are the conclusion for the resolution result, and the options change only when entries are listed |
| Page.DownloadPage.Submit | script.js:221-280 | a failed check shows its message and sends no request; otherwise exactly one request is sent, the button ends enabled, and the page shows the conclusion with its entries |
| Page.Admit | script.js:231-247 | the checks before the request, with the message of the first that fails; stated by `Page.AdmitInOrder` and `Page.BlankInputIsMissing` |
| Page.ApiErrorMessage | script.js:261 | the message for a response whose status is `error`; stated by `Page.ApiErrorShown` |
| Page.FailureMessage | script.js:277 | the message for an error caught by the handler, which shows its `message` property; stated by `Page.HttpFailureShown`, `Page.NetworkFailureShown` and `Page.NullItemShown` |
| Page.Conclude | script.js:255-279 | what the page shows once the request is answered; stated by `Page.ApiErrorShown`, `Page.SuccessShown` and the failure lemmas, and `Page.DownloadPage.Finish` is proved to reach it |
| Page.BlankInputIsMissing | script.js:224-234 | blank input is reported as a missing URL, whatever the URL parser says |
| Page.AdmitInOrder | script.js:231-247 | the pre-request checks come in order (empty, then invalid, then unrecognised), and a URL passes exactly when it is non-empty, valid and classified |
| Page.ApiErrorShown | script.js:260-263 | a response with status `error` shows `Error: <text>`, or the default text when the text is missing or empty, and lists nothing |
| Page.SuccessShown | script.js:265-277 | any other response shows success and lists the presented entries exactly when presenting does not throw; otherwise what it threw is shown as a failure and nothing is listed |
| Page.NetworkFailureShown | script.js:273-277 | a network/CORS failure, thrown by `fetch` or by `response.json()`, is shown as a failure whose text starts with the guidance naming the endpoint called; nothing is listed |
| Page.HttpFailureShown | script.js:273-277 | a failing status shows exactly `Failed to process video: API request failed with status N. Please try again.` |
| Page.NullItemShown | script.js:273-277 | a `picker` response with a `null` element shows exactly `Failed to process video: Cannot read properties of null (reading 'type'). Please try again.` and lists nothing, not even the elements before it |
| Page.YouTubeAdmitted | script.js:231-247 | a non-empty URL that parses and is classified as YouTube passes all the checks, with YouTube as its platform |
| Page.RedirectAnswer | tests/runPlaywrightTest.js:10-20 | the mocked answer: status 200 and a body whose `status` is `redirect` and whose `url` is the target; any other fields are allowed |
| Page.ShortLinkQualifies | tests/runPlaywrightTest.js:27 | the URL the test types is left as it is by trimming, is not empty, and is classified as YouTube |
| Page.RedirectConcluded | tests/runPlaywrightTest.js:10-20 | a page without a `PROXY_URL` calls the public API, and the options a 200 redirect answer concludes with are one entry linking to the redirect target |
| Page.RedirectScenario | tests/runPlaywrightTest.js:22-36 | a page served from any host but `localhost`/`127.0.0.1` (the test opens it from a file), given a YouTube URL the parser accepts and a 200 redirect answer to a target, sends exactly one request, to the public API, and its one link goes to the target |

## Left out

- The DOM: markup, CSS classes, the emoji heading `📥 Download Ready` and its lines, the 🎬 before every entry title (script.js:161, 174) and the ⚠️ before `Download Available` (script.js:186), the spinner, the button label and `scrollIntoView`. The page messages are kept with their ❌ and ✅, because they are whole texts. The model keeps their effect as the fields `busy`, `message` and `options`, without the HTML.
- The `DOMContentLoaded`, `keypress` and `input` listeners. Nothing guards against a second submission: the Enter key triggers the handler even while the button is disabled. The model allows `Start` in any state but does not model interleaved submissions.
- `new URL(string)`, the WHATWG URL parser behind `isValidUrl`. It is a foreign library, so it is a `string -> bool` given to the constructor.
- The network: `fetch`, `response.json()`, `async`/`await` and console logging. What the fetch produced is an input (`Client.NetOutcome`). A body that does not parse is a thrown value, which is passed on unchanged.
- General regular-expression semantics. Only the nine fixed patterns are modelled, each as a head, a gap, a tail and a class.
- Response bodies that are not JSON objects (`null`, an array, a number). The model reads the string fields `status`, `url` and `text`; one of another type is treated as absent, although `${downloadData.url}` would render a number as its digits. The `picker` field is modelled in full: absent, `null`, not an array, or an array. An array element is `null` or a value whose `type` and `url` are read, again as strings.
- The messages of the `TypeError`s that presenting a bad `picker` throws depend on the JavaScript engine. The model uses V8's wording (`Presenter.UndefinedPickerError`, `NullPickerError`, `NotArrayError`, `NullItemError`).
- server/proxy.js and serverless/cf-proxy-worker.js are not part of this model. They are CORS relays that only forward requests.
- `Patterns.Capture`: it is defined only for a head followed directly by its class, the shape of the four YouTube patterns. `match` is never applied to the other patterns.
- `Text.Upper` maps ASCII letters only. It is used by `Presenter.Capitalized` and by the case-insensitive test `Text.TestFolded` in `Client.IsNetworkFailure`. The platform names are ASCII. The two needles of the `/i` test are ASCII too, and a regular expression without the `u` flag never folds a character above U+007F onto an ASCII one, so nothing is lost there. Case mapping of other characters is not modelled.
- `Page.RedirectScenario`: the browser test is stated for any URL that the page keeps after trimming, that the URL parser accepts and that is classified as YouTube. `Page.ShortLinkQualifies` shows the test's URL passes the checks the model can decide. That the parser accepts it is an input, because the parser is not modelled. The scenario is stated for any host that is not local and any 200 redirect answer, of which the test's file page and its mock are one case.
