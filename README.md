# MoreGamers banner controller, modelled in Dafny

The model covers the MoreGamers Unity SDK's banner controller. A game calls
`GetBanner` for a square or a rectangle banner. The controller then does the
following:

- it refuses to start while another run holds its single-flight guard
  (`m_alreadyInUse`);
- when it holds a click URL and fewer than 20 seconds have passed since the
  last primary image arrived, it serves the last banner again;
- otherwise it asks the ad server for metadata at a URL built from the game
  identifier and the store;
- it repairs the metadata body with a regular expression, parses it and checks
  its `error` field;
- it builds a `Response` of five URLs;
- it takes the primary image from the shape's cache, or downloads it, stamps
  the time, stores it and delivers it;
- it downloads the secondary image into the other shape's cache.

Listeners hear of a delivered banner (click URL and image) or of a failure.

The model is layered as the source is:

- `Platforms`: the store enum with its numeric values and `Description` tags.
- `Responses`: the `Response` record and its constructor from the parsed
  dictionary.
- `Json` and `Text`: the few .NET behaviours the controller relies on.
  - `ToString` of a parsed value; it throws on null.
  - Ordinal `String.Contains`.
  - `String.ToLower`.
- `Sanitizer`: the replacement of `(^")|("$)|(\\)`. It follows .NET regex
  semantics: without the multi-line option, `$` also matches just before a
  final newline.
- `Pipeline`: one call of `GetBanner` as pure functions of the state before it
  and of what the network answers.
  - `Run` chains `MetadataStage`, `AnswerStage`, `ImageStage` and
    `SecondaryStage`.
  - Each stage returns an `Outcome`: where the run ended, the new state, the
    events emitted and the requests issued, in order.
  - The `...Effects` lemmas state what each stage does.
  - The `...Preserves` lemmas state what every run keeps.
  - The "across runs" lemmas relate one run to later runs.
- `MoreGamers.Controller`: the controller as a class whose fields are the
  source's fields.
  - `GetBanner` and its step methods update those fields in place.
  - Each step method is proved to leave exactly the state, the event log and
    the request log that the matching `Pipeline` function gives.
  - So everything proved about `Run` holds of the class.

The coroutine's waits are collapsed: one call of `GetBanner` runs to its end.
What the network, the clock and the JSON parser answer is passed in as a
`Network` value:

- the metadata body or a transport error;
- the parser, as a function;
- the two image downloads;
- the time the primary image arrived.

Requests the controller issues are logged as `Request` values, and listener
notifications as `Event` values.

An exception thrown inside the coroutine ends the run with
`Aborted(fault)`, and the guard stays set. The source has four such throws:

- a body that parses to null;
- a missing or null `error` field;
- a response key that is missing or not a string;
- `Dictionary.Add` of a secondary image URL that is already cached.

After any of them every later call returns `Busy`. `SharedPortraitThrows`
shows the last one happening from a fresh controller. It chains two image
stages, a rectangle banner and then a square banner whose responses share a
portrait image, and skips the metadata steps. As whole calls of `GetBanner`,
the second would have to start at least 20 seconds after the first image
arrived, or the throttle would serve it from memory.

A few behaviours of the code are easy to miss:

- **The guard after a throw.** The four throws above end the coroutine
  without resetting `m_alreadyInUse`.
- **The secondary insert.** The secondary `Add` (MoreGamers/MoreGamers.cs:412
  and :420) is not preceded by a membership check.
- **The timestamp.** It moves as soon as the primary image arrives (line 365),
  whether or not the secondary image follows.
- **A cache hit.** It changes the click URL alone, not the timestamp (lines
  308 and 328).

## Model

| member | source | states |
|---|---|---|
| Platforms.Description | MoreGamers/Enums/Platform.cs:5-24 | each store's tag is a lower-case word of at least three letters |
| Platforms.DescriptionIsInjective | MoreGamers/Enums/Platform.cs:5-24 | two stores have the same tag exactly when they are the same store |
| Platforms.TagEndingDeterminesPlatform | MoreGamers/Enums/Platform.cs:5-24 | the last two letters of a tag already identify the store |
| Platforms.Value | MoreGamers/Enums/Platform.cs:5-24 | numeric values lie in 0..5, and 0 belongs exactly to `None` |
| Platforms.ValueIsInjective | MoreGamers/Enums/Platform.cs:5-24 | two stores have the same value exactly when they are the same store |
| Responses.FromJson | MoreGamers/Data/Response.cs:19-70 | the constructor succeeds exactly when all five keys hold strings, and then each getter returns its key's text |
| Responses.FromJsonReadsOnlyItsKeys | MoreGamers/Data/Response.cs:63-70 | dictionaries that agree on the five keys give the same response |
| Responses.OtherKeysIgnored | MoreGamers/Data/Response.cs:63-70 | adding or replacing any other key, such as `error`, does not change the response |
| Json.Render | MoreGamers/MoreGamers.cs:287 | `ToString` of a parsed value has no result exactly for null, and a string renders as itself |
| Text.Contains | MoreGamers/MoreGamers.cs:182 | true exactly when the substring occurs at some index |
| Text.Lower | MoreGamers/MoreGamers.cs:287 | keeps the length and lower-cases each character |
| Text.LowerEquals | MoreGamers/MoreGamers.cs:287 | lower-casing gives a lower-case word exactly when the input spells it in any mix of cases |
| Text.LowerIsFalse | MoreGamers/MoreGamers.cs:287 | the `error` test accepts exactly the case variants of "false" |
| Sanitizer.RemoveBackslashes | MoreGamers/MoreGamers.cs:283 | the result is no longer than the input and holds no backslash |
| Sanitizer.RemoveBackslashesAppend | MoreGamers/MoreGamers.cs:283 | deleting backslashes distributes over concatenation |
| Sanitizer.ReplaceFrom | MoreGamers/MoreGamers.cs:283 | the regex replacement itself: left to right, each position matched by `^"`, `"$` or a backslash is deleted. `ReplacementIsUnquoteThenRemove` relates it to `Unquote` and `RemoveBackslashes` |
| Sanitizer.Unquote | MoreGamers/MoreGamers.cs:283 | the quote alternatives on their own: a leading quote, then a trailing quote, possibly before a final newline, are deleted, and the result is no longer than the input |
| Sanitizer.ReplaceWithoutQuotes | MoreGamers/MoreGamers.cs:283 | over a stretch with no quote to delete, the regex replacement deletes exactly the backslashes |
| Sanitizer.ReplacementIsUnquoteThenRemove | MoreGamers/MoreGamers.cs:283 | the left-to-right replacement equals stripping a leading quote and a trailing quote (one before a final newline included), then deleting every backslash |
| Sanitizer.Sanitize | MoreGamers/MoreGamers.cs:283 | the repaired body is the unquoted body with its backslashes deleted, and holds no backslash |
| Sanitizer.UnquoteChangesOnlyQuoted | MoreGamers/MoreGamers.cs:283 | unquoting changes a string exactly when it begins or ends with a quote |
| Sanitizer.SanitizeIdempotentUnlessQuoted | MoreGamers/MoreGamers.cs:283 | repairing twice equals repairing once exactly when the first result neither begins nor ends with a quote |
| Pipeline.SelectStore | MoreGamers/MoreGamers.cs:182-198 | Amazon exactly when the device model contains "Amazon"; otherwise the store of each mobile platform, `None` for any other platform, and never Blackberry (each an iff) |
| Pipeline.CreateURLSpelledOut | MoreGamers/MoreGamers.cs:209-218 | the request URL is the base, `ad?game=<id>`, `&sdk=unity&platform=<tag>` and `&sdkVersion=1.1.1`, in that order |
| Pipeline.CreateURLIsInjective | MoreGamers/MoreGamers.cs:209-218 | different game identifiers or stores always give different request URLs |
| Pipeline.CreateURL | MoreGamers/MoreGamers.cs:209-218 | concatenates the base URL, the three URL parameters, the game identifier and the store's tag. Its properties are stated by `CreateURLSpelledOut` and `CreateURLIsInjective` |
| Pipeline.ErrorText | MoreGamers/MoreGamers.cs:287 | the `error` field has text exactly when it is present and not null |
| Pipeline.ReadMetadata | MoreGamers/MoreGamers.cs:263-300 | each kind of answer exactly when its condition holds. A transport error exactly when the request failed. Unparsable exactly when the repaired body does not parse. No error field exactly when `error` is missing or null. A server error exactly when `error` does not read "false" in any case mix, carrying the field's text. Malformed exactly when it reads "false" but a response key is missing or not a string. A response otherwise, built from the dictionary |
| Pipeline.PrimaryURL | MoreGamers/MoreGamers.cs:302 | the first image: the landscape image for a square, the portrait image for a rectangle |
| Pipeline.SecondaryURL | MoreGamers/MoreGamers.cs:388 | the second image: the other orientation. `SecondaryIsOtherPrimary` relates the two |
| Pipeline.SecondaryIsOtherPrimary | MoreGamers/MoreGamers.cs:388 | the second image of a run is the first image of a run for the other shape, and a run fetches both orientations |
| Pipeline.State.WithinRefreshWindow | MoreGamers/MoreGamers.cs:237 | the throttle test: a primary image arrived, fewer than 20 seconds ago, and a click URL is held. `Initial` has no arrival, so the first call never passes it |
| Pipeline.SecondaryStage | MoreGamers/MoreGamers.cs:388-424 | the secondary image's request and outcome as a value; stated by `SecondaryStageEffects` and `SecondaryStagePreserves` |
| Pipeline.Delivered | MoreGamers/MoreGamers.cs:363-386 | the state once the primary image arrived: the time and click URL are stamped, and the image is stored and shown for its shape |
| Pipeline.ImageStage | MoreGamers/MoreGamers.cs:302-424 | the cache test, the primary download and the secondary step as one value; stated by `ImageStageEffects` and `ImageStagePreserves` |
| Pipeline.AnswerStage | MoreGamers/MoreGamers.cs:269-300 | what each kind of answer leads to; stated by `AnswerStageEffects` and `AnswerStagePreserves` |
| Pipeline.MetadataStage | MoreGamers/MoreGamers.cs:263-267 | the metadata request to `CreateURL`, followed by what its answer leads to |
| Pipeline.Run | MoreGamers/MoreGamers.cs:224-427 | one call with the guard free, as a value; stated by `RunEffects`, `RunPreserves` and the across-run lemmas |
| Pipeline.SecondaryStageEffects | MoreGamers/MoreGamers.cs:390-424 | one request. A failure gives one failure event and no change. An image becomes the other shape's last texture. It is cached unless its URL already is, and then `Add` throws. Nothing of the requested shape changes, and neither do the timestamp and the click URL |
| Pipeline.ImageStageEffects | MoreGamers/MoreGamers.cs:302-424 | a cache hit exactly when the primary URL is cached: it serves the cached image with the new click URL and requests nothing. A failed download exactly when it is not cached and the request fails: one failure event, no change. Otherwise it requests the primary image, the tracking pixel and the secondary image in that order. It delivers the primary image once, with at most a failure event after it. It stamps the arrival time and the click URL and caches the image. A completed run also caches the secondary image |
| Pipeline.AnswerStageEffects | MoreGamers/MoreGamers.cs:269-300 | a transport error or a server error emits exactly one failure event and changes nothing. The run throws with the parse fault, the error-field fault or the response fault exactly for an unparsable body, a missing or null `error` field, or a malformed response; such a run emits nothing and changes nothing. Only a banner shown changes the state, and only a download moves the timestamp |
| Pipeline.RunEffects | MoreGamers/MoreGamers.cs:224-427 | never Busy with the guard free. Unconfigured exactly without a game identifier. Throttled exactly within the refresh window with a click URL: it serves the last click URL and the shape's last texture without a request. Every other call first requests the metadata URL. Transport and server errors happen exactly when the answer says so, with one failure event and no state change. Each of the three throws while reading the answer happens exactly when the answer is of that kind; it emits nothing, issues only the metadata request and changes no state, and (by `GetBanner`) leaves the guard set |
| Pipeline.SecondaryStagePreserves | MoreGamers/MoreGamers.cs:408-423 | the secondary step never removes or replaces a cached image and, unless it throws, keeps each last texture cached |
| Pipeline.ImageStagePreserves | MoreGamers/MoreGamers.cs:302-424 | the image steps keep the caches append-only and, unless they throw, keep each last texture cached |
| Pipeline.AnswerStagePreserves | MoreGamers/MoreGamers.cs:269-424 | the same for every answer of the server |
| Pipeline.RunPreserves | MoreGamers/MoreGamers.cs:224-427 | every run keeps both caches append-only and, unless it throws, leaves each shape's last texture absent or one of its cached images |
| Pipeline.ThrottledAfterDownload | MoreGamers/MoreGamers.cs:237-261 | after a run that downloaded its primary image, every call within 20 seconds of the arrival, for either shape, is throttled. It serves that response's click URL with the shape's last texture: the primary image for the same shape, and the secondary image for the other shape if the run completed |
| Pipeline.DownloadedPrimaryIsCached | MoreGamers/MoreGamers.cs:304-343 | a downloaded primary image is served from the cache, without any request, by every later run for the same shape that names it, after any runs in between |
| Pipeline.SecondaryPrimesOtherShape | MoreGamers/MoreGamers.cs:408-423 | after a completed run, a run for the other shape whose primary image is that secondary image is a cache hit |
| Pipeline.SharedPortraitThrows | MoreGamers/MoreGamers.cs:412-420 | from a fresh controller, a rectangle run and then a square run whose responses share the portrait image: the second throws at the secondary `Add`, and the rectangle's last texture is no longer cached |
| MoreGamers.Controller.constructor | MoreGamers/MoreGamers.cs:158-199 | `Awake`: the guard is free, nothing was fetched, both caches are empty, and the store is the one `SelectStore` picks (the default without a game identifier) |
| MoreGamers.Controller.GetBanner | MoreGamers/MoreGamers.cs:224-427 | Busy exactly when a run holds the guard, and then nothing changes. Otherwise the new fields, the exit, and the appended events and requests are those of `Run`. The guard stays set exactly when the run threw. The cached-last-texture invariant is kept |
| MoreGamers.Controller.FetchMetadata | MoreGamers/MoreGamers.cs:263-300 | requests the metadata URL, then does what `MetadataStage` gives for the answer read |
| MoreGamers.Controller.HandleAnswer | MoreGamers/MoreGamers.cs:269-300 | does what `AnswerStage` gives for each kind of answer; frees the guard unless reading threw |
| MoreGamers.Controller.ShowBanner | MoreGamers/MoreGamers.cs:302-424 | does what `ImageStage` gives |
| MoreGamers.Controller.ServeCached | MoreGamers/MoreGamers.cs:304-343 | a hit exactly when the primary URL is in the shape's cache. A hit sets the click URL and the last texture, emits one delivery and frees the guard. A miss changes nothing |
| MoreGamers.Controller.DownloadPrimary | MoreGamers/MoreGamers.cs:345-424 | for a primary URL not yet cached, does what `ImageStage` gives |
| MoreGamers.Controller.StorePrimary | MoreGamers/MoreGamers.cs:363-386 | queues the tracking request, stamps time and click URL, stores and shows the image for its shape, and emits one delivery |
| MoreGamers.Controller.FetchSecondary | MoreGamers/MoreGamers.cs:388-424 | does what `SecondaryStage` gives; the guard stays set exactly when `Add` threw |

## Left out

- **Unity's lifecycle.** `Singleton`, the duplicate-instance check in `Awake`
  and `DontDestroyOnLoad` are not modelled. The controller is constructed once
  with its game identifier, device model and platform.
- **The public entry point.** `banner` (MoreGamers/MoreGamers.cs:437-440) only
  starts the `GetBanner` coroutine, and its shape defaults to `Square`. The
  model calls `GetBanner` directly and always passes the shape explicitly.
- **The throw in `Awake`.** `Awake` throws when the game identifier is missing
  (MoreGamers/MoreGamers.cs:179-180). The constructor stands for what `Awake`
  leaves behind: the guard, the timestamp and the caches are already set, and
  the store keeps its default.
- **`WWW` and texture decoding.** Each download is a `Fetch` parameter.
- **Texture identity.** A `Texture` stands for image content, not for an
  object reference. Unity's `WWW.texture` allocates a new `Texture2D` on each
  read, so lines 371, 372 and 385 hold three distinct objects with the same
  pixels. The model's equalities between delivered, shown and cached textures,
  and `LastTexturesCached`, hold of image content, not of references.
- **The URL of an image request.** `imageRequest.url` is assumed to equal the
  URL requested, so the primary `Add` at lines 372 and 377 cannot throw once
  `ContainsKey` said no.
- **The tracking coroutine.** `Track` is fire-and-forget. It is logged as a
  `TrackingRequest` and its result is never observed.
- **MiniJson.** `dictionaryFromJson` is not part of this model. The parser is
  a function parameter, and a null result is `None`.
- **Logging.** `Debug.LogError` messages are not modelled.
- **The event channels.** Emissions are logged whether or not anyone
  subscribed. The thread-safe subscribe and unsubscribe wrappers, subscriber
  exceptions and fan-out order are not modelled.
- **Time.** `Time.time` is a `real` parameter, without float rounding. The
  initial negative infinity is `None`.
- **Null strings.** A null game identifier or click URL is modelled as "". The
  source only observes them through `IsNullOrEmpty`.
- Responses.FromJson: a key that is present but null counts as a constructor
  failure. In C#, `(string)null` succeeds and stores a null URL. For the
  primary image URL, `ContainsKey(null)` would then throw as well.
- Text.Lower: lower-cases ASCII letters only and leaves every other
  character unchanged. .NET's culture-sensitive `ToLower` also maps non-ASCII
  capitals. For the `error` test that matters only if some non-ASCII character
  lower-cases to a letter of "false".
- MoreGamers.Controller.GetBanner: requires and ensures `Valid()`, the
  cached-last-texture invariant, which only constrains a controller whose
  guard is free. After a run throws, the invariant no longer holds; the guard
  stays set and every later call is `Busy`.
- **Coroutine interleaving.** Another call cannot observe a run halfway
  through, because the guard makes it `Busy`, so runs are modelled as atomic.
