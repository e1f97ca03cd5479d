/**
 * What one banner request of the MoreGamers controller does, as values: the
 * store and URL it asks, how it reads the server's answer, and the state,
 * events and requests that one run of `GetBanner` produces from the state
 * before it and the answers of the network.
 */
module Pipeline {
  import opened Wrappers
  import opened Text
  import opened Json
  import opened Sanitizer
  import opened Responses
  import Platforms

  /** Seconds during which the last banner is served again instead of asking the server. */
  const RefreshRate: real := 20.0

  const SdkVersionNumber: string := "1.1.1"

  const BaseURL: string := "https://app.moregamers.com/"

  /** Substring of the device model that identifies an Amazon device. */
  const AmazonModelIdentifier: string := "Amazon"

  /** The three fixed pieces of the metadata request URL. */
  const UrlParameters: seq<string> := ["ad?game=", "&sdk=unity&platform=", "&sdkVersion=" + SdkVersionNumber]

  /** The two banner shapes a game can ask for. */
  datatype BannerSize = Square | Rectangle

  /** The engine's idea of the platform it runs on; the controller distinguishes three of them. */
  datatype RuntimePlatform = Android | IPhonePlayer | WP8Player | OtherPlatform(name: string)

  /** A decoded image, known to the controller only by identity. */
  datatype Texture = Texture(id: nat)

  /** The result of one download: the transport reported an error, or the body arrived. */
  datatype Fetch<T> = NetworkError | Fetched(value: T)

  /** A network request the controller issues. */
  datatype Request =
    | MetadataRequest(url: string)
    | ImageRequest(url: string)
    | TrackingRequest(url: string)

  /** An emission on one of the two listener channels. */
  datatype Event =
    | Received(clickURL: string, image: Option<Texture>)
    | FailedToLoad

  // ---------------------------------------------------------------------------
  // Store selection and the request URL

  /**
   * The store chosen in `Awake`: an Amazon device model wins over the platform,
   * the three mobile platforms map to their stores, anything else is `None`.
   * `Blackberry` is never chosen.
   */
  function SelectStore(deviceModel: string, platform: RuntimePlatform): (store: Platforms.Platform)
    ensures store == Platforms.Amazon <==> Contains(deviceModel, AmazonModelIdentifier)
    ensures store == Platforms.GooglePlay <==> !Contains(deviceModel, AmazonModelIdentifier) && platform == Android
    ensures store == Platforms.Itunes <==> !Contains(deviceModel, AmazonModelIdentifier) && platform == IPhonePlayer
    ensures store == Platforms.Windows <==> !Contains(deviceModel, AmazonModelIdentifier) && platform == WP8Player
    ensures store == Platforms.None <==> !Contains(deviceModel, AmazonModelIdentifier) && platform.OtherPlatform?
    ensures store != Platforms.Blackberry
  {
    if Contains(deviceModel, AmazonModelIdentifier) then
      Platforms.Amazon
    else
      match platform
      case Android => Platforms.GooglePlay
      case IPhonePlayer => Platforms.Itunes
      case WP8Player => Platforms.Windows
      case OtherPlatform(_) => Platforms.None
  }

  /** The metadata request URL for a game identifier and a store. */
  function CreateURL(gameId: string, store: Platforms.Platform): string
  {
    BaseURL + UrlParameters[0] + gameId + UrlParameters[1] + Platforms.Description(store) + UrlParameters[2]
  }

  /** The URL spelled out: base, game identifier, store tag and SDK version as query parameters. */
  lemma CreateURLSpelledOut(gameId: string, store: Platforms.Platform)
    ensures CreateURL(gameId, store)
            == "https://app.moregamers.com/ad?game=" + gameId + "&sdk=unity&platform="
               + Platforms.Description(store) + "&sdkVersion=1.1.1"
  {
  }

  /**
   * Different game identifiers or stores always give different URLs: the store
   * tag is recovered from the end of the URL and the identifier from between the
   * fixed pieces, whatever characters the identifier holds.
   */
  lemma CreateURLIsInjective(id1: string, store1: Platforms.Platform, id2: string, store2: Platforms.Platform)
    requires CreateURL(id1, store1) == CreateURL(id2, store2)
    ensures id1 == id2 && store1 == store2
  {
    var d1, d2 := Platforms.Description(store1), Platforms.Description(store2);
    Unframe(BaseURL + UrlParameters[0], UrlParameters[1], UrlParameters[2], id1, d1, id2, d2);
    Platforms.TagEndingDeterminesPlatform(store1, store2);
  }

  /** From `head + a + mid + d + tail`, the last two characters of `d` can be read off, and given `d`, also `a`. */
  lemma Unframe(head: string, mid: string, tail: string, a1: string, d1: string, a2: string, d2: string)
    requires head + a1 + mid + d1 + tail == head + a2 + mid + d2 + tail
    requires |d1| >= 2 && |d2| >= 2
    ensures d1[|d1| - 2..] == d2[|d2| - 2..]
    ensures d1 == d2 ==> a1 == a2
  {
    var u1, u2 := a1 + mid + d1, a2 + mid + d2;
    assert head + a1 + mid + d1 + tail == head + (u1 + tail);
    assert head + a2 + mid + d2 + tail == head + (u2 + tail);
    CancelPrefix(head, u1 + tail, u2 + tail);
    CancelSuffix(u1, u2, tail);
    EndsWith(a1 + mid, d1);
    EndsWith(a2 + mid, d2);
    if d1 == d2 {
      CancelSuffix(a1 + mid, a2 + mid, d1);
      CancelSuffix(a1, a2, mid);
    }
  }

  lemma CancelPrefix(head: string, a: string, b: string)
    requires head + a == head + b
    ensures a == b
  {
    assert a == (head + a)[|head|..];
    assert b == (head + b)[|head|..];
  }

  lemma CancelSuffix(a: string, b: string, tail: string)
    requires a + tail == b + tail
    ensures a == b
  {
    assert a == (a + tail)[..|a|];
    assert b == (b + tail)[..|b|];
  }

  lemma EndsWith(front: string, d: string)
    requires |d| >= 2
    ensures (front + d)[|front + d| - 2..] == d[|d| - 2..]
  {
  }

  // ---------------------------------------------------------------------------
  // Reading the metadata answer

  /** How the metadata step of a run ends. */
  datatype Metadata =
    | TransportError              // the request reported an error
    | Unparsable                  // the sanitized body is not a JSON object: reading it throws
    | NoErrorField                // `error` is missing or null: reading it throws
    | ApiError(message: string)   // the server reported an error
    | Malformed                   // the `Response` constructor throws
    | Accepted(response: Response)

  /** The text of the `error` field, if it has one (`ToString` on a missing or null value throws). */
  function ErrorText(json: JsonObject): (text: Option<string>)
    ensures text.Some? <==> "error" in json && !json["error"].JNull?
  {
    if "error" in json then Render(json["error"]) else None
  }

  /**
   * The metadata step: a transport error ends it; otherwise the body is
   * sanitized and parsed, the `error` field must read "false" in any mix of
   * cases, and the response is built from the parsed dictionary.
   */
  function ReadMetadata(download: Fetch<string>, parse: string -> Option<JsonObject>): (m: Metadata)
    ensures m == TransportError <==> download.NetworkError?
    ensures m == Unparsable <==> download.Fetched? && parse(Sanitize(download.value)).None?
    ensures m == NoErrorField <==>
              && download.Fetched?
              && parse(Sanitize(download.value)).Some?
              && ErrorText(parse(Sanitize(download.value)).value).None?
    ensures m.ApiError? <==>
              && download.Fetched?
              && parse(Sanitize(download.value)).Some?
              && ErrorText(parse(Sanitize(download.value)).value).Some?
              && !SpellsIgnoringCase(ErrorText(parse(Sanitize(download.value)).value).value, "false")
    ensures m.ApiError? ==> m.message == ErrorText(parse(Sanitize(download.value)).value).value
    ensures m == Malformed <==>
              && download.Fetched?
              && parse(Sanitize(download.value)).Some?
              && ErrorText(parse(Sanitize(download.value)).value).Some?
              && SpellsIgnoringCase(ErrorText(parse(Sanitize(download.value)).value).value, "false")
              && !Complete(parse(Sanitize(download.value)).value)
    ensures m.Accepted? <==>
              && download.Fetched?
              && parse(Sanitize(download.value)).Some?
              && ErrorText(parse(Sanitize(download.value)).value).Some?
              && SpellsIgnoringCase(ErrorText(parse(Sanitize(download.value)).value).value, "false")
              && Complete(parse(Sanitize(download.value)).value)
    ensures m.Accepted? ==> FromJson(parse(Sanitize(download.value)).value) == Some(m.response)
  {
    match download
    case NetworkError => TransportError
    case Fetched(body) =>
      match parse(Sanitize(body))
      case None => Unparsable
      case Some(json) =>
        match ErrorText(json)
        case None => NoErrorField
        case Some(error) =>
          LowerIsFalse(error);
          if Lower(error) != "false" then
            ApiError(error)
          else
            match FromJson(json)
            case None => Malformed
            case Some(response) => Accepted(response)
  }

  // ---------------------------------------------------------------------------
  // Image selection

  function OtherSize(size: BannerSize): BannerSize
  {
    if size == Square then Rectangle else Square
  }

  /** The image fetched first: the landscape image for a square, the portrait image for a rectangle. */
  function PrimaryURL(size: BannerSize, response: Response): string
  {
    if size == Square then response.landscapeImageURL else response.portraitImageURL
  }

  /** The image fetched second: the opposite orientation. */
  function SecondaryURL(size: BannerSize, response: Response): string
  {
    if size == Square then response.portraitImageURL else response.landscapeImageURL
  }

  /** The second image of a run is the first image of a run for the other shape, and both orientations are fetched. */
  lemma SecondaryIsOtherPrimary(size: BannerSize, response: Response)
    ensures SecondaryURL(size, response) == PrimaryURL(OtherSize(size), response)
    ensures {PrimaryURL(size, response), SecondaryURL(size, response)}
            == {response.landscapeImageURL, response.portraitImageURL}
  {
  }

  // ---------------------------------------------------------------------------
  // The controller

  /** Why a run ended with an exception, leaving the single-flight guard set. */
  datatype Fault =
    | ParseFault            // the parsed body is null (line 287)
    | ErrorFieldFault       // `error` missing or null (line 287)
    | ResponseFault         // a response key missing or not a string (line 300)
    | DuplicateKeyFault     // `Dictionary.Add` of a secondary image URL already cached (lines 412, 420)

  /** Where a call of `GetBanner` ends. */
  datatype Exit =
    | Busy                  // another run holds the guard
    | Unconfigured          // no game identifier
    | Throttled             // the last banner is served again
    | TransportFailed       // the metadata request failed
    | ApiRejected           // the server reported an error
    | CacheHit              // the primary image was already cached
    | PrimaryFailed         // the primary image request failed
    | SecondaryFailed       // the secondary image request failed
    | Completed             // both images fetched and cached
    | Aborted(fault: Fault) // an exception ended the run

  /** Every entry of `before` is still in `after`, with the same texture. */
  ghost predicate Extends(before: map<string, Texture>, after: map<string, Texture>)
  {
    forall url :: url in before ==> url in after && after[url] == before[url]
  }

  /** A last texture is absent or one of the textures in its cache. */
  ghost predicate CachedOrAbsent(last: Option<Texture>, cache: map<string, Texture>)
  {
    last.Some? ==> last.value in cache.Values
  }

  /** A texture just stored under some URL is one of the cache's textures. */
  lemma InsertedIsCached(cache: map<string, Texture>, url: string, texture: Texture)
    ensures texture in cache[url := texture].Values
  {
    assert cache[url := texture][url] == texture;
  }

  /** The texture read from a cache is one of its textures. */
  lemma LookupIsCached(cache: map<string, Texture>, url: string)
    requires url in cache
    ensures cache[url] in cache.Values
  {
  }


  /** A texture cached before is still cached once the cache has grown. */
  lemma ExtendsKeepsCached(last: Option<Texture>, before: map<string, Texture>, after: map<string, Texture>)
    requires Extends(before, after)
    ensures CachedOrAbsent(last, before) ==> CachedOrAbsent(last, after)
  {
    if last.Some? && CachedOrAbsent(last, before) {
      var url :| url in before && before[url] == last.value;
      assert after[url] == last.value;
    }
  }

  // ---------------------------------------------------------------------------
  // One run as a value

  /** The controller's fields other than the guard: what one run reads and leaves behind. */
  datatype State = State(
    lastRequestTime: Option<real>,             // `None`: never fetched
    lastClickURL: string,
    lastSquareTexture: Option<Texture>,
    lastRectangleTexture: Option<Texture>,
    cachedSquares: map<string, Texture>,
    cachedRectangles: map<string, Texture>)
  {
    function CacheFor(size: BannerSize): map<string, Texture>
    {
      if size == Square then cachedSquares else cachedRectangles
    }

    function LastTextureFor(size: BannerSize): Option<Texture>
    {
      if size == Square then lastSquareTexture else lastRectangleTexture
    }

    /** The same state with `size`'s last texture replaced. */
    function WithLast(size: BannerSize, texture: Option<Texture>): State
    {
      if size == Square then this.(lastSquareTexture := texture) else this.(lastRectangleTexture := texture)
    }

    /** The same state with `texture` stored under `url` in `size`'s cache. */
    function WithEntry(size: BannerSize, url: string, texture: Texture): State
    {
      if size == Square then this.(cachedSquares := cachedSquares[url := texture])
      else this.(cachedRectangles := cachedRectangles[url := texture])
    }

    /** The throttle test of line 237: a recent download and a click URL to serve again. */
    predicate WithinRefreshWindow(now: real)
    {
      lastRequestTime.Some? && now - lastRequestTime.value < RefreshRate && lastClickURL != ""
    }

    /** The last texture of each shape is absent or one of that shape's cached images. */
    ghost predicate LastTexturesCached()
    {
      CachedOrAbsent(lastSquareTexture, cachedSquares) && CachedOrAbsent(lastRectangleTexture, cachedRectangles)
    }
  }

  /** The state after `Awake`: nothing fetched, nothing cached. */
  const Initial: State := State(None, "", None, None, map[], map[])

  /** Both caches of `after` hold every entry of `before`'s caches unchanged. */
  ghost predicate Grows(before: State, after: State)
  {
    Extends(before.cachedSquares, after.cachedSquares) && Extends(before.cachedRectangles, after.cachedRectangles)
  }

  /**
   * What the network and the clock answer during one run: the metadata body,
   * the JSON parser, the two image downloads and the time the first image
   * arrived. Answers to requests the run does not make are ignored.
   */
  datatype Network = Network(
    metadata: Fetch<string>,
    parse: string -> Option<JsonObject>,
    primary: Fetch<Texture>,
    secondary: Fetch<Texture>,
    loadedAt: real)

  /** How a run ends, the state it leaves, and what it emitted and requested, in order. */
  datatype Outcome = Outcome(exit: Exit, state: State, events: seq<Event>, requests: seq<Request>)


  /** A run handed over to a later stage, with what earlier stages emitted and requested in front. */
  function After(events: seq<Event>, requests: seq<Request>, o: Outcome): Outcome
  {
    Outcome(o.exit, o.state, events + o.events, requests + o.requests)
  }

  /**
   * Step 7 (lines 390-424): the secondary image goes to the other shape. It
   * becomes that shape's last texture before `Add` stores it, and `Add` throws
   * when its URL is already cached, since nothing checks it first.
   */
  function SecondaryStage(s: State, size: BannerSize, url: string, secondary: Fetch<Texture>): (o: Outcome)
  {
    match secondary
    case NetworkError => Outcome(SecondaryFailed, s, [FailedToLoad], [ImageRequest(url)])
    case Fetched(texture) =>
      var other := OtherSize(size);
      var shown := s.WithLast(other, Some(texture));
      if url in s.CacheFor(other) then
        Outcome(Aborted(DuplicateKeyFault), shown, [], [ImageRequest(url)])
      else
        Outcome(Completed, shown.WithEntry(other, url, texture), [], [ImageRequest(url)])
  }

  /** Step 6 after the primary image arrived (lines 363-386): stamp, cache and show it. */
  function Delivered(s: State, size: BannerSize, response: Response, texture: Texture, loadedAt: real): State
  {
    s.(lastRequestTime := Some(loadedAt), lastClickURL := response.clickURL)
     .WithLast(size, Some(texture))
     .WithEntry(size, PrimaryURL(size, response), texture)
  }

  /**
   * Steps 5 to 8 (lines 302-426) once the response is known: a primary image
   * already in the shape's cache is served as it is; otherwise it is requested,
   * stored, delivered and followed by the secondary image.
   */
  function ImageStage(s: State, size: BannerSize, response: Response, net: Network): (o: Outcome)
  {
    var imageUrl := PrimaryURL(size, response);
    if imageUrl in s.CacheFor(size) then
      var cached := s.CacheFor(size)[imageUrl];
      Outcome(CacheHit, s.(lastClickURL := response.clickURL).WithLast(size, Some(cached)),
              [Received(response.clickURL, Some(cached))], [])
    else
      match net.primary
      case NetworkError => Outcome(PrimaryFailed, s, [FailedToLoad], [ImageRequest(imageUrl)])
      case Fetched(texture) =>
        var shown := Delivered(s, size, response, texture, loadedAt := net.loadedAt);
        After([Received(response.clickURL, Some(texture))], [ImageRequest(imageUrl), TrackingRequest(response.trackingURL)],
              SecondaryStage(shown, size, SecondaryURL(size, response), net.secondary))
  }

  /**
   * Steps 3 to 8 (lines 269-426) for the answer read from the server: a
   * transport or server error emits one failure event, an exception while
   * reading the answer emits nothing, a response goes on to the images.
   */
  function AnswerStage(s: State, size: BannerSize, answer: Metadata, net: Network): Outcome
  {
    match answer
    case TransportError => Outcome(TransportFailed, s, [FailedToLoad], [])
    case Unparsable => Outcome(Aborted(ParseFault), s, [], [])
    case NoErrorField => Outcome(Aborted(ErrorFieldFault), s, [], [])
    case ApiError(_) => Outcome(ApiRejected, s, [FailedToLoad], [])
    case Malformed => Outcome(Aborted(ResponseFault), s, [], [])
    case Accepted(response) => ImageStage(s, size, response, net)
  }

  /** Step 2 (lines 263-267): the metadata request goes out, and its answer decides the rest. */
  function MetadataStage(gameId: string, store: Platforms.Platform, s: State, size: BannerSize, net: Network): Outcome
  {
    After([], [MetadataRequest(CreateURL(gameId, store))], AnswerStage(s, size, ReadMetadata(net.metadata, net.parse), net))
  }

  /**
   * One call of `GetBanner` with the guard free (lines 229-426): without a game
   * identifier nothing happens; within the refresh window the last banner is
   * served again; otherwise the server is asked.
   */
  function Run(gameId: string, store: Platforms.Platform, s: State, size: BannerSize, now: real, net: Network): (o: Outcome)
  {
    if gameId == "" then
      Outcome(Unconfigured, s, [], [])
    else if s.WithinRefreshWindow(now) then
      Outcome(Throttled, s, [Received(s.lastClickURL, s.LastTextureFor(size))], [])
    else
      MetadataStage(gameId, store, s, size, net)
  }

  // ---------------------------------------------------------------------------
  // What each stage does

  /**
   * The secondary image: one request; a failure emits one failure event and
   * changes nothing; an image is shown for the other shape without an event,
   * and stored unless its URL is already cached, in which case `Add` throws.
   * Nothing of `size` itself, nor the timestamp or the click URL, changes.
   */
  lemma SecondaryStageEffects(s: State, size: BannerSize, url: string, secondary: Fetch<Texture>, o: Outcome)
    requires o == SecondaryStage(s, size, url, secondary)
    ensures o.requests == [ImageRequest(url)]
    ensures o.exit in {SecondaryFailed, Completed, Aborted(DuplicateKeyFault)}
    ensures o.exit == SecondaryFailed <==> secondary.NetworkError?
    ensures o.exit == SecondaryFailed ==> o.events == [FailedToLoad] && o.state == s
    ensures o.exit == Aborted(DuplicateKeyFault) <==> secondary.Fetched? && url in s.CacheFor(OtherSize(size))
    ensures secondary.Fetched? ==>
              && o.events == []
              && o.state.LastTextureFor(OtherSize(size)) == Some(secondary.value)
              && o.state.CacheFor(OtherSize(size))
                 == if o.exit == Completed then s.CacheFor(OtherSize(size))[url := secondary.value]
                    else s.CacheFor(OtherSize(size))
    ensures o.state.CacheFor(size) == s.CacheFor(size) && o.state.LastTextureFor(size) == s.LastTextureFor(size)
    ensures o.state.lastRequestTime == s.lastRequestTime && o.state.lastClickURL == s.lastClickURL
  {
  }

  /**
   * The primary image. A cache hit serves the cached image with the new click
   * URL and requests nothing. A failed download emits one failure event and
   * changes nothing. A downloaded image is stamped, cached, delivered exactly
   * once, tracked, and followed by the secondary image, which can add one
   * failure event after the delivery but no second delivery.
   */
  lemma ImageStageEffects(s: State, size: BannerSize, response: Response, net: Network, o: Outcome)
    requires o == ImageStage(s, size, response, net)
    ensures o.exit in {CacheHit, PrimaryFailed, SecondaryFailed, Completed, Aborted(DuplicateKeyFault)}
    ensures o.exit == CacheHit <==> PrimaryURL(size, response) in s.CacheFor(size)
    ensures o.exit == CacheHit ==>
              var cached := s.CacheFor(size)[PrimaryURL(size, response)];
              && o.events == [Received(response.clickURL, Some(cached))]
              && o.requests == []
              && o.state == s.(lastClickURL := response.clickURL).WithLast(size, Some(cached))
    ensures o.exit == PrimaryFailed <==> PrimaryURL(size, response) !in s.CacheFor(size) && net.primary.NetworkError?
    ensures o.exit == PrimaryFailed ==>
              o.events == [FailedToLoad] && o.requests == [ImageRequest(PrimaryURL(size, response))] && o.state == s
    ensures o.exit in {SecondaryFailed, Completed, Aborted(DuplicateKeyFault)} ==>
              && net.primary.Fetched?
              && o.requests == [ImageRequest(PrimaryURL(size, response)), TrackingRequest(response.trackingURL),
                                ImageRequest(SecondaryURL(size, response))]
              && o.events == [Received(response.clickURL, Some(net.primary.value))]
                             + (if o.exit == SecondaryFailed then [FailedToLoad] else [])
              && o.state.lastRequestTime == Some(net.loadedAt)
              && o.state.lastClickURL == response.clickURL
              && o.state.CacheFor(size) == s.CacheFor(size)[PrimaryURL(size, response) := net.primary.value]
              && o.state.LastTextureFor(size) == Some(net.primary.value)
    ensures o.exit == Completed ==>
              o.state.CacheFor(OtherSize(size))
              == s.CacheFor(OtherSize(size))[SecondaryURL(size, response) := net.secondary.value]
    ensures o.state.lastRequestTime != s.lastRequestTime ==> o.state.lastRequestTime == Some(net.loadedAt)
  {
    var imageUrl := PrimaryURL(size, response);
    if imageUrl !in s.CacheFor(size) && net.primary.Fetched? {
      var shown := Delivered(s, size, response, net.primary.value, net.loadedAt);
      var url := SecondaryURL(size, response);
      SecondaryStageEffects(shown, size, url, net.secondary, SecondaryStage(shown, size, url, net.secondary));
    }
  }

  /**
   * A transport error or an error reported by the server emits one failure
   * event; an exception while reading the answer emits nothing; neither
   * changes the state nor requests anything more.
   */
  lemma AnswerStageEffects(s: State, size: BannerSize, answer: Metadata, net: Network, o: Outcome)
    requires o == AnswerStage(s, size, answer, net)
    ensures o.exit !in {Busy, Unconfigured, Throttled}
    ensures o.exit == TransportFailed <==> answer == TransportError
    ensures o.exit == ApiRejected <==> answer.ApiError?
    ensures o.exit in {TransportFailed, ApiRejected} ==> o.events == [FailedToLoad] && o.requests == [] && o.state == s
    ensures o.exit == Aborted(ParseFault) <==> answer == Unparsable
    ensures o.exit == Aborted(ErrorFieldFault) <==> answer == NoErrorField
    ensures o.exit == Aborted(ResponseFault) <==> answer == Malformed
    ensures o.exit in {Aborted(ParseFault), Aborted(ErrorFieldFault), Aborted(ResponseFault)} ==>
              o.events == [] && o.requests == [] && o.state == s
    ensures o.state != s ==> o.exit in {CacheHit, SecondaryFailed, Completed, Aborted(DuplicateKeyFault)}
    ensures o.state.lastRequestTime != s.lastRequestTime ==> o.state.lastRequestTime == Some(net.loadedAt)
  {
    if answer.Accepted? {
      ImageStageEffects(s, size, answer.response, net, o);
    }
  }

  /**
   * One call with the guard free. Without a game identifier nothing happens.
   * Within the refresh window the last banner is served again with the last
   * texture of the shape asked for, and nothing is requested. Every other call
   * asks the server first. Only a banner shown changes the state, and only a
   * download moves the timestamp.
   */
  lemma RunEffects(gameId: string, store: Platforms.Platform, s: State, size: BannerSize, now: real, net: Network, o: Outcome)
    requires o == Run(gameId, store, s, size, now, net)
    ensures o.exit != Busy
    ensures o.exit == Unconfigured <==> gameId == ""
    ensures o.exit == Unconfigured ==> o.events == [] && o.requests == [] && o.state == s
    ensures o.exit == Throttled <==> gameId != "" && s.WithinRefreshWindow(now)
    ensures o.exit == Throttled ==>
              o.events == [Received(s.lastClickURL, s.LastTextureFor(size))] && o.requests == [] && o.state == s
    ensures o.requests == [] <==> o.exit in {Unconfigured, Throttled}
    ensures o.requests != [] ==> o.requests[0] == MetadataRequest(CreateURL(gameId, store))
    // The server's answer decides the rest.
    ensures o.exit == TransportFailed <==> gameId != "" && !s.WithinRefreshWindow(now) && net.metadata.NetworkError?
    ensures o.exit == ApiRejected <==>
              gameId != "" && !s.WithinRefreshWindow(now) && ReadMetadata(net.metadata, net.parse).ApiError?
    ensures o.exit in {TransportFailed, ApiRejected} ==> o.events == [FailedToLoad] && |o.requests| == 1 && o.state == s
    // Reading the answer throws on a body that parses to nothing, on a missing
    // or null `error` field, and when the `Response` constructor fails.
    ensures o.exit == Aborted(ParseFault) <==>
              gameId != "" && !s.WithinRefreshWindow(now) && ReadMetadata(net.metadata, net.parse) == Unparsable
    ensures o.exit == Aborted(ErrorFieldFault) <==>
              gameId != "" && !s.WithinRefreshWindow(now) && ReadMetadata(net.metadata, net.parse) == NoErrorField
    ensures o.exit == Aborted(ResponseFault) <==>
              gameId != "" && !s.WithinRefreshWindow(now) && ReadMetadata(net.metadata, net.parse) == Malformed
    ensures o.exit in {Aborted(ParseFault), Aborted(ErrorFieldFault), Aborted(ResponseFault)} ==>
              o.events == [] && |o.requests| == 1 && o.state == s
    ensures o.state != s ==> o.exit in {CacheHit, SecondaryFailed, Completed, Aborted(DuplicateKeyFault)}
    ensures o.state.lastRequestTime != s.lastRequestTime ==> o.state.lastRequestTime == Some(net.loadedAt)
  {
    if gameId != "" && !s.WithinRefreshWindow(now) {
      var answer := ReadMetadata(net.metadata, net.parse);
      AnswerStageEffects(s, size, answer, net, AnswerStage(s, size, answer, net));
    }
  }

  // ---------------------------------------------------------------------------
  // What every run keeps

  /**
   * A stage keeps the caches append-only, and unless it throws it keeps each
   * last texture among its shape's cached images.
   */
  ghost predicate Preserves(s: State, o: Outcome)
  {
    && Grows(s, o.state)
    && (s.LastTexturesCached() && !o.exit.Aborted? ==> o.state.LastTexturesCached())
  }

  lemma SecondaryStagePreserves(s: State, size: BannerSize, url: string, secondary: Fetch<Texture>)
    ensures Preserves(s, SecondaryStage(s, size, url, secondary))
  {
    if secondary.Fetched? && url !in s.CacheFor(OtherSize(size)) {
      InsertedIsCached(s.CacheFor(OtherSize(size)), url, secondary.value);
    }
  }

  lemma ImageStagePreserves(s: State, size: BannerSize, response: Response, net: Network)
    ensures Preserves(s, ImageStage(s, size, response, net))
  {
    var imageUrl := PrimaryURL(size, response);
    if imageUrl in s.CacheFor(size) {
      LookupIsCached(s.CacheFor(size), imageUrl);
    } else if net.primary.Fetched? {
      var shown := Delivered(s, size, response, net.primary.value, net.loadedAt);
      InsertedIsCached(s.CacheFor(size), imageUrl, net.primary.value);
      ExtendsKeepsCached(s.LastTextureFor(OtherSize(size)), s.CacheFor(OtherSize(size)), shown.CacheFor(OtherSize(size)));
      SecondaryStagePreserves(shown, size, SecondaryURL(size, response), net.secondary);
      ExtendsTransitive(s.cachedSquares, shown.cachedSquares, ImageStage(s, size, response, net).state.cachedSquares);
      ExtendsTransitive(s.cachedRectangles, shown.cachedRectangles, ImageStage(s, size, response, net).state.cachedRectangles);
    }
  }

  lemma ExtendsTransitive(a: map<string, Texture>, b: map<string, Texture>, c: map<string, Texture>)
    requires Extends(a, b) && Extends(b, c)
    ensures Extends(a, c)
  {
  }

  lemma AnswerStagePreserves(s: State, size: BannerSize, answer: Metadata, net: Network)
    ensures Preserves(s, AnswerStage(s, size, answer, net))
  {
    if answer.Accepted? {
      ImageStagePreserves(s, size, answer.response, net);
    } else {
      assert AnswerStage(s, size, answer, net).state == s;
    }
  }

  /**
   * Caches are append-only: no run removes or replaces a cached image. And a
   * run that does not throw leaves each last texture absent or cached.
   */
  lemma RunPreserves(gameId: string, store: Platforms.Platform, s: State, size: BannerSize, now: real, net: Network)
    ensures Preserves(s, Run(gameId, store, s, size, now, net))
  {
    var o := Run(gameId, store, s, size, now, net);
    if gameId != "" && !s.WithinRefreshWindow(now) {
      var answer := ReadMetadata(net.metadata, net.parse);
      var rest := AnswerStage(s, size, answer, net);
      AnswerStagePreserves(s, size, answer, net);
      assert o.state == rest.state && o.exit == rest.exit;
    } else {
      assert o.state == s;
    }
  }

  lemma GrowsTransitive(a: State, b: State, c: State)
    requires Grows(a, b) && Grows(b, c)
    ensures Grows(a, c)
  {
  }

  // ---------------------------------------------------------------------------
  // Across runs

  /**
   * A run that downloaded its primary image stamps the time of arrival; every
   * call within the refresh window after it, for either shape, serves that
   * banner again without a request: its click URL with the shape's last
   * texture, which is the image just downloaded for the same shape and the
   * secondary image for the other shape when that one arrived.
   */
  lemma ThrottledAfterDownload(gameId: string, store: Platforms.Platform, s: State, size: BannerSize, now: real,
                               net: Network, later: real, size2: BannerSize, net2: Network)
    requires Run(gameId, store, s, size, now, net).exit in {SecondaryFailed, Completed}
    requires Run(gameId, store, s, size, now, net).state.lastClickURL != ""
    requires later - net.loadedAt < RefreshRate
    ensures var t := Run(gameId, store, s, size, now, net).state;
            && Run(gameId, store, t, size2, later, net2)
               == Outcome(Throttled, t, [Received(t.lastClickURL, t.LastTextureFor(size2))], [])
            && ReadMetadata(net.metadata, net.parse).Accepted?
            && t.lastClickURL == ReadMetadata(net.metadata, net.parse).response.clickURL
            && net.primary.Fetched? && t.LastTextureFor(size) == Some(net.primary.value)
            && (Run(gameId, store, s, size, now, net).exit == Completed ==>
                  net.secondary.Fetched? && t.LastTextureFor(OtherSize(size)) == Some(net.secondary.value))
  {
    var o := Run(gameId, store, s, size, now, net);
    RunEffects(gameId, store, s, size, now, net, o);
    var answer := ReadMetadata(net.metadata, net.parse);
    var rest := AnswerStage(s, size, answer, net);
    assert o.exit == rest.exit && o.state == rest.state;
    AnswerStageEffects(s, size, answer, net, rest);
    assert answer.Accepted?;
    ImageStageEffects(s, size, answer.response, net, rest);
    if o.exit == Completed {
      SecondaryStageEffects(Delivered(s, size, answer.response, net.primary.value, net.loadedAt), size,
                            SecondaryURL(size, answer.response), net.secondary,
                            SecondaryStage(Delivered(s, size, answer.response, net.primary.value, net.loadedAt), size,
                                           SecondaryURL(size, answer.response), net.secondary));
    }
  }

  /**
   * An image downloaded as the primary image of a run stays cached: every later
   * run for the same shape whose response names the same image, after any runs
   * in between, serves it from the cache with the new click URL and requests
   * nothing.
   */
  lemma DownloadedPrimaryIsCached(s: State, size: BannerSize, response: Response, net: Network,
                                  later: State, response2: Response, net2: Network)
    requires ImageStage(s, size, response, net).exit in {SecondaryFailed, Completed, Aborted(DuplicateKeyFault)}
    requires Grows(ImageStage(s, size, response, net).state, later)
    requires PrimaryURL(size, response2) == PrimaryURL(size, response)
    ensures ImageStage(later, size, response2, net2)
            == Outcome(CacheHit, later.(lastClickURL := response2.clickURL).WithLast(size, Some(net.primary.value)),
                       [Received(response2.clickURL, Some(net.primary.value))], [])
  {
    var o := ImageStage(s, size, response, net);
    ImageStageEffects(s, size, response, net, o);
    var url := PrimaryURL(size, response);
    assert o.state.CacheFor(size)[url] == net.primary.value;
    assert later.CacheFor(size)[url] == net.primary.value;
    ImageStageEffects(later, size, response2, net2, ImageStage(later, size, response2, net2));
  }

  /**
   * A run that completes primes the other shape: a later run for the other
   * shape whose response names the first run's secondary image as its primary
   * image serves it from the cache and requests nothing.
   */
  lemma SecondaryPrimesOtherShape(s: State, size: BannerSize, response: Response, net: Network,
                                  later: State, response2: Response, net2: Network)
    requires ImageStage(s, size, response, net).exit == Completed
    requires Grows(ImageStage(s, size, response, net).state, later)
    requires PrimaryURL(OtherSize(size), response2) == SecondaryURL(size, response)
    ensures ImageStage(later, OtherSize(size), response2, net2)
            == Outcome(CacheHit, later.(lastClickURL := response2.clickURL).WithLast(OtherSize(size), Some(net.secondary.value)),
                       [Received(response2.clickURL, Some(net.secondary.value))], [])
  {
    var o := ImageStage(s, size, response, net);
    ImageStageEffects(s, size, response, net, o);
    var url := SecondaryURL(size, response);
    assert o.state.CacheFor(OtherSize(size))[url] == net.secondary.value;
    assert later.CacheFor(OtherSize(size))[url] == net.secondary.value;
    ImageStageEffects(later, OtherSize(size), response2, net2, ImageStage(later, OtherSize(size), response2, net2));
  }

  /**
   * Two responses that share their portrait image but not their landscape
   * image: a rectangle run for the first completes, and a square run for the
   * second then throws at the secondary `Add`, because the portrait image is
   * already in the rectangle cache. The rectangle's last texture is then an
   * image its cache does not hold, and the guard stays set.
   */
  lemma SharedPortraitThrows(r1: Response, r2: Response, net1: Network, net2: Network)
    requires r1.portraitImageURL == r2.portraitImageURL && r1.landscapeImageURL != r2.landscapeImageURL
    requires net1.primary.Fetched? && net1.secondary.Fetched? && net2.primary.Fetched? && net2.secondary.Fetched?
    requires net2.secondary.value != net1.primary.value
    ensures ImageStage(Initial, Rectangle, r1, net1).exit == Completed
    ensures var second := ImageStage(ImageStage(Initial, Rectangle, r1, net1).state, Square, r2, net2);
            second.exit == Aborted(DuplicateKeyFault) && !second.state.LastTexturesCached()
  {
    var first := ImageStage(Initial, Rectangle, r1, net1);
    ImageStageEffects(Initial, Rectangle, r1, net1, first);
    assert first.state.cachedRectangles == map[r1.portraitImageURL := net1.primary.value];
    assert first.state.cachedSquares == map[r1.landscapeImageURL := net1.secondary.value];
    var second := ImageStage(first.state, Square, r2, net2);
    ImageStageEffects(first.state, Square, r2, net2, second);
    assert second.state.cachedRectangles == first.state.cachedRectangles;
    assert second.state.lastRectangleTexture == Some(net2.secondary.value);
  }
}
