/**
 * The banner controller of the MoreGamers SDK: it asks the ad server for a
 * banner, downloads the banner's two images, caches them per shape, and tells
 * its listeners that a banner arrived or that none could be loaded.
 */
module MoreGamers {
  import opened Wrappers
  import opened Text
  import opened Responses
  import opened Pipeline
  import Platforms

  class Controller {
    /** The game's identifier, set in the editor; "" stands for null or empty. */
    const gameId: string
    /** The store, chosen once when the controller wakes up. */
    const store: Platforms.Platform

    /** The single-flight guard. */
    var alreadyInUse: bool
    /** When the last primary image arrived; `None` until then (the source's negative infinity). */
    var lastRequestTime: Option<real>
    /** Click URL of the last banner delivered; "" stands for null or empty. */
    var lastClickURL: string
    var lastRectangleTexture: Option<Texture>
    var lastSquareTexture: Option<Texture>
    var cachedRectangles: map<string, Texture>
    var cachedSquares: map<string, Texture>

    /** Every emission on the listener channels, oldest first. */
    ghost var events: seq<Event>
    /** Every network request issued, oldest first. */
    ghost var requests: seq<Request>

    /** The fields a run reads and leaves behind, as one value. */
    function Current(): State
      reads this
    {
      State(lastRequestTime, lastClickURL, lastSquareTexture, lastRectangleTexture, cachedSquares, cachedRectangles)
    }

    /**
     * While no run is stuck, the last texture of each shape is absent or one of
     * that shape's cached images. A run that throws may leave a last texture
     * that its cache does not hold.
     */
    ghost predicate Valid()
      reads this
    {
      !alreadyInUse ==> Current().LastTexturesCached()
    }

    /**
     * `Awake`: the guard is free, nothing was ever fetched, both caches are empty.
     * With no game identifier `Awake` throws before it selects a store, so the
     * store keeps its default.
     */
    constructor (gameId: string, deviceModel: string, platform: RuntimePlatform)
      ensures Valid()
      ensures this.gameId == gameId
      ensures store == if gameId == "" then Platforms.Default else SelectStore(deviceModel, platform)
      ensures !alreadyInUse && Current() == Initial
      ensures events == [] && requests == []
    {
      this.gameId := gameId;
      store := if gameId == "" then Platforms.Default else SelectStore(deviceModel, platform);
      alreadyInUse := false;
      lastRequestTime := None;
      lastClickURL := "";
      lastSquareTexture, lastRectangleTexture := None, None;
      cachedRectangles, cachedSquares := map[], map[];
      events, requests := [], [];
    }

    /**
     * One call of `GetBanner` for `size` at time `now`, with `net` standing for
     * what the network answers. A run already in progress makes the call do
     * nothing; otherwise the call does what `Run` says, and hands the guard back
     * unless the run threw.
     */
    method GetBanner(size: BannerSize, now: real, net: Network) returns (exit: Exit)
      requires Valid()
      modifies this
      ensures Valid()
      ensures exit == Busy <==> old(alreadyInUse)
      ensures exit == Busy ==> unchanged(this)
      ensures !old(alreadyInUse) ==>
                var o := Run(gameId, store, old(Current()), size, now, net);
                && exit == o.exit
                && Current() == o.state
                && events == old(events) + o.events
                && requests == old(requests) + o.requests
      ensures alreadyInUse <==> exit == Busy || exit.Aborted?
    {
      if alreadyInUse {
        return Busy;
      }
      ghost var before := Current();
      RunPreserves(gameId, store, before, size, now, net);
      RunEffects(gameId, store, before, size, now, net, Run(gameId, store, before, size, now, net));
      alreadyInUse := true;

      if gameId == "" {
        alreadyInUse := false;
        return Unconfigured;
      }

      if lastRequestTime.Some? && now - lastRequestTime.value < RefreshRate && lastClickURL != "" {
        if size == Square {
          events := events + [Received(lastClickURL, lastSquareTexture)];
        } else {
          events := events + [Received(lastClickURL, lastRectangleTexture)];
        }
        alreadyInUse := false;
        return Throttled;
      }

      exit := FetchMetadata(size, net);
    }

    /** Step 2: the metadata request, then what its answer leads to. */
    method FetchMetadata(size: BannerSize, net: Network) returns (exit: Exit)
      requires alreadyInUse
      modifies this
      ensures var o := MetadataStage(gameId, store, old(Current()), size, net);
              && exit == o.exit
              && Current() == o.state
              && events == old(events) + o.events
              && requests == old(requests) + o.requests
      ensures alreadyInUse <==> exit.Aborted?
    {
      ghost var requests0 := requests;
      requests := requests + [MetadataRequest(CreateURL(gameId, store))];
      var answer := ReadMetadata(net.metadata, net.parse);
      exit := HandleAnswer(size, answer, net);
      AppendAssociative(requests0, [MetadataRequest(CreateURL(gameId, store))],
                        AnswerStage(old(Current()), size, answer, net).requests);
    }

    /** Steps 3 to 8: what the answer of the server leads to. */
    method HandleAnswer(size: BannerSize, answer: Metadata, net: Network) returns (exit: Exit)
      requires alreadyInUse
      modifies this
      ensures var o := AnswerStage(old(Current()), size, answer, net);
              && exit == o.exit
              && Current() == o.state
              && events == old(events) + o.events
              && requests == old(requests) + o.requests
      ensures alreadyInUse <==> exit.Aborted?
    {
      match answer {
        case TransportError =>
          events := events + [FailedToLoad];
          alreadyInUse := false;
          return TransportFailed;
        case Unparsable =>
          return Aborted(ParseFault);
        case NoErrorField =>
          return Aborted(ErrorFieldFault);
        case ApiError(_) =>
          events := events + [FailedToLoad];
          alreadyInUse := false;
          return ApiRejected;
        case Malformed =>
          return Aborted(ResponseFault);
        case Accepted(response) =>
          exit := ShowBanner(size, response, net);
      }
    }

    /** Steps 5 to 8: the primary image, from the shape's cache or from the network, then the secondary image. */
    method ShowBanner(size: BannerSize, response: Response, net: Network) returns (exit: Exit)
      requires alreadyInUse
      modifies this
      ensures var o := ImageStage(old(Current()), size, response, net);
              && exit == o.exit
              && Current() == o.state
              && events == old(events) + o.events
              && requests == old(requests) + o.requests
      ensures alreadyInUse <==> exit.Aborted?
    {
      var hit := ServeCached(size, PrimaryURL(size, response), response.clickURL);
      if hit {
        return CacheHit;
      }
      exit := DownloadPrimary(size, response, net);
    }

    /**
     * Step 5: a primary image already in the shape's cache is delivered with the
     * new click URL and ends the run; otherwise nothing happens.
     */
    method ServeCached(size: BannerSize, imageUrl: string, clickURL: string) returns (hit: bool)
      requires alreadyInUse
      modifies this
      ensures hit <==> imageUrl in old(Current().CacheFor(size))
      ensures hit ==>
                var cached := old(Current().CacheFor(size))[imageUrl];
                && Current() == old(Current()).(lastClickURL := clickURL).WithLast(size, Some(cached))
                && events == old(events) + [Received(clickURL, Some(cached))]
                && requests == old(requests)
                && !alreadyInUse
      ensures !hit ==> unchanged(this)
    {
      if size == Square {
        if imageUrl in cachedSquares {
          lastClickURL := clickURL;
          lastSquareTexture := Some(cachedSquares[imageUrl]);
          events := events + [Received(clickURL, Some(cachedSquares[imageUrl]))];
          alreadyInUse := false;
          return true;
        }
      } else {
        if imageUrl in cachedRectangles {
          lastClickURL := clickURL;
          lastRectangleTexture := Some(cachedRectangles[imageUrl]);
          events := events + [Received(clickURL, Some(cachedRectangles[imageUrl]))];
          alreadyInUse := false;
          return true;
        }
      }
      return false;
    }

    /** Step 6: the primary image is downloaded, stored, delivered and tracked; then step 7. */
    method DownloadPrimary(size: BannerSize, response: Response, net: Network) returns (exit: Exit)
      requires alreadyInUse && PrimaryURL(size, response) !in Current().CacheFor(size)
      modifies this
      ensures var o := ImageStage(old(Current()), size, response, net);
              && exit == o.exit
              && Current() == o.state
              && events == old(events) + o.events
              && requests == old(requests) + o.requests
      ensures alreadyInUse <==> exit.Aborted?
    {
      var imageUrl := PrimaryURL(size, response);
      requests := requests + [ImageRequest(imageUrl)];
      if net.primary.NetworkError? {
        events := events + [FailedToLoad];
        alreadyInUse := false;
        return PrimaryFailed;
      }
      var texture := net.primary.value;
      ghost var events0, requests0 := events, requests;
      StorePrimary(size, response, texture, net.loadedAt);
      ghost var o := SecondaryStage(Current(), size, SecondaryURL(size, response), net.secondary);
      exit := FetchSecondary(size, SecondaryURL(size, response), net.secondary);
      AppendAssociative(events0, [Received(response.clickURL, Some(texture))], o.events);
      AppendAssociative(requests0, [TrackingRequest(response.trackingURL)], o.requests);
      AppendAssociative(old(requests), [ImageRequest(imageUrl)], [TrackingRequest(response.trackingURL)] + o.requests);
    }

    /**
     * Step 6 once the primary image arrived: the tracking ping goes out, the
     * time and the click URL are stamped together, the image is stored and
     * shown for its shape, and the banner is delivered.
     */
    method StorePrimary(size: BannerSize, response: Response, texture: Texture, loadedAt: real)
      requires PrimaryURL(size, response) !in Current().CacheFor(size)
      modifies this
      ensures Current() == Delivered(old(Current()), size, response, texture, loadedAt)
      ensures events == old(events) + [Received(response.clickURL, Some(texture))]
      ensures requests == old(requests) + [TrackingRequest(response.trackingURL)]
      ensures alreadyInUse == old(alreadyInUse)
    {
      var imageUrl := PrimaryURL(size, response);
      requests := requests + [TrackingRequest(response.trackingURL)];
      lastRequestTime := Some(loadedAt);
      lastClickURL := response.clickURL;
      // `Add` cannot throw here: the URL was just found missing from this cache.
      if size == Square {
        lastSquareTexture := Some(texture);
        cachedSquares := cachedSquares[imageUrl := texture];
      } else {
        lastRectangleTexture := Some(texture);
        cachedRectangles := cachedRectangles[imageUrl := texture];
      }
      events := events + [Received(response.clickURL, Some(texture))];
    }

    /** Steps 7 and 8: the secondary image goes to the other shape's cache. */
    method FetchSecondary(size: BannerSize, imageUrl: string, secondary: Fetch<Texture>) returns (exit: Exit)
      requires alreadyInUse
      modifies this
      ensures var o := SecondaryStage(old(Current()), size, imageUrl, secondary);
              && exit == o.exit
              && Current() == o.state
              && events == old(events) + o.events
              && requests == old(requests) + o.requests
      ensures alreadyInUse <==> exit.Aborted?
    {
      requests := requests + [ImageRequest(imageUrl)];
      if secondary.NetworkError? {
        events := events + [FailedToLoad];
        alreadyInUse := false;
        return SecondaryFailed;
      }
      var texture := secondary.value;
      // `Add` throws when the URL is already cached; the last texture is set before it.
      if size == Square {
        lastRectangleTexture := Some(texture);
        if imageUrl in cachedRectangles {
          return Aborted(DuplicateKeyFault);
        }
        cachedRectangles := cachedRectangles[imageUrl := texture];
      } else {
        lastSquareTexture := Some(texture);
        if imageUrl in cachedSquares {
          return Aborted(DuplicateKeyFault);
        }
        cachedSquares := cachedSquares[imageUrl := texture];
      }
      alreadyInUse := false;
      return Completed;
    }
  }
}
