/** The ad server's answer to a metadata request: five URLs, fixed once read. */
module Responses {
  import opened Wrappers
  import opened Json

  /**
   * A `Response`. Its five fields are read-only in the C# class; as a datatype
   * value it cannot change after construction, and its destructors are the
   * five getters `ImageURL`, `LandscapeImageURL`, `PortraitImageURL`,
   * `ClickURL` and `TrackingURL`.
   */
  datatype Response = Response(
    imageURL: string,
    landscapeImageURL: string,
    portraitImageURL: string,
    clickURL: string,
    trackingURL: string)

  /** `key` is present in `json` and holds a string, so `(string)json[key]` yields text. */
  predicate HasString(json: JsonObject, key: string)
  {
    key in json && json[key].JString?
  }

  /** The five keys the constructor reads. */
  predicate Complete(json: JsonObject)
  {
    && HasString(json, "image")
    && HasString(json, "landscape_image")
    && HasString(json, "portrait_image")
    && HasString(json, "click")
    && HasString(json, "tracking")
  }

  /**
   * The constructor `Response(json)`: `None` stands for the exception a missing
   * key (or a value that is not a string) raises.
   */
  function FromJson(json: JsonObject): (r: Option<Response>)
    ensures r.Some? <==> Complete(json)
    ensures r.Some? ==> && r.value.imageURL == json["image"].text
                        && r.value.landscapeImageURL == json["landscape_image"].text
                        && r.value.portraitImageURL == json["portrait_image"].text
                        && r.value.clickURL == json["click"].text
                        && r.value.trackingURL == json["tracking"].text
  {
    if Complete(json) then
      Some(Response(
        json["image"].text,
        json["landscape_image"].text,
        json["portrait_image"].text,
        json["click"].text,
        json["tracking"].text))
    else
      None
  }

  /** Two dictionaries that agree on the five keys give the same response. */
  predicate AgreeOnResponseKeys(a: JsonObject, b: JsonObject)
  {
    forall key :: key in {"image", "landscape_image", "portrait_image", "click", "tracking"} ==>
      (key in a <==> key in b) && (key in a ==> a[key] == b[key])
  }

  /** Keys other than the five (`error` among them) have no effect on the constructed response. */
  lemma FromJsonReadsOnlyItsKeys(a: JsonObject, b: JsonObject)
    requires AgreeOnResponseKeys(a, b)
    ensures FromJson(a) == FromJson(b)
  {
    assert "image" in {"image", "landscape_image", "portrait_image", "click", "tracking"};
    assert "landscape_image" in {"image", "landscape_image", "portrait_image", "click", "tracking"};
    assert "portrait_image" in {"image", "landscape_image", "portrait_image", "click", "tracking"};
    assert "click" in {"image", "landscape_image", "portrait_image", "click", "tracking"};
    assert "tracking" in {"image", "landscape_image", "portrait_image", "click", "tracking"};
  }

  /** Adding or replacing any other key, such as `error`, leaves the response as it was. */
  lemma OtherKeysIgnored(json: JsonObject, key: string, v: JsonValue)
    requires key !in {"image", "landscape_image", "portrait_image", "click", "tracking"}
    ensures FromJson(json[key := v]) == FromJson(json)
  {
    FromJsonReadsOnlyItsKeys(json[key := v], json);
  }
}
