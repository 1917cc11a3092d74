/**
 * The Google Maps helpers (src/utils/mapsApi.ts): place suggestions for a
 * search term, and the encoded polyline of a route through waypoints. The
 * API key and the response are inputs; every failure becomes `null`.
 */
module MapsApi {
  import opened Wrappers
  import opened Js
  import Api

  /** The `NEXT_PUBLIC_GOOGLE_MAPS_API_KEY` environment value is set and non-empty. */
  predicate KeyPresent(apiKey: Option<string>) {
    apiKey.Some? && Truthy(Str(apiKey.value))
  }

  const TEXT_PATH: seq<string> := ["placePrediction", "text", "text"]

  /** The filter's test, `get(suggestion, "placePrediction.text.text")`. */
  function SuggestionText(suggestion: Value): Value {
    LodashGet(suggestion, TEXT_PATH)
  }

  /** The map's read, `suggestion.placePrediction.text.text`, which throws when `placePrediction` or its `text` is missing. */
  function MapText(suggestion: Value): Try<Value> {
    MemberPath(suggestion, TEXT_PATH)
  }

  /** The suggestion carries the literal key "placePrediction.text.text", which lodash `get` reads in place of the nested path. */
  predicate DottedTextKey(suggestion: Value) {
    suggestion.Object? && "placePrediction.text.text" in suggestion.props
  }

  /** No suggestion carries the literal dotted key. */
  predicate PlainSuggestions(suggestions: seq<Value>) {
    forall j :: 0 <= j < |suggestions| ==> !DottedTextKey(suggestions[j])
  }

  /** Without the literal dotted key, a suggestion the filter keeps is read by the map as the very text the filter checked. */
  lemma PlainSuggestionRead(suggestion: Value)
    requires !DottedTextKey(suggestion) && Truthy(SuggestionText(suggestion))
    ensures MapText(suggestion) == Returned(SuggestionText(suggestion))
  {
    assert DottedPath(TEXT_PATH) == "placePrediction.text.text";
    assert SuggestionText(suggestion) == GetPath(suggestion, TEXT_PATH);
  }

  /** The `filter` step: the suggestions whose text is truthy, in their original order. */
  function WithText(suggestions: seq<Value>): (kept: seq<Value>)
    ensures |kept| <= |suggestions|
    ensures forall j :: 0 <= j < |kept| ==> Truthy(SuggestionText(kept[j]))
    ensures forall x :: x in kept ==> x in suggestions
  {
    if suggestions == [] then []
    else if Truthy(SuggestionText(suggestions[0])) then [suggestions[0]] + WithText(suggestions[1..])
    else WithText(suggestions[1..])
  }

  /** The `map` step: every read in order, or None (the catch's `null`) as soon as one throws. */
  function MapTexts(kept: seq<Value>): (texts: Option<seq<Value>>)
    ensures texts.Some? <==> forall j :: 0 <= j < |kept| ==> MapText(kept[j]).Returned?
    ensures texts.Some? ==> |texts.value| == |kept| && forall j :: 0 <= j < |kept| ==> texts.value[j] == MapText(kept[j]).value
    decreases |kept|
  {
    if kept == [] then Some([])
    else
      match MapText(kept[0])
      case Threw(_) => None
      case Returned(text) =>
        match MapTexts(kept[1..])
        case None => None
        case Some(rest) => Some([text] + rest)
  }

  /** When every kept suggestion is plain, each is read as the text the filter checked. */
  lemma PlainReads(kept: seq<Value>)
    requires PlainSuggestions(kept)
    requires forall j :: 0 <= j < |kept| ==> Truthy(SuggestionText(kept[j]))
    ensures forall j :: 0 <= j < |kept| ==> MapText(kept[j]) == Returned(SuggestionText(kept[j]))
  {
    forall j | 0 <= j < |kept| {
      PlainSuggestionRead(kept[j]);
    }
  }

  /**
   * The `filter` then `map` of getAutocompleteSuggestions. When no
   * suggestion carries the literal dotted key, the map cannot throw and
   * yields one truthy text per kept suggestion: the text the filter checked.
   */
  function SuggestionTexts(suggestions: seq<Value>): (texts: Option<seq<Value>>)
    ensures PlainSuggestions(suggestions) ==>
              && texts.Some?
              && |texts.value| == |WithText(suggestions)|
              && forall j :: 0 <= j < |texts.value| ==>
                   texts.value[j] == SuggestionText(WithText(suggestions)[j]) && Truthy(texts.value[j])
  {
    var kept := WithText(suggestions);
    if PlainSuggestions(suggestions) then
      assert PlainSuggestions(kept) by {
        forall j | 0 <= j < |kept| ensures !DottedTextKey(kept[j]) {
          assert kept[j] in suggestions;
        }
      }
      PlainReads(kept);
      MapTexts(kept)
    else
      MapTexts(kept)
  }

  /**
   * getAutocompleteSuggestions answered by `response`. `null` (None) when
   * the key is absent (then `response` is never consulted), when the
   * response is rejected or not ok, when the body has no array
   * `suggestions`, or when reading a kept suggestion's text throws.
   */
  function GetAutocompleteSuggestions(apiKey: Option<string>, response: Api.Fetch): (r: Option<seq<Value>>)
    ensures !KeyPresent(apiKey) ==> r.None?
    ensures r.Some? <==>
              && KeyPresent(apiKey) && response.Ok? && HasArrayField(response.body, "suggestions")
              && SuggestionTexts(response.body.props["suggestions"].items).Some?
    ensures r.Some? ==> r == SuggestionTexts(response.body.props["suggestions"].items)
    ensures KeyPresent(apiKey) && response.Ok? && HasArrayField(response.body, "suggestions")
            && PlainSuggestions(response.body.props["suggestions"].items) ==>
              r.Some? && forall j :: 0 <= j < |r.value| ==> Truthy(r.value[j])
  {
    if !KeyPresent(apiKey) then None
    else
      match response
      case Rejected(_) => None
      case NotOk(_) => None
      case Ok(json) =>
        match In("suggestions", json)
        case Threw(_) => None
        case Returned(hasSuggestions) =>
          if !hasSuggestions || !Get(json, "suggestions").Array? then None
          else SuggestionTexts(Get(json, "suggestions").items)
  }

  /** Filtering distributes over concatenation: the order of the suggestions is kept. */
  lemma {:induction false} WithTextAppend(a: seq<Value>, b: seq<Value>)
    ensures WithText(a + b) == WithText(a) + WithText(b)
  {
    if a == [] {
      assert a + b == b;
    } else {
      assert (a + b)[0] == a[0] && (a + b)[1..] == a[1..] + b;
      WithTextAppend(a[1..], b);
    }
  }

  /** Reading two runs succeeds exactly when reading each does, and gives the first run's texts, then the second's. */
  lemma {:induction false} MapTextsAppend(a: seq<Value>, b: seq<Value>)
    ensures MapTexts(a + b) == if MapTexts(a).Some? && MapTexts(b).Some? then Some(MapTexts(a).value + MapTexts(b).value) else None
    decreases |a|
  {
    if a == [] {
      assert a + b == b;
      assert MapTexts(a) == Some([]);
      if MapTexts(b).Some? {
        assert [] + MapTexts(b).value == MapTexts(b).value;
      }
    } else {
      assert (a + b)[0] == a[0] && (a + b)[1..] == a[1..] + b;
      MapTextsAppend(a[1..], b);
      if MapText(a[0]).Returned? && MapTexts(a[1..]).Some? && MapTexts(b).Some? {
        assert [MapText(a[0]).value] + (MapTexts(a[1..]).value + MapTexts(b).value)
            == ([MapText(a[0]).value] + MapTexts(a[1..]).value) + MapTexts(b).value;
      }
    }
  }

  /** The texts of two runs of suggestions are the first run's, then the second's; a throw in either gives null. */
  lemma SuggestionTextsAppend(a: seq<Value>, b: seq<Value>)
    ensures SuggestionTexts(a + b) ==
              if SuggestionTexts(a).Some? && SuggestionTexts(b).Some?
              then Some(SuggestionTexts(a).value + SuggestionTexts(b).value)
              else None
  {
    WithTextAppend(a, b);
    MapTextsAppend(WithText(a), WithText(b));
  }

  /** A single suggestion contributes its read when its filter text is truthy, and nothing otherwise (an empty text is dropped). */
  lemma SuggestionTextsSingle(s: Value)
    ensures SuggestionTexts([s]) ==
              if !Truthy(SuggestionText(s)) then Some([])
              else if MapText(s).Returned? then Some([MapText(s).value])
              else None
  {
    assert [s][1..] == [];
    assert MapTexts([]) == Some([]);
    if Truthy(SuggestionText(s)) {
      assert WithText([s]) == [s];
      if MapText(s).Returned? {
        assert [MapText(s).value] + [] == [MapText(s).value];
      }
      assert MapTexts([s]) == if MapText(s).Returned? then Some([MapText(s).value]) else None;
    } else {
      assert WithText([s]) == [];
    }
  }

  /** When every suggestion's filter text is truthy, all of them are kept, in place. */
  lemma {:induction false} AllTextsKept(suggestions: seq<Value>)
    requires forall j :: 0 <= j < |suggestions| ==> Truthy(SuggestionText(suggestions[j]))
    ensures WithText(suggestions) == suggestions
    ensures SuggestionTexts(suggestions) == MapTexts(suggestions)
  {
    if suggestions != [] {
      AllTextsKept(suggestions[1..]);
    }
  }

  /** The one-suggestion body `{suggestions: [s]}`, answered with `ok`. */
  function OneSuggestion(s: Value): Api.Fetch {
    Api.Ok(Object(map["suggestions" := Array([s])]))
  }

  /**
   * A suggestion holding only the literal key "placePrediction.text.text"
   * passes the filter, since lodash reads that key, and then makes the
   * map's plain read throw, so the whole list becomes null.
   */
  lemma DottedKeyNullsTheList(apiKey: Option<string>)
    requires KeyPresent(apiKey)
    ensures GetAutocompleteSuggestions(apiKey, OneSuggestion(Object(map["placePrediction.text.text" := Str("x")]))) == None
  {
    var s := Object(map["placePrediction.text.text" := Str("x")]);
    assert DottedPath(TEXT_PATH) == "placePrediction.text.text";
    assert Truthy(SuggestionText(s));
    assert MapText(s).Threw?;
    assert SuggestionTexts([s]) == None by {
      SuggestionTextsSingle(s);
    }
  }

  /** The literal key's text is what the filter tests, the nested text is what the map returns: an empty nested text gets through. */
  lemma DottedKeyShadowsText(apiKey: Option<string>)
    requires KeyPresent(apiKey)
    ensures GetAutocompleteSuggestions(apiKey, OneSuggestion(Object(map[
              "placePrediction.text.text" := Str("x"),
              "placePrediction" := Object(map["text" := Object(map["text" := Str("")])])])))
            == Some([Str("")])
  {
    var s := Object(map[
      "placePrediction.text.text" := Str("x"),
      "placePrediction" := Object(map["text" := Object(map["text" := Str("")])])]);
    assert DottedPath(TEXT_PATH) == "placePrediction.text.text";
    assert Truthy(SuggestionText(s));
    assert MapText(s) == Returned(Str(""));
    assert SuggestionTexts([s]) == Some([Str("")]) by {
      SuggestionTextsSingle(s);
    }
  }

  const POLYLINE_PATH: seq<string> := ["polyline", "encodedPolyline"]

  /** `{location: {latLng: {latitude, longitude}}}`. */
  datatype LatLng = LatLng(latitude: string, longitude: string)
  datatype Location = Location(latLng: LatLng)

  /** A waypoint: a latitude and a longitude, both strings. */
  datatype Coordinate = Coordinate(latitude: string, longitude: string)

  /** The request body of computeRoutes; an `undefined` origin or destination is absent (None). */
  datatype ComputeRoutesBody = ComputeRoutesBody(
    origin: Option<Location>,
    destination: Option<Location>,
    intermediates: seq<Location>,
    travelMode: string,
    computeAlternativeRoutes: bool)

  function Format(c: Coordinate): Location {
    Location(LatLng(c.latitude, c.longitude))
  }

  /**
   * getRoutePolyline(waypoints) answered by `response`. The body takes the
   * first waypoint as origin, the last as destination and those strictly
   * between as intermediates, in order. The result is the first route's
   * `polyline.encodedPolyline` when that is a string; every failure is
   * `null` (None).
   */
  method GetRoutePolyline(waypoints: seq<Coordinate>, apiKey: Option<string>, response: Api.Fetch)
    returns (body: ComputeRoutesBody, polyline: Option<string>)
    ensures |waypoints| >= 1 ==> body.origin == Some(Format(waypoints[0]))
    ensures |waypoints| >= 2 ==> body.destination == Some(Format(waypoints[|waypoints| - 1]))
    ensures |waypoints| == 0 ==> body.origin.None?
    ensures |waypoints| <= 1 ==> body.destination.None? && body.intermediates == []
    ensures |waypoints| >= 2 ==>
              && |body.intermediates| == |waypoints| - 2
              && forall j :: 0 <= j < |body.intermediates| ==> body.intermediates[j] == Format(waypoints[j + 1])
    ensures body.travelMode == "DRIVE" && !body.computeAlternativeRoutes
    ensures polyline.Some? <==>
              && KeyPresent(apiKey) && response.Ok? && HasArrayField(response.body, "routes")
              && |response.body.props["routes"].items| > 0
              && LodashGet(response.body.props["routes"].items[0], POLYLINE_PATH).Str?
    ensures polyline.Some? ==>
              polyline.value == LodashGet(response.body.props["routes"].items[0], POLYLINE_PATH).s
  {
    var formattedWaypoints := seq(|waypoints|, j requires 0 <= j < |waypoints| => Format(waypoints[j]));
    // shift()
    var origin: Option<Location> := None;
    if |formattedWaypoints| > 0 {
      origin := Some(formattedWaypoints[0]);
      formattedWaypoints := formattedWaypoints[1..];
    }
    // pop()
    var destination: Option<Location> := None;
    if |formattedWaypoints| > 0 {
      destination := Some(formattedWaypoints[|formattedWaypoints| - 1]);
      formattedWaypoints := formattedWaypoints[..|formattedWaypoints| - 1];
    }
    body := ComputeRoutesBody(origin, destination, formattedWaypoints, "DRIVE", false);

    polyline := None;
    if !KeyPresent(apiKey) {
      return;
    }
    if !response.Ok? {
      return;
    }
    var json := response.body;
    var hasRoutes := In("routes", json);
    if hasRoutes != Returned(true) || !Get(json, "routes").Array? || |Get(json, "routes").items| == 0 {
      return;
    }
    var routePolyline := LodashGet(Get(json, "routes").items[0], POLYLINE_PATH);
    if TypeOf(routePolyline) != "string" {
      return;
    }
    polyline := Some(routePolyline.s);
  }

  /** A first route holding the literal key "polyline.encodedPolyline" yields that key's string: lodash reads it before the nested path. */
  method LiteralPolylineKey(waypoints: seq<Coordinate>, apiKey: Option<string>) returns (polyline: Option<string>)
    requires KeyPresent(apiKey)
    ensures polyline == Some("abc")
  {
    var route := Object(map["polyline.encodedPolyline" := Str("abc")]);
    assert DottedPath(POLYLINE_PATH) == "polyline.encodedPolyline";
    var _, p := GetRoutePolyline(waypoints, apiKey, Api.Ok(Object(map["routes" := Array([route])])));
    polyline := p;
  }
}
