/**
 * How the declarative shapes of src/utils/schemas.ts relate to the manual
 * checks that src/utils/api.ts and src/utils/mapsApi.ts actually perform.
 * The schemas are not wired into the clients. A body a schema accepts
 * passes the matching manual check, except a path body whose status is
 * "in progress" (the client polls again) and a suggestion or route that
 * also carries a literal dotted key, which lodash `get` reads first. The
 * manual checks also accept bodies the schemas reject (extra keys, an
 * empty path, no status).
 */
module Conformance {
  import opened Wrappers
  import opened Js
  import opened Schemas
  import Api
  import MapsApi

  /** A body the token schema accepts makes the token client succeed with its token. */
  lemma TokenSchemaImpliesTokenSuccess(origin: string, destination: string, body: Value)
    requires Valid(GetRouteTokenSchema(), body)
    ensures Api.GetRouteToken(origin, destination, Api.Ok(body)) == Api.TokenSuccess(body.props["token"].s)
  {
    TokenSchemaAccepts(body);
  }

  /** The token client accepts an extra key the token schema forbids. */
  lemma TokenClientLaxerThanSchema(origin: string, destination: string)
    ensures var body := Object(map["token" := Str("validToken"), "expiresIn" := Number(60.0)]);
            && !Valid(GetRouteTokenSchema(), body)
            && Api.GetRouteToken(origin, destination, Api.Ok(body)) == Api.TokenSuccess("validToken")
  {
    var body := Object(map["token" := Str("validToken"), "expiresIn" := Number(60.0)]);
    TokenSchemaAccepts(body);
    assert "expiresIn" in body.props.Keys;
  }

  /**
   * A body the path schema accepts, whose status is not "in progress", ends
   * the poll in success with its path and totals.
   */
  lemma PathSchemaImpliesPathSuccess(body: Value)
    requires Valid(GetRoutePathByTokenSchema(), body)
    requires body.props["status"] != Str("in progress")
    ensures !Api.InProgress(Api.Ok(body))
    ensures Api.Respond(Api.Ok(body)) ==
              Api.PathSuccess(body.props["path"].items, body.props["total_distance"].n, body.props["total_time"].n)
  {
    PathSchemaAccepts(body);
  }

  /** The path client accepts an empty path and no status, both of which the path schema rejects. */
  lemma PathClientLaxerThanSchema()
    ensures var body := Object(map["path" := Array([]), "total_distance" := Number(0.0), "total_time" := Number(0.0)]);
            && !Valid(GetRoutePathByTokenSchema(), body)
            && !Api.InProgress(Api.Ok(body))
            && Api.Respond(Api.Ok(body)) == Api.PathSuccess([], 0.0, 0.0)
  {
    var body := Object(map["path" := Array([]), "total_distance" := Number(0.0), "total_time" := Number(0.0)]);
    PathSchemaAccepts(body);
    assert "status" !in body.props && "status" in PATH_KEYS;
    assert body.props.Keys != PATH_KEYS;
    assert !Api.InProgress(Api.Ok(body));
    assert Api.HasRouteShape(body);
  }

  /**
   * With a key, a body the autocomplete schema accepts yields a list of
   * strings. They are non-empty when no suggestion carries the literal key
   * "placePrediction.text.text", which the schema does not forbid.
   */
  lemma AutocompleteSchemaImpliesStrings(apiKey: Option<string>, body: Value)
    requires MapsApi.KeyPresent(apiKey)
    requires Valid(GetAutocompleteSuggestionsSchema(), body)
    ensures var r := MapsApi.GetAutocompleteSuggestions(apiKey, Api.Ok(body));
            && r.Some?
            && forall j :: 0 <= j < |r.value| ==> r.value[j].Str?
    ensures var r := MapsApi.GetAutocompleteSuggestions(apiKey, Api.Ok(body));
            r.Some? && HasArrayField(body, "suggestions") && MapsApi.PlainSuggestions(body.props["suggestions"].items) ==>
              forall j :: 0 <= j < |r.value| ==> r.value[j].s != ""
  {
    AutocompleteSchemaAccepts(body);
    ValidSuggestionsRead(body.props["suggestions"].items);
  }

  /** Suggestions the schema accepts are all read without a throw, and each read is a string. */
  lemma ValidSuggestionsRead(items: seq<Value>)
    requires forall i :: 0 <= i < |items| ==> IsSuggestion(items[i])
    ensures MapsApi.SuggestionTexts(items).Some?
    ensures forall j :: 0 <= j < |MapsApi.SuggestionTexts(items).value| ==> MapsApi.SuggestionTexts(items).value[j].Str?
  {
    var kept := MapsApi.WithText(items);
    forall j | 0 <= j < |kept|
      ensures MapsApi.MapText(kept[j]).Returned? && MapsApi.MapText(kept[j]).value.Str?
    {
      assert kept[j] in items;
      var i :| 0 <= i < |items| && items[i] == kept[j];
      assert IsSuggestion(items[i]);
      assert GetPath(kept[j], MapsApi.TEXT_PATH).Str?;
    }
  }

  /** The suggestion whose literal dotted key says "x" while its nested text is empty. */
  function ShadowedSuggestion(): Value {
    Object(map[
      "placePrediction.text.text" := Str("x"),
      "placePrediction" := Object(map["text" := Object(map["text" := Str("")])])])
  }

  /** The autocomplete schema accepts a suggestion with an empty text and a literal dotted key, and the client then returns that empty text. */
  lemma SchemaValidEmptyText(apiKey: Option<string>)
    requires MapsApi.KeyPresent(apiKey)
    ensures Valid(GetAutocompleteSuggestionsSchema(), Object(map["suggestions" := Array([ShadowedSuggestion()])]))
    ensures MapsApi.GetAutocompleteSuggestions(apiKey, MapsApi.OneSuggestion(ShadowedSuggestion())) == Some([Str("")])
  {
    var s := ShadowedSuggestion();
    var body := Object(map["suggestions" := Array([s])]);
    SuggestionSchemaAccepts(s);
    assert GetPath(s, MapsApi.TEXT_PATH) == Str("");
    assert IsSuggestion(s);
    AutocompleteSchemaAccepts(body);
    MapsApi.DottedKeyShadowsText(apiKey);
  }

  /** The first route carries the literal key "polyline.encodedPolyline". */
  predicate FirstRouteDotted(body: Value) {
    && HasArrayField(body, "routes") && |body.props["routes"].items| > 0
    && body.props["routes"].items[0].Object? && "polyline.encodedPolyline" in body.props["routes"].items[0].props
  }

  /** The first route's `get(route, "polyline.encodedPolyline")`, when the body has a first route and that is a string. */
  function FirstRoutePolyline(body: Value): Option<string> {
    if HasArrayField(body, "routes") && |body.props["routes"].items| > 0
       && LodashGet(body.props["routes"].items[0], MapsApi.POLYLINE_PATH).Str?
    then Some(LodashGet(body.props["routes"].items[0], MapsApi.POLYLINE_PATH).s)
    else None
  }

  /**
   * With a key, a body the polyline schema accepts yields the first route's
   * polyline as lodash reads it, and always a polyline unless that route
   * also carries the literal key "polyline.encodedPolyline".
   */
  method PolylineSchemaImpliesPolyline(waypoints: seq<MapsApi.Coordinate>, apiKey: Option<string>, body: Value)
    returns (polyline: Option<string>)
    requires MapsApi.KeyPresent(apiKey)
    requires Valid(GetRoutePolylineSchema(), body)
    ensures polyline == FirstRoutePolyline(body)
    ensures !FirstRouteDotted(body) ==> polyline.Some?
  {
    PolylineSchemaAccepts(body);
    var route := body.props["routes"].items[0];
    assert IsRoute(route);
    assert DottedPath(MapsApi.POLYLINE_PATH) == "polyline.encodedPolyline";
    var _, p := MapsApi.GetRoutePolyline(waypoints, apiKey, Api.Ok(body));
    polyline := p;
  }

  /** A route with a string nested polyline and a number under the literal dotted key. */
  function DottedNumberRoute(): Value {
    Object(map[
      "polyline" := Object(map["encodedPolyline" := Str("abc")]),
      "polyline.encodedPolyline" := Number(1.0)])
  }

  /** Walking `DottedNumberRoute()` key by key reaches the string; lodash reads the number under the literal key first. */
  lemma DottedNumberRouteReads()
    ensures GetPath(DottedNumberRoute(), MapsApi.POLYLINE_PATH) == Str("abc")
    ensures LodashGet(DottedNumberRoute(), MapsApi.POLYLINE_PATH) == Number(1.0)
  {
    assert DottedPath(MapsApi.POLYLINE_PATH) == "polyline.encodedPolyline";
  }

  /** The polyline schema accepts a body whose only route is `DottedNumberRoute()`. */
  lemma DottedNumberRouteValid()
    ensures Valid(GetRoutePolylineSchema(), Object(map["routes" := Array([DottedNumberRoute()])]))
  {
    var route := DottedNumberRoute();
    var body := Object(map["routes" := Array([route])]);
    DottedNumberRouteReads();
    RouteSchemaAccepts(route);
    assert IsRoute(route);
    assert body.props["routes"].items == [route];
    PolylineSchemaAccepts(body);
  }

  /** A schema-valid route whose literal dotted key holds a number yields no polyline, although its nested one is a string. */
  method SchemaValidDottedPolylineIsNull(waypoints: seq<MapsApi.Coordinate>, apiKey: Option<string>)
    returns (polyline: Option<string>)
    requires MapsApi.KeyPresent(apiKey)
    ensures polyline.None?
  {
    var body := Object(map["routes" := Array([DottedNumberRoute()])]);
    DottedNumberRouteValid();
    DottedNumberRouteReads();
    var _, p := MapsApi.GetRoutePolyline(waypoints, apiKey, Api.Ok(body));
    polyline := p;
  }
}
