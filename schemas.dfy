/**
 * The response shapes of src/utils/schemas.ts, read as JSON Schema
 * (draft-07) documents: a validator for the keywords they use, the four
 * schemas, and what each one accepts.
 */
module Schemas {
  import opened Wrappers
  import opened Js

  /** The primitive types of the `type` keyword (section 6.1.1 of JSON Schema Validation, draft-07). */
  datatype JsonType = ObjectType | ArrayType | StringType | NumberType | BooleanType | NullType

  /** One entry of `properties`. */
  datatype Property = Property(name: string, schema: Schema)

  /** The `items` keyword: absent, one schema for every element, or one schema per position. */
  datatype Items = AnyItems | EachItem(schema: Schema) | ItemTuple(schemas: seq<Schema>)

  /**
   * A schema: the boolean schemas `true`/`false`, or an object of keywords.
   * `additionalProperties` is a boolean here (absent means true), `minItems`
   * absent means 0.
   */
  datatype Schema =
    | Always(accepts: bool)
    | Keywords(typ: Option<JsonType>, properties: seq<Property>, required: seq<string>,
               additionalProperties: bool, items: Items, minItems: nat, maxItems: Option<nat>)

  /** The instance is of the given primitive type; `undefined` and functions are not JSON and match none. */
  predicate HasType(v: Value, t: JsonType) {
    match t
    case ObjectType => v.Object?
    case ArrayType => v.Array?
    case StringType => v.Str?
    case NumberType => v.Number?
    case BooleanType => v.Boolean?
    case NullType => v.Null?
  }

  /** The names listed under `properties`. */
  function Names(properties: seq<Property>): set<string> {
    set i | 0 <= i < |properties| :: properties[i].name
  }

  /**
   * `v` is valid against `s`. Object keywords (sections 6.5.3 `required`,
   * 6.5.4 `properties`, 6.5.6 `additionalProperties`) apply only to objects
   * and array keywords (6.4.1 `items`, 6.4.3 `maxItems`, 6.4.4 `minItems`)
   * only to arrays; with positional `items`, elements beyond the list are
   * unconstrained.
   */
  predicate Valid(s: Schema, v: Value)
    decreases s
  {
    match s
    case Always(accepts) => accepts
    case Keywords(typ, properties, required, additionalProperties, items, minItems, maxItems) =>
      && (typ.None? || HasType(v, typ.value))
      && (v.Object? ==>
            && (forall k :: k in required ==> k in v.props)
            && (forall i :: 0 <= i < |properties| && properties[i].name in v.props ==>
                  Valid(properties[i].schema, v.props[properties[i].name]))
            && (!additionalProperties ==> v.props.Keys <= Names(properties)))
      && (v.Array? ==>
            && minItems <= |v.items|
            && (maxItems.None? || |v.items| <= maxItems.value)
            && match items
               case AnyItems => true
               case EachItem(e) => forall j :: 0 <= j < |v.items| ==> Valid(e, v.items[j])
               case ItemTuple(ts) => forall j :: 0 <= j < |ts| && j < |v.items| ==> Valid(ts[j], v.items[j]))
  }

  /** A schema that only states a type. */
  function TypeOnly(t: JsonType): Schema {
    Keywords(Some(t), [], [], true, AnyItems, 0, None)
  }

  /** An object schema with the given properties and required keys. */
  function ObjectSchema(properties: seq<Property>, required: seq<string>, additionalProperties: bool): Schema {
    Keywords(Some(ObjectType), properties, required, additionalProperties, AnyItems, 0, None)
  }

  /** `getRouteTokenSchema`. */
  function GetRouteTokenSchema(): Schema {
    ObjectSchema([Property("token", TypeOnly(StringType))], ["token"], false)
  }

  /** The schema of one `path` element: an array of exactly two strings. */
  function CoordinateSchema(): Schema {
    Keywords(Some(ArrayType), [], [], true, ItemTuple([TypeOnly(StringType), TypeOnly(StringType)]), 2, Some(2))
  }

  /** `getRoutePathByTokenSchema`. */
  function GetRoutePathByTokenSchema(): Schema {
    ObjectSchema(
      [ Property("status", TypeOnly(StringType)),
        Property("path", Keywords(Some(ArrayType), [], [], true, EachItem(CoordinateSchema()), 1, None)),
        Property("total_distance", TypeOnly(NumberType)),
        Property("total_time", TypeOnly(NumberType)) ],
      ["status", "path", "total_distance", "total_time"],
      false)
  }

  /**
   * The schema of one suggestion. The `additionalProperties: false` written
   * among its `properties` declares a property NAMED "additionalProperties"
   * whose schema is `false`; the item's own additionalProperties stays true.
   */
  function SuggestionSchema(): Schema {
    ObjectSchema(
      [ Property("placePrediction",
          ObjectSchema(
            [Property("text", ObjectSchema([Property("text", TypeOnly(StringType))], ["text"], true))],
            ["text"], true)),
        Property("additionalProperties", Always(false)) ],
      ["placePrediction"], true)
  }

  /** `getAutocompleteSuggestionsSchema`. */
  function GetAutocompleteSuggestionsSchema(): Schema {
    ObjectSchema(
      [Property("suggestions", Keywords(Some(ArrayType), [], [], true, EachItem(SuggestionSchema()), 0, None))],
      ["suggestions"], true)
  }

  /** The schema of one route. */
  function RouteSchema(): Schema {
    ObjectSchema(
      [Property("polyline", ObjectSchema([Property("encodedPolyline", TypeOnly(StringType))], ["encodedPolyline"], true))],
      ["polyline"], true)
  }

  /** `getRoutePolylineSchema`. */
  function GetRoutePolylineSchema(): Schema {
    ObjectSchema(
      [Property("routes", Keywords(Some(ArrayType), [], [], true, EachItem(RouteSchema()), 1, None))],
      ["routes"], true)
  }

  /** An element of `path`: a pair of strings. */
  predicate IsCoordinate(v: Value) {
    v.Array? && |v.items| == 2 && v.items[0].Str? && v.items[1].Str?
  }

  /** A suggestion whose `placePrediction.text.text` is a string (reached through objects only) and which has no key "additionalProperties". */
  predicate IsSuggestion(v: Value) {
    v.Object? && GetPath(v, ["placePrediction", "text", "text"]).Str? && "additionalProperties" !in v.props
  }

  /** A route whose `polyline.encodedPolyline` is a string. */
  predicate IsRoute(v: Value) {
    v.Object? && GetPath(v, ["polyline", "encodedPolyline"]).Str?
  }

  lemma TypeOnlyAccepts(t: JsonType, v: Value)
    ensures Valid(TypeOnly(t), v) <==> HasType(v, t)
  {
  }

  /** The token schema accepts exactly the objects whose only key is `token`, holding a string. */
  lemma TokenSchemaAccepts(v: Value)
    ensures Valid(GetRouteTokenSchema(), v) <==> v.Object? && v.props.Keys == {"token"} && v.props["token"].Str?
  {
    var props := [Property("token", TypeOnly(StringType))];
    assert Names(props) == {"token"} by {
      assert props[0].name == "token";
    }
  }

  lemma CoordinateSchemaAccepts(v: Value)
    ensures Valid(CoordinateSchema(), v) <==> IsCoordinate(v)
  {
    if v.Array? && |v.items| == 2 {
      TypeOnlyAccepts(StringType, v.items[0]);
      TypeOnlyAccepts(StringType, v.items[1]);
    }
  }

  /** The keys the path schema allows. */
  const PATH_KEYS: set<string> := {"status", "path", "total_distance", "total_time"}

  /** The schema of `path`. */
  function PathArraySchema(): Schema {
    Keywords(Some(ArrayType), [], [], true, EachItem(CoordinateSchema()), 1, None)
  }

  /** A non-empty array of coordinates. */
  predicate IsPath(v: Value) {
    v.Array? && |v.items| >= 1 && forall j :: 0 <= j < |v.items| ==> IsCoordinate(v.items[j])
  }

  lemma PathArraySchemaAccepts(v: Value)
    ensures Valid(PathArraySchema(), v) <==> IsPath(v)
  {
    if v.Array? {
      forall j | 0 <= j < |v.items| {
        CoordinateSchemaAccepts(v.items[j]);
      }
    }
  }

  /** Validity against an object schema with four properties, one property at a time. */
  lemma FourPropertiesValid(props: seq<Property>, v: Value)
    requires |props| == 4 && v.Object?
    ensures (forall i :: 0 <= i < |props| && props[i].name in v.props ==> Valid(props[i].schema, v.props[props[i].name]))
            <==> (forall i :: i in {0, 1, 2, 3} ==> (props[i].name in v.props ==> Valid(props[i].schema, v.props[props[i].name])))
  {
  }

  /**
   * The path schema accepts exactly the objects with a string `status`, a
   * non-empty `path` of string pairs and numeric `total_distance` and
   * `total_time`, and no other key.
   */
  lemma PathSchemaAccepts(v: Value)
    ensures Valid(GetRoutePathByTokenSchema(), v) <==>
              && v.Object? && v.props.Keys == PATH_KEYS
              && v.props["status"].Str? && IsPath(v.props["path"])
              && v.props["total_distance"].Number? && v.props["total_time"].Number?
  {
    var props := GetRoutePathByTokenSchema().properties;
    assert Names(props) == PATH_KEYS by {
      assert props[0].name == "status" && props[1].name == "path";
      assert props[2].name == "total_distance" && props[3].name == "total_time";
    }
    if v.Object? && PATH_KEYS <= v.props.Keys {
      PathArraySchemaAccepts(v.props["path"]);
      FourPropertiesValid(props, v);
    }
  }

  /** lodash `get` along a path through objects, one key at a time. */
  lemma GetPathStep(v: Value, path: seq<string>)
    requires v.Object? && path != []
    ensures GetPath(v, path) == GetPath(Get(v, path[0]), path[1..])
  {
  }

  /** lodash `get` of a one-key path on an object is the property. */
  lemma GetPathOne(v: Value, key: string)
    requires v.Object?
    ensures GetPath(v, [key]) == Get(v, key)
  {
    assert [key][1..] == [];
  }

  /** lodash `get` of a path through anything but an object finds nothing. */
  lemma GetPathNonObject(v: Value, path: seq<string>)
    requires !v.Object? && path != []
    ensures GetPath(v, path) == Undefined
    decreases |path|
  {
    if !(v.Undefined? || v.Null?) {
      assert Get(v, path[0]) == Undefined;
      if |path| > 1 {
        GetPathNonObject(Undefined, path[1..]);
      }
    }
  }

  /** The schema of `placePrediction.text`. */
  function TextSchema(): Schema {
    ObjectSchema([Property("text", TypeOnly(StringType))], ["text"], true)
  }

  /** The schema of `placePrediction`. */
  function PlacePredictionSchema(): Schema {
    ObjectSchema([Property("text", TextSchema())], ["text"], true)
  }

  lemma TextSchemaAccepts(t: Value)
    ensures Valid(TextSchema(), t) <==> t.Object? && GetPath(t, ["text"]).Str?
  {
    var props := TextSchema().properties;
    assert props[0].name == "text" && props[0].schema == TypeOnly(StringType);
    if t.Object? {
      GetPathOne(t, "text");
      if "text" in t.props {
        TypeOnlyAccepts(StringType, t.props["text"]);
      }
    }
  }

  lemma PlacePredictionSchemaAccepts(p: Value)
    ensures Valid(PlacePredictionSchema(), p) <==> p.Object? && GetPath(p, ["text", "text"]).Str?
  {
    var props := PlacePredictionSchema().properties;
    assert props[0].name == "text" && props[0].schema == TextSchema();
    if p.Object? {
      GetPathStep(p, ["text", "text"]);
      assert ["text", "text"][1..] == ["text"];
      if "text" in p.props {
        TextSchemaAccepts(p.props["text"]);
        if !p.props["text"].Object? {
          GetPathNonObject(p.props["text"], ["text"]);
        }
      }
    }
  }

  /**
   * A suggestion item is valid exactly when its `placePrediction.text.text`
   * is a string reached through objects and it has no key named
   * "additionalProperties"; any other extra key is allowed.
   */
  lemma SuggestionSchemaAccepts(w: Value)
    ensures Valid(SuggestionSchema(), w) <==> IsSuggestion(w)
  {
    var props := SuggestionSchema().properties;
    assert props[0].name == "placePrediction" && props[1].name == "additionalProperties";
    assert props[0].schema == PlacePredictionSchema();
    if w.Object? {
      GetPathStep(w, ["placePrediction", "text", "text"]);
      assert ["placePrediction", "text", "text"][1..] == ["text", "text"];
      if "placePrediction" in w.props {
        var p := w.props["placePrediction"];
        PlacePredictionSchemaAccepts(p);
        if !p.Object? {
          GetPathNonObject(p, ["text", "text"]);
        }
      }
      assert (forall i :: 0 <= i < |props| && props[i].name in w.props ==> Valid(props[i].schema, w.props[props[i].name]))
             <==> ("placePrediction" in w.props ==> Valid(PlacePredictionSchema(), w.props["placePrediction"]))
                  && "additionalProperties" !in w.props;
    }
  }

  /** The autocomplete schema accepts exactly the objects whose `suggestions` is an array of valid suggestion items. */
  lemma AutocompleteSchemaAccepts(v: Value)
    ensures Valid(GetAutocompleteSuggestionsSchema(), v) <==>
              HasArrayField(v, "suggestions")
              && forall j :: 0 <= j < |v.props["suggestions"].items| ==> IsSuggestion(v.props["suggestions"].items[j])
  {
    var props := GetAutocompleteSuggestionsSchema().properties;
    assert props[0].name == "suggestions";
    if v.Object? && "suggestions" in v.props && v.props["suggestions"].Array? {
      var items := v.props["suggestions"].items;
      forall j | 0 <= j < |items| {
        SuggestionSchemaAccepts(items[j]);
      }
    }
  }

  lemma RouteSchemaAccepts(w: Value)
    ensures Valid(RouteSchema(), w) <==> IsRoute(w)
  {
    var props := RouteSchema().properties;
    assert props[0].name == "polyline";
    if w.Object? {
      GetPathStep(w, ["polyline", "encodedPolyline"]);
      assert ["polyline", "encodedPolyline"][1..] == ["encodedPolyline"];
      if "polyline" in w.props {
        var p := w.props["polyline"];
        var inner := props[0].schema;
        assert inner.properties[0].name == "encodedPolyline";
        if p.Object? {
          GetPathOne(p, "encodedPolyline");
          if "encodedPolyline" in p.props {
            TypeOnlyAccepts(StringType, p.props["encodedPolyline"]);
          }
        } else {
          GetPathNonObject(p, ["encodedPolyline"]);
        }
      }
    }
  }

  /**
   * The polyline schema accepts exactly the objects whose `routes` is a
   * non-empty array of routes with a string `polyline.encodedPolyline`;
   * extra keys are allowed at the top and in each route.
   */
  lemma PolylineSchemaAccepts(v: Value)
    ensures Valid(GetRoutePolylineSchema(), v) <==>
              && HasArrayField(v, "routes") && |v.props["routes"].items| >= 1
              && forall j :: 0 <= j < |v.props["routes"].items| ==> IsRoute(v.props["routes"].items[j])
  {
    var props := GetRoutePolylineSchema().properties;
    assert props[0].name == "routes";
    if v.Object? && "routes" in v.props && v.props["routes"].Array? {
      var items := v.props["routes"].items;
      forall j | 0 <= j < |items| {
        RouteSchemaAccepts(items[j]);
      }
    }
  }
}
