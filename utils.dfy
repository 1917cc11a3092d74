/** The error-like test used to pick the message a caught value yields (src/utils/utils.ts). */
module Utils {
  import opened Js

  /**
   * `isError(v)`: `!!v && typeof v === "object" && "message" in v &&
   * typeof v.message === "string"`. Total: it never throws, because `in` is
   * only reached once `v` is known to be a non-null object.
   */
  function IsError(v: Value): (r: bool)
    ensures r <==> v.Object? && "message" in v.props && v.props["message"].Str?
  {
    Truthy(v) && TypeOf(v) == "object" && In("message", v) == Returned(true)
    && TypeOf(Get(v, "message")) == "string"
  }

  /** The individual cases of the classification. */
  lemma IsErrorCases(v: Value, m: string, props: map<string, Value>)
    ensures !IsError(Null) && !IsError(Undefined)
    ensures TypeOf(v) != "object" ==> !IsError(v)
    ensures !IsError(Str(m))
    ensures "message" !in props ==> !IsError(Object(props))
    ensures "message" in props && !props["message"].Str? ==> !IsError(Object(props))
    ensures IsError(Object(props["message" := Str(m)]))
    ensures IsError(Object(map["message" := Str("")]))
    ensures IsError(NewError(m))
  {
  }
}
