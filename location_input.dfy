/**
 * One location text field with place suggestions
 * (src/pages/components/LocationInput.tsx). The field's value and its
 * required flag belong to the caller and are reached through the
 * `setValue` and `clearIsRequiredError` props; the suggestion list is the
 * component's own state.
 */
module LocationInput {
  import opened Wrappers
  import opened Js
  import Api
  import MapsApi

  /** The effect of one `onInputChange`: the value passed to `setValue`, the value the debounced fetch is scheduled for, and whether `clearIsRequiredError` is called. */
  datatype InputChange = InputChange(setValue: string, fetchFor: string, clearsFlag: bool)

  /** onInputChange: the new value goes unchanged to `setValue` and to the debounced fetch; the flag is cleared exactly when it is set, whatever the value. */
  function OnInputChange(isRequiredError: bool, newValue: string): (c: InputChange)
    ensures c.setValue == newValue && c.fetchFor == newValue
    ensures c.clearsFlag <==> isRequiredError
  {
    InputChange(newValue, newValue, isRequiredError)
  }

  const EMPTY_SUFFIX := " can not be empty"

  /** The text field's helper text: a complaint naming the field (its `label` prop) when flagged, nothing otherwise. */
  function HelperText(fieldLabel: string, isRequiredError: bool): (t: string)
    ensures t == "" <==> !isRequiredError
    ensures isRequiredError ==> |t| == |fieldLabel| + |EMPTY_SUFFIX| && t[..|fieldLabel|] == fieldLabel && t[|fieldLabel|..] == EMPTY_SUFFIX
  {
    if isRequiredError then fieldLabel + EMPTY_SUFFIX else ""
  }

  class LocationInput {
    const fieldLabel: string
    var autocompleteSuggestions: seq<Value>

    constructor (fieldLabel: string)
      ensures this.fieldLabel == fieldLabel && autocompleteSuggestions == []
    {
      this.fieldLabel := fieldLabel;
      autocompleteSuggestions := [];
    }

    /** The options the autocomplete offers. */
    function Options(): seq<Value>
      reads this
    {
      autocompleteSuggestions
    }

    /**
     * The debounced handler when it fires for `value`, with `apiKey` and
     * `response` standing for the suggestion request's environment and
     * answer; `called` says whether getAutocompleteSuggestions ran. The
     * options offered are replaced every time, by `[]` for an empty value
     * or a failed request. Every option is a truthy place text unless a
     * suggestion carried the literal key "placePrediction.text.text".
     */
    method DebouncedFetchAutocompleteSuggestions(value: string, apiKey: Option<string>, response: Api.Fetch)
      returns (called: bool)
      modifies this
      ensures called <==> value != ""
      ensures value == "" ==> Options() == []
      ensures value != "" ==> Options() == MapsApi.GetAutocompleteSuggestions(apiKey, response).GetOr([])
      ensures response.Ok? && HasArrayField(response.body, "suggestions")
              && MapsApi.PlainSuggestions(response.body.props["suggestions"].items) ==>
                forall j :: 0 <= j < |Options()| ==> Truthy(Options()[j])
    {
      if value == "" {
        autocompleteSuggestions := [];
        return false;
      }
      var result := MapsApi.GetAutocompleteSuggestions(apiKey, response);
      autocompleteSuggestions := result.GetOr([]);
      called := true;
    }
  }
}
