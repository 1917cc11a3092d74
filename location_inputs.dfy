/**
 * The older location field (src/pages/components/LocationInputs.tsx). Its
 * input handler and helper text are the same as LocationInput's and are
 * modelled by `LocationInput.OnInputChange` and `LocationInput.HelperText`;
 * its suggestion fetch differs: an empty value or a failed request leaves
 * the previous suggestions in place.
 */
module LocationInputs {
  import opened Wrappers
  import opened Js
  import Api
  import MapsApi

  class LocationInput {
    const fieldLabel: string
    var autocompleteSuggestions: seq<Value>

    constructor (fieldLabel: string)
      ensures this.fieldLabel == fieldLabel && autocompleteSuggestions == []
    {
      this.fieldLabel := fieldLabel;
      autocompleteSuggestions := [];
    }

    /**
     * fetchAutocompleteSuggestions for `value`; `returned` is its promised
     * value (`[]` for an empty value, `undefined` as None otherwise) and
     * `called` says whether getAutocompleteSuggestions ran. Only a non-null
     * result replaces the list.
     */
    method FetchAutocompleteSuggestions(value: string, apiKey: Option<string>, response: Api.Fetch)
      returns (called: bool, returned: Option<seq<Value>>)
      modifies this
      ensures called <==> value != ""
      ensures value == "" ==> returned == Some([]) && autocompleteSuggestions == old(autocompleteSuggestions)
      ensures value != "" ==> returned.None?
      ensures value != "" ==>
                autocompleteSuggestions == MapsApi.GetAutocompleteSuggestions(apiKey, response).GetOr(old(autocompleteSuggestions))
    {
      if value == "" {
        return false, Some([]);
      }
      var autoCompleteSuggestions := MapsApi.GetAutocompleteSuggestions(apiKey, response);
      if autoCompleteSuggestions.Some? {
        autocompleteSuggestions := autoCompleteSuggestions.value;
      }
      called, returned := true, None;
    }
  }
}
