/**
 * The older drawer (src/pages/components/DrawerContent.tsx), which holds
 * the same state as DrawerContextProvider itself. It differs in its route
 * data, `{distance: null, time: null}` rather than `null` before a route
 * is known, and in testing the caught value inline; that test is the same
 * expression as isError, so a submission settles as `DrawerContext.Settle`
 * says.
 */
module DrawerContent {
  import opened Wrappers
  import opened Js
  import opened Api
  import DrawerContext
  import DrawerFields
  import LocationInput

  /** `{distance, time}`, each `null` (None) until a route is found. */
  datatype RouteData = RouteData(distance: Option<real>, time: Option<real>)

  const INITIAL_ROUTE_DATA := RouteData(None, None)

  /** A call onSubmit awaits, with the route data, error and loading flag shown meanwhile. */
  datatype Pending = Pending(call: DrawerContext.Call, routeData: RouteData, error: Option<string>, isLoading: bool)

  datatype DrawerState = DrawerState(
    routeData: RouteData,
    error: Option<string>,
    isLoading: bool,
    startingLocation: string,
    dropoffLocation: string,
    inputIsRequiredError: (bool, bool),
    waypoints: Option<seq<Value>>,
    isMobileDrawerOpen: bool)

  /** What onReset leaves: no error, no locations, the initial route data, no waypoints, no flags; loading and the drawer untouched. */
  function Reset(s: DrawerState): (r: DrawerState)
    ensures r.error.None? && r.routeData == INITIAL_ROUTE_DATA && r.waypoints.None?
    ensures r.startingLocation == "" && r.dropoffLocation == "" && r.inputIsRequiredError == (false, false)
    ensures r.isLoading == s.isLoading && r.isMobileDrawerOpen == s.isMobileDrawerOpen
  {
    s.(error := None, startingLocation := "", dropoffLocation := "", routeData := INITIAL_ROUTE_DATA,
       waypoints := None, inputIsRequiredError := (false, false))
  }

  /** Resetting twice leaves the same state as resetting once. */
  lemma ResetIdempotent(s: DrawerState)
    ensures Reset(Reset(s)) == Reset(s)
  {
  }

  class DrawerContent {
    const isMobileViewport: bool
    var routeData: RouteData
    var error: Option<string>
    var isLoading: bool
    var startingLocation: string
    var dropoffLocation: string
    var inputIsRequiredError: (bool, bool)
    /** The parent's state behind the `setWaypoints` prop. */
    var waypoints: Option<seq<Value>>
    /** The parent's state behind the `setIsMobileDrawerOpen` prop. */
    var isMobileDrawerOpen: bool

    function State(): DrawerState
      reads this
    {
      DrawerState(routeData, error, isLoading, startingLocation, dropoffLocation, inputIsRequiredError,
                  waypoints, isMobileDrawerOpen)
    }

    /** Between calls: not loading, and an error only with the initial route data. */
    ghost predicate Valid()
      reads this
    {
      !isLoading && (error.Some? ==> routeData == INITIAL_ROUTE_DATA)
    }

    constructor (isMobileViewport: bool, waypoints: Option<seq<Value>>, isMobileDrawerOpen: bool)
      ensures this.isMobileViewport == isMobileViewport
      ensures State() == DrawerState(INITIAL_ROUTE_DATA, None, false, "", "", (false, false), waypoints, isMobileDrawerOpen)
      ensures Valid()
    {
      this.isMobileViewport := isMobileViewport;
      routeData := INITIAL_ROUTE_DATA;
      error := None;
      isLoading := false;
      startingLocation := "";
      dropoffLocation := "";
      inputIsRequiredError := (false, false);
      this.waypoints := waypoints;
      this.isMobileDrawerOpen := isMobileDrawerOpen;
    }

    /**
     * onSubmit, where `token` and `path` are what the two client calls
     * settle to; each is consulted only if the call is reached, and
     * `pending` lists the calls awaited in order.
     */
    method OnSubmit(token: Try<PostRouteResponse>, path: Try<GetRouteResponse>) returns (pending: seq<Pending>)
      modifies this
      ensures startingLocation == old(startingLocation) && dropoffLocation == old(dropoffLocation)
      // An empty location: flag the empty fields, call nothing, change nothing else.
      ensures old(startingLocation == "" || dropoffLocation == "") ==>
                && inputIsRequiredError == (old(startingLocation) == "", old(dropoffLocation) == "")
                && pending == []
                && routeData == old(routeData) && error == old(error) && isLoading == old(isLoading)
                && waypoints == old(waypoints) && isMobileDrawerOpen == old(isMobileDrawerOpen)
      // Otherwise: both clients are called while the drawer shows loading with no error and the
      // initial route data, the path client only with a token, and the submission settles with
      // loading off.
      ensures old(startingLocation != "" && dropoffLocation != "") ==>
                && inputIsRequiredError == old(inputIsRequiredError)
                && !isLoading
                && |pending| == (if token.Returned? && token.value.TokenSuccess? then 2 else 1)
                && pending[0].call == DrawerContext.TokenCall(startingLocation, dropoffLocation)
                && (|pending| == 2 ==> pending[1].call == DrawerContext.PathCall(token.value.token))
                && (forall i :: 0 <= i < |pending| ==>
                      pending[i].isLoading && pending[i].routeData == INITIAL_ROUTE_DATA && pending[i].error.None?)
                && match DrawerContext.Settle(token, path)
                   case Found(p, d, t) =>
                     && routeData == RouteData(Some(d), Some(t)) && error.None? && waypoints == Some(p)
                     && isMobileDrawerOpen == (if isMobileViewport then false else old(isMobileDrawerOpen))
                   case Failed(m) =>
                     && error == Some(m) && routeData == INITIAL_ROUTE_DATA && waypoints.None?
                     && isMobileDrawerOpen == old(isMobileDrawerOpen)
      ensures old(Valid()) ==> Valid()
    {
      if startingLocation == "" || dropoffLocation == "" {
        inputIsRequiredError := (startingLocation == "", dropoffLocation == "");
        pending := [];
        return;
      }

      routeData := INITIAL_ROUTE_DATA;
      error := None;
      isLoading := true;

      // try
      var caught: Option<Value> := None;
      pending := [Pending(DrawerContext.TokenCall(startingLocation, dropoffLocation), routeData, error, isLoading)];
      match token {
        case Threw(e) =>
          caught := Some(e);
        case Returned(routeTokenResponse) =>
          if routeTokenResponse.Status() == ERROR {
            caught := Some(NewError(routeTokenResponse.errorMessage));
          } else {
            var routeToken := routeTokenResponse.token;
            pending := pending + [Pending(DrawerContext.PathCall(routeToken), routeData, error, isLoading)];
            match path {
              case Threw(e) =>
                caught := Some(e);
              case Returned(routePathResponse) =>
                if routePathResponse.Status() == ERROR {
                  caught := Some(NewError(routePathResponse.errorMessage));
                } else {
                  routeData := RouteData(Some(routePathResponse.totalDistance), Some(routePathResponse.totalTime));
                  waypoints := Some(routePathResponse.path);
                  if isMobileViewport {
                    isMobileDrawerOpen := false;
                  }
                }
            }
          }
      }
      // catch
      if caught.Some? {
        error := Some(DrawerContext.CaughtMessage(caught.value));
        waypoints := None;
      }
      // finally
      isLoading := false;
    }

    /** onReset. */
    method OnReset()
      modifies this
      ensures State() == Reset(old(State()))
    {
      error := None;
      startingLocation := "";
      dropoffLocation := "";
      routeData := INITIAL_ROUTE_DATA;
      waypoints := None;
      inputIsRequiredError := (false, false);
    }

    /**
     * Typing `newValue` into field `f`, through the same bindings as the
     * drawer's current fields: the field takes the value, its flag goes
     * off, the other field and its flag are kept.
     */
    method OnFieldInput(f: DrawerFields.Field, newValue: string) returns (fetchFor: string)
      modifies this
      ensures f.Starting? ==> startingLocation == newValue && dropoffLocation == old(dropoffLocation)
      ensures f.Dropoff? ==> dropoffLocation == newValue && startingLocation == old(startingLocation)
      ensures !DrawerFields.Flag(f, inputIsRequiredError)
      ensures DrawerFields.Flag(DrawerFields.Other(f), inputIsRequiredError) == old(DrawerFields.Flag(DrawerFields.Other(f), inputIsRequiredError))
      ensures routeData == old(routeData) && error == old(error) && isLoading == old(isLoading)
      ensures waypoints == old(waypoints) && isMobileDrawerOpen == old(isMobileDrawerOpen)
      ensures fetchFor == newValue
    {
      var flags := inputIsRequiredError;
      var change := LocationInput.OnInputChange(DrawerFields.Flag(f, flags), newValue);
      if f.Starting? {
        startingLocation := change.setValue;
      } else {
        dropoffLocation := change.setValue;
      }
      if change.clearsFlag {
        inputIsRequiredError := DrawerFields.ClearFlag(f, flags);
      }
      fetchFor := change.fetchFor;
    }
  }
}
