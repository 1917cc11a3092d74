/**
 * The drawer's state holder (src/pages/context/DrawerContext.tsx): the
 * form's two locations and required-field flags, and the loading, error and
 * route-data state that `onSubmit` drives through the token → path chain.
 */
module DrawerContext {
  import opened Wrappers
  import opened Js
  import opened Api
  import Utils

  /** `RouteData` when not null. */
  datatype RouteData = RouteData(distance: real, time: real)

  /** The state fields of `ContextValue` (its callbacks are the methods of DrawerContextProvider). */
  datatype ContextValue = ContextValue(
    isMobileViewport: bool,
    routeData: Option<RouteData>,
    startingLocation: string,
    dropoffLocation: string,
    inputIsRequiredError: (bool, bool),
    error: Option<string>,
    isLoading: bool)

  /** `defaultContextValue`, the value seen without a provider. */
  function DefaultContextValue(): (v: ContextValue)
    ensures !v.isMobileViewport && !v.isLoading && v.routeData.None? && v.error.None?
    ensures v.startingLocation == "" && v.dropoffLocation == "" && v.inputIsRequiredError == (false, false)
  {
    ContextValue(false, None, "", "", (false, false), None, false)
  }

  /** The message shown for an unexpected caught value. */
  const DEFAULT_ERROR := "Failed to fetch route data"

  /** The catch block's choice: the caught value's message when it is error-like, otherwise the default. */
  function CaughtMessage(caught: Value): (m: string)
    ensures Utils.IsError(caught) ==> m == caught.props["message"].s
    ensures !Utils.IsError(caught) ==> m == DEFAULT_ERROR
  {
    if Utils.IsError(caught) then Get(caught, "message").s else DEFAULT_ERROR
  }

  /** How the token → path chain of onSubmit's try block ends. */
  datatype Settlement = Found(path: seq<Value>, distance: real, time: real) | Failed(message: string)

  /**
   * The try block of onSubmit, given what each client call settles to: the
   * route found, or the value thrown. An `ERROR` response is rethrown as
   * `new Error(errorMessage)`, and the path client is reached only with a
   * token.
   */
  function SubmitTry(token: Try<PostRouteResponse>, path: Try<GetRouteResponse>): Try<(seq<Value>, real, real)> {
    match token
    case Threw(e) => Threw(e)
    case Returned(tokenResponse) =>
      if tokenResponse.Status() == ERROR then Threw(NewError(tokenResponse.errorMessage))
      else
        match path
        case Threw(e) => Threw(e)
        case Returned(pathResponse) =>
          if pathResponse.Status() == ERROR then Threw(NewError(pathResponse.errorMessage))
          else Returned((pathResponse.path, pathResponse.totalDistance, pathResponse.totalTime))
  }

  /**
   * How a submission settles. A client's `ERROR` surfaces its own message
   * unchanged (the rethrown `Error` passes the error-like test), and after a
   * token error the path outcome is irrelevant; anything else a client
   * throws is classified; success carries the path and the totals.
   */
  function Settle(token: Try<PostRouteResponse>, path: Try<GetRouteResponse>): (s: Settlement)
    ensures token.Returned? && token.value.TokenError? ==> s == Failed(token.value.errorMessage)
    ensures token.Threw? ==> s == Failed(CaughtMessage(token.thrown))
    ensures token.Returned? && token.value.TokenSuccess? ==>
              match path
              case Threw(e) => s == Failed(CaughtMessage(e))
              case Returned(PathError(m)) => s == Failed(m)
              case Returned(PathSuccess(p, d, t)) => s == Found(p, d, t)
  {
    match SubmitTry(token, path)
    case Returned((p, d, t)) => Found(p, d, t)
    case Threw(error) => Failed(CaughtMessage(error))
  }

  /** A client call onSubmit awaits. */
  datatype Call = TokenCall(origin: string, destination: string) | PathCall(token: string)

  /** A call onSubmit awaits, with the route data, error and loading flag the context shows meanwhile. */
  datatype Pending = Pending(call: Call, routeData: Option<RouteData>, error: Option<string>, isLoading: bool)

  /** Every mutable field: the provider's own state and the parent's waypoints and mobile-drawer state behind its setter props. */
  datatype ProviderState = ProviderState(
    routeData: Option<RouteData>,
    error: Option<string>,
    isLoading: bool,
    startingLocation: string,
    dropoffLocation: string,
    inputIsRequiredError: (bool, bool),
    waypoints: Option<seq<Value>>,
    isMobileDrawerOpen: bool)

  /** What onReset leaves: no error, no locations, no route, no waypoints, no flags; loading and the drawer untouched. */
  function Reset(s: ProviderState): (r: ProviderState)
    ensures r.error.None? && r.routeData.None? && r.waypoints.None?
    ensures r.startingLocation == "" && r.dropoffLocation == "" && r.inputIsRequiredError == (false, false)
    ensures r.isLoading == s.isLoading && r.isMobileDrawerOpen == s.isMobileDrawerOpen
  {
    s.(error := None, startingLocation := "", dropoffLocation := "", routeData := None,
       waypoints := None, inputIsRequiredError := (false, false))
  }

  /** Resetting twice leaves the same state as resetting once. */
  lemma ResetIdempotent(s: ProviderState)
    ensures Reset(Reset(s)) == Reset(s)
  {
  }

  class DrawerContextProvider {
    const isMobileViewport: bool
    var routeData: Option<RouteData>
    var error: Option<string>
    var isLoading: bool
    var startingLocation: string
    var dropoffLocation: string
    var inputIsRequiredError: (bool, bool)
    /** The parent's state behind the `setWaypoints` prop. */
    var waypoints: Option<seq<Value>>
    /** The parent's state behind the `setIsMobileDrawerOpen` prop. */
    var isMobileDrawerOpen: bool

    function State(): ProviderState
      reads this
    {
      ProviderState(routeData, error, isLoading, startingLocation, dropoffLocation, inputIsRequiredError,
            waypoints, isMobileDrawerOpen)
    }

    /** The context value the provider exposes. */
    function Value(): ContextValue
      reads this
    {
      ContextValue(isMobileViewport, routeData, startingLocation, dropoffLocation, inputIsRequiredError,
                   error, isLoading)
    }

    /** Between calls: not loading, and never an error and route data at once. */
    ghost predicate Valid()
      reads this
    {
      !isLoading && !(error.Some? && routeData.Some?)
    }

    /** Mounting: every state field starts as in defaultContextValue. */
    constructor (isMobileViewport: bool, waypoints: Option<seq<Value>>, isMobileDrawerOpen: bool)
      ensures Value() == DefaultContextValue().(isMobileViewport := isMobileViewport)
      ensures this.waypoints == waypoints && this.isMobileDrawerOpen == isMobileDrawerOpen
      ensures Valid()
    {
      this.isMobileViewport := isMobileViewport;
      routeData := None;
      error := None;
      isLoading := false;
      startingLocation := "";
      dropoffLocation := "";
      inputIsRequiredError := (false, false);
      this.waypoints := waypoints;
      this.isMobileDrawerOpen := isMobileDrawerOpen;
    }

    /**
     * onSubmit, where `token` and `path` are what the two client calls
     * settle to; each is consulted only if the call is reached, and
     * `pending` lists the calls awaited in order.
     */
    method OnSubmit(token: Try<PostRouteResponse>, path: Try<GetRouteResponse>) returns (pending: seq<Pending>)
      modifies this
      ensures startingLocation == old(startingLocation) && dropoffLocation == old(dropoffLocation)
      // An empty location: flag the empty fields, call nothing, change nothing else.
      ensures old(startingLocation == "" || dropoffLocation == "") ==>
                && inputIsRequiredError == (old(startingLocation) == "", old(dropoffLocation) == "")
                && pending == []
                && routeData == old(routeData) && error == old(error) && isLoading == old(isLoading)
                && waypoints == old(waypoints) && isMobileDrawerOpen == old(isMobileDrawerOpen)
      // Otherwise: both clients are called while the context shows loading with no error and no
      // route, the path client only with a token, and the submission settles with loading off.
      ensures old(startingLocation != "" && dropoffLocation != "") ==>
                && inputIsRequiredError == old(inputIsRequiredError)
                && !isLoading
                && !(error.Some? && routeData.Some?)
                && |pending| == (if token.Returned? && token.value.TokenSuccess? then 2 else 1)
                && pending[0].call == TokenCall(startingLocation, dropoffLocation)
                && (|pending| == 2 ==> pending[1].call == PathCall(token.value.token))
                && (forall i :: 0 <= i < |pending| ==>
                      pending[i].isLoading && pending[i].routeData.None? && pending[i].error.None?)
                && match Settle(token, path)
                   case Found(p, d, t) =>
                     && routeData == Some(RouteData(d, t)) && error.None? && waypoints == Some(p)
                     && isMobileDrawerOpen == (if isMobileViewport then false else old(isMobileDrawerOpen))
                   case Failed(m) =>
                     && error == Some(m) && routeData.None? && waypoints.None?
                     && isMobileDrawerOpen == old(isMobileDrawerOpen)
      ensures old(Valid()) ==> Valid()
    {
      if startingLocation == "" || dropoffLocation == "" {
        inputIsRequiredError := (startingLocation == "", dropoffLocation == "");
        pending := [];
        return;
      }

      routeData := None;
      error := None;
      isLoading := true;

      // try
      var caught: Option<Value> := None;
      pending := [Pending(TokenCall(startingLocation, dropoffLocation), routeData, error, isLoading)];
      match token {
        case Threw(e) =>
          caught := Some(e);
        case Returned(routeTokenResponse) =>
          if routeTokenResponse.Status() == ERROR {
            caught := Some(NewError(routeTokenResponse.errorMessage));
          } else {
            var routeToken := routeTokenResponse.token;
            pending := pending + [Pending(PathCall(routeToken), routeData, error, isLoading)];
            match path {
              case Threw(e) =>
                caught := Some(e);
              case Returned(routePathResponse) =>
                if routePathResponse.Status() == ERROR {
                  caught := Some(NewError(routePathResponse.errorMessage));
                } else {
                  routeData := Some(RouteData(routePathResponse.totalDistance, routePathResponse.totalTime));
                  waypoints := Some(routePathResponse.path);
                  if isMobileViewport {
                    isMobileDrawerOpen := false;
                  }
                }
            }
          }
      }
      // catch
      if caught.Some? {
        error := Some(CaughtMessage(caught.value));
        waypoints := None;
      }
      // finally
      isLoading := false;
    }

    /** onReset. */
    method OnReset()
      modifies this
      ensures State() == Reset(old(State()))
    {
      error := None;
      startingLocation := "";
      dropoffLocation := "";
      routeData := None;
      waypoints := None;
      inputIsRequiredError := (false, false);
    }

    /** `setStartingLocation`. */
    method SetStartingLocation(value: string)
      modifies this
      ensures State() == old(State()).(startingLocation := value)
    {
      startingLocation := value;
    }

    /** `setDropoffLocation`. */
    method SetDropoffLocation(value: string)
      modifies this
      ensures State() == old(State()).(dropoffLocation := value)
    {
      dropoffLocation := value;
    }

    /** `setInputIsRequiredError`. */
    method SetInputIsRequiredError(flags: (bool, bool))
      modifies this
      ensures State() == old(State()).(inputIsRequiredError := flags)
    {
      inputIsRequiredError := flags;
    }
  }

  /** Settling a submission end to end: token success, then path success, fills the route and clears the error. */
  method SubmitEndToEnd(path: seq<Value>, distance: real, time: real)
    returns (p: DrawerContextProvider)
    ensures !p.isLoading && p.error.None? && p.routeData == Some(RouteData(distance, time)) && p.waypoints == Some(path)
  {
    p := new DrawerContextProvider(false, None, true);
    p.SetStartingLocation("start");
    p.SetDropoffLocation("end");
    var pending := p.OnSubmit(Returned(TokenSuccess("validToken")), Returned(PathSuccess(path, distance, time)));
    assert pending[1].call == PathCall("validToken");
  }
}
