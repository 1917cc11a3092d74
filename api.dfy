/**
 * The route API clients (src/utils/api.ts). The network is an input: each
 * request is answered by one `Fetch` value, and the polling client reads its
 * answers from a finite sequence.
 */
module Api {
  import opened Js

  /** The two `status` literals the clients return. */
  const SUCCESS := "SUCCESS"
  const ERROR := "ERROR"

  /** What one `fetch` yields: a rejection, a response whose `ok` is false, or an ok response with its parsed body. */
  datatype Fetch = Rejected(reason: Value) | NotOk(status: nat) | Ok(body: Value)

  /** `PostRouteResponse`. */
  datatype PostRouteResponse = TokenSuccess(token: string) | TokenError(errorMessage: string) {
    function Status(): (s: string)
      ensures s == SUCCESS <==> TokenSuccess?
      ensures s == ERROR <==> TokenError?
    {
      if TokenSuccess? then SUCCESS else ERROR
    }
  }

  /** `GetRouteResponse`; the path is the body's array, its elements unchecked. */
  datatype GetRouteResponse =
    | PathSuccess(path: seq<Value>, totalDistance: real, totalTime: real)
    | PathError(errorMessage: string)
  {
    function Status(): (s: string)
      ensures s == SUCCESS <==> PathSuccess?
      ensures s == ERROR <==> PathError?
    {
      if PathSuccess? then SUCCESS else ERROR
    }
  }

  /** The error thrown for a response whose `ok` is false. */
  function StatusError(status: nat): Value {
    NewError("Response status: " + NatToString(status))
  }

  /** The catch blocks' message choice: the caught value itself when it is a string, otherwise the fallback. */
  function CatchMessage(caught: Value, fallback: string): (m: string)
    ensures caught.Str? ==> m == caught.s
    ensures !caught.Str? ==> m == fallback
  {
    var errorMessage := fallback;
    if TypeOf(caught) == "string" then caught.s else errorMessage
  }

  /** getRouteToken's fallback message. */
  function TokenFallback(origin: string, destination: string): string {
    "Failed to fetch route token for origin: " + origin + ", and destination: " + destination
  }

  /** getRoutePathByToken's fallback message. */
  const ROUTE_FALLBACK := "Failed to fetch route"

  /** The try block of getRouteToken: the token, or what it throws. */
  function RouteTokenTry(response: Fetch): Try<string> {
    match response
    case Rejected(reason) => Threw(reason)
    case NotOk(status) => Threw(StatusError(status))
    case Ok(json) =>
      match In("token", json)
      case Threw(e) => Threw(e)
      case Returned(hasToken) =>
        if !hasToken || TypeOf(Get(json, "token")) != "string" then
          Threw(NewError("Response shape not expected, token not found"))
        else
          Returned(Get(json, "token").s)
  }

  /**
   * getRouteToken(origin, destination) answered by `response`. Succeeds
   * exactly when the response is ok and its body has a string `token`;
   * every other body field is ignored. Otherwise the message is the
   * rejection reason when that is a string, else the fallback naming both
   * locations.
   */
  function GetRouteToken(origin: string, destination: string, response: Fetch): (r: PostRouteResponse)
    ensures r.TokenSuccess? <==> response.Ok? && HasStringField(response.body, "token")
    ensures r.TokenSuccess? ==> r.token == response.body.props["token"].s
    ensures r.TokenError? ==>
              r.errorMessage == if response.Rejected? && response.reason.Str? then response.reason.s
                                else TokenFallback(origin, destination)
  {
    match RouteTokenTry(response)
    case Returned(token) => TokenSuccess(token)
    case Threw(error) => TokenError(CatchMessage(error, TokenFallback(origin, destination)))
  }

  /** The body asks to be polled again. */
  predicate InProgress(response: Fetch) {
    response.Ok? && response.body.Object? && "status" in response.body.props
    && response.body.props["status"] == Str("in progress")
  }

  /** The shape getRoutePathByToken checks: an array `path` and numeric `total_distance` and `total_time`. */
  predicate HasRouteShape(body: Value) {
    HasArrayField(body, "path") && HasNumberField(body, "total_distance") && HasNumberField(body, "total_time")
  }

  /** What handling one response does: poll again, or finish with the try block's outcome. */
  datatype Step = Retry | Done(outcome: Try<GetRouteResponse>)

  /** The shape check and result of getRoutePathByToken's try block, for a body that is not "in progress". */
  function PathTry(json: Value): Try<GetRouteResponse> {
    if In("path", json) != Returned(true) || !Get(json, "path").Array?
       || In("total_distance", json) != Returned(true) || TypeOf(Get(json, "total_distance")) != "number"
       || In("total_time", json) != Returned(true) || TypeOf(Get(json, "total_time")) != "number"
    then
      Threw(NewError("Response shape not expected, path and/or total_distance and/or total_time not found"))
    else
      Returned(PathSuccess(Get(json, "path").items, Get(json, "total_distance").n, Get(json, "total_time").n))
  }

  /** One pass through getRoutePathByToken's try block, with the recursive call left to the caller. */
  function PollStep(response: Fetch): (step: Step)
    ensures step.Retry? <==> InProgress(response)
  {
    match response
    case Rejected(reason) => Done(Threw(reason))
    case NotOk(status) => Done(Threw(StatusError(status)))
    case Ok(json) =>
      match In("status", json)
      case Threw(e) => Done(Threw(e))
      case Returned(hasStatus) =>
        if hasStatus && Get(json, "status") == Str("in progress") then Retry
        else Done(PathTry(json))
  }

  /** The catch block of getRoutePathByToken. */
  function CatchRoute(outcome: Try<GetRouteResponse>): GetRouteResponse {
    match outcome
    case Returned(r) => r
    case Threw(error) => PathError(CatchMessage(error, ROUTE_FALLBACK))
  }

  /**
   * How getRoutePathByToken ends on a response that is not "in progress".
   * The status test comes first; then the shape test, which tolerates extra
   * fields (a `status: "success"` among them). A `status: "failure"` body is
   * not special-cased: it fails the shape test and its `error` text is dropped.
   */
  function Respond(response: Fetch): (r: GetRouteResponse)
    requires !InProgress(response)
    ensures r.PathSuccess? <==> response.Ok? && HasRouteShape(response.body)
    ensures r.PathSuccess? ==>
              && r.path == response.body.props["path"].items
              && r.totalDistance == response.body.props["total_distance"].n
              && r.totalTime == response.body.props["total_time"].n
    ensures r.PathError? ==>
              r.errorMessage == if response.Rejected? && response.reason.Str? then response.reason.s
                                else ROUTE_FALLBACK
  {
    CatchRoute(PollStep(response).outcome)
  }

  /** The result of polling: settled after some number of fetches, or still "in progress" when the answers run out. */
  datatype Poll = Settled(response: GetRouteResponse, fetches: nat) | StillPolling

  /**
   * getRoutePathByToken(token) answered by `responses`, one per fetch of
   * `/route/<token>` in order. Each "in progress" answer re-issues the same
   * request; the result is the handling of the first answer that is not
   * "in progress", after exactly that many fetches.
   */
  function GetRoutePathByToken(responses: seq<Fetch>): (r: Poll)
    ensures r.StillPolling? <==> forall i :: 0 <= i < |responses| ==> InProgress(responses[i])
    ensures r.Settled? ==>
              && 1 <= r.fetches <= |responses|
              && (forall i :: 0 <= i < r.fetches - 1 ==> InProgress(responses[i]))
              && !InProgress(responses[r.fetches - 1])
              && r.response == Respond(responses[r.fetches - 1])
    decreases |responses|
  {
    if |responses| == 0 then StillPolling
    else
      match PollStep(responses[0])
      case Retry =>
        (match GetRoutePathByToken(responses[1..])
         case Settled(response, fetches) => Settled(response, fetches + 1)
         case StillPolling => StillPolling)
      case Done(outcome) => Settled(CatchRoute(outcome), 1)
  }

  /** The answer that carries the given body with `ok` set. */
  function OkBody(props: map<string, Value>): Fetch {
    Ok(Object(props))
  }

  /** The body `{status: "in progress"}`. */
  const IN_PROGRESS: Fetch := OkBody(map["status" := Str("in progress")])

  /**
   * "In progress" answers in front of the others only add to the fetch
   * count: the outer calls hand the inner call's result back unchanged.
   */
  lemma {:induction false} InProgressPrefix(prefix: seq<Fetch>, rest: seq<Fetch>)
    requires forall i :: 0 <= i < |prefix| ==> InProgress(prefix[i])
    ensures GetRoutePathByToken(prefix + rest) ==
              match GetRoutePathByToken(rest)
              case Settled(response, fetches) => Settled(response, fetches + |prefix|)
              case StillPolling => StillPolling
  {
    if prefix == [] {
      assert prefix + rest == rest;
    } else {
      var all := prefix + rest;
      assert all[1..] == prefix[1..] + rest;
      assert PollStep(all[0]).Retry?;
      InProgressPrefix(prefix[1..], rest);
    }
  }

  /** Answers after the first one that is not "in progress" are never fetched. */
  lemma {:induction false} LaterAnswersUnread(responses: seq<Fetch>, more: seq<Fetch>)
    requires GetRoutePathByToken(responses).Settled?
    ensures GetRoutePathByToken(responses + more) == GetRoutePathByToken(responses)
    decreases |responses|
  {
    var all := responses + more;
    assert all[0] == responses[0];
    if InProgress(responses[0]) {
      assert PollStep(responses[0]).Retry?;
      assert GetRoutePathByToken(responses[1..]).Settled?;
      assert all[1..] == responses[1..] + more;
      LaterAnswersUnread(responses[1..], more);
    } else {
      assert PollStep(all[0]) == PollStep(responses[0]);
    }
  }

  /** The path answered in the client's tests: three coordinate pairs. */
  function TestPath(): seq<Value> {
    [Array([Str("22.372081"), Str("114.107877")]),
     Array([Str("22.326442"), Str("114.167811")]),
     Array([Str("22.284419"), Str("114.159510")])]
  }

  /** Three "in progress" answers, then a body with `status: "success"`, path and totals: four fetches, and success. */
  lemma ThreeInProgressThenSuccess()
    ensures GetRoutePathByToken([IN_PROGRESS, IN_PROGRESS, IN_PROGRESS,
                                 OkBody(map["status" := Str("success"), "path" := Array(TestPath()),
                                            "total_distance" := Number(20000.0), "total_time" := Number(1800.0)])])
            == Settled(PathSuccess(TestPath(), 20000.0, 1800.0), 4)
  {
    var done := OkBody(map["status" := Str("success"), "path" := Array(TestPath()),
                           "total_distance" := Number(20000.0), "total_time" := Number(1800.0)]);
    assert !InProgress(done);
    assert HasRouteShape(done.body);
    assert GetRoutePathByToken([done]) == Settled(PathSuccess(TestPath(), 20000.0, 1800.0), 1);
    InProgressPrefix([IN_PROGRESS, IN_PROGRESS, IN_PROGRESS], [done]);
    assert [IN_PROGRESS, IN_PROGRESS, IN_PROGRESS] + [done] == [IN_PROGRESS, IN_PROGRESS, IN_PROGRESS, done];
  }

  /**
   * A `{status: "failure", error}` body, after any number of "in progress"
   * answers, ends in the generic message; the server's text is dropped.
   */
  lemma FailureBodyDropsServerText(inProgress: nat, serverError: string)
    ensures var failure := OkBody(map["status" := Str("failure"), "error" := Str(serverError)]);
            GetRoutePathByToken(seq(inProgress, _ => IN_PROGRESS) + [failure])
            == Settled(PathError(ROUTE_FALLBACK), inProgress + 1)
  {
    var failure := OkBody(map["status" := Str("failure"), "error" := Str(serverError)]);
    assert !InProgress(failure);
    assert !HasRouteShape(failure.body);
    InProgressPrefix(seq(inProgress, _ => IN_PROGRESS), [failure]);
  }

  /** A rejected or non-ok fetch at any poll step ends the poll with an error. */
  lemma FailedFetchEndsPoll(inProgress: nat, failed: Fetch)
    requires failed.Rejected? || failed.NotOk?
    ensures GetRoutePathByToken(seq(inProgress, _ => IN_PROGRESS) + [failed])
            == Settled(PathError(Respond(failed).errorMessage), inProgress + 1)
    ensures failed.NotOk? || !failed.reason.Str? ==> Respond(failed).errorMessage == ROUTE_FALLBACK
  {
    InProgressPrefix(seq(inProgress, _ => IN_PROGRESS), [failed]);
  }

  /** The token client's test cases: a `token` body succeeds with it; a body without one, or a rejection with `{}`, fails. */
  lemma TokenClientCases(origin: string, destination: string)
    ensures GetRouteToken(origin, destination, OkBody(map["token" := Str("validToken")])) == TokenSuccess("validToken")
    ensures GetRouteToken(origin, destination, OkBody(map["notTheToken" := Str("asdf")]))
            == TokenError(TokenFallback(origin, destination))
    ensures GetRouteToken(origin, destination, Rejected(Object(map[])))
            == TokenError(TokenFallback(origin, destination))
    ensures GetRouteToken(origin, destination, NotOk(500)) == TokenError(TokenFallback(origin, destination))
  {
  }

  /** Fields other than `token` never change the token client's result. */
  lemma TokenIgnoresOtherFields(origin: string, destination: string, a: map<string, Value>, b: map<string, Value>)
    requires ("token" in a) == ("token" in b)
    requires "token" in a ==> a["token"] == b["token"]
    ensures GetRouteToken(origin, destination, OkBody(a)) == GetRouteToken(origin, destination, OkBody(b))
  {
  }

  /** Fields other than `status`, `path`, `total_distance` and `total_time` never change how a poll answer is handled. */
  lemma PathIgnoresOtherFields(a: map<string, Value>, b: map<string, Value>)
    requires forall k :: k in {"status", "path", "total_distance", "total_time"} ==>
               (k in a) == (k in b) && (k in a ==> a[k] == b[k])
    ensures InProgress(OkBody(a)) == InProgress(OkBody(b))
    ensures !InProgress(OkBody(a)) ==> Respond(OkBody(a)) == Respond(OkBody(b))
  {
    assert ("status" in a) == ("status" in b);
    assert ("path" in a) == ("path" in b);
    assert ("total_distance" in a) == ("total_distance" in b);
    assert ("total_time" in a) == ("total_time" in b);
  }
}
