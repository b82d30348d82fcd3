/**
 * The HTTP entry point `main` (main.py): it reads the action from the
 * request's payload, rejects a request without one, builds the campaign
 * service from the environment, and dispatches five actions to their
 * handlers through a closed table.
 *
 * What each handler's call into the service answers is passed in as
 * `serviceError`, the text of the error it raised, or None.
 */
module Handler {
  import opened Common
  import opened DateTimes
  import opened Service

  /** The handlers `main` can dispatch to. */
  datatype Route = CreateTaskRoute | EditTaskRoute | DeleteTaskRoute | EditScheduleRoute | DeleteScheduleRoute

  /** The action that selects a handler. */
  function RouteName(route: Route): string
  {
    match route
    case CreateTaskRoute => "create_task"
    case EditTaskRoute => "edit_task"
    case DeleteTaskRoute => "delete_task"
    case EditScheduleRoute => "edit_schedule"
    case DeleteScheduleRoute => "delete_schedule"
  }

  /**
   * The `if/elif` table of `main`: the handler an action selects, if any.
   * `create_schedule` has a handler in main.py, but the table never
   * selects it.
   */
  function RouteFor(action: Value): (r: Option<Route>)
    ensures r.Some? ==> action == Str(RouteName(r.value))
    ensures action == Str("create_schedule") ==> r.None?
  {
    if action == Str("create_task") then Some(CreateTaskRoute)
    else if action == Str("edit_task") then Some(EditTaskRoute)
    else if action == Str("delete_task") then Some(DeleteTaskRoute)
    else if action == Str("edit_schedule") then Some(EditScheduleRoute)
    else if action == Str("delete_schedule") then Some(DeleteScheduleRoute)
    else None
  }

  /** Each handler is selected by its own action, so the table is a bijection onto the five names. */
  lemma RouteForName(route: Route)
    ensures RouteFor(Str(RouteName(route))) == Some(route)
  {
    match route
    case CreateTaskRoute =>
    case EditTaskRoute =>
      assert RouteName(route) != "create_task";
    case DeleteTaskRoute =>
      assert RouteName(route) != "create_task" && RouteName(route) != "edit_task";
    case EditScheduleRoute =>
      assert RouteName(route) != "create_task" && RouteName(route) != "edit_task";
      assert RouteName(route) != "delete_task";
    case DeleteScheduleRoute =>
      assert RouteName(route) != "create_task" && RouteName(route) != "edit_task";
      assert RouteName(route) != "delete_task" && RouteName(route) != "edit_schedule";
  }

  /**
   * The parts of a request `main` reads: `request.get("payload")`, which
   * is None when the payload is absent or is not a dict, and the
   * `schedule_time` entry the create-task handler reads (Null when absent).
   */
  datatype Request = Request(payload: Option<Payload>, scheduleTime: Value)

  /** `payload.get("action")`. */
  function ActionOf(payload: Payload): Value
  {
    if "action" in payload then payload["action"] else Null
  }

  datatype Response = Response(status: nat, body: string)

  /** The exceptions that escape `main`. */
  datatype Raise =
      /** AttributeError: the payload has no `get` */
    | NoPayloadObject
      /** ValueError of the service constructor */
    | Misconfigured(error: Error)
      /** TypeError or ValueError of `strptime` on the schedule time */
    | BadScheduleTime
      /** an error of the service call in the create-task handler, which does not catch it */
    | CallFailed(message: string)

  /** What `main` does: answer with a response, naming the handler that ran, or raise. */
  datatype Reply = Replied(response: Response, route: Option<Route>) | Raised(error: Raise)

  const NoActionText: string := "No payload or action provided"
  const ServerErrorText: string := "Server error"
  const InvalidActionText: string := "Invalid action provided"

  /** The success text and the error prefix of a handler that catches the service's error. */
  function HandlerTexts(route: Route): (string, string)
  {
    match route
    case CreateTaskRoute => ("Created task", "")
    case EditTaskRoute => ("Edited task", "Error editing task ")
    case DeleteTaskRoute => ("Deleted task", "Error deleting task ")
    case EditScheduleRoute => ("Edited schedule", "Error editing schedule ")
    case DeleteScheduleRoute => ("Deleted schedule", "Error deleting schedule ")
  }

  /**
   * The handler of a route: the text it returns, or what it raises. Only
   * the create-task handler lets an error escape: its schedule time must
   * read as `"%Y-%m-%d %H:%M:%S"`, and its service call is not guarded.
   */
  function RunHandler(route: Route, request: Request, serviceError: Option<string>): (r: Result<string, Raise>)
    ensures route != CreateTaskRoute ==> r.Success?
    ensures route != CreateTaskRoute && serviceError.Some? ==>
              r.value == HandlerTexts(route).1 + serviceError.value
    ensures route == CreateTaskRoute ==>
              (r.Success? <==> request.scheduleTime.Str? && Parse(request.scheduleTime.s).Some? && serviceError.None?)
    ensures serviceError.None? && r.Success? ==> r.value == HandlerTexts(route).0
  {
    if route == CreateTaskRoute then
      if !request.scheduleTime.Str? || Parse(request.scheduleTime.s).None? then Failure(BadScheduleTime)
      else if serviceError.Some? then Failure(CallFailed(serviceError.value))
      else Success(HandlerTexts(route).0)
    else if serviceError.Some? then Success(HandlerTexts(route).1 + serviceError.value)
    else Success(HandlerTexts(route).0)
  }

  /** The environment lets `CampaignService(env_vars)` be built. */
  predicate Buildable(env: Env)
  {
    MissingVariables(RequiredVariables, env) == []
  }

  /**
   * `main`: 400 without a payload or action, 500 with an empty
   * environment, the constructor's ValueError with an incomplete one, 400
   * for an action outside the table, and otherwise the handler's text
   * with status 200.
   */
  function Main(request: Request, env: Env, serviceError: Option<string>): (r: Reply)
    ensures request.payload.None? ==> r == Raised(NoPayloadObject)
    ensures request.payload.Some? && !Truthy(ActionOf(request.payload.value)) ==>
              r == Replied(Response(400, NoActionText), None)
    ensures request.payload.Some? && Truthy(ActionOf(request.payload.value)) && env == map[] ==>
              r == Replied(Response(500, ServerErrorText), None)
    ensures request.payload.Some? && Truthy(ActionOf(request.payload.value)) && env != map[] && !Buildable(env) ==>
              r == Raised(Misconfigured(ConfigurationError(UndefinedMessage(MissingVariables(RequiredVariables, env)))))
    ensures r.Replied? && r.route.Some? ==>
              request.payload.Some? && ActionOf(request.payload.value) == Str(RouteName(r.route.value))
              && env != map[] && Buildable(env)
    ensures r.Replied? ==> (r.response.status == 200 <==> r.route.Some?)
    ensures r.Replied? && r.response.status != 200 ==> r.response.status in {400, 500}
  {
    match request.payload
    case None => Raised(NoPayloadObject)
    case Some(payload) =>
      var action := ActionOf(payload);
      if payload == map[] || !Truthy(action) then
        Replied(Response(400, NoActionText), None)
      else if env == map[] then
        Replied(Response(500, ServerErrorText), None)
      else if !Buildable(env) then
        Raised(Misconfigured(ConfigurationError(UndefinedMessage(MissingVariables(RequiredVariables, env)))))
      else
        match RouteFor(action)
        case None => Replied(Response(400, InvalidActionText), None)
        case Some(route) =>
          match RunHandler(route, request, serviceError)
          case Failure(e) => Raised(e)
          case Success(text) => Replied(Response(200, text), Some(route))
  }

  /**
   * With an action and a buildable environment, each of the five actions
   * runs its own handler; the four that catch errors answer 200 whatever
   * the service does.
   */
  lemma RoutedActions(request: Request, env: Env, serviceError: Option<string>, route: Route)
    requires request.payload.Some? && ActionOf(request.payload.value) == Str(RouteName(route))
    requires env != map[] && Buildable(env)
    ensures route != CreateTaskRoute ==>
              Main(request, env, serviceError) == Replied(Response(200, RunHandler(route, request, serviceError).value), Some(route))
    ensures route == CreateTaskRoute ==>
              (Main(request, env, serviceError).Replied? <==>
                 request.scheduleTime.Str? && Parse(request.scheduleTime.s).Some? && serviceError.None?)
  {
    RouteForName(route);
    assert "action" in request.payload.value;
    assert RouteName(route) != "";
  }

  /** Every other action, `create_schedule` among them, is refused with 400 and runs no handler. */
  lemma OtherActions(request: Request, env: Env, serviceError: Option<string>)
    requires request.payload.Some? && Truthy(ActionOf(request.payload.value))
    requires env != map[] && Buildable(env)
    requires forall route :: ActionOf(request.payload.value) != Str(RouteName(route))
    ensures Main(request, env, serviceError) == Replied(Response(400, InvalidActionText), None)
  {
    assert "action" in request.payload.value;
  }

  /**
   * The test's request for the create-task handler puts `action` at the
   * top level, beside a payload that holds only a message. `main` reads
   * the action from the payload, finds none, and answers 400.
   */
  lemma CreateTaskTestRequest(env: Env, serviceError: Option<string>)
    ensures Main(Request(Some(map["message" := Str("test message")]), Str("2022-01-01 12:00:00")), env, serviceError)
            == Replied(Response(400, NoActionText), None)
  {
    var payload := map["message" := Str("test message")];
    assert "action" !in payload;
  }

  /**
   * A create-task request with the action inside its payload and the
   * schedule time of the handler's test, `"2022-01-01 12:00:00"`: the time
   * is accepted, and the handler answers "Created task" once the service
   * call succeeds.
   */
  lemma CreateTaskExample(request: Request, env: Env)
    requires request.payload.Some? && ActionOf(request.payload.value) == Str("create_task")
    requires request.scheduleTime == Str("2022-01-01 12:00:00")
    requires env != map[] && Buildable(env)
    ensures Main(request, env, None) == Replied(Response(200, "Created task"), Some(CreateTaskRoute))
  {
    ParseExample(request.scheduleTime.s);
    RoutedActions(request, env, None, CreateTaskRoute);
  }
}
