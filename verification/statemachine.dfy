/**
 * The payments state-machine Lambda: a route registry holding the two step
 * routes, the event normalisation the handler applies, and the handler, which
 * hands the normalised event to the router and returns the parsed response
 * body itself, without the status code.
 */
module Statemachine {
  import opened Wrappers
  import opened Js
  import Controller = StatemachineController

  datatype StepName = Step1 | Step2

  /** `process.env.API_VERSION || 'v1'` */
  function ApiVersion(env: map<string, string>): (v: string)
    ensures "API_VERSION" in env && env["API_VERSION"] != "" ==> v == env["API_VERSION"]
    ensures !("API_VERSION" in env && env["API_VERSION"] != "") ==> v == "v1"
    ensures v != ""
  {
    if "API_VERSION" in env && env["API_VERSION"] != "" then env["API_VERSION"] else "v1"
  }

  function StepPath(version: string, step: StepName): string {
    "/payments/" + version + (if step == Step1 then "/state1" else "/state2")
  }

  /** The POST routes of the router: path to step, matched exactly. */
  function Registry(version: string): (r: map<string, StepName>)
    ensures |r| == 2
    ensures forall path :: path in r <==> path == StepPath(version, Step1) || path == StepPath(version, Step2)
    ensures forall step :: StepPath(version, step) in r && r[StepPath(version, step)] == step
  {
    var p1 := StepPath(version, Step1);
    var p2 := StepPath(version, Step2);
    assert p1[|p1| - 1] == '1' && p2[|p2| - 1] == '2';
    map[p1 := Step1, p2 := Step2]
  }

  function Run(step: StepName, body: Value, now: int): Result<Value, Thrown> {
    match step
    case Step1 => Controller.State1(body, now)
    case Step2 => Controller.State2(body, now)
  }

  /** The Lambda event as it arrives: `body` is a structured value, not text. */
  datatype Event = Event(path: string, httpMethod: Option<string>, headers: Option<Value>, body: Option<Value>)

  /** The event as the handler passes it on. */
  datatype Request = Request(path: string, httpMethod: string, headers: map<string, Value>, body: Option<string>)

  /** The Lambda context; only the flag the handler writes is modelled. */
  datatype Context = Context(callbackWaitsForEmptyEventLoop: bool)

  const ContentType: string := "Content-Type"
  const JsonType: Value := Str("application/json")

  /**
   * Serialise the body (`JSON.stringify(undefined)` stays `undefined`), put the
   * caller's headers over a JSON `Content-Type` default, and force `POST`.
   */
  function Normalise(codec: Codec, e: Event): (r: Request)
    ensures r.httpMethod == "POST"
    ensures r.path == e.path
    ensures r.headers.Keys == Spread(e.headers).Keys + {ContentType}
    ensures forall k :: k in Spread(e.headers) ==> r.headers[k] == Spread(e.headers)[k]
    ensures ContentType !in Spread(e.headers) ==> r.headers[ContentType] == JsonType
    ensures r.body.Some? <==> e.body.Some?
    ensures RoundTrips(codec) && e.body.Some? ==> codec.decode(r.body.value) == e.body
  {
    Request(
      e.path,
      "POST",
      map[ContentType := JsonType] + Spread(e.headers),
      if e.body.Some? then Some(codec.encode(e.body.value)) else None)
  }

  /**
   * Why an invocation produced no envelope. In the source the router answers
   * these with an error status and an error object as body, and the handler
   * returns that parsed object; its exact fields are the router's.
   */
  datatype Fault =
    | RouteNotFound(verb: string, path: string)
    | EmptyJsonBody
    | InvalidJsonBody
    | StepFailed(error: Thrown)
    | InvalidJsonResponse

  /**
   * The router: match the method and path exactly, parse the JSON body, run
   * the step, serialise what it sent; the handler then parses that text.
   */
  function Dispatch(version: string, codec: Codec, req: Request, now: int): Result<Value, Fault> {
    var routes := Registry(version);
    if req.httpMethod != "POST" || req.path !in routes then Failure(RouteNotFound(req.httpMethod, req.path))
    else if req.body.None? then Failure(EmptyJsonBody)
    else match codec.decode(req.body.value)
      case None => Failure(InvalidJsonBody)
      case Some(body) =>
        match Run(routes[req.path], body, now)
        case Failure(error) => Failure(StepFailed(error))
        case Success(sent) =>
          match codec.decode(codec.encode(sent))
          case None => Failure(InvalidJsonResponse)
          case Some(parsed) => Success(parsed)
  }

  /** `handler(event, context)`: normalise, clear the event-loop flag, dispatch, return the parsed body. */
  function Handler(env: map<string, string>, codec: Codec, e: Event, ctx: Context, now: int): (r: (Result<Value, Fault>, Context))
    ensures r.1 == ctx.(callbackWaitsForEmptyEventLoop := false)
  {
    (Dispatch(ApiVersion(env), codec, Normalise(codec, e), now), ctx.(callbackWaitsForEmptyEventLoop := false))
  }

  /**
   * With a faithful JSON codec, an event for a step route returns exactly what
   * the step sent, whatever method the event named; a missing body is a fault.
   */
  lemma HandlerRunsStep(env: map<string, string>, codec: Codec, e: Event, ctx: Context, now: int, step: StepName)
    requires RoundTrips(codec)
    requires e.path == StepPath(ApiVersion(env), step)
    ensures e.body.None? ==> Handler(env, codec, e, ctx, now).0 == Failure(EmptyJsonBody)
    ensures e.body.Some? ==>
      match Run(step, e.body.value, now)
      case Success(sent) => Handler(env, codec, e, ctx, now).0 == Success(sent)
      case Failure(error) => Handler(env, codec, e, ctx, now).0 == Failure(StepFailed(error))
  {
    var req := Normalise(codec, e);
    assert Registry(ApiVersion(env))[req.path] == step;
    if e.body.Some? {
      assert codec.decode(req.body.value) == Some(e.body.value);
      match Run(step, e.body.value, now)
      case Success(sent) =>
        assert codec.decode(codec.encode(sent)) == Some(sent);
      case Failure(_) =>
    }
  }

  /** Any path other than the two step routes is a routing fault, never a result. */
  lemma UnknownPathFaults(env: map<string, string>, codec: Codec, e: Event, ctx: Context, now: int)
    requires e.path != StepPath(ApiVersion(env), Step1) && e.path != StepPath(ApiVersion(env), Step2)
    ensures Handler(env, codec, e, ctx, now).0 == Failure(RouteNotFound("POST", e.path))
  {
  }

  /**
   * A body delivered as serialised text is serialised once more, so the step
   * sees a string and fails: the handler does not accept pre-serialised bodies.
   */
  lemma TextBodyFails(env: map<string, string>, codec: Codec, e: Event, ctx: Context, now: int, step: StepName)
    requires RoundTrips(codec)
    requires e.path == StepPath(ApiVersion(env), step)
    requires e.body.Some? && e.body.value.Str?
    ensures Handler(env, codec, e, ctx, now).0.Failure?
    ensures Handler(env, codec, e, ctx, now).0.error.StepFailed?
  {
    HandlerRunsStep(env, codec, e, ctx, now, step);
  }

  /**
   * Sequencing: the envelope returned for `state1`, fed back as the body of a
   * `state2` event, comes back with both step results in `output`, each
   * `{key, time}`, and the input passes through unchanged.
   */
  lemma TwoStepRun(env: map<string, string>, codec: Codec, ctx: Context, input: Value, t1: int, t2: int)
    requires RoundTrips(codec)
    ensures
      var v := ApiVersion(env);
      var start := Obj(map["input" := input, "output" := Obj(map[])]);
      var r1 := Handler(env, codec, Event(StepPath(v, Step1), None, None, Some(start)), ctx, t1).0;
      && r1.Success?
      && var r2 := Handler(env, codec, Event(StepPath(v, Step2), None, None, Some(r1.value)), ctx, t2).0;
      && r2.Success?
      && r2.value == Obj(map[
           "input" := input,
           "output" := Obj(map["state1Value" := Controller.StepValue("state1", t1),
                               "state2Value" := Controller.StepValue("state2", t2)])])
  {
    var v := ApiVersion(env);
    var start := Obj(map["input" := input, "output" := Obj(map[])]);
    Controller.FreshRun(input, t1, t2);
    HandlerRunsStep(env, codec, Event(StepPath(v, Step1), None, None, Some(start)), ctx, t1, Step1);
    var mid := Controller.State1(start, t1).value;
    HandlerRunsStep(env, codec, Event(StepPath(v, Step2), None, None, Some(mid)), ctx, t2, Step2);
  }
}
