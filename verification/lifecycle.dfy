/** The one shape every action creator in the three action files follows,
    written once: dispatch REQUEST, make one HTTP call, then dispatch SUCCESS
    with a part of the response body, or, in the catch block, FAIL with
    `error.response.data.message`. The network is an abstract `Outcome`. */
module Lifecycle {
  import opened Wrappers
  import opened Js
  import opened Creators

  /** How the single HTTP call settles, as axios reports it. */
  datatype Outcome =
    | Ok(body: Value)               // 2xx; `body` is `response.data`
    | HttpErr(responseBody: Value)  // rejected with a response; `responseBody` is `error.response.data`
    | NoResponse                    // rejected with no `response` (network failure, timeout, ...)

  /** The suffix of an action-type constant: `CREATE_CATEGORY_REQUEST` is
      `Phased(CreateCategory, Request)`. `Reset` stands for the `*_RESET`
      constants some files import. */
  datatype Phase = Request | Succeed | Fail | Reset

  datatype ActionType =
    | Phased(creator: Creator, phase: Phase)
    | ClearErrors(resource: Resource)  // CLEAR_ERRORS of that resource's constants

  /** A Redux action: `{ type }` has no payload, `{ type, payload }` has one,
      possibly `Undefined`. */
  datatype Action = Action(tag: ActionType, payload: Option<Value>)

  /** The HTTP request handed to axios. */
  datatype HttpRequest = HttpRequest(
    verb: Verb,
    url: string,
    contentType: Option<ContentType>,
    body: Option<Value>)

  /** What happens, in order, while a thunk runs. */
  datatype Event = Dispatch(action: Action) | Call(request: HttpRequest)

  /** How the promise the thunk returns settles. */
  datatype Settlement = Resolved | Rejected(fault: Fault)

  datatype Trace = Trace(events: seq<Event>, settled: Settlement)

  /** The actions among `events`, in order. */
  function Dispatched(events: seq<Event>): (acts: seq<Action>)
    ensures forall a :: a in acts <==> Dispatch(a) in events
  {
    if |events| == 0 then []
    else (if events[0].Dispatch? then [events[0].action] else []) + Dispatched(events[1..])
  }

  /** The HTTP requests among `events`, in order. */
  function Calls(events: seq<Event>): (reqs: seq<HttpRequest>)
    ensures forall q :: q in reqs <==> Call(q) in events
  {
    if |events| == 0 then []
    else (if events[0].Call? then [events[0].request] else []) + Calls(events[1..])
  }

  /** The request a creator sends, for the `id` and form data it was given
      (each is ignored by the creators that take no such argument). */
  function RequestFor(c: Creator, id: string, form: Value): (r: HttpRequest)
    ensures r.verb == VerbFor(KindOf(c))
    ensures TargetsOne(KindOf(c)) ==> r.url == Spec(c).route.prefix + id
    ensures !TargetsOne(KindOf(c)) ==> r.url == Spec(c).route.path
    ensures r.body.Some? <==> KindOf(c) == Create || KindOf(c) == Update
    ensures r.body.Some? ==> r.body.value == form
    ensures r.contentType == Spec(c).contentType
  {
    var s := Spec(c);
    var url := match s.route
      case Fixed(p) => p
      case ById(prefix) => prefix + id;
    HttpRequest(s.verb, url, s.contentType,
                if s.verb == POST || s.verb == PUT then Some(form) else None)
  }

  /** The error object the catch block receives. An axios error carries
      `response` only when the server answered. */
  function AxiosError(response: Option<Value>): Value {
    match response
    case Some(data) => Obj(map["name" := Str("AxiosError"), "response" := Obj(map["data" := data])])
    case None => Obj(map["name" := Str("AxiosError")])
  }

  /** The error object thrown when the try block itself reads a property of
      `undefined` or `null`. It has no `response`. */
  const TypeErrorObject: Value := Obj(map["name" := Str("TypeError")])

  /** The key chain `error.response.data.message` every catch block reads. */
  const MessagePath: seq<string> := ["response", "data", "message"]

  /** The catch block: FAIL with `error.response.data.message`. When that
      read itself throws, nothing is dispatched and the thunk's promise
      rejects with the new fault. */
  function Catch(c: Creator, error: Value): (seq<Event>, Settlement) {
    match Path(error, MessagePath)
    case Success(m) => ([Dispatch(Action(Phased(c, Fail), Some(m)))], Resolved)
    case Failure(f) => ([], Rejected(f))
  }

  /** The first two events of every run: the REQUEST action, then the call. */
  function Start(c: Creator, id: string, form: Value): seq<Event> {
    [Dispatch(Action(Phased(c, Request), None)), Call(RequestFor(c, id, form))]
  }

  /** One invocation of creator `c` whose HTTP call settles as `outcome`. */
  function Run(c: Creator, id: string, form: Value, outcome: Outcome): (t: Trace)
    ensures 2 <= |t.events| <= 3
    ensures t.events[0] == Dispatch(Action(Phased(c, Request), None))
    ensures t.events[1] == Call(RequestFor(c, id, form))
    ensures |t.events| == 3 <==> t.settled == Resolved
    ensures |t.events| == 3 ==>
              && t.events[2].Dispatch?
              && t.events[2].action.tag.Phased?
              && t.events[2].action.tag.creator == c
              && t.events[2].action.tag.phase in {Succeed, Fail}
              && t.events[2].action.payload.Some?
    ensures forall e | e in t.events && e.Dispatch? ::
              e.action.tag.Phased? && e.action.tag.creator == c && e.action.tag.phase != Reset
  {
    var (rest, settled) :=
      match outcome
      case Ok(body) =>
        (match Path(body, Spec(c).payloadPath)
         case Success(p) => ([Dispatch(Action(Phased(c, Succeed), Some(p)))], Resolved)
         case Failure(_) => Catch(c, TypeErrorObject))
      case HttpErr(data) => Catch(c, AxiosError(Some(data)))
      case NoResponse => Catch(c, AxiosError(None));
    Trace(Start(c, id, form) + rest, settled)
  }

  /** `clearErrors()` of each action file: one CLEAR_ERRORS action, no
      payload, no call. */
  function ClearErrorsRun(r: Resource): (t: Trace)
    ensures Dispatched(t.events) == [Action(ClearErrors(r), None)]
    ensures Calls(t.events) == []
    ensures t.settled == Resolved
  {
    Trace([Dispatch(Action(ClearErrors(r), None))], Resolved)
  }

  /** The projections of a trace shaped like a run's: an action, a call,
      and possibly one more action. */
  lemma {:induction false} RunShapeProjections(e: seq<Event>)
    requires 2 <= |e| <= 3 && e[0].Dispatch? && e[1].Call?
    requires |e| == 3 ==> e[2].Dispatch?
    ensures Dispatched(e) == [e[0].action] + (if |e| == 3 then [e[2].action] else [])
    ensures Calls(e) == [e[1].request]
  {
    assert e[1..][0].Call?;
    if |e| == 3 {
      assert e[1..][1..][1..] == [];
      assert Calls(e[1..][1..]) == [];
      assert Dispatched(e[1..][1..]) == [e[2].action];
      assert Dispatched(e[1..]) == [e[2].action];
    } else {
      assert e[1..][1..] == [];
      assert Dispatched(e[1..]) == [];
    }
    assert Calls(e[1..]) == [e[1].request];
  }

  /** Every run makes exactly one HTTP call, the creator's own request,
      and never retries. */
  lemma {:induction false} ExactlyOneCall(c: Creator, id: string, form: Value, outcome: Outcome)
    ensures Calls(Run(c, id, form, outcome).events) == [RequestFor(c, id, form)]
  {
    RunShapeProjections(Run(c, id, form, outcome).events);
  }

  /** The actions a run dispatches: REQUEST alone, or REQUEST followed by
      exactly one SUCCESS or FAIL. */
  lemma {:induction false} DispatchedActions(c: Creator, id: string, form: Value, outcome: Outcome)
    ensures var acts := Dispatched(Run(c, id, form, outcome).events);
            && 1 <= |acts| <= 2
            && acts[0] == Action(Phased(c, Request), None)
            && (|acts| == 2 <==> Run(c, id, form, outcome).settled == Resolved)
            && (|acts| == 2 ==> acts[1].tag in {Phased(c, Succeed), Phased(c, Fail)})
  {
    var t := Run(c, id, form, outcome);
    RunShapeProjections(t.events);
  }

  /** What the catch block does with each error object it can receive:
      only an error carrying a non-nullish response body yields FAIL. */
  lemma CatchCases(c: Creator, data: Value)
    ensures Catch(c, TypeErrorObject) == ([], Rejected(TypeError))
    ensures Catch(c, AxiosError(None)) == ([], Rejected(TypeError))
    ensures Catch(c, AxiosError(Some(data))) ==
              if IsNullish(data) then ([], Rejected(TypeError))
              else ([Dispatch(Action(Phased(c, Fail), Some(Prop(data, "message"))))], Resolved)
  {
  }

  /** A second action is dispatched exactly when the read that produces its
      payload does not throw: the payload read on a 2xx body, or
      `.message` on a non-nullish error body. */
  lemma DispatchCount(c: Creator, id: string, form: Value, outcome: Outcome)
    ensures Run(c, id, form, outcome).settled == Resolved <==>
              || (outcome.Ok? && Path(outcome.body, Spec(c).payloadPath).Success?)
              || (outcome.HttpErr? && !IsNullish(outcome.responseBody))
  {
    match outcome
    case Ok(body) => CatchCases(c, body);
    case HttpErr(data) => CatchCases(c, data);
    case NoResponse => CatchCases(c, Undefined);
  }

  /** On any 2xx body that is not `null` or `undefined` the SUCCESS payload
      is exactly the creator's field of the body (`undefined` when a string,
      number, boolean, array or object body lacks it), or the body itself
      for the whole-body creators. */
  lemma SuccessPayloadExact(c: Creator, id: string, form: Value, body: Value)
    requires !IsNullish(body)
    ensures Run(c, id, form, Ok(body)) ==
              Trace(Start(c, id, form) +
                    [Dispatch(Action(Phased(c, Succeed),
                       Some(if Spec(c).payloadPath == [] then body
                            else Prop(body, Spec(c).payloadPath[0]))))],
                    Resolved)
  {
  }

  /** The whole-body creators report any 2xx body, even `null`. */
  lemma WholeBodyNeverFaults(c: Creator, id: string, form: Value, body: Value)
    requires Spec(c).payloadPath == []
    ensures Run(c, id, form, Ok(body)) ==
              Trace(Start(c, id, form) + [Dispatch(Action(Phased(c, Succeed), Some(body)))], Resolved)
  {
  }

  /** A field-extracting creator given a 2xx body of `null` (or none) throws
      in the try block; the catch block then throws too, reading
      `error.response.data` of an error with no response, so REQUEST is the
      only action. */
  lemma NullishBodyOnlyRequest(c: Creator, id: string, form: Value, body: Value)
    requires Spec(c).payloadPath != [] && IsNullish(body)
    ensures Run(c, id, form, Ok(body)) == Trace(Start(c, id, form), Rejected(TypeError))
  {
    CatchCases(c, body);
  }

  /** An error response whose body is not `null` or `undefined` yields FAIL
      carrying exactly `error.response.data.message` (`Undefined` when the
      body has none, as for a text or HTML error page). */
  lemma FailPayloadExact(c: Creator, id: string, form: Value, data: Value)
    requires !IsNullish(data)
    ensures Run(c, id, form, HttpErr(data)) ==
              Trace(Start(c, id, form) +
                    [Dispatch(Action(Phased(c, Fail), Some(Prop(data, "message"))))],
                    Resolved)
  {
  }

  /** An error response whose body is `null` or absent makes the catch block
      throw: REQUEST is the only action. */
  lemma NullishErrorBodyOnlyRequest(c: Creator, id: string, form: Value, data: Value)
    requires IsNullish(data)
    ensures Run(c, id, form, HttpErr(data)) == Trace(Start(c, id, form), Rejected(TypeError))
  {
    CatchCases(c, data);
  }

  /** When the caught error has no `response`, evaluating the FAIL payload
      throws: REQUEST is the only action and no FAIL is emitted. */
  lemma NoResponseOnlyRequest(c: Creator, id: string, form: Value)
    ensures Run(c, id, form, NoResponse) == Trace(Start(c, id, form), Rejected(TypeError))
    ensures Dispatched(Run(c, id, form, NoResponse).events) == [Action(Phased(c, Request), None)]
  {
    CatchCases(c, Undefined);
    RunShapeProjections(Start(c, id, form));
  }

  /** A DELETE answered with 204 No Content, whose axios `data` is the
      empty string, dispatches SUCCESS with `undefined` as `data.success`. */
  lemma EmptyDeleteResponseExample(id: string)
    ensures Run(DeleteMotorcycle, id, Undefined, Ok(Str(""))).events[2] ==
              Dispatch(Action(Phased(DeleteMotorcycle, Succeed), Some(Undefined)))
  {
  }

  /** An error answered with an HTML page, a string body with no `message`,
      dispatches FAIL with `undefined`. */
  lemma HtmlErrorPageExample(id: string, form: Value)
    ensures Run(UpdateMotorcycle, id, form, HttpErr(Str("<html>Bad Gateway</html>"))).events[2] ==
              Dispatch(Action(Phased(UpdateMotorcycle, Fail), Some(Undefined)))
  {
  }

  /** A rejected update whose server body is `{ message: "Invalid plate number" }`
      reports that message as the FAIL payload. */
  lemma InvalidPlateNumberExample(id: string, form: Value)
    ensures var body := Obj(map["message" := Str("Invalid plate number")]);
            Run(UpdateMotorcycle, id, form, HttpErr(body)).events[2] ==
              Dispatch(Action(Phased(UpdateMotorcycle, Fail), Some(Str("Invalid plate number"))))
  {
  }
}
