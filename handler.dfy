/**
 * The per-method handler of pkg/app/web/handler.go: the binding plan `parse`
 * builds once per route, the per-request argument binding of `call`, and the
 * type-directed response encoding of `responseData`.
 */
module Handlers {
  import opened Wrappers
  import opened Paths
  import opened Web

  /** The `reflect.Kind`s the engine tells apart. */
  datatype Kind = Invalid | Bool | Int | Uint | Float | String | Slice | Map | Ptr | Interface | Struct | Func | OtherKind

  /** A struct field as reflection reports it: its name and whether it is embedded. */
  datatype Field = Field(name: string, anonymous: bool)

  /** The factory's metadata for a type (`factory.MetaData`). */
  datatype MetaData = MetaData(name: string, contextAware: bool)

  /**
   * A parameter's indirect type (`reflector.IndirectType`): its name, kind,
   * fields (for a struct) and lower-camel full name, the dependency lookup key.
   */
  datatype TypeInfo = TypeInfo(name: string, kind: Kind, fields: seq<Field>, fullName: string)

  /**
   * A method parameter after the receiver: its declared type as printed, the
   * declared type's kind, its indirect type, and what the factory reports for
   * the indirect type (`GetInstance(iTyp, MetaData{})`).
   */
  datatype Param = Param(typ: string, typKind: Kind, indirect: TypeInfo, meta: Option<MetaData>)

  /** A method result's declared type. */
  datatype ResultType = ResultType(name: string, kind: Kind)

  /** A controller method: its name, its camel-case words, its parameters after the receiver and its results. */
  datatype Method = Method(name: string, tokens: seq<string>, params: seq<Param>, results: seq<ResultType>)

  /** The payload markers and the binder each one selects. */
  datatype Marker = FormMarker | ParamsMarker | BodyMarker

  function MarkerName(mk: Marker): string {
    match mk
    case FormMarker => "RequestForm"
    case ParamsMarker => "RequestParams"
    case BodyMarker => "RequestBody"
  }

  /** `requestSets`: the markers in the order `parse` tries them. */
  const RequestSets: seq<Marker> := [FormMarker, ParamsMarker, BodyMarker]

  /** The type name `call` recognises as the request context (`model.Context`). */
  const ContextTypeName: string := "Context"

  /** One request descriptor (`request`): what `call` needs to bind a parameter. */
  datatype Request = Request(typeName: string, name: string, fullName: string, kind: Kind,
                             pathIdx: nat, callback: Option<Marker>, typ: string)

  /** One response descriptor (`response`). */
  datatype Response = Response(typeName: string, kind: Kind)

  /** The binding plan a handler holds after `parse`, as a value. */
  datatype Plan = Plan(controller: string, methodName: string, numIn: nat, numOut: nat,
                       pathParams: seq<string>, requests: seq<Request>, responses: seq<Response>,
                       lenOfPathParams: nat, dependencies: seq<MetaData>)

  /** `iTyp.FieldByName(name)`, over the struct's own fields only: the field of that name. */
  function FieldNamed(fields: seq<Field>, name: string): (r: Option<Field>)
    ensures r.Some? ==> r.value in fields && r.value.name == name
    ensures r.None? ==> forall k :: 0 <= k < |fields| ==> fields[k].name != name
  {
    if fields == [] then None
    else if fields[0].name == name then Some(fields[0])
    else FieldNamed(fields[1..], name)
  }

  /** The struct embeds the marker: its field of the marker's name is anonymous. */
  predicate HasMarker(t: TypeInfo, mk: Marker) {
    var f := FieldNamed(t.fields, MarkerName(mk));
    f.Some? && f.value.anonymous
  }

  /** The first marker of `sets` that `t` embeds. */
  function FirstMarker(t: TypeInfo, sets: seq<Marker>): Option<Marker> {
    if sets == [] then None
    else if HasMarker(t, sets[0]) then Some(sets[0])
    else FirstMarker(t, sets[1..])
  }

  /** The decode callback `parse` records: only struct types are probed. */
  function MarkerOf(t: TypeInfo): Option<Marker> {
    if t.kind == Struct then FirstMarker(t, RequestSets) else None
  }

  /** The descriptor of the receiver, `requests[0]`. */
  function ReceiverRequest(controller: string): Request {
    Request(controller, "", "", Invalid, 0, None, controller)
  }

  /**
   * The descriptor of parameter `pi` (0-based after the receiver) given the
   * route's placeholder segments `pp` and its segments `segs`.
   */
  function RequestFor(p: Param, pi: nat, pp: seq<string>, segs: seq<string>): Request
    requires forall k :: 0 <= k < |pp| ==> IsPlaceholder(pp[k])
  {
    var callback := MarkerOf(p.indirect);
    Request(
      typeName := if callback.Some? then MarkerName(callback.value) else p.indirect.name,
      name := if pi < |pp| then PlaceholderName(pp[pi]) else "",
      fullName := p.indirect.fullName,
      kind := if p.typKind == Slice then Slice else p.indirect.kind,
      pathIdx := if pi < |pp| then IndexOfSegment(segs, pp[pi]).GetOr(0) else 0,
      callback := callback,
      typ := p.typ)
  }

  function PlaceholderNames(pp: seq<string>): (r: seq<string>)
    requires forall k :: 0 <= k < |pp| ==> IsPlaceholder(pp[k])
    ensures |r| == |pp|
    ensures forall k :: 0 <= k < |pp| ==> r[k] == PlaceholderName(pp[k])
  {
    if pp == [] then [] else [PlaceholderName(pp[0])] + PlaceholderNames(pp[1..])
  }

  /** The dependency a parameter contributes: its factory metadata when that is context-aware. */
  function DependencyOf(p: Param): seq<MetaData> {
    if p.meta.Some? && p.meta.value.contextAware then [p.meta.value] else []
  }

  /** The factory metadata of the parameters that are context-aware, in parameter order. */
  function ContextAwareDeps(params: seq<Param>): seq<MetaData>
    decreases |params|
  {
    if params == [] then []
    else ContextAwareDeps(params[..|params| - 1]) + DependencyOf(params[|params| - 1])
  }

  function ResponseFor(t: ResultType): Response {
    Response(t.name, t.kind)
  }

  /** The plan `parse(method, controller, path)` builds on a fresh handler. */
  function ParsePlan(m: Method, controller: string, path: string): (r: Plan)
    ensures r.numIn == 1 + |m.params| && |r.requests| == r.numIn
    ensures r.numOut == |m.results| && |r.responses| == r.numOut
  {
    var clean := Clean(path);
    var segs := Split(clean);
    var pp := PathPlaceholders(clean);
    Plan(controller, m.name, 1 + |m.params|, |m.results|, PlaceholderNames(pp),
         [ReceiverRequest(controller)] +
           seq(|m.params|, k requires 0 <= k < |m.params| => RequestFor(m.params[k], k, pp, segs)),
         seq(|m.results|, k requires 0 <= k < |m.results| => ResponseFor(m.results[k])),
         |pp|, ContextAwareDeps(m.params))
  }

  /** A plan whose descriptor arrays have the lengths `parse` gives them. */
  predicate WellFormed(p: Plan) {
    p.numIn >= 1 && |p.requests| == p.numIn && |p.responses| == p.numOut
  }

  // ---------------------------------------------------------------------------
  // Binding (`call`)
  // ---------------------------------------------------------------------------

  /** How `call` binds one parameter. */
  datatype Strategy = FromCallback(marker: Marker) | FromContext | FromPath(index: nat) | FromDependency(fullName: string)

  /** The strategy of a descriptor: callback, then context, then path, then dependency. */
  function StrategyOf(req: Request, lenOfPathParams: nat): (s: Strategy)
    ensures req.callback.Some? ==> s == FromCallback(req.callback.value)
    ensures s.FromContext? <==> req.callback.None? && req.kind == Interface && req.typeName == ContextTypeName
    ensures s.FromPath? <==>
              (req.callback.None? && !(req.kind == Interface && req.typeName == ContextTypeName) && lenOfPathParams != 0)
    ensures s.FromPath? ==> s.index == req.pathIdx
    ensures s.FromDependency? ==> s.fullName == req.fullName
    ensures s.FromDependency? <==>
              (req.callback.None? && lenOfPathParams == 0 && !(req.kind == Interface && req.typeName == ContextTypeName))
  {
    if req.callback.Some? then FromCallback(req.callback.value)
    else if req.kind == Interface && req.typeName == ContextTypeName then FromContext
    else if lenOfPathParams != 0 then FromPath(req.pathIdx)
    else FromDependency(req.fullName)
  }

  /** An argument as `call` passes it to the method. */
  datatype Arg = Receiver | Payload(index: nat, marker: Marker) | LiveContext
               | PathValue(segment: string, kind: Kind) | Injected(instance: string)

  /**
   * What `call` cannot see, as parameters: the request-scoped instances
   * (`InjectContextAwareObjects`), the factory's instances (`GetInstance`),
   * and the decode and validation outcomes for the payload of parameter `i`.
   */
  datatype Env = Env(scoped: map<string, string>, factory: map<string, string>,
                     decode: (Marker, nat) -> Outcome, validate: nat -> Outcome)

  /** The decode outcome of the callback for marker `mk` on parameter `i`. */
  function CallbackDecode(h: Host, env: Env, mk: Marker, i: nat): Outcome {
    match mk
    case FormMarker => env.decode(mk, i)
    case ParamsMarker => ParamsDecode(h, env.decode(mk, i))
    case BodyMarker => env.decode(mk, i)
  }

  /** The `requestEx` decision of the callback on parameter `i`. */
  function CallbackCheck(h: Host, env: Env, mk: Marker, i: nat): Option<(string, int)> {
    PayloadCheck(Some(CallbackDecode(h, env, mk, i)), env.validate(i))
  }

  /** A dependency: the request-scoped set first (only when the plan has dependencies), then the factory. */
  function Resolve(p: Plan, env: Env, fullName: string): (r: Option<string>)
    ensures |p.dependencies| > 0 && fullName in env.scoped ==> r == Some(env.scoped[fullName])
    ensures !(|p.dependencies| > 0 && fullName in env.scoped) && fullName in env.factory ==> r == Some(env.factory[fullName])
    ensures r.None? <==> fullName !in env.factory && (|p.dependencies| == 0 || fullName !in env.scoped)
  {
    if |p.dependencies| > 0 && fullName in env.scoped then Some(env.scoped[fullName])
    else if fullName in env.factory then Some(env.factory[fullName])
    else None
  }

  function UnsupportedMessage(typ: string): string {
    "input type: " + typ + " is not supported!"
  }

  /** The request path split at "/" when the plan has path parameters, nil otherwise. */
  function PathValues(p: Plan, h: Host): seq<string> {
    if p.lenOfPathParams != 0 then Split(h.path) else []
  }

  /** How binding the parameters ends: all bound, or the loop left early. */
  datatype BindResult =
    | Complete(args: seq<Arg>, reqErr: Option<string>, out: Output)
    | Unsupported(index: nat, out: Output)
    | PathPanic(index: nat, out: Output)

  /** One turn of the binding loop: the argument and new `reqErr`, or why the loop stops. */
  datatype Step = Bound(arg: Arg, reqErr: Option<string>) | NotSupported | OutOfRange

  /** What binding parameter `i` (descriptor `req`) does, given `reqErr` and the answer so far. */
  function StepOf(p: Plan, h: Host, env: Env, req: Request, i: nat, reqErr: Option<string>, out: Output): (Step, Output) {
    match StrategyOf(req, p.lenOfPathParams)
    case FromCallback(mk) =>
      var r := CallbackCheck(h, env, mk, i);
      (Bound(Payload(i, mk), PayloadError(r)), AfterPayload(h, out, r))
    case FromContext => (Bound(LiveContext, reqErr), out)
    case FromPath(idx) =>
      var pvs := PathValues(p, h);
      if idx < |pvs| then (Bound(PathValue(pvs[idx], req.kind), reqErr), out) else (OutOfRange, out)
    case FromDependency(n) =>
      match Resolve(p, env, n)
      case Some(x) => (Bound(Injected(x), reqErr), out)
      case None => (NotSupported, AfterError(h, out, UnsupportedMessage(req.typ), StatusInternalServerError))
  }

  /** The binding loop of `call` from parameter `i` on, with the arguments, `reqErr` and answer so far. */
  function BindFrom(p: Plan, h: Host, env: Env, i: nat, args: seq<Arg>, reqErr: Option<string>, out: Output): BindResult
    requires WellFormed(p)
    decreases p.numIn - i
  {
    if i >= p.numIn then Complete(args, reqErr, out)
    else
      match StepOf(p, h, env, p.requests[i], i, reqErr, out)
      case (Bound(a, e), o) => BindFrom(p, h, env, i + 1, args + [a], e, o)
      case (NotSupported, o) => Unsupported(i, o)
      case (OutOfRange, o) => PathPanic(i, o)
  }

  // ---------------------------------------------------------------------------
  // Encoding (`responseData`)
  // ---------------------------------------------------------------------------

  /**
   * A result value as `responseData` sees it: not interfaceable, nil, a string,
   * an error (with its message), a `model.Response`, a
   * `map[string]interface{}`, or anything else.
   */
  datatype Value = Hidden | Nil | Str(s: string) | ErrorValue(message: string)
                 | ResponseValue(envelope: Envelope) | MapValue(id: string) | OtherValue

  const ErrCanNotInterface: string := "response can not interface"
  const ErrResponseIsNil: string := "response is nil"
  const NotImplemented: string := "response type is not implemented!"
  const Success: string := "success"

  /**
   * The error carried by a second result whose declared type is named
   * `declared` (the name `reflect.Call` reports for it): none for nil, and
   * none either unless the declared type is named "error".
   */
  function SecondError(declared: string, v: Value): Option<string> {
    match v
    case ErrorValue(m) => if declared == "error" then Some(m) else None
    case _ => None
  }

  /** The envelope sent for a structured response and the status it sets, if any. */
  function StructuredReply(loc: Locale, numOut: nat, env: Envelope, second: Option<string>): (Envelope, Option<int>) {
    if numOut < 2 then (env, None)
    else match second
      case None => (env.(code := StatusOK, message := Translate(loc, Success)), None)
      case Some(e) =>
        var code := if env.code == 0 then StatusInternalServerError else env.code;
        (env.(code := code, message := Translate(loc, e)), Some(code))
  }

  function Write(o: Output, b: Body): Output {
    Output(o.status, o.bodies + [b])
  }

  /**
   * `responseData`: the error it returns and the answer it leaves, for the
   * results of a method whose result descriptors are `responses`.
   */
  function Encode(h: Host, responses: seq<Response>, results: seq<Value>, o: Output): (Option<string>, Output)
    requires |results| == |responses|
  {
    var numOut := |responses|;
    if numOut == 0 then (None, Output(StatusOK, o.bodies))
    else match results[0]
      case Hidden => (Some(ErrCanNotInterface), AfterError(h, o, ErrCanNotInterface, StatusInternalServerError))
      case Nil => (Some(ErrResponseIsNil), o)
      case Str(s) => (None, Write(o, Text(TranslateRaw(h.locale, s))))
      case ErrorValue(m) => (None, AfterError(h, o, m, StatusInternalServerError))
      case ResponseValue(env) =>
        var second := if numOut >= 2 then SecondError(responses[1].typeName, results[1]) else None;
        var (reply, status) := StructuredReply(h.locale, numOut, env, second);
        var o' := if status.Some? then Output(status.value, o.bodies) else o;
        (None, Write(o', JsonBody(EnvelopeJson(reply))))
      case MapValue(id) => (None, Write(o, JsonBody(MapJson(id))))
      case OtherValue => (None, AfterError(h, o, NotImplemented, StatusInternalServerError))
  }

  /** What one `call` does: the method ran, or why it did not. */
  datatype CallResult =
    | Invoked(args: seq<Arg>, encodeErr: Option<string>)
    | Rejected(reqErr: string)
    | Aborted(index: nat)
    | Panicked(index: nat)

  /** `call`: bind from parameter 1 with the receiver in place, then run and encode when `reqErr` is nil. */
  function CallSpec(p: Plan, h: Host, env: Env, results: seq<Value>, out: Output): (CallResult, Output)
    requires WellFormed(p) && |results| == p.numOut
  {
    match BindFrom(p, h, env, 1, [Receiver], None, out)
    case Complete(args, reqErr, o) =>
      if reqErr.None? then
        var (e, o') := Encode(h, p.responses, results, o);
        (Invoked(args, e), o')
      else (Rejected(reqErr.value), o)
    case Unsupported(i, o) => (Aborted(i), o)
    case PathPanic(i, o) => (Panicked(i), o)
  }

  // ---------------------------------------------------------------------------
  // The handler object
  // ---------------------------------------------------------------------------

  /** The loop of `parse` that finds where a placeholder sits among the segments: the first match, else 0. */
  method FindSegment(pps: seq<string>, x: string) returns (idx: nat)
    ensures idx == IndexOfSegment(pps, x).GetOr(0)
  {
    idx := 0;
    var k := 0;
    while k < |pps|
      invariant 0 <= k <= |pps|
      invariant forall j :: 0 <= j < k ==> pps[j] != x
    {
      if pps[k] == x {
        assert pps[IndexOfSegment(pps, x).value] == x;
        idx := k;
        return;
      }
      k := k + 1;
    }
  }

  /** The loop of `parse` over `requestSets`: the first marker the struct embeds. */
  method FindMarker(t: TypeInfo) returns (callback: Option<Marker>)
    ensures callback == MarkerOf(t)
  {
    callback := None;
    if t.kind == Struct {
      var k := 0;
      while k < |RequestSets|
        invariant 0 <= k <= |RequestSets|
        invariant MarkerOf(t) == FirstMarker(t, RequestSets[k..])
      {
        var tn := RequestSets[k];
        var field := FieldNamed(t.fields, MarkerName(tn));
        if field.Some? && field.value.anonymous {
          callback := Some(tn);
          return;
        }
        k := k + 1;
      }
    }
  }

  class Handler {
    var controller: string
    var methodName: string
    var numIn: nat
    var numOut: nat
    var pathParams: seq<string>
    var requests: array<Request>
    var responses: array<Response>
    var lenOfPathParams: nat
    var dependencies: seq<MetaData>

    /** `new(handler)`: nothing parsed yet. */
    constructor ()
      ensures numIn == 0 && numOut == 0 && lenOfPathParams == 0
      ensures pathParams == [] && dependencies == []
      ensures requests.Length == 0 && responses.Length == 0
    {
      controller, methodName := "", "";
      numIn, numOut := 0, 0;
      pathParams := [];
      requests := new Request[0];
      responses := new Response[0];
      lenOfPathParams := 0;
      dependencies := [];
    }

    /** The descriptor arrays have the lengths the counts say. */
    ghost predicate Valid()
      reads this
    {
      numIn >= 1 && requests.Length == numIn && responses.Length == numOut
    }

    /** The handler's binding plan as a value. */
    function AsPlan(): Plan
      reads this, requests, responses
    {
      Plan(controller, methodName, numIn, numOut, pathParams, requests[..], responses[..], lenOfPathParams, dependencies)
    }

    /**
     * `parse`: records the method, builds the descriptors from the cleaned
     * path and the parameter types, and appends the context-aware
     * dependencies to those already held.
     */
    method Parse(m: Method, ctl: string, path: string)
      modifies this
      ensures Valid() && fresh(requests) && fresh(responses)
      ensures AsPlan() == ParsePlan(m, ctl, path).(dependencies := old(dependencies) + ContextAwareDeps(m.params))
    {
      var p := Clean(path);
      var pps := Split(p);
      var pp := PathPlaceholders(p);
      var names := ParseNames(pp);
      var reqs, deps := ParseRequests(m, ctl, pp, pps);
      var resps := ParseResponses(m.results);
      controller, methodName := ctl, m.name;
      numIn, numOut := 1 + |m.params|, |m.results|;
      pathParams := names;
      requests := reqs;
      lenOfPathParams := |pp|;
      dependencies := dependencies + deps;
      responses := resps;
      assert AsPlan() == Plan(ctl, m.name, 1 + |m.params|, |m.results|, names, reqs[..], resps[..], |pp|, dependencies);
    }

    /**
     * `responseData`: encodes the results of this handler's method into the
     * answer and returns its error.
     */
    method ResponseData(ctx: Context, numOut: nat, results: seq<Value>) returns (err: Option<string>)
      requires Valid() && numOut == this.numOut && |results| == numOut
      modifies ctx
      ensures (err, ctx.Out()) == Encode(ctx.host, responses[..], results, old(ctx.Out()))
    {
      err := None;
      if numOut == 0 {
        ctx.StatusCode(StatusOK);
        return;
      }
      match results[0]
      case Hidden =>
        err := Some(ErrCanNotInterface);
        ctx.ResponseError(ErrCanNotInterface, StatusInternalServerError);
      case Nil =>
        err := Some(ErrResponseIsNil);
      case Str(s) =>
        ctx.ResponseString(s);
      case ErrorValue(m) =>
        ctx.ResponseError(m, StatusInternalServerError);
      case ResponseValue(response) =>
        if numOut >= 2 {
          var respErr := SecondError(responses[1].typeName, results[1]);
          if respErr.None? {
            response := response.(code := StatusOK, message := Translate(ctx.host.locale, Success));
          } else {
            if response.code == 0 {
              response := response.(code := StatusInternalServerError);
            }
            response := response.(message := Translate(ctx.host.locale, respErr.value));
            ctx.StatusCode(response.code);
          }
        }
        ctx.JSON(EnvelopeJson(response));
      case MapValue(id) =>
        ctx.JSON(MapJson(id));
      case OtherValue =>
        ctx.ResponseError(NotImplemented, StatusInternalServerError);
    }

    /** The body of the binding loop of `call` for parameter `i`. */
    method BindParam(ctx: Context, env: Env, i: nat, pvs: seq<string>, reqErr: Option<string>) returns (step: Step)
      requires Valid() && 1 <= i < numIn && pvs == PathValues(AsPlan(), ctx.host)
      modifies ctx
      ensures (step, ctx.Out()) == StepOf(AsPlan(), ctx.host, env, requests[i], i, reqErr, old(ctx.Out()))
    {
      var req := requests[i];
      if req.callback.Some? {
        var mk := req.callback.value;
        var err;
        match mk {
          case FormMarker =>
            err := RequestForm(ctx, env.decode(mk, i), env.validate(i));
          case ParamsMarker =>
            err := RequestParams(ctx, env.decode(mk, i), env.validate(i));
          case BodyMarker =>
            err := RequestBody(ctx, env.decode(mk, i), env.validate(i));
        }
        return Bound(Payload(i, mk), err);
      } else if req.kind == Interface && req.typeName == ContextTypeName {
        return Bound(LiveContext, reqErr);
      } else if lenOfPathParams != 0 {
        if req.pathIdx >= |pvs| {
          return OutOfRange;
        }
        return Bound(PathValue(pvs[req.pathIdx], req.kind), reqErr);
      } else {
        var inst: Option<string> := None;
        if |dependencies| > 0 && req.fullName in env.scoped {
          inst := Some(env.scoped[req.fullName]);
        }
        if inst.None? && req.fullName in env.factory {
          inst := Some(env.factory[req.fullName]);
        }
        if inst.Some? {
          return Bound(Injected(inst.value), reqErr);
        }
        ctx.ResponseError(UnsupportedMessage(req.typ), StatusInternalServerError);
        return NotSupported;
      }
    }

    /**
     * `call`: binds every parameter after the receiver in order, leaving early
     * on an unresolvable dependency or an out-of-range path index, then runs
     * the method (whose results are given) and encodes them when the last
     * payload callback reported no error.
     */
    method Call(ctx: Context, env: Env, results: seq<Value>) returns (r: CallResult)
      requires Valid() && |results| == numOut
      modifies ctx
      ensures (r, ctx.Out()) == CallSpec(AsPlan(), ctx.host, env, results, old(ctx.Out()))
    {
      ghost var plan := AsPlan();
      var pvs: seq<string> := [];
      if lenOfPathParams != 0 {
        pvs := Split(ctx.host.path);
      }
      var inputs := new Arg[numIn](_ => Receiver);
      inputs[0] := Receiver;
      assert inputs[..1] == [Receiver];
      var reqErr: Option<string> := None;
      var i := 1;
      while i < numIn
        invariant 1 <= i <= numIn && inputs.Length == numIn
        invariant pvs == PathValues(plan, ctx.host)
        invariant BindFrom(plan, ctx.host, env, i, inputs[..i], reqErr, ctx.Out())
               == BindFrom(plan, ctx.host, env, 1, [Receiver], None, old(ctx.Out()))
      {
        var step := BindParam(ctx, env, i, pvs, reqErr);
        match step {
          case Bound(a, e) =>
            inputs[i] := a;
            assert inputs[..i + 1] == inputs[..i] + [a];
            reqErr := e;
          case NotSupported =>
            return Aborted(i);
          case OutOfRange =>
            return Panicked(i);
        }
        i := i + 1;
      }
      assert inputs[..] == inputs[..i];
      if reqErr.None? {
        var e := ResponseData(ctx, numOut, results);
        return Invoked(inputs[..], e);
      }
      return Rejected(reqErr.value);
    }
  }

  /** The names of the placeholders, as `parse` stores them in `pathParams`. */
  method ParseNames(pp: seq<string>) returns (names: seq<string>)
    requires forall k :: 0 <= k < |pp| ==> IsPlaceholder(pp[k])
    ensures names == PlaceholderNames(pp)
  {
    names := [];
    var j := 0;
    while j < |pp|
      invariant 0 <= j <= |pp|
      invariant |names| == j && forall k :: 0 <= k < j ==> names[k] == PlaceholderName(pp[k])
    {
      names := names + [PlaceholderName(pp[j])];
      j := j + 1;
    }
  }

  /** The first `i` entries of `reqs` are the receiver's descriptor and then the planned one per parameter. */
  ghost predicate DescribedUpTo(reqs: seq<Request>, i: nat, m: Method, ctl: string, pp: seq<string>, pps: seq<string>)
  {
    && (forall k :: 0 <= k < |pp| ==> IsPlaceholder(pp[k]))
    && 1 <= i <= |reqs| && i <= 1 + |m.params|
    && reqs[0] == ReceiverRequest(ctl)
    && forall k :: 1 <= k < i ==> reqs[k] == RequestFor(m.params[k - 1], k - 1, pp, pps)
  }

  /** Writing the next planned descriptor extends the described prefix by one. */
  lemma DescribedStep(before: seq<Request>, after: seq<Request>, i: nat, m: Method, ctl: string, pp: seq<string>, pps: seq<string>)
    requires DescribedUpTo(before, i, m, ctl, pp, pps) && i < |before| && i < 1 + |m.params|
    requires |after| == |before| && after[..i] == before[..i]
    requires after[i] == RequestFor(m.params[i - 1], i - 1, pp, pps)
    ensures DescribedUpTo(after, i + 1, m, ctl, pp, pps)
  {
    forall k | 0 <= k < i ensures after[k] == before[k] {
      assert after[k] == after[..i][k];
    }
  }

  /** A fully described table is the planned one. */
  lemma RequestTable(reqs: seq<Request>, m: Method, ctl: string, pp: seq<string>, pps: seq<string>)
    requires DescribedUpTo(reqs, |reqs|, m, ctl, pp, pps) && |reqs| == 1 + |m.params|
    ensures reqs == [ReceiverRequest(ctl)] + seq(|m.params|, k requires 0 <= k < |m.params| => RequestFor(m.params[k], k, pp, pps))
  {
    var want := [ReceiverRequest(ctl)] + seq(|m.params|, k requires 0 <= k < |m.params| => RequestFor(m.params[k], k, pp, pps));
    forall k | 1 <= k < |reqs| ensures reqs[k] == want[k] {
      assert want[k] == RequestFor(m.params[k - 1], k - 1, pp, pps);
    }
  }

  /** One turn of the parameter loop of `parse`: the descriptor of parameter `pi`. */
  method DescribeParam(prm: Param, pi: nat, pp: seq<string>, pps: seq<string>) returns (req: Request)
    requires forall k :: 0 <= k < |pp| ==> IsPlaceholder(pp[k])
    ensures req == RequestFor(prm, pi, pp, pps)
  {
    var kind := if prm.typKind == Slice then Slice else prm.indirect.kind;
    var name := "";
    var pathIdx := 0;
    if pi < |pp| {
      name := PlaceholderName(pp[pi]);
      pathIdx := FindSegment(pps, pp[pi]);
    }
    var typeName := prm.indirect.name;
    var callback := FindMarker(prm.indirect);
    if callback.Some? {
      typeName := MarkerName(callback.value);
    }
    req := Request(typeName, name, prm.indirect.fullName, kind, pathIdx, callback, prm.typ);
  }

  /** The parameter loop of `parse`: the request descriptors and the context-aware dependencies found. */
  method ParseRequests(m: Method, ctl: string, pp: seq<string>, pps: seq<string>) returns (reqs: array<Request>, deps: seq<MetaData>)
    requires forall k :: 0 <= k < |pp| ==> IsPlaceholder(pp[k])
    ensures fresh(reqs)
    ensures reqs[..] == [ReceiverRequest(ctl)] + seq(|m.params|, k requires 0 <= k < |m.params| => RequestFor(m.params[k], k, pp, pps))
    ensures deps == ContextAwareDeps(m.params)
  {
    var numIn := 1 + |m.params|;
    reqs := new Request[numIn];
    reqs[0] := ReceiverRequest(ctl);
    deps := [];
    var i := 1;
    while i < numIn
      invariant reqs.Length == numIn
      invariant DescribedUpTo(reqs[..], i, m, ctl, pp, pps)
      invariant deps == ContextAwareDeps(m.params[..i - 1])
    {
      var prm := m.params[i - 1];
      assert m.params[..i][..i - 1] == m.params[..i - 1];
      deps := deps + DependencyOf(prm);
      var req := DescribeParam(prm, i - 1, pp, pps);
      ghost var before := reqs[..];
      reqs[i] := req;
      DescribedStep(before, reqs[..], i, m, ctl, pp, pps);
      i := i + 1;
    }
    assert m.params[..i - 1] == m.params;
    RequestTable(reqs[..], m, ctl, pp, pps);
  }

  /** The result loop of `parse`: one response descriptor per result. */
  method ParseResponses(results: seq<ResultType>) returns (resps: array<Response>)
    ensures fresh(resps)
    ensures resps[..] == seq(|results|, k requires 0 <= k < |results| => ResponseFor(results[k]))
  {
    resps := new Response[|results|](_ => Response("", Invalid));
    var o := 0;
    while o < |results|
      invariant 0 <= o <= |results| && resps.Length == |results|
      invariant forall k :: 0 <= k < o ==> resps[k] == ResponseFor(results[k])
    {
      resps[o] := ResponseFor(results[o]);
      o := o + 1;
    }
  }

  // ---------------------------------------------------------------------------
  // Properties of the plan
  // ---------------------------------------------------------------------------

  /**
   * Parameter `i` (counting the receiver as 0) takes the i-th placeholder of
   * the cleaned path: its name, and the index of the first segment that is
   * that placeholder. A parameter past the last placeholder keeps index 0 and
   * no name.
   */
  lemma ParsedPathIndex(m: Method, ctl: string, path: string, i: nat)
    requires 1 <= i <= |m.params|
    ensures var req := ParsePlan(m, ctl, path).requests[i];
            var segs := Split(Clean(path));
            var pp := PathPlaceholders(Clean(path));
            && (i - 1 < |pp| ==>
                && req.pathIdx < |segs| && segs[req.pathIdx] == pp[i - 1]
                && IsPlaceholder(segs[req.pathIdx]) && req.name == PlaceholderName(segs[req.pathIdx])
                && forall j :: 0 <= j < req.pathIdx ==> segs[j] != segs[req.pathIdx])
            && (i - 1 >= |pp| ==> req.pathIdx == 0 && req.name == "")
  {
    var segs := Split(Clean(path));
    var pp := PathPlaceholders(Clean(path));
    var req := ParsePlan(m, ctl, path).requests[i];
    assert req == RequestFor(m.params[i - 1], i - 1, pp, segs);
    if i - 1 < |pp| {
      PlaceholderIsSegment(segs, i - 1);
      assert IndexOfSegment(segs, pp[i - 1]).Some?;
    }
  }

  /**
   * The path parameters of a plan are the names of the placeholders of the
   * path as given, in order: cleaning neither adds nor removes one.
   */
  lemma ParsedPathParams(m: Method, ctl: string, path: string)
    ensures var p := ParsePlan(m, ctl, path);
            var pp := PathPlaceholders(path);
            && p.lenOfPathParams == |pp| == |p.pathParams| && p.requests[0] == ReceiverRequest(ctl)
            && forall k :: 0 <= k < |pp| ==> p.pathParams[k] == PlaceholderName(pp[k])
  {
    CleanKeepsPlaceholders(path);
  }

  /** The markers are tried in the order form, params, body, and only an embedded field on a struct counts. */
  lemma MarkerPrecedence(t: TypeInfo)
    ensures MarkerOf(t) == Some(FormMarker) <==> t.kind == Struct && HasMarker(t, FormMarker)
    ensures MarkerOf(t) == Some(ParamsMarker) <==>
              t.kind == Struct && !HasMarker(t, FormMarker) && HasMarker(t, ParamsMarker)
    ensures MarkerOf(t) == Some(BodyMarker) <==>
              t.kind == Struct && !HasMarker(t, FormMarker) && !HasMarker(t, ParamsMarker) && HasMarker(t, BodyMarker)
  {
    var sets := RequestSets;
    assert sets[0] == FormMarker && sets[1..] == [ParamsMarker, BodyMarker];
    assert sets[1..][1..] == [BodyMarker] && sets[1..][1..][1..] == [];
    assert FirstMarker(t, [BodyMarker]) == if HasMarker(t, BodyMarker) then Some(BodyMarker) else None;
    assert FirstMarker(t, [ParamsMarker, BodyMarker])
        == if HasMarker(t, ParamsMarker) then Some(ParamsMarker) else FirstMarker(t, [BodyMarker]);
    assert FirstMarker(t, sets)
        == if HasMarker(t, FormMarker) then Some(FormMarker) else FirstMarker(t, [ParamsMarker, BodyMarker]);
  }

  /** The dependencies are exactly the context-aware parameter types, at most one per parameter. */
  lemma {:induction false} ContextAwareDepsExact(params: seq<Param>)
    ensures forall d :: d in ContextAwareDeps(params) ==> d.contextAware
    ensures forall k :: 0 <= k < |params| && params[k].meta.Some? && params[k].meta.value.contextAware ==>
              params[k].meta.value in ContextAwareDeps(params)
    ensures |ContextAwareDeps(params)| <= |params|
    decreases |params|
  {
    if params != [] {
      var init := params[..|params| - 1];
      ContextAwareDepsExact(init);
      assert forall k :: 0 <= k < |init| ==> init[k] == params[k];
    }
  }

  /**
   * The dependencies of consecutive parameter lists are those of each list in
   * turn: `parse` appends them in parameter order.
   */
  lemma {:induction false} ContextAwareDepsAppend(a: seq<Param>, b: seq<Param>)
    ensures ContextAwareDeps(a + b) == ContextAwareDeps(a) + ContextAwareDeps(b)
    decreases |b|
  {
    if b == [] {
      assert a + b == a;
    } else {
      var init := b[..|b| - 1];
      assert (a + b)[..|a + b| - 1] == a + init;
      assert (a + b)[|a + b| - 1] == b[|b| - 1];
      ContextAwareDepsAppend(a, init);
    }
  }

  /** A single parameter contributes its metadata exactly when it is context-aware. */
  lemma ContextAwareDepsSingle(p: Param)
    ensures ContextAwareDeps([p]) == (if p.meta.Some? && p.meta.value.contextAware then [p.meta.value] else [])
  {
    assert [p][..0] == [];
  }

  /**
   * With path parameters, every parameter that is neither a payload nor the
   * context is bound from the path, and one past the last placeholder reads
   * segment 0 of the request path.
   */
  lemma ExtraParamReadsFirstSegment(m: Method, ctl: string, path: string, i: nat)
    requires 1 <= i <= |m.params|
    requires 0 < |PathPlaceholders(Clean(path))| <= i - 1
    requires MarkerOf(m.params[i - 1].indirect).None?
    requires !(ParsePlan(m, ctl, path).requests[i].kind == Interface && m.params[i - 1].indirect.name == ContextTypeName)
    ensures var p := ParsePlan(m, ctl, path);
            StrategyOf(p.requests[i], p.lenOfPathParams) == FromPath(0)
  {
    ParsedPathIndex(m, ctl, path, i);
  }

  // ---------------------------------------------------------------------------
  // Properties of binding
  // ---------------------------------------------------------------------------

  /** Parameter `k` can be bound: its path index is in range, or its dependency resolves. */
  predicate Bindable(p: Plan, h: Host, env: Env, k: nat)
    requires WellFormed(p) && k < p.numIn
  {
    match StrategyOf(p.requests[k], p.lenOfPathParams)
    case FromPath(idx) => idx < |PathValues(p, h)|
    case FromDependency(n) => Resolve(p, env, n).Some?
    case _ => true
  }

  /** The argument parameter `k` receives under its strategy. */
  predicate ArgFits(p: Plan, h: Host, env: Env, k: nat, a: Arg)
    requires WellFormed(p) && k < p.numIn
  {
    match StrategyOf(p.requests[k], p.lenOfPathParams)
    case FromCallback(mk) => a == Payload(k, mk)
    case FromContext => a == LiveContext
    case FromPath(idx) => idx < |PathValues(p, h)| && a == PathValue(PathValues(p, h)[idx], p.requests[k].kind)
    case FromDependency(n) => Resolve(p, env, n).Some? && a == Injected(Resolve(p, env, n).value)
  }

  /** One binding step binds exactly a bindable parameter, with the argument its strategy names. */
  lemma StepFacts(p: Plan, h: Host, env: Env, i: nat, e: Option<string>, o: Output)
    requires WellFormed(p) && i < p.numIn
    ensures var st := StepOf(p, h, env, p.requests[i], i, e, o).0;
            && (st.Bound? <==> Bindable(p, h, env, i))
            && (st.Bound? ==> ArgFits(p, h, env, i, st.arg))
            && (st.NotSupported? ==> StrategyOf(p.requests[i], p.lenOfPathParams).FromDependency?)
            && (st.OutOfRange? ==> StrategyOf(p.requests[i], p.lenOfPathParams).FromPath?)
  {
  }

  /** Binding completes exactly when every remaining parameter is bindable, each with the argument its strategy names. */
  lemma {:induction false} BindFromComplete(p: Plan, h: Host, env: Env, i: nat, args: seq<Arg>, e: Option<string>, o: Output)
    requires WellFormed(p) && 1 <= i <= p.numIn && |args| == i
    ensures var r := BindFrom(p, h, env, i, args, e, o);
            && (r.Complete? <==> forall k :: i <= k < p.numIn ==> Bindable(p, h, env, k))
            && (r.Complete? ==>
                  && |r.args| == p.numIn && r.args[..i] == args
                  && forall k :: i <= k < p.numIn ==> ArgFits(p, h, env, k, r.args[k]))
    decreases p.numIn - i
  {
    if i < p.numIn {
      StepFacts(p, h, env, i, e, o);
      var (st, o') := StepOf(p, h, env, p.requests[i], i, e, o);
      if st.Bound? {
        BindFromComplete(p, h, env, i + 1, args + [st.arg], st.reqErr, o');
        var r := BindFrom(p, h, env, i + 1, args + [st.arg], st.reqErr, o');
        assert BindFrom(p, h, env, i, args, e, o) == r;
        if r.Complete? {
          assert r.args[..i] == (r.args[..i + 1])[..i];
          assert r.args[i] == (r.args[..i + 1])[i];
        }
      }
    }
  }

  /** Binding stops at the first unbindable parameter, for the reason its strategy gives. */
  lemma {:induction false} BindFromStops(p: Plan, h: Host, env: Env, i: nat, args: seq<Arg>, e: Option<string>, o: Output)
    requires WellFormed(p) && 1 <= i <= p.numIn
    ensures var r := BindFrom(p, h, env, i, args, e, o);
            && (r.Unsupported? ==>
                  && i <= r.index < p.numIn && !Bindable(p, h, env, r.index)
                  && StrategyOf(p.requests[r.index], p.lenOfPathParams).FromDependency?
                  && forall k :: i <= k < r.index ==> Bindable(p, h, env, k))
            && (r.PathPanic? ==>
                  && i <= r.index < p.numIn && !Bindable(p, h, env, r.index)
                  && StrategyOf(p.requests[r.index], p.lenOfPathParams).FromPath?
                  && forall k :: i <= k < r.index ==> Bindable(p, h, env, k))
    decreases p.numIn - i
  {
    if i < p.numIn {
      StepFacts(p, h, env, i, e, o);
      var (st, o') := StepOf(p, h, env, p.requests[i], i, e, o);
      if st.Bound? {
        BindFromStops(p, h, env, i + 1, args + [st.arg], st.reqErr, o');
        assert BindFrom(p, h, env, i, args, e, o) == BindFrom(p, h, env, i + 1, args + [st.arg], st.reqErr, o');
      }
    }
  }

  /**
   * The binding loop runs to the end exactly when every remaining parameter
   * is bindable, and then each gets the argument its strategy names; it
   * stops at the first unbindable one, for the reason its strategy gives.
   */
  lemma BindFromShape(p: Plan, h: Host, env: Env, i: nat, args: seq<Arg>, e: Option<string>, o: Output)
    requires WellFormed(p) && 1 <= i <= p.numIn && |args| == i
    ensures var r := BindFrom(p, h, env, i, args, e, o);
            && (r.Complete? <==> forall k :: i <= k < p.numIn ==> Bindable(p, h, env, k))
            && (r.Complete? ==>
                  && |r.args| == p.numIn && r.args[..i] == args
                  && forall k :: i <= k < p.numIn ==> ArgFits(p, h, env, k, r.args[k]))
            && (r.Unsupported? ==>
                  && i <= r.index < p.numIn && !Bindable(p, h, env, r.index)
                  && StrategyOf(p.requests[r.index], p.lenOfPathParams).FromDependency?
                  && forall k :: i <= k < r.index ==> Bindable(p, h, env, k))
            && (r.PathPanic? ==>
                  && i <= r.index < p.numIn && !Bindable(p, h, env, r.index)
                  && StrategyOf(p.requests[r.index], p.lenOfPathParams).FromPath?
                  && forall k :: i <= k < r.index ==> Bindable(p, h, env, k))
  {
    BindFromComplete(p, h, env, i, args, e, o);
    BindFromStops(p, h, env, i, args, e, o);
  }



  /** The error of the last payload callback among parameters `i` to `n - 1`, or `e` when there is none. */
  function LastCallbackError(p: Plan, h: Host, env: Env, n: nat, i: nat, e: Option<string>): Option<string>
    requires WellFormed(p) && n <= p.numIn
    decreases n
  {
    if n <= i then e
    else match StrategyOf(p.requests[n - 1], p.lenOfPathParams)
      case FromCallback(mk) => PayloadError(CallbackCheck(h, env, mk, n - 1))
      case _ => LastCallbackError(p, h, env, n - 1, i, e)
  }

  lemma {:induction false} LastCallbackStep(p: Plan, h: Host, env: Env, n: nat, i: nat, e: Option<string>, e': Option<string>)
    requires WellFormed(p) && i < n <= p.numIn
    requires StrategyOf(p.requests[i], p.lenOfPathParams).FromCallback? ==>
               e' == PayloadError(CallbackCheck(h, env, StrategyOf(p.requests[i], p.lenOfPathParams).marker, i))
    requires !StrategyOf(p.requests[i], p.lenOfPathParams).FromCallback? ==> e' == e
    ensures LastCallbackError(p, h, env, n, i + 1, e') == LastCallbackError(p, h, env, n, i, e)
    decreases n
  {
    if n > i + 1 {
      LastCallbackStep(p, h, env, n - 1, i, e, e');
    }
  }

  /** Each callback overwrites `reqErr`: after the loop it holds the last callback's error. */
  lemma {:induction false} BindFromReqErr(p: Plan, h: Host, env: Env, i: nat, args: seq<Arg>, e: Option<string>, o: Output)
    requires WellFormed(p) && 1 <= i <= p.numIn
    ensures var r := BindFrom(p, h, env, i, args, e, o);
            r.Complete? ==> r.reqErr == LastCallbackError(p, h, env, p.numIn, i, e)
    decreases p.numIn - i
  {
    if i < p.numIn {
      match StepOf(p, h, env, p.requests[i], i, e, o)
      case (Bound(a, e'), o') =>
        BindFromReqErr(p, h, env, i + 1, args + [a], e', o');
        LastCallbackStep(p, h, env, p.numIn, i, e, e');
      case (NotSupported, _) =>
      case (OutOfRange, _) =>
    }
  }

  /**
   * `call` invokes the method exactly when every parameter is bindable and
   * the last payload callback accepted its payload; the arguments are the
   * receiver followed by what each strategy names.
   */
  lemma CallOutcome(p: Plan, h: Host, env: Env, results: seq<Value>, out: Output)
    requires WellFormed(p) && |results| == p.numOut
    ensures var r := CallSpec(p, h, env, results, out).0;
            && (r.Invoked? <==> ((forall k :: 1 <= k < p.numIn ==> Bindable(p, h, env, k)) &&
                                 LastCallbackError(p, h, env, p.numIn, 1, None).None?))
            && (r.Rejected? <==> ((forall k :: 1 <= k < p.numIn ==> Bindable(p, h, env, k)) &&
                                  LastCallbackError(p, h, env, p.numIn, 1, None).Some?))
            && (r.Rejected? ==> LastCallbackError(p, h, env, p.numIn, 1, None) == Some(r.reqErr))
            && (r.Invoked? ==>
                  && |r.args| == p.numIn && r.args[0] == Receiver
                  && forall k :: 1 <= k < p.numIn ==> ArgFits(p, h, env, k, r.args[k]))
  {
    BindFromShape(p, h, env, 1, [Receiver], None, out);
    BindFromReqErr(p, h, env, 1, [Receiver], None, out);
    var b := BindFrom(p, h, env, 1, [Receiver], None, out);
    if b.Complete? {
      assert b.args[0] == b.args[..1][0];
    }
  }

  /** `call` leaves early at the first parameter whose dependency no instance provides, with an error reply. */
  lemma CallAbortsOnMissingDependency(p: Plan, h: Host, env: Env, results: seq<Value>, out: Output)
    requires WellFormed(p) && |results| == p.numOut
    ensures var (r, o) := CallSpec(p, h, env, results, out);
            && (r.Aborted? ==>
                  && 1 <= r.index < p.numIn
                  && StrategyOf(p.requests[r.index], p.lenOfPathParams).FromDependency?
                  && Resolve(p, env, p.requests[r.index].fullName).None?
                  && (forall k :: 1 <= k < r.index ==> Bindable(p, h, env, k))
                  && (h.writerAttached ==>
                        (&& o.status == StatusInternalServerError && |o.bodies| >= 1
                         && o.bodies[|o.bodies| - 1] ==
                              JsonBody(EnvelopeJson(ErrorEnvelope(h.locale, UnsupportedMessage(p.requests[r.index].typ), StatusInternalServerError))))))
            && (r.Panicked? ==>
                  && 1 <= r.index < p.numIn
                  && StrategyOf(p.requests[r.index], p.lenOfPathParams).FromPath?
                  && p.requests[r.index].pathIdx >= |Split(h.path)|)
  {
    BindFromShape(p, h, env, 1, [Receiver], None, out);
    BindFromAbortReply(p, h, env, 1, [Receiver], None, out);
  }

  lemma {:induction false} BindFromAbortReply(p: Plan, h: Host, env: Env, i: nat, args: seq<Arg>, e: Option<string>, o: Output)
    requires WellFormed(p) && 1 <= i
    ensures var r := BindFrom(p, h, env, i, args, e, o);
            r.Unsupported? && h.writerAttached && r.index < p.numIn ==>
              && r.out.status == StatusInternalServerError && |r.out.bodies| >= 1
              && r.out.bodies[|r.out.bodies| - 1] ==
                   JsonBody(EnvelopeJson(ErrorEnvelope(h.locale, UnsupportedMessage(p.requests[r.index].typ), StatusInternalServerError)))
    decreases p.numIn - i
  {
    if i < p.numIn {
      match StepOf(p, h, env, p.requests[i], i, e, o)
      case (Bound(a, e'), o') =>
        BindFromAbortReply(p, h, env, i + 1, args + [a], e', o');
      case (NotSupported, _) =>
      case (OutOfRange, _) =>
    }
  }

  /** Without dependencies the request-scoped instances are never consulted. */
  lemma {:induction false} BindIgnoresScoped(p: Plan, h: Host, env: Env, scoped: map<string, string>,
                                             i: nat, args: seq<Arg>, e: Option<string>, o: Output)
    requires WellFormed(p) && |p.dependencies| == 0
    ensures BindFrom(p, h, env, i, args, e, o) == BindFrom(p, h, env.(scoped := scoped), i, args, e, o)
    decreases p.numIn - i
  {
    if i < p.numIn {
      var env' := env.(scoped := scoped);
      assert StepOf(p, h, env, p.requests[i], i, e, o) == StepOf(p, h, env', p.requests[i], i, e, o);
      match StepOf(p, h, env, p.requests[i], i, e, o)
      case (Bound(a, e'), o') =>
        BindIgnoresScoped(p, h, env, scoped, i + 1, args + [a], e', o');
      case (NotSupported, _) =>
      case (OutOfRange, _) =>
    }
  }

  lemma CallIgnoresScopedWithoutDependencies(p: Plan, h: Host, env: Env, scoped: map<string, string>,
                                             results: seq<Value>, out: Output)
    requires WellFormed(p) && |results| == p.numOut && |p.dependencies| == 0
    ensures CallSpec(p, h, env, results, out) == CallSpec(p, h, env.(scoped := scoped), results, out)
  {
    BindIgnoresScoped(p, h, env, scoped, 1, [Receiver], None, out);
  }

  // ---------------------------------------------------------------------------
  // Properties of encoding
  // ---------------------------------------------------------------------------

  /**
   * Encoding writes at most one body after those already written; it returns
   * an error exactly for a result that cannot be interfaced or is nil, and
   * writes nothing for a nil one.
   */
  lemma EncodeWritesAtMostOnce(h: Host, responses: seq<Response>, results: seq<Value>, o: Output)
    requires |results| == |responses|
    ensures var (e, o') := Encode(h, responses, results, o);
            && |o.bodies| <= |o'.bodies| <= |o.bodies| + 1
            && o'.bodies[..|o.bodies|] == o.bodies
            && (e.Some? <==> |responses| >= 1 && (results[0].Hidden? || results[0].Nil?))
            && (|responses| >= 1 && results[0].Nil? ==> o' == o)
  {
    var (e, o') := Encode(h, responses, results, o);
    assert o'.bodies[..|o.bodies|] == o.bodies;
  }

  /**
   * A structured response with a nil error is sent with code 200 and the
   * translated "success" message, and the status is left as it was.
   */
  lemma StructuredSuccess(h: Host, responses: seq<Response>, results: seq<Value>, o: Output, env: Envelope)
    requires |results| == |responses| >= 2 && results[0] == ResponseValue(env) && SecondError(responses[1].typeName, results[1]).None?
    ensures var (e, o') := Encode(h, responses, results, o);
            && e.None? && o'.status == o.status
            && o'.bodies == o.bodies + [JsonBody(EnvelopeJson(Envelope(StatusOK, Translate(h.locale, Success), env.data)))]
  {
  }

  /**
   * A structured response with a non-nil error is sent with its code (500 if
   * it was 0) and the translated error text, and the status becomes that code.
   */
  lemma StructuredFailure(h: Host, responses: seq<Response>, results: seq<Value>, o: Output, env: Envelope, err: string)
    requires |results| == |responses| >= 2 && results[0] == ResponseValue(env) && SecondError(responses[1].typeName, results[1]) == Some(err)
    ensures var (e, o') := Encode(h, responses, results, o);
            && e.None? && o'.status != 0
            && o'.status == (if env.code == 0 then StatusInternalServerError else env.code)
            && o'.bodies == o.bodies + [JsonBody(EnvelopeJson(Envelope(o'.status, Translate(h.locale, err), env.data)))]
  {
  }

  /** A structured response as the only result is sent as it is, and the status is left alone. */
  lemma StructuredSingle(h: Host, responses: seq<Response>, results: seq<Value>, o: Output, env: Envelope)
    requires |results| == |responses| == 1 && results[0] == ResponseValue(env)
    ensures Encode(h, responses, results, o) == (None, Output(o.status, o.bodies + [JsonBody(EnvelopeJson(env))]))
  {
  }

  /**
   * The status `responseData` leaves: 200 without results; 500 for an error
   * reply when a writer is attached; the envelope's code (500 if it was 0)
   * for a structured response with a non-nil error; otherwise unchanged.
   */
  lemma EncodeStatus(h: Host, responses: seq<Response>, results: seq<Value>, o: Output)
    requires |results| == |responses|
    ensures var o' := Encode(h, responses, results, o).1;
            o'.status ==
              if |responses| == 0 then StatusOK
              else if results[0].Hidden? || results[0].ErrorValue? || results[0].OtherValue? then
                (if h.writerAttached then StatusInternalServerError else o.status)
              else if results[0].ResponseValue? && |responses| >= 2 && SecondError(responses[1].typeName, results[1]).Some? then
                (if results[0].envelope.code == 0 then StatusInternalServerError else results[0].envelope.code)
              else o.status
  {
  }
}
