/**
 * Controller registration of pkg/app/web/dispatcher.go: for each controller,
 * the party prefix, the Before/After hooks, and one route per method whose
 * first camel word names an HTTP verb, each with its own parsed handler.
 */
module Dispatch {
  import opened Wrappers
  import opened Text
  import opened Paths
  import opened Routes
  import opened Web
  import opened Handlers

  /**
   * A controller as registration sees it: its type name and that name's camel
   * words, its package path, its `ContextMapping` field (None when the type
   * has no such field), its methods in reflection order, and the error the
   * injector reports for it, if any.
   */
  datatype Controller = Controller(typeName: string, words: seq<string>, pkgPath: string,
                                   contextMapping: Option<string>, methods: seq<Method>,
                                   injectError: Option<string>)

  /** A registered route: verb, sub-path relative to the party, the handler's plan and the main handler's name. */
  datatype Route = Route(verb: string, relPath: string, plan: Plan, mainHandlerName: string)

  /** A party: its prefix, the plans of its Before and After hooks, and its routes in registration order. */
  datatype Party = Party(prefix: string, before: Option<Plan>, after: Option<Plan>, routes: seq<Route>)

  /** Why `register` stops: the injector failed, or the controller has no `ContextMapping` field. */
  datatype RegisterError = InjectFailed(message: string) | InvalidController(name: string)

  /** The outcome of registering one controller. */
  datatype Registration = Registered(party: Party) | Refused(error: RegisterError)

  const BeforeMethod: string := "Before"
  const AfterMethod: string := "After"

  /** Every method's words are a camel-case split of its name. */
  predicate WellFormedController(c: Controller) {
    forall k :: 0 <= k < |c.methods| ==> SplitsInto(c.methods[k].name, c.methods[k].tokens)
  }

  predicate HasTokens(ms: seq<Method>) {
    forall k :: 0 <= k < |ms| ==> |ms[k].tokens| >= 1
  }

  /** `MethodByName`: the method of that name (method names of a Go type are unique). */
  function MethodNamed(ms: seq<Method>, name: string): (r: Option<Method>)
    ensures r.Some? ==> r.value in ms && r.value.name == name
    ensures r.None? ==> forall k :: 0 <= k < |ms| ==> ms[k].name != name
  {
    if ms == [] then None
    else if ms[0].name == name then Some(ms[0])
    else MethodNamed(ms[1..], name)
  }

  /** The plan of a hook: the named method parsed with an empty path. */
  function HookPlan(c: Controller, name: string): Option<Plan> {
    match MethodNamed(c.methods, name)
    case Some(m) => Some(ParsePlan(m, c.typeName, ""))
    case None => None
  }

  function MainHandlerName(c: Controller, m: Method): string {
    c.pkgPath + "/" + c.typeName + "." + m.name
  }

  /** The route a method contributes under `prefix`, if its first word is a verb. */
  function RouteOf(c: Controller, prefix: string, m: Method): Option<Route>
    requires |m.tokens| >= 1
  {
    var verb := VerbOf(m.tokens);
    if IsHttpMethod(verb) then
      var sub := SubPath(m.name, m.tokens);
      Some(Route(verb, sub, ParsePlan(m, c.typeName, prefix + sub), MainHandlerName(c, m)))
    else None
  }

  /** The present values of `xs`, in order. */
  function Somes<T>(xs: seq<Option<T>>): seq<T>
    decreases |xs|
  {
    if xs == [] then []
    else
      var last := xs[|xs| - 1];
      Somes(xs[..|xs| - 1]) + (if last.Some? then [last.value] else [])
  }

  /** What each method contributes, in method order. */
  function RouteOpts(c: Controller, prefix: string, ms: seq<Method>): (r: seq<Option<Route>>)
    requires HasTokens(ms)
    ensures |r| == |ms|
  {
    seq(|ms|, k requires 0 <= k < |ms| => RouteOf(c, prefix, ms[k]))
  }

  /** The routes of `ms`, in method order. */
  function RoutesOf(c: Controller, prefix: string, ms: seq<Method>): seq<Route>
    requires HasTokens(ms)
  {
    Somes(RouteOpts(c, prefix, ms))
  }

  /** One turn of `register`: inject, check the mapping field, then build the party. */
  function PartyOf(c: Controller): (r: Registration)
    requires HasTokens(c.methods)
    ensures r.Refused? <==> c.injectError.Some? || c.contextMapping.None?
    ensures c.injectError.Some? ==> r == Refused(InjectFailed(c.injectError.value))
    ensures c.injectError.None? && c.contextMapping.None? ==> r == Refused(InvalidController(c.typeName))
    ensures r.Registered? ==> r.party.prefix == Prefix(c.typeName, c.words, c.contextMapping.value)
    ensures r.Registered? ==> r.party.before == HookPlan(c, BeforeMethod) && r.party.after == HookPlan(c, AfterMethod)
    ensures r.Registered? ==> r.party.routes == RoutesOf(c, r.party.prefix, c.methods)
  {
    if c.injectError.Some? then Refused(InjectFailed(c.injectError.value))
    else if c.contextMapping.None? then Refused(InvalidController(c.typeName))
    else
      var prefix := Prefix(c.typeName, c.words, c.contextMapping.value);
      Registered(Party(prefix, HookPlan(c, BeforeMethod), HookPlan(c, AfterMethod), RoutesOf(c, prefix, c.methods)))
  }

  predicate AllHaveTokens(cs: seq<Controller>) {
    forall k :: 0 <= k < |cs| ==> HasTokens(cs[k].methods)
  }

  /** The outcome of registering each controller on its own. */
  function Registrations(cs: seq<Controller>): seq<Registration>
    requires AllHaveTokens(cs)
  {
    seq(|cs|, k requires 0 <= k < |cs| => PartyOf(cs[k]))
  }

  /** Registering in order after `parties` exist: the parties left and the error returned. */
  function RegisterFrom(parties: seq<Party>, regs: seq<Registration>): (seq<Party>, Option<RegisterError>)
    decreases |regs|
  {
    if regs == [] then (parties, None)
    else match regs[0]
      case Refused(e) => (parties, Some(e))
      case Registered(p) => RegisterFrom(parties + [p], regs[1..])
  }

  /** `register` on `cs` after `parties` exist. */
  function RegisterAll(parties: seq<Party>, cs: seq<Controller>): (seq<Party>, Option<RegisterError>)
    requires AllHaveTokens(cs)
  {
    RegisterFrom(parties, Registrations(cs))
  }

  // ---------------------------------------------------------------------------
  // The imperative registration
  // ---------------------------------------------------------------------------

  /** The application's router state: the parties registered so far. */
  class Application {
    var parties: seq<Party>

    constructor ()
      ensures parties == []
    {
      parties := [];
    }
  }

  /** `apiContextMapping`: the By form built piece by piece, or the literal form. */
  method ApiContextMapping(name: string, tokens: seq<string>) returns (mapping: string)
    requires |tokens| >= 1
    ensures mapping == SubPath(name, tokens)
  {
    mapping := "";
    if |tokens| > 2 && tokens[1] == "By" {
      var ps := tokens[2..];
      var i := 0;
      while i < |ps|
        invariant 0 <= i <= |ps|
        invariant mapping == ByPath(ps[..i])
      {
        var lpp := ToLower(ps[i]);
        var piece := PathSep + lpp + PathSep + "{" + lpp + "}";
        assert piece == ParamPath(ps[i]);
        assert ps[..i + 1][..i] == ps[..i];
        mapping := mapping + piece;
        i := i + 1;
      }
      assert ps[..i] == ps;
    } else {
      mapping := ReplaceFirst(name, tokens[0], "");
      mapping := PathSep + LowerFirst(mapping);
    }
  }

  /** A fresh handler parsed for `m` on `path`, as `new(handler)` followed by `parse`. */
  method NewHandler(m: Method, ctl: string, path: string) returns (hdl: Handler)
    ensures fresh(hdl) && hdl.Valid()
    ensures hdl.AsPlan() == ParsePlan(m, ctl, path)
  {
    hdl := new Handler();
    hdl.Parse(m, ctl, path);
    assert [] + ContextAwareDeps(m.params) == ContextAwareDeps(m.params);
  }

  /** The handler of a hook, parsed with an empty path. */
  method ParseHook(c: Controller, name: string) returns (plan: Option<Plan>)
    ensures plan == HookPlan(c, name)
  {
    plan := None;
    var m := MethodNamed(c.methods, name);
    if m.Some? {
      var hdl := NewHandler(m.value, c.typeName, "");
      plan := Some(hdl.AsPlan());
    }
  }

  /** One turn of the method loop of `register`: a route and its handler for a verb method. */
  method RouteFor(c: Controller, contextMapping: string, m: Method) returns (r: Option<Route>)
    requires |m.tokens| >= 1
    ensures r == RouteOf(c, contextMapping, m)
  {
    r := None;
    var httpMethod := ToUpper(m.tokens[0]);
    if httpMethod in HttpMethods {
      var api := ApiContextMapping(m.name, m.tokens);
      var hdl := NewHandler(m, c.typeName, contextMapping + api);
      r := Some(Route(httpMethod, api, hdl.AsPlan(), MainHandlerName(c, m)));
    }
  }

  /** The method loop of `register`. */
  method ParseRoutes(c: Controller, contextMapping: string) returns (routes: seq<Route>)
    requires HasTokens(c.methods)
    ensures routes == RoutesOf(c, contextMapping, c.methods)
  {
    routes := [];
    ghost var opts := RouteOpts(c, contextMapping, c.methods);
    var mi := 0;
    while mi < |c.methods|
      invariant 0 <= mi <= |c.methods|
      invariant routes == Somes(opts[..mi])
    {
      assert opts[..mi + 1][..mi] == opts[..mi];
      var r := RouteFor(c, contextMapping, c.methods[mi]);
      if r.Some? {
        routes := routes + [r.value];
      }
      mi := mi + 1;
    }
    assert opts[..mi] == opts;
  }

  /** One turn of the controller loop of `register`. */
  method RegisterController(c: Controller) returns (r: Registration)
    requires HasTokens(c.methods)
    ensures r == PartyOf(c)
  {
    if c.injectError.Some? {
      return Refused(InjectFailed(c.injectError.value));
    }
    if c.contextMapping.None? {
      return Refused(InvalidController(c.typeName));
    }
    var contextMapping := c.contextMapping.value;
    var controllerName := "";
    if |c.words| >= 2 {
      controllerName := ReplaceFirst(c.typeName, c.words[|c.words| - 1], "");
      controllerName := LowerFirst(controllerName);
    }
    if contextMapping == "" {
      contextMapping := PathSep + controllerName;
    }
    assert contextMapping == Prefix(c.typeName, c.words, c.contextMapping.value);
    var before := ParseHook(c, BeforeMethod);
    var after := ParseHook(c, AfterMethod);
    var routes := ParseRoutes(c, contextMapping);
    return Registered(Party(contextMapping, before, after, routes));
  }

  /** `register`: registers the controllers in order and stops at the first that fails. */
  method Register(app: Application, controllers: seq<Controller>) returns (err: Option<RegisterError>)
    requires AllHaveTokens(controllers)
    modifies app
    ensures (app.parties, err) == RegisterAll(old(app.parties), controllers)
  {
    ghost var regs := Registrations(controllers);
    var i := 0;
    while i < |controllers|
      invariant 0 <= i <= |controllers|
      invariant RegisterFrom(app.parties, regs[i..]) == RegisterFrom(old(app.parties), regs)
    {
      assert regs[i..][1..] == regs[i + 1..];
      var r := RegisterController(controllers[i]);
      assert r == regs[i];
      match r {
        case Refused(e) =>
          return Some(e);
        case Registered(p) =>
          app.parties := app.parties + [p];
      }
      i := i + 1;
    }
    return None;
  }

  // ---------------------------------------------------------------------------
  // Properties of registration
  // ---------------------------------------------------------------------------

  lemma {:induction false} SomesComplete<T>(xs: seq<Option<T>>, k: nat)
    requires k < |xs| && xs[k].Some?
    ensures xs[k].value in Somes(xs)
    decreases |xs|
  {
    if k < |xs| - 1 {
      assert xs[..|xs| - 1][k] == xs[k];
      SomesComplete(xs[..|xs| - 1], k);
    }
  }

  lemma {:induction false} SomesSound<T>(xs: seq<Option<T>>, v: T)
    requires v in Somes(xs)
    ensures exists k :: 0 <= k < |xs| && xs[k] == Some(v)
    decreases |xs|
  {
    var init := xs[..|xs| - 1];
    if v in Somes(init) {
      SomesSound(init, v);
      var k :| 0 <= k < |init| && init[k] == Some(v);
      assert xs[k] == init[k];
    }
  }

  /** Every method whose first word is a verb has its route among the routes. */
  lemma RoutesOfComplete(c: Controller, prefix: string, ms: seq<Method>, k: nat)
    requires HasTokens(ms) && k < |ms| && IsHttpMethod(VerbOf(ms[k].tokens))
    ensures RouteOf(c, prefix, ms[k]).Some? && RouteOf(c, prefix, ms[k]).value in RoutesOf(c, prefix, ms)
  {
    SomesComplete(RouteOpts(c, prefix, ms), k);
  }

  /** Every route comes from a method whose first word is a verb. */
  lemma RoutesOfSound(c: Controller, prefix: string, ms: seq<Method>, r: Route)
    requires HasTokens(ms) && r in RoutesOf(c, prefix, ms)
    ensures exists k :: 0 <= k < |ms| && IsHttpMethod(VerbOf(ms[k].tokens)) && RouteOf(c, prefix, ms[k]) == Some(r)
  {
    SomesSound(RouteOpts(c, prefix, ms), r);
    var k :| 0 <= k < |ms| && RouteOpts(c, prefix, ms)[k] == Some(r);
    assert RouteOf(c, prefix, ms[k]) == Some(r);
  }

  /**
   * Every route carries a verb of `httpMethods`, and the Before and After
   * hooks never become routes.
   */
  lemma NoRouteForHooks(c: Controller, prefix: string)
    requires WellFormedController(c)
    ensures HasTokens(c.methods)
    ensures forall r :: r in RoutesOf(c, prefix, c.methods) ==>
              IsHttpMethod(r.verb) && r.plan.methodName != BeforeMethod && r.plan.methodName != AfterMethod
  {
    assert HasTokens(c.methods);
    forall r | r in RoutesOf(c, prefix, c.methods)
      ensures IsHttpMethod(r.verb) && r.plan.methodName != BeforeMethod && r.plan.methodName != AfterMethod
    {
      RoutesOfSound(c, prefix, c.methods, r);
      var k :| 0 <= k < |c.methods| && RouteOf(c, prefix, c.methods[k]) == Some(r);
      var m := c.methods[k];
      if m.name == BeforeMethod || m.name == AfterMethod {
        HookIsNoVerb(m.name, m.tokens);
      }
    }
  }

  /**
   * A By-form route under a prefix without placeholders has one path
   * parameter per word after "By", named by the lower-cased word, in order.
   */
  lemma ByRoutePathParams(c: Controller, prefix: string, m: Method)
    requires SplitsInto(m.name, m.tokens) && IsByForm(m.tokens) && IsHttpMethod(VerbOf(m.tokens))
    requires PathPlaceholders(prefix) == []
    ensures var r := RouteOf(c, prefix, m);
            && r.Some? && r.value.plan.lenOfPathParams == |m.tokens| - 2
            && |r.value.plan.pathParams| == |m.tokens| - 2
            && forall k :: 0 <= k < |m.tokens| - 2 ==> r.value.plan.pathParams[k] == ToLower(m.tokens[k + 2])
  {
    RoutePlaceholders(prefix, m.name, m.tokens);
    var pp := PathPlaceholders(RoutePath(prefix, m.name, m.tokens));
    assert pp == BracedAll(m.tokens[2..]);
    var plan := RouteOf(c, prefix, m).value.plan;
    forall k | 0 <= k < |m.tokens| - 2 ensures plan.pathParams[k] == ToLower(m.tokens[k + 2]) {
      assert m.tokens[2..][k] == m.tokens[k + 2];
      LowerWordHasNoSeparator(m.tokens[k + 2]);
    }
  }

  /**
   * A literal route under a prefix without placeholders has no path
   * parameters, so every parameter that is neither a payload nor the context
   * is looked up as a dependency.
   */
  lemma LiteralRouteHasNoPathParams(c: Controller, prefix: string, m: Method, i: nat)
    requires SplitsInto(m.name, m.tokens) && !IsByForm(m.tokens) && IsHttpMethod(VerbOf(m.tokens))
    requires PathPlaceholders(prefix) == []
    requires 1 <= i <= |m.params|
    ensures var plan := RouteOf(c, prefix, m).value.plan;
            var req := plan.requests[i];
            && plan.lenOfPathParams == 0
            && (req.callback.None? && !(req.kind == Interface && req.typeName == ContextTypeName) ==>
                  StrategyOf(req, plan.lenOfPathParams) == FromDependency(req.fullName))
  {
    RoutePlaceholders(prefix, m.name, m.tokens);
  }

  /**
   * Registering returns no error exactly when every controller registers; the
   * parties it leaves are those before, then one per controller registered
   * before the first refusal, whose error it returns.
   */
  lemma {:induction false} RegisterFromShape(ps: seq<Party>, regs: seq<Registration>)
    ensures var (parties, err) := RegisterFrom(ps, regs);
            && (err.None? <==> forall k :: 0 <= k < |regs| ==> regs[k].Registered?)
            && |ps| <= |parties| <= |ps| + |regs| && parties[..|ps|] == ps
            && (forall k :: 0 <= k < |parties| - |ps| ==> regs[k].Registered? && parties[|ps| + k] == regs[k].party)
            && (err.None? ==> |parties| == |ps| + |regs|)
            && (err.Some? ==> |parties| < |ps| + |regs| && regs[|parties| - |ps|] == Refused(err.value))
    decreases |regs|
  {
    if regs != [] {
      match regs[0]
      case Refused(e) =>
      case Registered(p) =>
        RegisterFromShape(ps + [p], regs[1..]);
        var (parties, err) := RegisterFrom(ps + [p], regs[1..]);
        assert parties[..|ps|] == parties[..|ps| + 1][..|ps|];
        forall k | 0 <= k < |parties| - |ps|
          ensures regs[k].Registered? && parties[|ps| + k] == regs[k].party
        {
          if k > 0 {
            assert regs[k] == regs[1..][k - 1];
          }
        }
        if err.None? {
          forall k | 0 <= k < |regs| ensures regs[k].Registered? {
            if k > 0 {
              assert regs[k] == regs[1..][k - 1];
            }
          }
        } else {
          assert regs[|parties| - |ps|] == regs[1..][|parties| - |ps| - 1];
        }
    }
  }

  // ---------------------------------------------------------------------------
  // An end-to-end example
  // ---------------------------------------------------------------------------

  const IdParam: Param := Param("int", Int, TypeInfo("int", Int, [], "int"), None)
  const GetById: Method :=
    Method("GetById", ["Get", "By", "Id"], [IdParam], [ResultType("Response", Interface), ResultType("error", Interface)])
  const LoginController: Controller :=
    Controller("loginController", ["login", "Controller"], "app", Some(""), [GetById], None)

  lemma RouteSegments()
    ensures Split("/login/id/{id}") == ["", "login", "id", "{id}"]
    ensures Split("/login/id/42") == ["", "login", "id", "42"]
  {
    SplitRooted3("login", "id", "{id}");
    assert "/" + "login" + "/" + "id" + "/" + "{id}" == "/login/id/{id}";
    SplitRooted3("login", "id", "42");
    assert "/" + "login" + "/" + "id" + "/" + "42" == "/login/id/42";
  }

  const LoginRoute: string := "/login/id/{id}"

  lemma LoginRouteClean()
    ensures Clean(LoginRoute) == LoginRoute
  {
    RootedNormal3("login", "id", "{id}");
    assert "/" + "login" + "/" + "id" + "/" + "{id}" == LoginRoute;
    CleanFixpoints(LoginRoute);
  }

  lemma LoginRoutePlaceholders()
    ensures Split(LoginRoute) == ["", "login", "id", "{id}"] && PathPlaceholders(LoginRoute) == ["{id}"]
  {
    RouteSegments();
    assert Placeholders(["", "login", "id", "{id}"]) == ["{id}"];
  }

  lemma LoginIdRequest()
    ensures RequestFor(IdParam, 0, ["{id}"], ["", "login", "id", "{id}"]) == Request("int", "id", "int", Int, 3, None, "int")
  {
    assert IndexOfSegment(["", "login", "id", "{id}"], "{id}") == Some(3);
    assert MarkerOf(IdParam.indirect).None?;
  }

  /** The handler of `GetById` under "/login" has one path parameter, "id", at segment 3. */
  lemma LoginGetByIdPlan()
    ensures var plan := ParsePlan(GetById, "loginController", LoginRoute);
            && plan.numIn == 2 && plan.numOut == 2 && plan.lenOfPathParams == 1
            && plan.pathParams == ["id"] && plan.dependencies == []
            && plan.requests[1] == Request("int", "id", "int", Int, 3, None, "int")
  {
    LoginRouteClean();
    LoginRoutePlaceholders();
    LoginIdRequest();
    assert PlaceholderNames(["{id}"]) == ["id"];
    assert ContextAwareDeps([IdParam]) == [];
  }

  const LoginGetByIdRoute: Route :=
    Route("GET", "/id/{id}", ParsePlan(GetById, "loginController", LoginRoute), MainHandlerName(LoginController, GetById))

  lemma VerbRoute(c: Controller, prefix: string, m: Method, verb: string, sub: string)
    requires |m.tokens| >= 1 && verb == VerbOf(m.tokens) && IsHttpMethod(verb) && sub == SubPath(m.name, m.tokens)
    ensures RouteOf(c, prefix, m) == Some(Route(verb, sub, ParsePlan(m, c.typeName, prefix + sub), MainHandlerName(c, m)))
  {
  }

  lemma RegisteredParty(c: Controller, prefix: string)
    requires HasTokens(c.methods) && c.injectError.None? && c.contextMapping.Some?
    requires prefix == Prefix(c.typeName, c.words, c.contextMapping.value)
    ensures PartyOf(c) == Registered(Party(prefix, HookPlan(c, BeforeMethod), HookPlan(c, AfterMethod), RoutesOf(c, prefix, c.methods)))
  {
  }

  lemma SingleRoute(c: Controller, prefix: string, m: Method, r: Route)
    requires |m.tokens| >= 1 && RouteOf(c, prefix, m) == Some(r)
    ensures RoutesOf(c, prefix, [m]) == [r]
  {
    var opts := RouteOpts(c, prefix, [m]);
    assert opts == [Some(r)];
    assert opts[..|opts| - 1] == [];
    assert Somes(opts) == Somes(opts[..|opts| - 1]) + [r];
  }

  /** A controller with one verb method and no hooks registers one party with that method's route. */
  lemma OneMethodParty(c: Controller, prefix: string, m: Method, r: Route)
    requires c.injectError.None? && c.contextMapping.Some? && c.methods == [m] && |m.tokens| >= 1
    requires m.name != BeforeMethod && m.name != AfterMethod
    requires prefix == Prefix(c.typeName, c.words, c.contextMapping.value)
    requires RouteOf(c, prefix, m) == Some(r)
    ensures PartyOf(c) == Registered(Party(prefix, None, None, [r]))
  {
    assert HasTokens(c.methods);
    RegisteredParty(c, prefix);
    SingleRoute(c, prefix, m, r);
  }

  lemma LoginRouteOf()
    ensures RouteOf(LoginController, "/login", GetById) == Some(LoginGetByIdRoute)
  {
    var c, m := LoginController, GetById;
    GetByIdSubPath();
    assert m.name == "GetById" && m.tokens == ["Get", "By", "Id"] && c.typeName == "loginController";
    assert "/login" + "/id/{id}" == LoginRoute;
    VerbRoute(c, "/login", m, "GET", "/id/{id}");
  }

  /** `loginController` registers one party "/login" without hooks and one route `GET /id/{id}`. */
  lemma LoginParty()
    ensures PartyOf(LoginController) == Registered(Party("/login", None, None, [LoginGetByIdRoute]))
  {
    LoginControllerPrefix();
    LoginRouteOf();
    OneMethodParty(LoginController, "/login", GetById, LoginGetByIdRoute);
  }

  /** The call through a plan with one path parameter read from segment 3. */
  lemma SegmentThreeCall(plan: Plan, h: Host, env: Env, e: Envelope, out: Output)
    requires plan.numIn == 2 && plan.numOut == 2 && |plan.requests| == 2 && |plan.responses| == 2
    requires plan.lenOfPathParams == 1 && plan.requests[1] == Request("int", "id", "int", Int, 3, None, "int")
    requires Split(h.path) == ["", "login", "id", "42"]
    ensures CallSpec(plan, h, env, [ResponseValue(e), Nil], out) ==
              (Invoked([Receiver, PathValue("42", Int)], None),
               Output(out.status, out.bodies + [JsonBody(EnvelopeJson(e.(code := StatusOK, message := Translate(h.locale, Success))))]))
  {
    assert StrategyOf(plan.requests[1], 1) == FromPath(3);
    assert PathValues(plan, h) == ["", "login", "id", "42"];
    assert [Receiver] + [PathValue("42", Int)] == [Receiver, PathValue("42", Int)];
    assert BindFrom(plan, h, env, 1, [Receiver], None, out)
        == Complete([Receiver, PathValue("42", Int)], None, out);
  }

  /**
   * A request for "/login/id/42" calls `GetById` with the segment "42"; with
   * a nil error the envelope is sent with code 200 and the translated
   * "success", and the status is left as it was.
   */
  lemma LoginGetByIdCall(h: Host, env: Env, e: Envelope, out: Output)
    requires h.path == "/login/id/42"
    ensures var plan := ParsePlan(GetById, "loginController", LoginRoute);
            CallSpec(plan, h, env, [ResponseValue(e), Nil], out) ==
              (Invoked([Receiver, PathValue("42", Int)], None),
               Output(out.status, out.bodies + [JsonBody(EnvelopeJson(e.(code := StatusOK, message := Translate(h.locale, Success))))]))
  {
    LoginGetByIdPlan();
    RouteSegments();
    SegmentThreeCall(ParsePlan(GetById, "loginController", LoginRoute), h, env, e, out);
  }
}
