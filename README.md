# hiboot web dispatch, modelled in Dafny

This project models the request-routing and dispatch engine of hiboot's
`pkg/app/web` package.

- **Registration** (`dispatcher.go`): a controller's type name and its
  `ContextMapping` field give the party prefix. Each method whose first
  camel-case word is an HTTP verb becomes a route. Its sub-path has one of two
  forms: the "By" form with `{param}` placeholders, or the literal form. The
  `Before` and `After` methods become the party's entry and done hooks.
- **Handlers** (`handler.go`). `clean` normalises a path. `parse` builds a
  handler's binding plan once per method. `call` binds each parameter by the
  first strategy that applies and runs the method. `responseData` encodes the
  method's results into a status, an envelope and a body.
- **Context** (`context.go`). It provides translation with a fallback to the
  key, the `ResponseString`/`ResponseBody`/`ResponseError` helpers, and the
  decode-then-validate step behind `RequestBody`, `RequestForm` and
  `RequestParams`.

The modules follow the source's structure:

| file | module | models |
|---|---|---|
| `wrappers.dfy` | `Wrappers` | `Option`, and `Outcome` (nil error or an error message) |
| `text.dfy` | `Text` | ASCII upper/lower case, `str.LowerFirst`, `strings.Replace(s, p, "", 1)`, camel-case words as a relation |
| `paths.dfy` | `Paths` | `clean`, `strings.SplitN(path, "/", -1)`, `{name}` placeholder segments |
| `routes.dfy` | `Routes` | the verb filter, the two sub-path forms, the prefix rule |
| `context.dfy` | `Web` | the `Context` class, translation, the response helpers, `requestEx` |
| `handler.dfy` | `Handlers` | the `Handler` class (`parse`, `call`, `responseData`) and the pure plan, binding and encoding functions that specify it |
| `dispatcher.dfy` | `Dispatch` | `register` over an `Application` of parties, and its specification |

The imperative parts stay imperative:
- `Handler.Parse` fills `requests`/`responses` arrays in loops.
- `Handler.Call` builds its inputs in a loop with early exits.
- `Register` loops over controllers and mutates the application's party list.
- `ApiContextMapping` accumulates the By form in a loop.

Each method is proved equal to a pure specification function, such as
`ParsePlan`, `CallSpec`, `Encode`, `RegisterAll`, `AfterError`, `PayloadCheck`,
`SubPath`, `MarkerOf` or `RoutesOf`. The lemmas state the source's rules
about those functions.

Foreign code is modelled as follows.
- **Inputs:** reflection, camel-case splitting and the factory. A method is its
  name, its camel words, and its parameter and result descriptors.
- **Uninterpreted functions:** translation (`Locale`), payload decoding and
  validation, and instance lookup (`Env`).
- **A parameter of `call`:** the method's return values (`results`).

Behaviour of the code worth noting, modelled as written:
- A structured response whose error result is nil gets code 200 and the
  translated "success" in its envelope. The HTTP status is not set; it keeps
  whatever it was (`StructuredSuccess`).
- With no results, `responseData` sets status 200 and writes no body.
- `call` keeps the error of the **last** parameter bound through a payload
  callback. An earlier payload failure is overwritten by a later success,
  which lets the method run after an error reply has been written
  (`Handlers.CallOutcome`, `Handlers.LastCallbackError`).
- Path binding is chosen for every parameter that is neither a payload nor
  the context whenever the handler has any path parameter. A parameter past
  the last placeholder then reads segment 0 (`ExtraParamReadsFirstSegment`).
- A decode failure answers 500; only a validation failure answers 400.
- The second result of a structured response is read as an error only when
  its declared result type is named "error" (the name `reflect.Call` reports
  is the declared one). A method declaring a named error type of its own gets
  the success envelope even when it returns a non-nil error.

## Model

| member | source | states |
|---|---|---|
| Paths.CleanIsNormal | pkg/app/web/handler.go:106-116 | the result of `clean` never contains "//", and when longer than two characters does not end in "/" (so "/" and "//" both become "/") |
| Paths.CleanFixpoints | pkg/app/web/handler.go:106-116 | `clean` leaves a path unchanged exactly when it has no "//" and no trailing "/" beyond length two |
| Paths.CleanIdempotent | pkg/app/web/handler.go:106-116 | `clean(clean(p)) == clean(p)` |
| Paths.CleanKeepsPlaceholders | pkg/app/web/handler.go:130-134 | cleaning a path does not change its `{name}` placeholders or their order |
| Paths.CleanDoubleRoot | pkg/app/web/handler.go:106-116 | a root prefix "/" joined to a clean rooted sub-path gives "//…", which `clean` turns back into the sub-path |
| Paths.RootedNormal2 | pkg/app/web/handler.go:106-116 | "/a/b" with slash-free non-empty words is already clean |
| Paths.IndexOfSegment | pkg/app/web/handler.go:179-184 | the index of the first segment equal to the placeholder, or none when no segment equals it |
| Paths.PlaceholderIsSegment | pkg/app/web/handler.go:132-134 | every extracted placeholder is one of the path's segments, so the index search finds it |
| Paths.SplitJoin | pkg/app/web/handler.go:132 | splitting on "/" distributes over joining with "/" |
| Text.ReplaceFirstSpec | pkg/app/web/dispatcher.go:132 | stated against occurrences alone: at a position where the pattern occurs and nowhere before, the result is the part before, the replacement and the part after; with no occurrence the string is unchanged |
| Text.IndexOf | pkg/app/web/dispatcher.go:78 | the first position where the pattern occurs, or none when it never occurs |
| Text.RemoveSuffix | pkg/app/web/dispatcher.go:78 | removing the first occurrence of a pattern that occurs only as the suffix leaves the string without that suffix |
| Text.RemoveKeepsChars | pkg/app/web/dispatcher.go:78 | removing the first occurrence of a pattern leaves only characters of the original string |
| Routes.RoutePlaceholders | pkg/app/web/dispatcher.go:126-139 | the placeholders of the path handed to `parse` are the prefix's, followed in the By form by `{lower(t)}` for each word after "By" in order, and by nothing in the literal form |
| Routes.ByPathPlaceholders | pkg/app/web/dispatcher.go:126-130 | the By-form sub-path holds exactly the placeholders `{lower(t)}` of the words after "By", in order |
| Routes.SplitByPath | pkg/app/web/dispatcher.go:126-130 | the By-form sub-path's segments are "", then `lower(t)`, `{lower(t)}` for each word after "By" |
| Routes.LiteralSubPath | pkg/app/web/dispatcher.go:131-134 | the literal sub-path is "/" plus the lower-first rest of the name after its first word |
| Routes.LowerWordHasNoSeparator | pkg/app/web/dispatcher.go:128-129 | a lower-cased word and its `{…}` form contain no "/", and the braced form is a placeholder named by the lower-cased word |
| Routes.HookIsNoVerb | pkg/app/web/dispatcher.go:118-124 | neither "Before" nor "After" has a first word that upper-cases to an HTTP verb |
| Routes.DefaultPrefixStripsLastWord | pkg/app/web/dispatcher.go:74-85 | without a mapping and with two or more words, when the last word occurs only at the end of the type name, the prefix is "/" plus the lower-first type name without its last word |
| Routes.DefaultPrefixHasNoPlaceholder | pkg/app/web/dispatcher.go:74-85 | a default prefix built from an identifier holds no placeholder |
| Routes.ExplicitMappingWins | pkg/app/web/dispatcher.go:83-85 | a non-empty `ContextMapping` is the prefix verbatim |
| Routes.GetByIdRoute | pkg/app/web/dispatcher.go:118-139 | `GetById` has verb GET and sub-path "/id/{id}", and under "/" the parsed path is "/id/{id}" |
| Routes.LoginControllerPrefix | pkg/app/web/dispatcher.go:74-85 | `loginController` gets the prefix "/login" |
| Routes.LoginPostRoute | pkg/app/web/dispatcher.go:131-139 | `Post` under "/login" has verb POST and parsed path "/login" |
| Routes.RootControllerRoute | pkg/app/web/dispatcher.go:74-85 | `Controller` gets the prefix "/", and `Get` under it is parsed as "/" |
| Routes.GetByIsLiteral | pkg/app/web/dispatcher.go:126-134 | `GetBy`, with only two words, takes the literal form "/by" |
| Routes.FirstOccurrenceOfLastWord | pkg/app/web/dispatcher.go:78 | only the first occurrence of the last word is removed: `FooBarFoo` gets "/barFoo" |
| Routes.LeadingLastWordPrefix | pkg/app/web/dispatcher.go:74-85 | when the type name starts with its last word, the default prefix is "/" plus the lower-first rest after that leading copy |
| Routes.BracedAll | pkg/app/web/dispatcher.go:127-129 | one `{lower(t)}` per word, in order |
| Routes.ParamPathNormal | pkg/app/web/dispatcher.go:127-129 | each By-form piece "/w/{w}" is a clean rooted path |
| Routes.GetByIdSubPath | pkg/app/web/dispatcher.go:118-130 | `GetById` has verb GET and the By-form sub-path "/id/{id}" |
| Web.Translate | pkg/app/web/context.go:91-100 | the host's translation when it is non-empty, else the format itself |
| Web.AfterError | pkg/app/web/context.go:120-129 | with a writer attached, status becomes the code and the envelope with the code and the translated message is appended; without one nothing changes |
| Web.Context.ResponseString | pkg/app/web/context.go:103-105 | the translated text is written and the status is untouched |
| Web.Context.ResponseBody | pkg/app/web/context.go:108-117 | appends an envelope whose code is the current status, with the translated message and the data as given |
| Web.Context.ResponseError | pkg/app/web/context.go:120-129 | the context changes exactly as `AfterError` says |
| Web.PayloadCheck | pkg/app/web/context.go:132-147 | an error exactly when a callback exists and decode or validation fails; decode failure gives 500 with its error, validation failure after a good decode gives 400 |
| Web.DecodeFailureSkipsValidation | pkg/app/web/context.go:134-138 | after a decode failure the validator's outcome does not matter |
| Web.RequestEx | pkg/app/web/context.go:132-147 | returns the decision's error and leaves the error reply for it, or nothing written when accepted |
| Web.RequestBody | pkg/app/web/context.go:150-155 | `requestEx` over the JSON body's decode outcome |
| Web.RequestForm | pkg/app/web/context.go:158-163 | `requestEx` over the form's decode outcome |
| Web.ParamsDecode | pkg/app/web/context.go:170-174 | without URL parameters the decode step succeeds without decoding |
| Web.RequestParams | pkg/app/web/context.go:166-176 | `requestEx` over the URL-parameter decode outcome, which is success when there are no URL parameters |
| Web.EmptyParamsStillValidated | pkg/app/web/context.go:166-176 | with no URL parameters an invalid payload is still rejected with 400 |
| Handlers.ParsePlan | pkg/app/web/handler.go:118-208 | `numIn` is one more than the parameter count, with one request descriptor each; `numOut` is the result count, with one response descriptor each |
| Handlers.ParsedPathParams | pkg/app/web/handler.go:130-150 | `lenOfPathParams` and the path-parameter names are those of the placeholders of the path as given, in order; request 0 describes the receiver |
| Handlers.PlaceholderNames | pkg/app/web/handler.go:135-139 | one name per placeholder, in order |
| Handlers.FieldNamed | pkg/app/web/handler.go:189 | a field of that name among the struct's own fields, or none when none of them has it (fields promoted from embedded structs are not searched) |
| Handlers.StrategyOf | pkg/app/web/handler.go:297-323 | each strategy exactly under its condition: callback when there is one; else the live context exactly for an interface named Context; else the path (at `pathIdx`) exactly when there are path parameters; else the dependency by full name |
| Handlers.Resolve | pkg/app/web/handler.go:308-315 | the request-scoped instance when the plan has dependencies and the set holds the name; otherwise the factory's instance when it has one; no instance exactly when both miss |
| Handlers.FindSegment | pkg/app/web/handler.go:179-184 | the loop returns the first matching segment index, or 0 when none matches |
| Handlers.FindMarker | pkg/app/web/handler.go:187-195 | the loop over `requestSets` returns the marker `MarkerOf` picks |
| Handlers.ParseNames | pkg/app/web/handler.go:135-139 | the loop fills the placeholder names in order |
| Handlers.DescribeParam | pkg/app/web/handler.go:152-196 | one loop turn builds the request descriptor `RequestFor` specifies |
| Handlers.ParseRequests | pkg/app/web/handler.go:141-197 | a fresh array holding the receiver's descriptor and then one per parameter; the context-aware dependencies in order |
| Handlers.ParseResponses | pkg/app/web/handler.go:200-208 | a fresh array with one descriptor per result |
| Handlers.Handler.constructor | pkg/app/web/dispatcher.go:95 | a `new(handler)`: all counts zero, all lists and arrays empty |
| Handlers.Handler.Parse | pkg/app/web/handler.go:118-212 | the handler's fields become `ParsePlan` of the method and path, with the new dependencies appended to the old |
| Handlers.Handler.BindParam | pkg/app/web/handler.go:294-323 | one turn of the binding loop does what `StepOf` says: the argument bound and the new `reqErr`, or stop with an error reply or a path panic |
| Handlers.Handler.Call | pkg/app/web/handler.go:274-337 | the outcome and the context's new answer are `CallSpec` of the handler's plan |
| Handlers.Handler.ResponseData | pkg/app/web/handler.go:214-272 | the error returned and the new answer are `Encode` of the results and the handler's result descriptors |
| Handlers.ParsedPathIndex | pkg/app/web/handler.go:176-185 | for parameter i with i-1 below the placeholder count, name is the (i-1)-th placeholder's name and pathIdx the first segment equal to it; beyond, pathIdx 0 and no name |
| Handlers.MarkerPrecedence | pkg/app/web/handler.go:186-195 | the callback is RequestForm, RequestParams or RequestBody exactly when the type is a struct with that embedded field and no earlier marker in that order |
| Handlers.ContextAwareDepsExact | pkg/app/web/handler.go:155-163 | the dependencies are all context-aware, every context-aware parameter's metadata is among them, and there are no more of them than parameters |
| Handlers.ContextAwareDepsAppend | pkg/app/web/handler.go:151-163 | the dependencies of two consecutive parameter lists are those of the first followed by those of the second, so they come in parameter order |
| Handlers.ContextAwareDepsSingle | pkg/app/web/handler.go:157-162 | one parameter contributes its metadata exactly when it is context-aware, and nothing otherwise |
| Handlers.ExtraParamReadsFirstSegment | pkg/app/web/handler.go:303-306 | with path parameters, a plain parameter past the last placeholder is bound from segment 0 |
| Handlers.BindFromShape | pkg/app/web/handler.go:293-324 | binding completes exactly when every remaining parameter is bindable, each argument matching its strategy; otherwise it stops at the first unbindable one, for the reason its strategy gives |
| Handlers.BindFromComplete | pkg/app/web/handler.go:293-324 | binding from parameter i completes exactly when every remaining parameter is bindable; the arguments then extend those bound so far, each matching its strategy |
| Handlers.BindFromStops | pkg/app/web/handler.go:293-324 | an abort is at the first unbindable parameter, which is a missing dependency; a panic is at the first unbindable parameter, which is bound from the path |
| Handlers.BindFromReqErr | pkg/app/web/handler.go:299-301 | a completed binding carries the error of the last callback-bound parameter |
| Handlers.LastCallbackStep | pkg/app/web/handler.go:299-301 | each callback overwrites `reqErr` and other strategies keep it |
| Handlers.CallOutcome | pkg/app/web/handler.go:326-336 | the method runs exactly when all parameters bind and the last callback accepted; it is rejected with that error exactly when all bind and it failed; arguments start with the receiver |
| Handlers.CallAbortsOnMissingDependency | pkg/app/web/handler.go:308-322 | an abort happens at a dependency neither source provides, after bindable ones, with a 500 "input type: … is not supported!" reply when a writer is attached; a panic happens at a path index beyond the segments |
| Handlers.BindFromAbortReply | pkg/app/web/handler.go:317-320 | the abort leaves the unsupported-type error reply as the last body |
| Handlers.BindIgnoresScoped | pkg/app/web/handler.go:288-290 | without dependencies the request-scoped instances play no part in binding |
| Handlers.CallIgnoresScopedWithoutDependencies | pkg/app/web/handler.go:288-290 | without dependencies `call` does not depend on the request-scoped instances |
| Handlers.EncodeWritesAtMostOnce | pkg/app/web/handler.go:214-272 | at most one body is appended after the old ones; an error is returned exactly for a hidden or nil first result, and a nil one writes nothing |
| Handlers.EncodeStatus | pkg/app/web/handler.go:214-272 | status 200 without results; 500 for an error reply with a writer; the code (500 if 0) for a structured failure; otherwise unchanged |
| Handlers.StructuredSuccess | pkg/app/web/handler.go:240-255 | when the second result carries no error (nil, or of a declared type not named "error") the envelope gets code 200 and translated "success", the status is left alone |
| Handlers.StructuredFailure | pkg/app/web/handler.go:240-265 | with an error whose declared type is named "error" the envelope keeps a non-zero code or gets 500, gets the translated error, and the status becomes that code |
| Handlers.StructuredSingle | pkg/app/web/handler.go:240-266 | a structured response as the only result is sent unchanged |
| Dispatch.MethodNamed | pkg/app/web/dispatcher.go:90 | a method of that name, or none when no method has it; method names of a Go type are unique, so this is the method `MethodByName` returns |
| Dispatch.PartyOf | pkg/app/web/dispatcher.go:59-147 | refused exactly when injection fails or the mapping field is missing, injection checked first; a missing mapping field is refused as an invalid controller named by its type; a registered party has the prefix rule's prefix, the parsed Before and After hooks, and the routes of its methods under that prefix |
| Dispatch.ApiContextMapping | pkg/app/web/dispatcher.go:125-134 | the loop builds the By form piece by piece, else the literal form: the sub-path `SubPath` defines |
| Dispatch.NewHandler | pkg/app/web/dispatcher.go:136-139 | a fresh handler whose plan is `ParsePlan` of the method on the path |
| Dispatch.ParseHook | pkg/app/web/dispatcher.go:90-111 | a hook method, if present, parsed with the empty path |
| Dispatch.RouteFor | pkg/app/web/dispatcher.go:118-146 | one method loop turn: a route with the upper-cased verb, the sub-path, the plan for prefix + sub-path and the main handler name, exactly for verb methods |
| Dispatch.ParseRoutes | pkg/app/web/dispatcher.go:113-147 | the routes of the verb methods, in method order |
| Dispatch.RegisterController | pkg/app/web/dispatcher.go:59-147 | one controller loop turn yields `PartyOf` the controller |
| Dispatch.Register | pkg/app/web/dispatcher.go:45-150 | the parties and the error are those of registering in order and stopping at the first refusal |
| Dispatch.RoutesOfComplete | pkg/app/web/dispatcher.go:118-146 | every method whose upper-cased first word is a verb has its route |
| Dispatch.RoutesOfSound | pkg/app/web/dispatcher.go:118-146 | every route comes from a method whose upper-cased first word is a verb |
| Dispatch.NoRouteForHooks | pkg/app/web/dispatcher.go:90-146 | every route's verb is one of the nine, and no route is the Before or After method |
| Dispatch.ByRoutePathParams | pkg/app/web/dispatcher.go:126-139 | a By-form route under a placeholder-free prefix has one path parameter per word after "By", the lower-cased word, in order |
| Dispatch.LiteralRouteHasNoPathParams | pkg/app/web/dispatcher.go:131-139 | a literal route under a placeholder-free prefix has no path parameters, so plain parameters are dependencies |
| Dispatch.RegisterFromShape | pkg/app/web/dispatcher.go:45-150 | no error exactly when every controller registers; the earlier parties are kept, one is added per controller before the first refusal, and that refusal's error is returned |
| Dispatch.OneMethodParty | pkg/app/web/dispatcher.go:59-147 | a controller with one non-hook method, no hooks, a mapping field and successful injection registers a party with the prefix rule's prefix and exactly that method's route |
| Dispatch.LoginParty | pkg/app/web/dispatcher.go:59-147 | `loginController` with `GetById` registers the party "/login" without hooks and the single route GET "/id/{id}" |
| Dispatch.LoginGetByIdPlan | pkg/app/web/handler.go:118-208 | the `GetById` handler under "/login" has one path parameter "id" found at segment 3 and no dependencies |
| Dispatch.LoginGetByIdCall | pkg/app/web/handler.go:274-337 | a request for "/login/id/42" invokes `GetById` with segment "42", and a nil error sends code 200 and translated "success" without touching the status |

## Left out

- Context-pool `acquire`/`release`, the `Handler` wrapper, `NewContext`, `Next` and `HTML`: object pooling and host-router plumbing.
- The per-request `SetFieldValue(controller, "Ctx")` write and `hasCtxField`: they concern the shared controller object across concurrent requests.
- Iris `Party`, `Handle`, `Done` and logging: a party is modelled as a value with its prefix, hooks and routes.
- Camel-case splitting: the words of every name are part of the input, related to the name by concatenation.
- Reflection: `MethodByName`, the order of methods and fields, kinds and type names are input descriptors.
- Placeholder extraction by regular expression: a placeholder is a whole path segment `{name}` with a non-empty name.
- `str.Convert` of a path segment to the parameter's kind: the argument keeps the segment and the kind symbolically.
- `genKind` and the `val`/`iVal` allocation in `parse`. The decode target `iVal` is allocated once per handler and so is shared by concurrent requests; concurrency is not modelled.
- Handlers.SecondError: the panic that `IsNil` raises on a second result of a non-nillable kind is not modelled.
- Web.Translate: the format arguments are not modelled; translation is uninterpreted.
- Handlers.FieldNamed: `FieldByName` also finds fields promoted from embedded structs; the model searches only the struct's own fields, so a marker embedded one level down (a struct embedding a struct that embeds `RequestBody`) is missed, and that parameter is bound by path or dependency instead of the payload callback.
- Text.ToUpper: ASCII-only case mapping; other letters are unchanged.
- Text.ToLower: ASCII-only case mapping, so a non-ASCII capital ("Ü") is left as it is, where Go lowers it; this affects By-form placeholder names and the route text built from them.
- Text.LowerFirst: ASCII-only as well, so a literal sub-path or a default prefix starting with a non-ASCII capital keeps it.
- Paths.Clean: a path is a sequence of characters, so the length test on the trailing "/" counts characters where the code's `len` counts bytes; for a non-ASCII path of two characters ending in "/" ("é/") the model keeps the slash and the code removes it.
- `dispatcher.go` creates its handlers with `new(handler)`, which leaves the factory unset. As written, `parse` then calls `GetInstance` on a nil factory for the first parameter after the receiver (handler.go:157), which panics at registration of any method with a parameter. The model treats the factory as present: an uninterpreted lookup in `Env` when binding, and the parameter's metadata given with the method when parsing.
- Duplicate routes: the code does not resolve them.
- The `failed` constant of `handler.go` is never used.
- JSON encoding of envelopes and maps: a body is recorded as a value.
