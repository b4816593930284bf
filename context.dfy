/**
 * The request context of pkg/app/web/context.go: translation with a fallback,
 * the response helpers that build a `model.BaseResponse` envelope, and the
 * decode-then-validate step shared by the payload binders.
 */
module Web {
  import opened Wrappers

  const StatusOK := 200
  const StatusBadRequest := 400
  const StatusInternalServerError := 500

  /**
   * The host's two translation sources, uninterpreted: `lookup` is the wrapped
   * iris context's `Translate`, `middleware` is `i18n.Translate` (used by the
   * lower-case `translate`). Each answers "" when it has no translation.
   */
  datatype Locale = Locale(lookup: string -> string, middleware: string -> string)

  /** `Context.Translate`: the translation of `format`, or `format` itself when there is none. */
  function Translate(loc: Locale, format: string): (r: string)
    ensures loc.lookup(format) != "" ==> r == loc.lookup(format)
    ensures loc.lookup(format) == "" ==> r == format
    ensures r == "" ==> format == ""
  {
    var msg := loc.lookup(format);
    if msg == "" then format else msg
  }

  /** `Context.translate`: the middleware's answer, with no fallback. */
  function TranslateRaw(loc: Locale, message: string): string {
    loc.middleware(message)
  }

  /** The `data` of an envelope: nil, or an opaque payload. */
  datatype Data = NoData | Opaque(id: string)

  /** `model.BaseResponse`: the `{code, message, data}` envelope. */
  datatype Envelope = Envelope(code: int, message: string, data: Data)

  /** What `ctx.JSON` serialises: an envelope or a `map[string]interface{}` result. */
  datatype Json = EnvelopeJson(envelope: Envelope) | MapJson(id: string)

  /** One write to the response body. */
  datatype Body = Text(text: string) | JsonBody(value: Json)

  /** What a request has answered so far: the status code and the bodies written, in order. */
  datatype Output = Output(status: int, bodies: seq<Body>)

  /**
   * The wrapped host context: the request path, the URL query parameters,
   * whether a response writer is attached, and the translation sources.
   */
  datatype Host = Host(path: string, urlParams: map<string, string>, writerAttached: bool, locale: Locale)

  /** The envelope `ResponseError(message, code)` builds. */
  function ErrorEnvelope(loc: Locale, message: string, code: int): Envelope {
    Envelope(code, TranslateRaw(loc, message), NoData)
  }

  /**
   * The answer after `ResponseError(message, code)`: status `code` and the
   * error envelope when a writer is attached, nothing otherwise.
   */
  function AfterError(h: Host, o: Output, message: string, code: int): (r: Output)
    ensures h.writerAttached ==>
      && r.status == code
      && r.bodies == o.bodies + [JsonBody(EnvelopeJson(ErrorEnvelope(h.locale, message, code)))]
    ensures !h.writerAttached ==> r == o
  {
    if h.writerAttached then
      Output(code, o.bodies + [JsonBody(EnvelopeJson(ErrorEnvelope(h.locale, message, code)))])
    else o
  }

  /** The per-request context: the host it wraps and what has been answered. */
  class Context {
    const host: Host
    var status: int
    var bodies: seq<Body>

    /** A context around `host`, before anything is answered (status 200, no body). */
    constructor (host: Host)
      ensures this.host == host && status == StatusOK && bodies == []
    {
      this.host := host;
      status := StatusOK;
      bodies := [];
    }

    function Out(): Output
      reads this
    {
      Output(status, bodies)
    }

    /** `ctx.StatusCode(code)`. */
    method StatusCode(code: int)
      modifies this
      ensures status == code && bodies == old(bodies)
    {
      status := code;
    }

    /** `ctx.JSON(v)`. */
    method JSON(v: Json)
      modifies this
      ensures status == old(status) && bodies == old(bodies) + [JsonBody(v)]
    {
      bodies := bodies + [JsonBody(v)];
    }

    /** `ctx.WriteString(s)`. */
    method WriteString(s: string)
      modifies this
      ensures status == old(status) && bodies == old(bodies) + [Text(s)]
    {
      bodies := bodies + [Text(s)];
    }

    /** `ResponseString`: the translated text is written, the status is left alone. */
    method ResponseString(data: string)
      modifies this
      ensures status == old(status) && bodies == old(bodies) + [Text(TranslateRaw(host.locale, data))]
    {
      WriteString(TranslateRaw(host.locale, data));
    }

    /** `ResponseBody`: an envelope whose code is the current status, with the data as given. */
    method ResponseBody(message: string, data: Data)
      modifies this
      ensures status == old(status)
      ensures bodies == old(bodies) + [JsonBody(EnvelopeJson(Envelope(old(status), TranslateRaw(host.locale, message), data)))]
    {
      var response := Envelope(0, "", NoData);
      response := response.(code := status);
      response := response.(message := TranslateRaw(host.locale, message));
      response := response.(data := data);
      JSON(EnvelopeJson(response));
    }

    /** `ResponseError`: status and error envelope, written only when a writer is attached. */
    method ResponseError(message: string, code: int)
      modifies this
      ensures Out() == AfterError(host, old(Out()), message, code)
    {
      var response := Envelope(0, "", NoData);
      response := response.(code := code);
      response := response.(message := TranslateRaw(host.locale, message));
      if host.writerAttached {
        StatusCode(code);
        JSON(EnvelopeJson(response));
      }
    }
  }

  /**
   * The decision of `requestEx` given the decode callback's outcome (None for
   * a nil callback) and the validator's: the error returned and the status the
   * error reply carries, or None when the payload is accepted.
   */
  function PayloadCheck(decode: Option<Outcome>, validate: Outcome): (r: Option<(string, int)>)
    ensures r.Some? <==> decode.Some? && (decode.value.Fail? || validate.Fail?)
    ensures r.Some? && decode.value.Fail? ==> r.value == (decode.value.message, StatusInternalServerError)
    ensures r.Some? && decode.value.Ok? ==> r.value == (validate.message, StatusBadRequest)
  {
    match decode
    case None => None
    case Some(Fail(e)) => Some((e, StatusInternalServerError))
    case Some(Ok) =>
      match validate
      case Fail(e) => Some((e, StatusBadRequest))
      case Ok => None
  }

  /** A decode failure decides the answer alone: the validator is not consulted. */
  lemma DecodeFailureSkipsValidation(e: string, v1: Outcome, v2: Outcome)
    ensures PayloadCheck(Some(Fail(e)), v1) == PayloadCheck(Some(Fail(e)), v2)
  {
  }

  /** The error `requestEx` returns for a decision. */
  function PayloadError(r: Option<(string, int)>): Option<string> {
    match r
    case None => None
    case Some((e, _)) => Some(e)
  }

  /** The answer `requestEx` leaves for a decision: an error reply, or nothing written. */
  function AfterPayload(h: Host, o: Output, r: Option<(string, int)>): Output {
    match r
    case None => o
    case Some((e, code)) => AfterError(h, o, e, code)
  }

  /**
   * `requestEx`: run the decode callback, then the validator; a failure of
   * either is answered with an error reply and returned.
   */
  method RequestEx(c: Context, decode: Option<Outcome>, validate: Outcome) returns (err: Option<string>)
    modifies c
    ensures err == PayloadError(PayloadCheck(decode, validate))
    ensures c.Out() == AfterPayload(c.host, old(c.Out()), PayloadCheck(decode, validate))
  {
    if decode.Some? {
      var e := decode.value;
      if e.Fail? {
        c.ResponseError(e.message, StatusInternalServerError);
        return Some(e.message);
      }
      if validate.Fail? {
        c.ResponseError(validate.message, StatusBadRequest);
        return Some(validate.message);
      }
    }
    return None;
  }

  /** `RequestBody`: decode the JSON body (`readJSON` is `ReadJSON`'s outcome), then validate. */
  method RequestBody(c: Context, readJSON: Outcome, validate: Outcome) returns (err: Option<string>)
    modifies c
    ensures err == PayloadError(PayloadCheck(Some(readJSON), validate))
    ensures c.Out() == AfterPayload(c.host, old(c.Out()), PayloadCheck(Some(readJSON), validate))
  {
    err := RequestEx(c, Some(readJSON), validate);
  }

  /** `RequestForm`: decode the form (`readForm` is `ReadForm`'s outcome), then validate. */
  method RequestForm(c: Context, readForm: Outcome, validate: Outcome) returns (err: Option<string>)
    modifies c
    ensures err == PayloadError(PayloadCheck(Some(readForm), validate))
    ensures c.Out() == AfterPayload(c.host, old(c.Out()), PayloadCheck(Some(readForm), validate))
  {
    err := RequestEx(c, Some(readForm), validate);
  }

  /** The decode outcome of `RequestParams`: without URL parameters nothing is decoded. */
  function ParamsDecode(h: Host, decodeParams: Outcome): (r: Outcome)
    ensures |h.urlParams| == 0 ==> r == Ok
  {
    if |h.urlParams| != 0 then decodeParams else Ok
  }

  /**
   * `RequestParams`: decode the URL parameters (`decodeParams` is
   * `mapstruct.Decode`'s outcome) when there are any, then validate.
   */
  method RequestParams(c: Context, decodeParams: Outcome, validate: Outcome) returns (err: Option<string>)
    modifies c
    ensures err == PayloadError(PayloadCheck(Some(ParamsDecode(c.host, decodeParams)), validate))
    ensures c.Out() == AfterPayload(c.host, old(c.Out()), PayloadCheck(Some(ParamsDecode(c.host, decodeParams)), validate))
  {
    var decoded := if |c.host.urlParams| != 0 then decodeParams else Ok;
    err := RequestEx(c, Some(decoded), validate);
  }

  /** Without URL parameters, `RequestParams` still rejects an invalid payload with 400. */
  lemma EmptyParamsStillValidated(h: Host, decodeParams: Outcome, e: string)
    requires |h.urlParams| == 0
    ensures PayloadCheck(Some(ParamsDecode(h, decodeParams)), Fail(e)) == Some((e, StatusBadRequest))
  {
  }
}
