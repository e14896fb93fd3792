/**
 * The first node of the original chat pipeline
 * (functions/api/nodes/01-validate-request.ts): CORS headers from the
 * company's allowed origins, then the request checks in order, then the
 * request body with its defaults stored on the pipeline context. The
 * checks that the later `ValidateNode` repeats are defined here once.
 */
module ValidateRequest {
  import opened Common
  import opened Http
  import CompanyConfig

  // ---------------------------------------------------------------------
  // CORS

  /**
   * `buildCorsHeaders(request, companyConfig)`; `allowedOrigins` is `None`
   * when there is no company configuration or it has no `allowedOrigins`
   * field (an empty list is still a list, and then yields no origin).
   */
  function BuildCorsHeaders(origin: Option<string>, allowedOrigins: Option<seq<string>>): (h: map<string, Value>)
    ensures h.Keys == CorsHeaders(Undefined).Keys
    ensures allowedOrigins.None? ==>
      h["Access-Control-Allow-Origin"] == Str(if origin.Some? && origin.value != "" then origin.value else "*")
    ensures allowedOrigins.Some? ==> h["Access-Control-Allow-Origin"] == AllowedOrigin(origin, allowedOrigins.value)
  {
    if allowedOrigins.None? then
      CorsHeaders(Str(if origin.Some? && origin.value != "" then origin.value else "*"))
    else
      CorsHeaders(AllowedOrigin(origin, allowedOrigins.value))
  }

  /** The request origin, when listed or covered by a Pages wildcard; else the first listed origin. */
  function AllowedOrigin(origin: Option<string>, allowed: seq<string>): (r: Value)
    ensures origin.Some? && origin.value != "" && origin.value in allowed ==> r == Str(origin.value)
    ensures (origin.Some? && origin.value != "" && Contains(origin.value, CompanyConfig.PagesSuffix)
      && CompanyConfig.HasPagesWildcard(allowed)) ==> r == Str(origin.value)
    ensures r == Undefined <==> allowed == [] && !(origin.Some? && r == Str(origin.value))
    ensures r.Str? ==> r.s in allowed || (origin.Some? && r.s == origin.value)
  {
    if origin.Some? && origin.value != "" && origin.value in allowed then Str(origin.value)
    else if origin.Some? && origin.value != "" && Contains(origin.value, CompanyConfig.PagesSuffix)
      && ("*.pages.dev" in allowed || "https://*.pages.dev" in allowed) then
      WildcardListed(allowed);
      Str(origin.value)
    else if allowed != [] then Str(allowed[0])
    else Undefined
  }

  /** An origin that is neither listed nor a Pages origin under a wildcard is never echoed back. */
  lemma UnlistedOriginNotEchoed(origin: string, allowed: seq<string>)
    requires origin !in allowed
    requires !(Contains(origin, CompanyConfig.PagesSuffix) && CompanyConfig.HasPagesWildcard(allowed))
    ensures var h := BuildCorsHeaders(Some(origin), Some(allowed));
      h["Access-Control-Allow-Origin"] == (if allowed != [] then Str(allowed[0]) else Undefined)
  {
    WildcardListed(allowed);
  }

  /** Listing either spelling of the Pages wildcard is what `HasPagesWildcard` asks for. */
  lemma WildcardListed(allowed: seq<string>)
    ensures ("*.pages.dev" in allowed || "https://*.pages.dev" in allowed) <==> CompanyConfig.HasPagesWildcard(allowed)
  {
    if "*.pages.dev" in allowed || "https://*.pages.dev" in allowed {
      var w := if "*.pages.dev" in allowed then "*.pages.dev" else "https://*.pages.dev";
      var i :| 0 <= i < |allowed| && allowed[i] == w;
    }
  }

  // ---------------------------------------------------------------------
  // Request checks shared with ValidateNode

  /** The `content-type` header is present and mentions `application/json`. */
  predicate IsJsonContentType(contentType: Option<string>)
  {
    contentType.Some? && Contains(contentType.value, "application/json")
  }

  /** `body.message` is a string that is not blank after `trim()`. */
  predicate MessageOk(message: Value)
  {
    message.Str? && Trim(message.s) != ""
  }

  /** `[a-zA-Z0-9_]`. */
  predicate IsConversationIdChar(c: char)
  {
    IsUpper(c) || IsLowerLetter(c) || IsDigit(c) || c == '_'
  }

  /** `/^conv_[a-zA-Z0-9_]+$/`. */
  predicate IsConversationId(s: string)
  {
    |s| > 5 && s[..5] == "conv_" && forall i :: 5 <= i < |s| ==> IsConversationIdChar(s[i])
  }

  /** An absent (falsy) conversation id, or a string of at most 100 characters of the right form. */
  predicate ConversationIdOk(v: Value)
  {
    !Truthy(v) || (v.Str? && |v.s| <= 100 && IsConversationId(v.s))
  }

  lemma ConversationIdExamples()
    ensures ConversationIdOk(Str("conv_abc_123")) && ConversationIdOk(Undefined) && ConversationIdOk(Str(""))
    ensures !ConversationIdOk(Str("conv_")) && !ConversationIdOk(Str("conv-abc")) && !ConversationIdOk(Num(7))
  {
    assert "conv_abc_123"[..5] == "conv_";
    assert "conv-abc"[..5] != "conv_" by { assert "conv-abc"[4] == '-'; }
  }

  // ---------------------------------------------------------------------
  // Defaults

  const DefaultMode := "auto"
  const DefaultSource := "input"
  const DefaultPageType := "demo"

  /** `body.key ?? fallback`. */
  function Coalesce(body: map<string, Value>, key: string, fallback: string): Value
  {
    if key in body && !body[key].Null? && !body[key].Undefined? then body[key] else Str(fallback)
  }

  /**
   * `{mode: body.mode ?? 'auto', source: …, pageType: …, ...body}` as
   * written: the spread comes last, so a key the body holds always wins,
   * even when its value is null.
   */
  function WithDefaultsAsWritten(body: map<string, Value>): (r: map<string, Value>)
    ensures r.Keys == body.Keys + {"mode", "source", "pageType"}
    ensures forall k :: k in body ==> r[k] == body[k]
  {
    map["mode" := Coalesce(body, "mode", DefaultMode),
        "source" := Coalesce(body, "source", DefaultSource),
        "pageType" := Coalesce(body, "pageType", DefaultPageType)] + body
  }

  /** The `??` defaults never apply under the spread: a null `mode` stays null. */
  lemma NullModeSurvivesAsWritten()
    ensures WithDefaultsAsWritten(map["message" := Str("hi"), "mode" := Null])["mode"] == Null
  {
  }

  /**
   * The body with the defaults applied after the spread: every other field
   * is kept, and the three fields are the body's own unless null or absent.
   */
  function WithDefaults(body: map<string, Value>): (r: map<string, Value>)
    ensures r.Keys == body.Keys + {"mode", "source", "pageType"}
    ensures forall k :: k in body && k !in {"mode", "source", "pageType"} ==> r[k] == body[k]
    ensures r["mode"] == Coalesce(body, "mode", DefaultMode)
    ensures r["source"] == Coalesce(body, "source", DefaultSource)
    ensures r["pageType"] == Coalesce(body, "pageType", DefaultPageType)
  {
    body + map["mode" := Coalesce(body, "mode", DefaultMode),
               "source" := Coalesce(body, "source", DefaultSource),
               "pageType" := Coalesce(body, "pageType", DefaultPageType)]
  }

  /** The two agree except where the body holds a null or undefined `mode`, `source` or `pageType`. */
  lemma {:induction false} DefaultsAgreeOnWellFormedBodies(body: map<string, Value>)
    requires forall k :: k in body && k in {"mode", "source", "pageType"} ==> !body[k].Null? && !body[k].Undefined?
    ensures WithDefaults(body) == WithDefaultsAsWritten(body)
  {
    var a := WithDefaults(body);
    var b := WithDefaultsAsWritten(body);
    forall k | k in a.Keys
      ensures a[k] == b[k]
    {
      if k in body && k in {"mode", "source", "pageType"} {
        assert b[k] == body[k];
      }
    }
  }

  /** The three defaulted fields are never null after the corrected merge. */
  lemma DefaultsNeverNull(body: map<string, Value>)
    ensures var r := WithDefaults(body);
      forall k :: k in {"mode", "source", "pageType"} ==> !r[k].Null? && !r[k].Undefined?
  {
  }

  // ---------------------------------------------------------------------
  // The node

  /** What the node hands back: the context to continue with, a response, or an uncaught exception. */
  datatype Outcome = Continue | Respond(response: Response) | Throw(message: string)

  /** `PipelineContext`, the fields this node reads and writes; an empty `corsHeaders` is an absent one. */
  class PipelineContext {
    var request: Request
    var allowedOrigins: Option<seq<string>>
    var corsHeaders: map<string, Value>
    var body: Option<map<string, Value>>

    constructor (request: Request, allowedOrigins: Option<seq<string>>)
      ensures this.request == request && this.allowedOrigins == allowedOrigins
      ensures corsHeaders == map[] && body == None
    {
      this.request := request;
      this.allowedOrigins := allowedOrigins;
      corsHeaders := map[];
      body := None;
    }
  }

  const MaxMessageLength := 1000
  const InvalidContentType := "Invalid Content-Type"
  const ContentTypeMessage := "請求必須使用 application/json"
  const InvalidJson := "Invalid JSON"
  const InvalidJsonMessage := "請求體必須是有效的 JSON 格式"
  const InvalidRequest := "Invalid request"
  const MessageRequired := "message 欄位為必填且不能為空"
  const MessageTooLong := "message 長度不能超過 1000 字元"
  const BadConversationId := "conversationId 格式不正確"
  const BadModeType := "mode 型別不正確"
  const BadSourceType := "source 型別不正確"
  const BadPageType := "pageType 型別不正確"
  const MaxConversationIdLength := 100

  /** The 400 response with the CORS headers and a JSON body. */
  function BadRequest(cors: map<string, Value>, error: string, message: string): (r: Response)
    ensures r.status == 400 && r.body == Some(ErrorBody(error, message))
  {
    JsonError(400, cors, error, message)
  }

  /** The fields of a parsed, non-null body pass the message, conversation id and type checks. */
  predicate FieldsAccepted(body: Value)
  {
    && MessageOk(Get(body, "message"))
    && JsLength(Get(body, "message").s) <= MaxMessageLength
    && ConversationIdOk(Get(body, "conversationId"))
    && TypeOk(Get(body, "mode"))
    && TypeOk(Get(body, "source"))
    && TypeOk(Get(body, "pageType"))
  }

  /** The request passes every check of the node: the outcome is then `Continue`. */
  predicate Accepted(request: Request)
  {
    && request.verb != "OPTIONS"
    && IsJsonContentType(GetHeader(request, "content-type"))
    && request.body.Some?
    && !(request.body.value.Null? || request.body.value.Undefined?)
    && FieldsAccepted(request.body.value)
  }

  /** `v && typeof v !== 'string'` fails the type check. */
  predicate TypeOk(v: Value)
  {
    !Truthy(v) || v.Str?
  }

  /** Steps 5 to 8 of the node on a parsed body: the first failing field check answers 400. */
  function CheckFields(body: Value, cors: map<string, Value>): (response: Option<Response>)
    ensures response.None? <==> FieldsAccepted(body)
    ensures response.Some? ==> response.value.status == 400
    ensures !MessageOk(Get(body, "message")) ==>
      response == Some(BadRequest(cors, InvalidRequest, MessageRequired))
  {
    var message := Get(body, "message");
    if !MessageOk(message) then Some(BadRequest(cors, InvalidRequest, MessageRequired))
    else if JsLength(message.s) > MaxMessageLength then Some(BadRequest(cors, InvalidRequest, MessageTooLong))
    else if !ConversationIdOk(Get(body, "conversationId")) then Some(BadRequest(cors, InvalidRequest, BadConversationId))
    else if !TypeOk(Get(body, "mode")) then Some(BadRequest(cors, InvalidRequest, BadModeType))
    else if !TypeOk(Get(body, "source")) then Some(BadRequest(cors, InvalidRequest, BadSourceType))
    else if !TypeOk(Get(body, "pageType")) then Some(BadRequest(cors, InvalidRequest, BadPageType))
    else None
  }

  /**
   * Steps 2 to 8 of the node, on the request and the CORS headers in force:
   * OPTIONS is answered with 204 before any check, each failed check
   * answers 400, and a JSON `null` body throws on reading `message`.
   */
  function CheckRequest(request: Request, cors: map<string, Value>): (o: Outcome)
    ensures request.verb == "OPTIONS" ==> o == Respond(Response(204, cors, None))
    ensures o.Continue? <==> Accepted(request)
    ensures o.Continue? ==> request.body.Some?
    ensures o.Throw? <==> (request.verb != "OPTIONS" && IsJsonContentType(GetHeader(request, "content-type"))
      && (request.body == Some(Null) || request.body == Some(Undefined)))
    ensures o.Respond? && request.verb != "OPTIONS" ==> o.response.status == 400
    ensures request.verb != "OPTIONS" && !IsJsonContentType(GetHeader(request, "content-type")) ==>
      o == Respond(BadRequest(cors, InvalidContentType, ContentTypeMessage))
    ensures request.verb != "OPTIONS" && IsJsonContentType(GetHeader(request, "content-type")) && request.body.None? ==>
      o == Respond(BadRequest(cors, InvalidJson, InvalidJsonMessage))
  {
    if request.verb == "OPTIONS" then Respond(Response(204, cors, None))
    else if !IsJsonContentType(GetHeader(request, "content-type")) then
      Respond(BadRequest(cors, InvalidContentType, ContentTypeMessage))
    else if request.body.None? then Respond(BadRequest(cors, InvalidJson, InvalidJsonMessage))
    else
      var body := request.body.value;
      if body.Null? || body.Undefined? then Throw(PropertyAccessError(body, "message"))
      else
        var response := CheckFields(body, cors);
        if response.Some? then Respond(response.value) else Continue
  }

  /**
   * `node_validateRequest(ctx)`: the CORS headers are built unless the
   * context already has some, the request is checked against them, and an
   * accepted body is stored with its defaults.
   */
  method NodeValidateRequest(ctx: PipelineContext) returns (o: Outcome)
    modifies ctx
    ensures ctx.request == old(ctx.request) && ctx.allowedOrigins == old(ctx.allowedOrigins)
    ensures |old(ctx.corsHeaders)| != 0 ==> ctx.corsHeaders == old(ctx.corsHeaders)
    ensures |old(ctx.corsHeaders)| == 0 ==>
      ctx.corsHeaders == BuildCorsHeaders(GetHeader(old(ctx.request), "origin"), old(ctx.allowedOrigins))
    ensures o == CheckRequest(ctx.request, ctx.corsHeaders)
    ensures o.Continue? ==> ctx.body == Some(WithDefaults(Fields(ctx.request.body.value)))
    ensures !o.Continue? ==> ctx.body == old(ctx.body)
  {
    ResolveCors(ctx);
    o := CheckRequest(ctx.request, ctx.corsHeaders);
    if o.Continue? {
      ctx.body := Some(WithDefaults(Fields(ctx.request.body.value)));
    }
  }

  /** The CORS headers are built from the request's origin unless the context already has some. */
  method ResolveCors(ctx: PipelineContext)
    modifies ctx
    ensures ctx.request == old(ctx.request) && ctx.allowedOrigins == old(ctx.allowedOrigins) && ctx.body == old(ctx.body)
    ensures |old(ctx.corsHeaders)| != 0 ==> ctx.corsHeaders == old(ctx.corsHeaders)
    ensures |old(ctx.corsHeaders)| == 0 ==>
      ctx.corsHeaders == BuildCorsHeaders(GetHeader(old(ctx.request), "origin"), old(ctx.allowedOrigins))
  {
    if |ctx.corsHeaders| == 0 {
      ctx.corsHeaders := BuildCorsHeaders(GetHeader(ctx.request, "origin"), ctx.allowedOrigins);
    }
  }

  /** Only an object body gets past the message check, so the stored body is always an object's fields. */
  lemma AcceptedBodyIsObject(request: Request)
    requires Accepted(request)
    ensures request.body.value.Obj?
  {
  }

  /** The own properties of an object body; nothing for any other value. */
  function Fields(v: Value): map<string, Value>
  {
    if v.Obj? then v.fields else map[]
  }
}
