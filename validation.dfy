/**
 * Input validation and sanitising for chat requests (lib/validation.ts).
 * The regular expressions that are not plain character classes (tag
 * stripping, suspicious SQL/XSS patterns) are parameters.
 */
module Validation {
  import opened Common
  import opened ErrorHandler

  // ---------------------------------------------------------------------
  // sanitizeInput

  /** The HTML entity that the escaping stage writes for `c`. */
  function EscapeChar(c: char): string
  {
    if c == '&' then "&amp;"
    else if c == '<' then "&lt;"
    else if c == '>' then "&gt;"
    else if c == '"' then "&quot;"
    else if c == '\'' then "&#x27;"
    else if c == '/' then "&#x2F;"
    else [c]
  }

  /** Every character escaped at once. */
  function Escaped(s: string): string
  {
    if s == [] then "" else EscapeChar(s[0]) + Escaped(s[1..])
  }

  /** `s.replace(/c/g, rep)`. */
  function ReplaceAll(s: string, c: char, rep: string): (r: string)
  {
    if s == [] then ""
    else (if s[0] == c then rep else [s[0]]) + ReplaceAll(s[1..], c, rep)
  }

  /** The six global replacements, in the order the source performs them. */
  function EscapeInOrder(s: string): string
  {
    var s1 := ReplaceAll(s, '&', "&amp;");
    var s2 := ReplaceAll(s1, '<', "&lt;");
    var s3 := ReplaceAll(s2, '>', "&gt;");
    var s4 := ReplaceAll(s3, '"', "&quot;");
    var s5 := ReplaceAll(s4, '\'', "&#x27;");
    ReplaceAll(s5, '/', "&#x2F;")
  }

  predicate Unsafe(c: char)
  {
    c == '<' || c == '>' || c == '"' || c == '\'' || c == '/'
  }

  lemma {:induction false} ReplaceAllAppend(a: string, b: string, c: char, rep: string)
    ensures ReplaceAll(a + b, c, rep) == ReplaceAll(a, c, rep) + ReplaceAll(b, c, rep)
  {
    if a == [] {
      assert a + b == b;
    } else {
      assert (a + b)[0] == a[0] && (a + b)[1..] == a[1..] + b;
      ReplaceAllAppend(a[1..], b, c, rep);
    }
  }

  lemma {:induction false} ReplaceAllAbsent(s: string, c: char, rep: string)
    requires !HasChar(s, c)
    ensures ReplaceAll(s, c, rep) == s
  {
    if s != [] {
      assert !HasChar(s[1..], c) by {
        forall i | 0 <= i < |s[1..]| ensures s[1..][i] != c { assert s[1..][i] == s[i + 1]; }
      }
      ReplaceAllAbsent(s[1..], c, rep);
    }
  }

  lemma ReplaceAllSingle(c: char, d: char, rep: string)
    ensures ReplaceAll([c], d, rep) == if c == d then rep else [c]
  {
    assert [c][1..] == [];
    assert ReplaceAll([c], d, rep) == (if c == d then rep else [c]) + ReplaceAll([], d, rep);
  }

  /** After the `&` step, a one-character string runs through the other five replacements. */
  function AfterAmp(x: string): string
  {
    var s2 := ReplaceAll(x, '<', "&lt;");
    var s3 := ReplaceAll(s2, '>', "&gt;");
    var s4 := ReplaceAll(s3, '"', "&quot;");
    var s5 := ReplaceAll(s4, '\'', "&#x27;");
    ReplaceAll(s5, '/', "&#x2F;")
  }

  lemma AfterAmpNoop(x: string)
    requires !HasChar(x, '<') && !HasChar(x, '>') && !HasChar(x, '"')
    requires !HasChar(x, '\'') && !HasChar(x, '/')
    ensures AfterAmp(x) == x
  {
    ReplaceAllAbsent(x, '<', "&lt;");
    ReplaceAllAbsent(x, '>', "&gt;");
    ReplaceAllAbsent(x, '"', "&quot;");
    ReplaceAllAbsent(x, '\'', "&#x27;");
    ReplaceAllAbsent(x, '/', "&#x2F;");
  }

  lemma EscapeLater(c: char)
    requires c != '&'
    ensures AfterAmp([c]) == EscapeChar(c)
  {
    if c == '<' { EscapeLt(); }
    else if c == '>' { EscapeGt(); }
    else if c == '"' { EscapeQuot(); }
    else if c == '\'' { EscapeApos(); }
    else if c == '/' { EscapeSlash(); }
    else { EscapePlain(c); }
  }

  lemma EscapeLt()
    ensures AfterAmp("<") == "&lt;"
  {
    ReplaceAllSingle('<', '<', "&lt;");
    ReplaceAllAbsent("&lt;", '>', "&gt;");
    ReplaceAllAbsent("&lt;", '"', "&quot;");
    ReplaceAllAbsent("&lt;", '\'', "&#x27;");
    ReplaceAllAbsent("&lt;", '/', "&#x2F;");
  }

  lemma EscapeGt()
    ensures AfterAmp(">") == "&gt;"
  {
    ReplaceAllSingle('>', '<', "&lt;");
    ReplaceAllSingle('>', '>', "&gt;");
    ReplaceAllAbsent("&gt;", '"', "&quot;");
    ReplaceAllAbsent("&gt;", '\'', "&#x27;");
    ReplaceAllAbsent("&gt;", '/', "&#x2F;");
  }

  lemma EscapeQuot()
    ensures AfterAmp("\"") == "&quot;"
  {
    var q, e := "\"", "&quot;";
    assert q == ['"'];
    ReplaceAllSingle('"', '<', "&lt;");
    ReplaceAllSingle('"', '>', "&gt;");
    ReplaceAllSingle('"', '"', e);
    assert ReplaceAll(ReplaceAll(ReplaceAll(q, '<', "&lt;"), '>', "&gt;"), '"', e) == e;
    ReplaceAllAbsent(e, '\'', "&#x27;");
    ReplaceAllAbsent(e, '/', "&#x2F;");
  }

  lemma EscapeApos()
    ensures AfterAmp("'") == "&#x27;"
  {
    ReplaceAllSingle('\'', '<', "&lt;");
    ReplaceAllSingle('\'', '>', "&gt;");
    ReplaceAllSingle('\'', '"', "&quot;");
    ReplaceAllSingle('\'', '\'', "&#x27;");
    ReplaceAllAbsent("&#x27;", '/', "&#x2F;");
  }

  lemma EscapeSlash()
    ensures AfterAmp("/") == "&#x2F;"
  {
    ReplaceAllSingle('/', '<', "&lt;");
    ReplaceAllSingle('/', '>', "&gt;");
    ReplaceAllSingle('/', '"', "&quot;");
    ReplaceAllSingle('/', '\'', "&#x27;");
    ReplaceAllSingle('/', '/', "&#x2F;");
  }

  lemma EscapePlain(c: char)
    requires c !in {'&', '<', '>', '"', '\'', '/'}
    ensures AfterAmp([c]) == [c]
  {
    ReplaceAllSingle(c, '<', "&lt;");
    ReplaceAllSingle(c, '>', "&gt;");
    ReplaceAllSingle(c, '"', "&quot;");
    ReplaceAllSingle(c, '\'', "&#x27;");
    ReplaceAllSingle(c, '/', "&#x2F;");
  }

  lemma AmpStays()
    ensures AfterAmp("&amp;") == "&amp;"
  {
    var x := "&amp;";
    assert forall i :: 0 <= i < |x| ==> x[i] in {'&', 'a', 'm', 'p', ';'};
    AfterAmpNoop(x);
  }

  /** For one character, the six ordered replacements give its entity. */
  lemma EscapeInOrderChar(c: char)
    ensures EscapeInOrder([c]) == EscapeChar(c)
  {
    ReplaceAllSingle(c, '&', "&amp;");
    assert EscapeInOrder([c]) == AfterAmp(ReplaceAll([c], '&', "&amp;"));
    if c == '&' {
      AmpStays();
    } else {
      EscapeLater(c);
    }
  }

  /**
   * Escaping `&` first makes the six ordered replacements act character by
   * character: no entity written by one step is rewritten by a later one.
   */
  lemma {:induction false} EscapeInOrderIsEscaped(s: string)
    ensures EscapeInOrder(s) == Escaped(s)
  {
    if s == [] {
    } else {
      var h, t := [s[0]], s[1..];
      assert s == h + t;
      ReplaceAllAppend(h, t, '&', "&amp;");
      var a1, b1 := ReplaceAll(h, '&', "&amp;"), ReplaceAll(t, '&', "&amp;");
      ReplaceAllAppend(a1, b1, '<', "&lt;");
      var a2, b2 := ReplaceAll(a1, '<', "&lt;"), ReplaceAll(b1, '<', "&lt;");
      ReplaceAllAppend(a2, b2, '>', "&gt;");
      var a3, b3 := ReplaceAll(a2, '>', "&gt;"), ReplaceAll(b2, '>', "&gt;");
      ReplaceAllAppend(a3, b3, '"', "&quot;");
      var a4, b4 := ReplaceAll(a3, '"', "&quot;"), ReplaceAll(b3, '"', "&quot;");
      ReplaceAllAppend(a4, b4, '\'', "&#x27;");
      var a5, b5 := ReplaceAll(a4, '\'', "&#x27;"), ReplaceAll(b4, '\'', "&#x27;");
      ReplaceAllAppend(a5, b5, '/', "&#x2F;");
      EscapeInOrderChar(s[0]);
      EscapeInOrderIsEscaped(t);
    }
  }

  lemma {:induction false} EscapedIsSafe(s: string)
    ensures forall k :: 0 <= k < |Escaped(s)| ==> !Unsafe(Escaped(s)[k])
  {
    if s != [] {
      EscapedIsSafe(s[1..]);
      var e, rest := EscapeChar(s[0]), Escaped(s[1..]);
      assert Escaped(s) == e + rest;
      forall k | 0 <= k < |e + rest|
        ensures !Unsafe((e + rest)[k])
      {
        if k >= |e| {
          assert (e + rest)[k] == rest[k - |e|];
        }
      }
    }
  }

  /**
   * `sanitizeInput(input)`: non-strings are refused; otherwise the tag
   * stripping stage (`stripTags`, the six regular-expression removals) is
   * followed by HTML escaping and trimming.
   */
  function SanitizeInput(input: Value, stripTags: string -> string): (r: Result<string, AppError>)
    ensures r.Err? <==> !input.Str?
    ensures r.Err? ==> r.error == ValidationError("Input must be a string", None)
    ensures r.Ok? ==> r.value == Trim(Escaped(stripTags(input.s)))
    ensures r.Ok? ==> forall k :: 0 <= k < |r.value| ==> !Unsafe(r.value[k])
    ensures r.Ok? && r.value != [] ==> !IsJsSpace(r.value[0]) && !IsJsSpace(r.value[|r.value| - 1])
  {
    if !input.Str? then Err(ValidationError("Input must be a string", None))
    else
      var escaped := EscapeInOrder(stripTags(input.s));
      EscapeInOrderIsEscaped(stripTags(input.s));
      EscapedIsSafe(stripTags(input.s));
      Ok(Trim(escaped))
  }

  // ---------------------------------------------------------------------
  // validateMessage

  const MaxMessageLength := 2000

  /** The characters of `/[<>{}[\]\\|`~!@#$%^&*()+=]/`. */
  predicate IsSpecial(c: char)
  {
    c in "<>{}[]\\|`~!@#$%^&*()+="
  }

  function SpecialCount(s: string): (n: nat)
    ensures n <= |s|
  {
    if s == [] then 0 else (if IsSpecial(s[0]) then 1 else 0) + SpecialCount(s[1..])
  }

  /**
   * `specialCharCount > trimmed.length * 0.3`, the length counted in UTF-16
   * code units. For lengths up to 2000 the double product rounds to the
   * nearest value without crossing an integer, so for an integer count this
   * is exactly `10 * count > 3 * length`.
   */
  predicate TooManySpecial(s: string)
  {
    10 * SpecialCount(s) > 3 * JsLength(s)
  }

  /**
   * `validateMessage(message)`; `suspicious` holds when one of the eight
   * SQL/XSS patterns matches.
   */
  function ValidateMessage(message: Value, suspicious: string -> bool): (r: Result<string, AppError>)
    ensures r.Ok? <==>
      message.Str? && Trim(message.s) != [] && JsLength(Trim(message.s)) <= MaxMessageLength
      && !TooManySpecial(Trim(message.s)) && !suspicious(Trim(message.s))
    ensures r.Ok? ==> r.value == Trim(message.s)
    ensures !Truthy(message) ==> r == Err(ValidationError("Message is required", None))
    ensures Truthy(message) && !message.Str? ==> r == Err(ValidationError("Message must be a string", None))
    ensures message.Str? && message.s != [] && Trim(message.s) == [] ==>
      r == Err(ValidationError("Message cannot be empty", None))
    ensures message.Str? && JsLength(Trim(message.s)) > MaxMessageLength ==>
      r == Err(ValidationError("Message is too long (max 2000 characters)", None))
    ensures (message.Str? && Trim(message.s) != [] && JsLength(Trim(message.s)) <= MaxMessageLength
      && TooManySpecial(Trim(message.s))) ==>
      r == Err(ValidationError("Message contains too many special characters", None))
    ensures (message.Str? && Trim(message.s) != [] && JsLength(Trim(message.s)) <= MaxMessageLength
      && !TooManySpecial(Trim(message.s)) && suspicious(Trim(message.s))) ==>
      r == Err(ValidationError("Message contains suspicious content", None))
    ensures r.Err? ==> r.error.statusCode == 400
  {
    if !Truthy(message) then Err(ValidationError("Message is required", None))
    else if !message.Str? then Err(ValidationError("Message must be a string", None))
    else
      var trimmed := Trim(message.s);
      if |trimmed| == 0 then Err(ValidationError("Message cannot be empty", None))
      else if JsLength(trimmed) > MaxMessageLength then Err(ValidationError("Message is too long (max 2000 characters)", None))
      else if TooManySpecial(trimmed) then Err(ValidationError("Message contains too many special characters", None))
      else if suspicious(trimmed) then Err(ValidationError("Message contains suspicious content", None))
      else Ok(trimmed)
  }

  /** Exactly 2000 code units are accepted; one more character is refused. */
  lemma MessageLengthBoundary(s: string, suspicious: string -> bool)
    requires JsLength(s) == MaxMessageLength && Trim(s) == s
    requires !TooManySpecial(s) && !suspicious(s)
    ensures ValidateMessage(Str(s), suspicious) == Ok(s)
    ensures forall c :: !IsJsSpace(c) ==> ValidateMessage(Str(s + [c]), suspicious).Err?
  {
    forall c | !IsJsSpace(c) ensures ValidateMessage(Str(s + [c]), suspicious).Err? {
      var t := s + [c];
      assert s != [] && !IsJsSpace(s[0]);
      assert t[0] == s[0] && t[|t| - 1] == c;
      assert Trim(t) == t;
      Utf16Append(s, [c]);
    }
  }

  /**
   * A character outside the BMP counts twice: 1001 copies of U+1F600 are
   * 2002 code units long and refused as too long.
   */
  lemma AstralCountsTwice(suspicious: string -> bool)
    ensures var s := seq(1001, _ => '\U{1F600}');
      ValidateMessage(Str(s), suspicious) == Err(ValidationError("Message is too long (max 2000 characters)", None))
  {
    var s := seq(1001, _ => '\U{1F600}');
    assert Trim(s) == s by {
      assert s[0] == s[|s| - 1] == '\U{1F600}';
      assert !IsJsSpace('\U{1F600}');
    }
    assert JsLength(s) == 2002 by {
      assert forall i :: 0 <= i < |s| ==> s[i] == '\U{1F600}';
      JsLengthOfPlane(s);
    }
  }

  // ---------------------------------------------------------------------
  // Identifiers

  /** `[a-zA-Z0-9_-]`. */
  predicate IsIdChar(c: char)
  {
    IsUpper(c) || IsLowerLetter(c) || IsDigit(c) || c == '_' || c == '-'
  }

  predicate AllIdChars(s: string)
  {
    forall i :: 0 <= i < |s| ==> IsIdChar(s[i])
  }

  /** `validateCompanyId(companyId)`: 2..50 identifier characters, returned lower-cased. */
  function ValidateCompanyId(companyId: Value): (r: Result<string, AppError>)
    ensures r.Ok? <==> companyId.Str? && 2 <= |companyId.s| <= 50 && AllIdChars(companyId.s)
    ensures r.Ok? ==> r.value == ToLower(companyId.s)
    ensures r.Ok? ==> forall i :: 0 <= i < |r.value| ==> IsIdChar(r.value[i]) && !IsUpper(r.value[i])
    ensures r.Err? ==> r.error.code == Some("VALIDATION_ERROR")
  {
    if !Truthy(companyId) then Err(ValidationError("Company ID is required", None))
    else if !companyId.Str? then Err(ValidationError("Company ID must be a string", None))
    else if !AllIdChars(companyId.s) then Err(ValidationError("Company ID contains invalid characters", None))
    else if |companyId.s| < 2 || |companyId.s| > 50 then
      Err(ValidationError("Company ID must be between 2 and 50 characters", None))
    else Ok(ToLower(companyId.s))
  }

  /** Lower-casing an accepted company id is idempotent: it validates to itself. */
  lemma CompanyIdNormalised(companyId: Value)
    requires ValidateCompanyId(companyId).Ok?
    ensures ValidateCompanyId(Str(ValidateCompanyId(companyId).value)) == ValidateCompanyId(companyId)
  {
    var s := ValidateCompanyId(companyId).value;
    assert ToLower(s) == s;
  }

  /** `^(session_|conv_)[a-zA-Z0-9_-]+$` with the `i` flag. */
  predicate IsSessionLike(s: string)
  {
    (|s| > 8 && ToLower(s[..8]) == "session_" && AllIdChars(s[8..]))
    || (|s| > 5 && ToLower(s[..5]) == "conv_" && AllIdChars(s[5..]))
  }

  /** The common shape of `validateSessionId` and `validateConversationId`. */
  function ValidateSessionLike(v: Value, kind: string): (r: Result<Option<string>, AppError>)
    ensures !Truthy(v) ==> r == Ok(None)
    ensures r == Ok(None) ==> !Truthy(v)
    ensures (r.Ok? && r.value.Some?) <==> v.Str? && IsSessionLike(v.s) && |v.s| <= 200
    ensures r.Ok? && r.value.Some? ==> r.value.value == v.s
  {
    if !Truthy(v) then Ok(None)
    else if !v.Str? then Err(ValidationError(kind + " ID must be a string", None))
    else if !IsSessionLike(v.s) then
      Err(ValidationError("Invalid " + ToLower(kind) + " ID format: " + JsPrefix(v.s, 50), None))
    else if |v.s| > 200 then Err(ValidationError(kind + " ID is too long", None))
    else Ok(Some(v.s))
  }

  /** `validateSessionId(sessionId)`. */
  function ValidateSessionId(sessionId: Value): (r: Result<Option<string>, AppError>)
    ensures !Truthy(sessionId) <==> r == Ok(None)
    ensures (r.Ok? && r.value.Some?) <==> sessionId.Str? && IsSessionLike(sessionId.s) && |sessionId.s| <= 200
    ensures r.Ok? && r.value.Some? ==> r.value.value == sessionId.s
  {
    ValidateSessionLike(sessionId, "Session")
  }

  /** `validateConversationId(conversationId)`: the same rule as for session ids. */
  function ValidateConversationId(conversationId: Value): (r: Result<Option<string>, AppError>)
    ensures !Truthy(conversationId) <==> r == Ok(None)
    ensures (r.Ok? && r.value.Some?) <==>
      conversationId.Str? && IsSessionLike(conversationId.s) && |conversationId.s| <= 200
    ensures r.Ok? && r.value.Some? ==> r.value.value == conversationId.s
  {
    ValidateSessionLike(conversationId, "Conversation")
  }

  /** Both prefixes are accepted in either case, followed by at least one id character. */
  lemma SessionPrefixes(rest: string)
    requires rest != [] && AllIdChars(rest) && |rest| <= 100
    ensures ValidateSessionId(Str("session_" + rest)) == Ok(Some("session_" + rest))
    ensures ValidateSessionId(Str("CONV_" + rest)) == Ok(Some("CONV_" + rest))
    ensures ValidateConversationId(Str("conv_" + rest)) == Ok(Some("conv_" + rest))
    ensures ValidateConversationId(Str("session_")).Err?
  {
    assert ToLower("session_") == "session_";
    assert ToLower("CONV_") == "conv_";
    assert ToLower("conv_") == "conv_";
    assert ("session_" + rest)[..8] == "session_" && ("session_" + rest)[8..] == rest;
    assert ("CONV_" + rest)[..5] == "CONV_" && ("CONV_" + rest)[5..] == rest;
    assert ("conv_" + rest)[..5] == "conv_" && ("conv_" + rest)[5..] == rest;
    assert "session_"[..5] == "sessi";
    assert ToLower("sessi")[0] == 's';
  }

  // ---------------------------------------------------------------------
  // validateChatRequest

  datatype ChatRequest = ChatRequest(message: string, sessionId: Option<string>, conversationId: Option<string>)

  /**
   * `validateChatRequest(body)`: the body must be a truthy object; its three
   * fields are validated in declaration order and the first failure is raised.
   */
  function ValidateChatRequest(body: Value, suspicious: string -> bool): (r: Result<ChatRequest, AppError>)
    ensures !(Truthy(body) && IsObject(body)) ==>
      r == Err(ValidationError("Request body must be an object", None))
    ensures r.Ok? <==>
      Truthy(body) && IsObject(body)
      && ValidateMessage(Get(body, "message"), suspicious).Ok?
      && ValidateSessionId(Get(body, "sessionId")).Ok?
      && ValidateConversationId(Get(body, "conversationId")).Ok?
    ensures r.Ok? ==> r.value == ChatRequest(
      ValidateMessage(Get(body, "message"), suspicious).value,
      ValidateSessionId(Get(body, "sessionId")).value,
      ValidateConversationId(Get(body, "conversationId")).value)
    ensures Truthy(body) && IsObject(body) && ValidateMessage(Get(body, "message"), suspicious).Err? ==>
      r == Err(ValidateMessage(Get(body, "message"), suspicious).error)
  {
    if !Truthy(body) || !IsObject(body) then Err(ValidationError("Request body must be an object", None))
    else
      var m := ValidateMessage(Get(body, "message"), suspicious);
      if m.Err? then Err(m.error)
      else
        var sid := ValidateSessionId(Get(body, "sessionId"));
        if sid.Err? then Err(sid.error)
        else
          var cid := ValidateConversationId(Get(body, "conversationId"));
          if cid.Err? then Err(cid.error)
          else Ok(ChatRequest(m.value, sid.value, cid.value))
  }
}
