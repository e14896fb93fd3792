/**
 * The runtime type guards of the chat API (types/chat.ts), over dynamic
 * JavaScript values.
 */
module ChatTypes {
  import opened Common

  const Roles: set<string> := {"user", "assistant", "system"}

  /** `isUIMessage(obj)`: a non-null object whose `role` is one of the three roles. */
  predicate IsUIMessage(v: Value)
  {
    IsObject(v) && HasKey(v, "role") && Get(v, "role").Str? && Get(v, "role").s in Roles
  }

  /** `isChatRequestBody(obj)`: a non-null object with a `message` or a `messages` key. */
  predicate IsChatRequestBody(v: Value)
  {
    IsObject(v) && (HasKey(v, "message") || HasKey(v, "messages"))
  }

  /** `isStreamTextResult(obj)`: `toUIMessageStreamResponse` is a function. */
  predicate IsStreamTextResult(v: Value)
  {
    IsObject(v) && HasKey(v, "toUIMessageStreamResponse") && Get(v, "toUIMessageStreamResponse") == Fn
  }

  /** `hasStatusCode(error)`: an Error instance with a `statusCode` key. */
  predicate HasStatusCode(v: Value)
  {
    v.Obj? && v.isError && "statusCode" in v.fields
  }

  /** `isTextPart(part)`: type `text` and a string `text`. */
  predicate IsTextPart(part: Value)
  {
    Get(part, "type") == Str("text") && Get(part, "text").Str?
  }

  /** A UI message is exactly a plain or error object whose role field holds one of the three role strings. */
  lemma UIMessageShape(v: Value)
    ensures IsUIMessage(v) <==> v.Obj? && "role" in v.fields && v.fields["role"] in {Str("user"), Str("assistant"), Str("system")}
  {
  }

  /** Only the keys decide a request body: a key present with value undefined still counts. */
  lemma RequestBodyKeysOnly(fields: map<string, Value>, k: string, x: Value, y: Value)
    requires k == "message" || k == "messages"
    ensures IsChatRequestBody(Obj(false, fields[k := x])) && IsChatRequestBody(Obj(false, fields[k := y]))
  {
  }

  /** Arrays are objects to `typeof`, but carry none of the guarded keys. */
  lemma ArraysAreNotMessages(items: seq<Value>)
    ensures !IsUIMessage(Arr(items)) && !IsChatRequestBody(Arr(items)) && !IsStreamTextResult(Arr(items))
  {
  }

  /** A stream result needs a function: a present non-function member is refused. */
  lemma StreamResultNeedsFunction(fields: map<string, Value>, x: Value)
    requires x != Fn
    ensures !IsStreamTextResult(Obj(false, fields["toUIMessageStreamResponse" := x]))
    ensures IsStreamTextResult(Obj(false, fields["toUIMessageStreamResponse" := Fn]))
  {
  }

  /** A plain object never has a status code in this sense, whatever its keys. */
  lemma StatusCodeNeedsError(fields: map<string, Value>)
    ensures !HasStatusCode(Obj(false, fields))
    ensures HasStatusCode(Obj(true, fields)) <==> "statusCode" in fields
  {
  }

  /** A text part is exactly a part of type `text` whose text is a string. */
  lemma TextPartShape(fields: map<string, Value>)
    ensures IsTextPart(Obj(false, fields)) <==>
      "type" in fields && fields["type"] == Str("text") && "text" in fields && fields["text"].Str?
  {
  }
}
