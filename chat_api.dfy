/**
 * Helpers of the Next.js chat route (lib/api/chat-helpers.ts): decoding the
 * request body, retrieving knowledge chunks for the system prompt, and
 * choosing the Gemini model from the environment.
 */
module ChatApi {
  import opened Common
  import opened ErrorHandler
  import opened Validation
  import opened ChatTypes
  import Env

  // ---------------------------------------------------------------------
  // parseChatRequest

  /** JavaScript `typeof v`. */
  function TypeOf(v: Value): string
  {
    match v
    case Undefined => "undefined"
    case Null => "object"
    case Bool(_) => "boolean"
    case Num(_) => "number"
    case Str(_) => "string"
    case Arr(_) => "object"
    case Obj(_, _) => "object"
    case Fn => "function"
  }

  const NotARequestBody := "Request body must be an object with message or messages field"
  const NoMessage := "Request body must contain either \"message\" field or \"messages\" array"
  const NoTextContent := "Message must have valid text content (in parts, content, or text field)."

  /** A part `isTextPart` cannot read a `type` from. */
  predicate Nullish(part: Value)
  {
    part.Null? || part.Undefined?
  }

  /** The TypeError V8 throws when `isTextPart` reads `part.type` of null or undefined. */
  function ReadTypeError(part: Value): Thrown
  {
    Error("Cannot read properties of " + (if part.Null? then "null" else "undefined") + " (reading 'type')")
  }

  /**
   * `parts.filter(isTextPart).map(part => part.text)`: the filter throws at
   * the first null or undefined part.
   */
  function TextsOf(parts: seq<Value>): (r: Result<seq<string>, Thrown>)
    ensures r.Err? <==> exists i :: 0 <= i < |parts| && Nullish(parts[i])
    ensures r.Err? ==> exists i :: 0 <= i < |parts| && Nullish(parts[i]) && r.error == ReadTypeError(parts[i])
                                   && forall j :: 0 <= j < i ==> !Nullish(parts[j])
    ensures r.Ok? ==> |r.value| <= |parts|
    ensures r.Ok? ==> ((exists i :: 0 <= i < |parts| && IsTextPart(parts[i])) <==> r.value != [])
  {
    if parts == [] then Ok([])
    else if Nullish(parts[0]) then Err(ReadTypeError(parts[0]))
    else
      var rest := TextsOf(parts[1..]);
      assert forall i :: 1 <= i < |parts| ==> parts[i] == parts[1..][i - 1];
      if rest.Err? then
        rest
      else if IsTextPart(parts[0]) then Ok([Get(parts[0], "text").s] + rest.value)
      else rest
  }

  /** `texts.join('')`. */
  function Concat(texts: seq<string>): string
  {
    if texts == [] then "" else texts[0] + Concat(texts[1..])
  }

  /** A truthy string field of a message, "" otherwise. */
  function TruthyString(m: Value, k: string): (r: string)
    ensures r != "" <==> Get(m, k).Str? && Get(m, k).s != ""
    ensures r != "" ==> r == Get(m, k).s
  {
    if Get(m, k).Str? then Get(m, k).s else ""
  }

  /**
   * The joined text parts, "" when there is no `parts` array or no text
   * part in it, or the TypeError of a null or undefined part.
   */
  function PartsContent(m: Value): (r: Result<string, Thrown>)
    ensures r.Err? <==> Get(m, "parts").Arr? && TextsOf(Get(m, "parts").items).Err?
  {
    if Get(m, "parts").Arr? then
      var texts := TextsOf(Get(m, "parts").items);
      if texts.Err? then Err(texts.error) else Ok(Concat(texts.value))
    else Ok("")
  }

  /**
   * The content read from the last UI message, "" standing for none:
   * the joined text parts if that is non-empty, else a non-empty string
   * `content`, else a non-empty string `text`. A null or undefined part
   * throws before any field is read.
   */
  function ExtractContent(m: Value): (c: Result<string, Thrown>)
    ensures PartsContent(m).Err? ==> c == PartsContent(m)
    ensures PartsContent(m) == Ok("") && TruthyString(m, "content") != "" ==> c == Ok(Get(m, "content").s)
    ensures PartsContent(m) == Ok("") && TruthyString(m, "content") == "" ==> c == Ok(TruthyString(m, "text"))
    ensures PartsContent(m).Ok? && PartsContent(m).value != "" ==> c == PartsContent(m)
    ensures c.Ok? && c.value != "" ==>
      c == PartsContent(m) || c.value == TruthyString(m, "content") || c.value == TruthyString(m, "text")
  {
    var parts := PartsContent(m);
    if parts.Err? then parts
    else if parts.value != "" then parts
    else if TruthyString(m, "content") != "" then Ok(TruthyString(m, "content"))
    else Ok(TruthyString(m, "text"))
  }

  /** `body.messages` is a non-empty array. */
  predicate HasMessages(body: Value)
  {
    Get(body, "messages").Arr? && Get(body, "messages").items != []
  }

  function LastMessage(body: Value): Value
    requires HasMessages(body)
  {
    var items := Get(body, "messages").items;
    items[|items| - 1]
  }

  /** `typeof body[k] === 'string' ? body[k] : undefined`. */
  function StringField(body: Value, k: string): (r: Option<string>)
    ensures r.Some? <==> Get(body, k).Str?
  {
    if Get(body, k).Str? then Some(Get(body, k).s) else None
  }

  /** The messages branch of parseChatRequest, given the last message and the two id fields. */
  function FromLastMessage(last: Value, sessionId: Option<string>, conversationId: Option<string>): (r: Result<ChatRequest, Thrown>)
    ensures r.Ok? <==> IsUIMessage(last) && ExtractContent(last).Ok? && Trim(ExtractContent(last).value) != ""
    ensures r.Ok? ==> r.value == ChatRequest(ExtractContent(last).value, sessionId, conversationId)
    ensures IsUIMessage(last) && ExtractContent(last).Err? ==> r == Err(ExtractContent(last).error)
    ensures IsUIMessage(last) && ExtractContent(last).Ok? && r.Err? ==> r == Err(App(ValidationError(NoTextContent, None)))
    ensures r.Err? && r.error.App? ==> r.error.app.statusCode == 400
  {
    if !IsUIMessage(last) then
      Err(App(ValidationError("Invalid message format in messages array: last message must be a valid UIMessage, got "
        + TypeOf(last), None)))
    else
      var content := ExtractContent(last);
      if content.Err? then Err(content.error)
      else if content.value != "" && Trim(content.value) != "" then Ok(ChatRequest(content.value, sessionId, conversationId))
      else Err(App(ValidationError(NoTextContent, None)))
  }

  /** A thrown application error, as `throw` of the AppError. */
  function Raise(r: Result<ChatRequest, AppError>): (t: Result<ChatRequest, Thrown>)
    ensures r.Ok? <==> t.Ok?
    ensures r.Ok? ==> t.value == r.value
    ensures r.Err? ==> t.error == App(r.error)
  {
    if r.Ok? then Ok(r.value) else Err(App(r.error))
  }

  /**
   * `parseChatRequest(requestBody, company)`: the messages format takes
   * precedence over the legacy `message` field; every failure is a
   * ValidationError except the TypeError of a null or undefined part.
   */
  function ParseChatRequest(body: Value, suspicious: string -> bool): (r: Result<ChatRequest, Thrown>)
    ensures !IsChatRequestBody(body) ==> r == Err(App(ValidationError(NotARequestBody, None)))
    ensures IsChatRequestBody(body) && HasMessages(body) ==>
      r == FromLastMessage(LastMessage(body), StringField(body, "sessionId"), StringField(body, "conversationId"))
    ensures IsChatRequestBody(body) && !HasMessages(body) && Truthy(Get(body, "message")) ==>
      r == Raise(ValidateChatRequest(body, suspicious))
    ensures IsChatRequestBody(body) && !HasMessages(body) && !Truthy(Get(body, "message")) ==>
      r == Err(App(ValidationError(NoMessage, None)))
  {
    if !IsChatRequestBody(body) then Err(App(ValidationError(NotARequestBody, None)))
    else if HasMessages(body) then
      FromLastMessage(LastMessage(body), StringField(body, "sessionId"), StringField(body, "conversationId"))
    else if Truthy(Get(body, "message")) then Raise(ValidateChatRequest(body, suspicious))
    else Err(App(ValidationError(NoMessage, None)))
  }

  /** Only a null or undefined part makes the messages branch throw something other than a ValidationError. */
  lemma OnlyNullishPartsThrowTypeErrors(last: Value, sessionId: Option<string>, conversationId: Option<string>)
    ensures var r := FromLastMessage(last, sessionId, conversationId);
      r.Err? && !r.error.App? <==>
        IsUIMessage(last) && Get(last, "parts").Arr?
        && exists i :: 0 <= i < |Get(last, "parts").items| && Nullish(Get(last, "parts").items[i])
  {
  }

  /** Only the last element of `messages` is read: the earlier ones may be anything. */
  lemma OnlyLastMessageCounts(fields: map<string, Value>, xs: seq<Value>, ys: seq<Value>, last: Value,
                              suspicious: string -> bool)
    ensures ParseChatRequest(Obj(false, fields["messages" := Arr(xs + [last])]), suspicious)
         == ParseChatRequest(Obj(false, fields["messages" := Arr(ys + [last])]), suspicious)
  {
    var b1 := Obj(false, fields["messages" := Arr(xs + [last])]);
    var b2 := Obj(false, fields["messages" := Arr(ys + [last])]);
    assert LastMessage(b1) == last && LastMessage(b2) == last;
    assert HasMessages(b1) && HasMessages(b2);
    assert StringField(b1, "sessionId") == StringField(b2, "sessionId");
    assert StringField(b1, "conversationId") == StringField(b2, "conversationId");
    assert IsChatRequestBody(b1) && IsChatRequestBody(b2);
  }

  // ---------------------------------------------------------------------
  // retrieveRelevantChunks

  /** `a || b`. */
  function Or(a: Value, b: Value): (r: Value)
    ensures Truthy(a) ==> r == a
    ensures !Truthy(a) ==> r == b
  {
    if Truthy(a) then a else b
  }

  /** The heading of a chunk: its title, else its id. */
  function Label(c: Value): string
  {
    JsString(Or(Or(Get(c, "title"), Get(c, "chunk_id")), Str("")))
  }

  /** The key a chunk is remembered under: its id, else its title. */
  function ChunkId(c: Value): string
  {
    JsString(Or(Or(Get(c, "chunk_id"), Get(c, "title")), Str("")))
  }

  /** The text added to the prompt for a chunk. */
  function ChunkText(c: Value): string
  {
    "【" + Label(c) + "】\n" + JsString(Or(Get(c, "content"), Str("")))
  }

  /** One of the chunk's q_triggers, lower-cased, occurs in the message. */
  predicate Triggered(c: Value, msg: string)
  {
    Get(c, "q_triggers").Arr?
    && exists t :: t in Get(c, "q_triggers").items && Contains(msg, ToLower(JsString(t)))
  }

  /** A chunk tag and an alias key contain one another, ignoring case. */
  predicate TagMatches(tag: Value, key: string)
  {
    var tl := ToLower(JsString(tag));
    var kl := ToLower(key);
    Contains(tl, kl) || Contains(kl, tl)
  }

  predicate HasMatchingTag(c: Value, key: string)
  {
    Get(c, "tags").Arr? && exists tag :: tag in Get(c, "tags").items && TagMatches(tag, key)
  }

  predicate HasExactTag(c: Value, tag: Value)
  {
    Get(c, "tags").Arr? && tag in Get(c, "tags").items
  }

  /** The chunks found so far and, push by push, the ids recorded in `matchedChunkIds`. */
  datatype Found = Found(texts: seq<string>, ids: seq<string>)

  /** `g` is `f` with some more chunks pushed: one id per text. */
  predicate Extends(f: Found, g: Found)
  {
    f.texts <= g.texts && f.ids <= g.ids && |g.texts| - |f.texts| == |g.ids| - |f.ids|
  }

  function Add(f: Found, c: Value): (g: Found)
    ensures Extends(f, g) && |g.ids| == |f.ids| + 1
  {
    Found(f.texts + [ChunkText(c)], f.ids + [ChunkId(c)])
  }

  /** Stage 1 over a prefix of the chunks: every triggered chunk, once, in order. */
  function Stage1(chunks: seq<Value>, msg: string): (f: Found)
    ensures |f.texts| == |f.ids| <= |chunks|
  {
    if chunks == [] then Found([], [])
    else
      var f := Stage1(chunks[..|chunks| - 1], msg);
      if Triggered(chunks[|chunks| - 1], msg) then Add(f, chunks[|chunks| - 1]) else f
  }

  /** The inner pass of stage 2 for one alias key, over a prefix of the chunks. */
  function AddTagged(chunks: seq<Value>, key: string, f: Found): (g: Found)
    ensures Extends(f, g)
  {
    if chunks == [] then f
    else
      var g := AddTagged(chunks[..|chunks| - 1], key, f);
      var c := chunks[|chunks| - 1];
      if HasMatchingTag(c, key) && ChunkId(c) !in g.ids then Add(g, c) else g
  }

  /** The alias key or one of its aliases, lower-cased, occurs in the message. */
  predicate KeywordHit(entry: (string, seq<string>), msg: string)
  {
    Contains(msg, ToLower(entry.0)) || exists a :: a in entry.1 && Contains(msg, ToLower(a))
  }

  /** Stage 2 over a prefix of the alias entries. */
  function Stage2(entries: seq<(string, seq<string>)>, chunks: seq<Value>, msg: string, f: Found): (g: Found)
    ensures Extends(f, g)
  {
    if entries == [] then f
    else
      var g := Stage2(entries[..|entries| - 1], chunks, msg, f);
      var e := entries[|entries| - 1];
      if KeywordHit(e, msg) then AddTagged(chunks, e.0, g) else g
  }

  /** The inner pass of stage 3 for one retrieval tag, over a prefix of the chunks. */
  function AddExact(chunks: seq<Value>, tag: Value, f: Found): (g: Found)
    ensures Extends(f, g)
  {
    if chunks == [] then f
    else
      var g := AddExact(chunks[..|chunks| - 1], tag, f);
      var c := chunks[|chunks| - 1];
      if HasExactTag(c, tag) && ChunkId(c) !in g.ids then Add(g, c) else g
  }

  /** Stage 3: only the first retrieval tag found in the message is used. */
  function Stage3(tags: seq<Value>, chunks: seq<Value>, msg: string, f: Found): (g: Found)
    ensures Extends(f, g)
  {
    if tags == [] then f
    else if Contains(msg, ToLower(JsString(tags[0]))) then AddExact(chunks, tags[0], f)
    else Stage3(tags[1..], chunks, msg, f)
  }

  /**
   * The retrieval section of the knowledge base: `chunks`, the entries of
   * `aliases` in enumeration order (an alias list that is not an array
   * contributing no aliases), and `tags`.
   */
  datatype Retrieval = Retrieval(chunks: Value, aliases: seq<(string, seq<string>)>, tags: Value)

  /** What `retrieveRelevantChunks` computes, stage by stage. */
  function Retrieve(message: string, r: Retrieval): (f: Found)
    ensures |f.texts| == |f.ids|
    ensures r.chunks.Arr? && Trim(ToLower(message)) != "" && Stage1(r.chunks.items, Trim(ToLower(message))).texts != [] ==>
      f == Stage1(r.chunks.items, Trim(ToLower(message)))
  {
    if !r.chunks.Arr? then Found([], [])
    else
      var msg := Trim(ToLower(message));
      if msg == "" then Found([], [])
      else
        var f1 := Stage1(r.chunks.items, msg);
        var f2 := if f1.texts == [] then Stage2(r.aliases, r.chunks.items, msg, f1) else f1;
        if f2.texts == [] && r.tags.Arr? then Stage3(r.tags.items, r.chunks.items, msg, f2) else f2
  }

  /** `retrieveRelevantChunks(userMessage, knowledgeBase)`, loop for loop; each stage is a method below. */
  method RetrieveRelevantChunks(message: string, r: Retrieval) returns (relevant: seq<string>)
    ensures relevant == Retrieve(message, r).texts
  {
    if !r.chunks.Arr? {
      return [];
    }
    var chunks := r.chunks.items;
    var msg := Trim(ToLower(message));
    if msg == "" {
      return [];
    }
    var f := MatchTriggers(chunks, msg);
    if f.texts == [] {
      f := MatchAliases(r.aliases, chunks, msg, f);
    }
    if f.texts == [] && r.tags.Arr? {
      f := MatchTags(r.tags.items, chunks, msg, f);
    }
    relevant := f.texts;
  }

  /** Stage 1: each chunk is added on its first q_trigger found in the message. */
  method MatchTriggers(chunks: seq<Value>, msg: string) returns (f: Found)
    ensures f == Stage1(chunks, msg)
  {
    f := Found([], []);
    var i := 0;
    while i < |chunks|
      invariant 0 <= i <= |chunks|
      invariant f == Stage1(chunks[..i], msg)
    {
      var c := chunks[i];
      var triggers := Get(c, "q_triggers");
      if triggers.Arr? {
        var hit := AnyTrigger(triggers.items, msg);
        if hit {
          f := Add(f, c);
        }
      }
      assert chunks[..i + 1][..i] == chunks[..i];
      i := i + 1;
    }
    assert chunks[..|chunks|] == chunks;
  }

  /** The inner loop of stage 1: stops at the first trigger found in the message. */
  method AnyTrigger(triggers: seq<Value>, msg: string) returns (hit: bool)
    ensures hit <==> exists t :: t in triggers && Contains(msg, ToLower(JsString(t)))
  {
    var j := 0;
    while j < |triggers|
      invariant 0 <= j <= |triggers|
      invariant forall k :: 0 <= k < j ==> !Contains(msg, ToLower(JsString(triggers[k])))
    {
      if Contains(msg, ToLower(JsString(triggers[j]))) {
        assert triggers[j] in triggers;
        return true;
      }
      j := j + 1;
    }
    hit := false;
  }

  /** Stage 2: for each alias entry with a keyword in the message, add the chunks with a related tag. */
  method MatchAliases(entries: seq<(string, seq<string>)>, chunks: seq<Value>, msg: string, f0: Found) returns (f: Found)
    ensures f == Stage2(entries, chunks, msg, f0)
  {
    f := f0;
    var a := 0;
    while a < |entries|
      invariant 0 <= a <= |entries|
      invariant f == Stage2(entries[..a], chunks, msg, f0)
    {
      var (key, aliases) := entries[a];
      var keywords := [key] + aliases;
      var b := 0;
      var hit := false;
      while b < |keywords|
        invariant 0 <= b <= |keywords|
        invariant forall k :: 0 <= k < b ==> !Contains(msg, ToLower(keywords[k]))
        invariant !hit
      {
        if Contains(msg, ToLower(keywords[b])) {
          hit := true;
          break;
        }
        b := b + 1;
      }
      KeywordHitIffListed(entries[a], msg, keywords, b);
      if hit {
        f := AddTaggedChunks(chunks, key, f);
      }
      assert entries[..a + 1][..a] == entries[..a];
      a := a + 1;
    }
    assert entries[..|entries|] == entries;
  }

  lemma KeywordHitIffListed(entry: (string, seq<string>), msg: string, keywords: seq<string>, b: nat)
    requires keywords == [entry.0] + entry.1 && b <= |keywords|
    requires forall k :: 0 <= k < b ==> !Contains(msg, ToLower(keywords[k]))
    requires b < |keywords| ==> Contains(msg, ToLower(keywords[b]))
    ensures KeywordHit(entry, msg) <==> b < |keywords|
  {
    assert keywords[0] == entry.0;
    if KeywordHit(entry, msg) && !Contains(msg, ToLower(entry.0)) {
      var al :| al in entry.1 && Contains(msg, ToLower(al));
      var k :| 0 <= k < |entry.1| && entry.1[k] == al;
      assert keywords[k + 1] == al;
    }
    if b < |keywords| && b > 0 {
      assert keywords[b] == entry.1[b - 1] && entry.1[b - 1] in entry.1;
    }
  }

  /** The inner loop of stage 2 for one alias key. */
  method AddTaggedChunks(chunks: seq<Value>, key: string, f0: Found) returns (f: Found)
    ensures f == AddTagged(chunks, key, f0)
  {
    f := f0;
    var c := 0;
    while c < |chunks|
      invariant 0 <= c <= |chunks|
      invariant f == AddTagged(chunks[..c], key, f0)
    {
      var chunk := chunks[c];
      if HasMatchingTag(chunk, key) && ChunkId(chunk) !in f.ids {
        f := Add(f, chunk);
      }
      assert chunks[..c + 1][..c] == chunks[..c];
      c := c + 1;
    }
    assert chunks[..|chunks|] == chunks;
  }

  /** Stage 3: the first retrieval tag found in the message adds the chunks carrying that tag. */
  method MatchTags(tags: seq<Value>, chunks: seq<Value>, msg: string, f0: Found) returns (f: Found)
    ensures f == Stage3(tags, chunks, msg, f0)
  {
    f := f0;
    var t := 0;
    while t < |tags|
      invariant 0 <= t <= |tags|
      invariant Stage3(tags, chunks, msg, f0) == Stage3(tags[t..], chunks, msg, f0)
    {
      var tag := tags[t];
      assert tags[t..][0] == tag && tags[t..][1..] == tags[t + 1..];
      if Contains(msg, ToLower(JsString(tag))) {
        f := AddExactChunks(chunks, tag, f0);
        return;
      }
      t := t + 1;
    }
  }

  /** The inner loop of stage 3 for one tag. */
  method AddExactChunks(chunks: seq<Value>, tag: Value, f0: Found) returns (f: Found)
    ensures f == AddExact(chunks, tag, f0)
  {
    f := f0;
    var c := 0;
    while c < |chunks|
      invariant 0 <= c <= |chunks|
      invariant f == AddExact(chunks[..c], tag, f0)
    {
      var chunk := chunks[c];
      if HasExactTag(chunk, tag) && ChunkId(chunk) !in f.ids {
        f := Add(f, chunk);
      }
      assert chunks[..c + 1][..c] == chunks[..c];
      c := c + 1;
    }
    assert chunks[..|chunks|] == chunks;
  }

  /** A blank message, or a knowledge base without a chunks array, retrieves nothing. */
  lemma NothingToRetrieve(message: string, r: Retrieval)
    requires !r.chunks.Arr? || Trim(ToLower(message)) == ""
    ensures Retrieve(message, r).texts == []
  {
  }

  /** When stage 1 finds something, stages 2 and 3 do not run. */
  lemma TriggersTakePrecedence(message: string, r: Retrieval)
    requires r.chunks.Arr? && Trim(ToLower(message)) != ""
    requires Stage1(r.chunks.items, Trim(ToLower(message))).texts != []
    ensures Retrieve(message, r) == Stage1(r.chunks.items, Trim(ToLower(message)))
  {
  }

  /** Stage 1 splits at any point: the texts of a list number those of a prefix plus those of the rest. */
  lemma {:induction false} Stage1Exact(chunks: seq<Value>, msg: string, k: nat)
    requires k < |chunks|
    ensures |Stage1(chunks, msg).texts| == |Stage1(chunks[..k], msg).texts|
              + |Stage1(chunks[k..], msg).texts|
    decreases |chunks|
  {
    if k < |chunks| - 1 {
      var p, q := chunks[..|chunks| - 1], chunks[k..];
      Stage1Exact(p, msg, k);
      Stage1Last(chunks, msg);
      Stage1Last(q, msg);
      assert p[..k] == chunks[..k];
      assert q[..|q| - 1] == p[k..] && q[|q| - 1] == chunks[|chunks| - 1];
    } else {
      assert chunks[..k] == chunks[..|chunks| - 1];
      assert chunks[k..] == [chunks[k]];
      assert chunks[k..][..0] == [];
    }
  }

  /** Stage 1 over a non-empty list: the texts of all but the last chunk, plus one if the last is triggered. */
  lemma Stage1Last(chunks: seq<Value>, msg: string)
    requires chunks != []
    ensures |Stage1(chunks, msg).texts|
      == |Stage1(chunks[..|chunks| - 1], msg).texts| + (if Triggered(chunks[|chunks| - 1], msg) then 1 else 0)
  {
  }

  /** Stage 1 keeps one text per chunk that has a matching trigger, and none for the others. */
  lemma Stage1PerChunk(c: Value, msg: string)
    ensures Stage1([c], msg).texts == (if Triggered(c, msg) then [ChunkText(c)] else [])
  {
    assert [c][..0] == [];
  }

  /** Every text of AddTagged beyond `f` comes with a new id, so `f`'s ids are never repeated. */
  lemma {:induction false} AddTaggedFresh(chunks: seq<Value>, key: string, f: Found)
    requires |f.texts| == |f.ids| && Distinct(f.ids)
    ensures var g := AddTagged(chunks, key, f);
      |g.texts| == |g.ids| && Distinct(g.ids) && |f.ids| <= |g.ids| && g.ids[..|f.ids|] == f.ids && g.texts[..|f.texts|] == f.texts
  {
    if chunks != [] {
      AddTaggedFresh(chunks[..|chunks| - 1], key, f);
      var g := AddTagged(chunks[..|chunks| - 1], key, f);
      var c := chunks[|chunks| - 1];
      if HasMatchingTag(c, key) && ChunkId(c) !in g.ids {
        DistinctAppend(g.ids, ChunkId(c));
        assert (g.ids + [ChunkId(c)])[..|f.ids|] == g.ids[..|f.ids|];
        assert (g.texts + [ChunkText(c)])[..|f.texts|] == g.texts[..|f.texts|];
      }
    }
  }

  lemma {:induction false} AddExactFresh(chunks: seq<Value>, tag: Value, f: Found)
    requires |f.texts| == |f.ids| && Distinct(f.ids)
    ensures var g := AddExact(chunks, tag, f);
      |g.texts| == |g.ids| && Distinct(g.ids) && |f.ids| <= |g.ids| && g.ids[..|f.ids|] == f.ids && g.texts[..|f.texts|] == f.texts
  {
    if chunks != [] {
      AddExactFresh(chunks[..|chunks| - 1], tag, f);
      var g := AddExact(chunks[..|chunks| - 1], tag, f);
      var c := chunks[|chunks| - 1];
      if HasExactTag(c, tag) && ChunkId(c) !in g.ids {
        DistinctAppend(g.ids, ChunkId(c));
        assert (g.ids + [ChunkId(c)])[..|f.ids|] == g.ids[..|f.ids|];
        assert (g.texts + [ChunkText(c)])[..|f.texts|] == g.texts[..|f.texts|];
      }
    }
  }

  lemma {:induction false} Stage2Fresh(entries: seq<(string, seq<string>)>, chunks: seq<Value>, msg: string, f: Found)
    requires |f.texts| == |f.ids| && Distinct(f.ids)
    ensures var g := Stage2(entries, chunks, msg, f);
      |g.texts| == |g.ids| && Distinct(g.ids) && |f.ids| <= |g.ids| && g.ids[..|f.ids|] == f.ids
  {
    if entries != [] {
      Stage2Fresh(entries[..|entries| - 1], chunks, msg, f);
      var g := Stage2(entries[..|entries| - 1], chunks, msg, f);
      var e := entries[|entries| - 1];
      if KeywordHit(e, msg) {
        AddTaggedFresh(chunks, e.0, g);
        var h := AddTagged(chunks, e.0, g);
        assert h.ids[..|f.ids|] == h.ids[..|g.ids|][..|f.ids|];
      }
    }
  }

  lemma {:induction false} Stage3Fresh(tags: seq<Value>, chunks: seq<Value>, msg: string, f: Found)
    requires |f.texts| == |f.ids| && Distinct(f.ids)
    ensures var g := Stage3(tags, chunks, msg, f);
      |g.texts| == |g.ids| && Distinct(g.ids) && |f.ids| <= |g.ids| && g.ids[..|f.ids|] == f.ids
  {
    if tags != [] {
      if Contains(msg, ToLower(JsString(tags[0]))) {
        AddExactFresh(chunks, tags[0], f);
      } else {
        Stage3Fresh(tags[1..], chunks, msg, f);
      }
    }
  }

  lemma DistinctAppend(s: seq<string>, x: string)
    requires Distinct(s) && x !in s
    ensures Distinct(s + [x])
  {
  }

  /**
   * Stages 2 and 3 never add a chunk whose id was already recorded: when
   * they run, every id recorded is different from the ones before it.
   */
  lemma LaterStagesNeverRepeat(message: string, r: Retrieval)
    requires r.chunks.Arr? && Trim(ToLower(message)) != ""
    requires Stage1(r.chunks.items, Trim(ToLower(message))).texts == []
    ensures Distinct(Retrieve(message, r).ids)
    ensures |Retrieve(message, r).texts| == |Retrieve(message, r).ids|
  {
    var msg := Trim(ToLower(message));
    var f1 := Stage1(r.chunks.items, msg);
    Stage2Fresh(r.aliases, r.chunks.items, msg, f1);
    var f2 := Stage2(r.aliases, r.chunks.items, msg, f1);
    if f2.texts == [] && r.tags.Arr? {
      Stage3Fresh(r.tags.items, r.chunks.items, msg, f2);
    }
  }

  // ---------------------------------------------------------------------
  // createGeminiModel

  const ModelWhitelist: seq<string> := ["gemini-2.0-flash", "gemini-1.5-flash", "gemini-1.5-pro", "gemini-1.5-pro-latest"]
  const DefaultModelId := "gemini-2.0-flash"
  const MissingApiKey := "Gemini API key is not configured. Please set GEMINI_API_KEY or GOOGLE_GENERATIVE_AI_API_KEY environment variable."

  /** The key and the model id `createGeminiModel()` hands to the provider. */
  datatype GeminiModel = GeminiModel(apiKey: string, modelId: string)

  function CreateGeminiModel(env: Env.Environment): (r: Result<GeminiModel, string>)
    ensures r.Err? <==> !Env.IsSet(env, "GEMINI_API_KEY") && !Env.IsSet(env, "GOOGLE_GENERATIVE_AI_API_KEY")
    ensures r.Err? ==> r.error == MissingApiKey
    ensures r.Ok? ==> r.value.apiKey != ""
    ensures r.Ok? ==> r.value.apiKey == (if Env.IsSet(env, "GEMINI_API_KEY") then env["GEMINI_API_KEY"] else env["GOOGLE_GENERATIVE_AI_API_KEY"])
    ensures r.Ok? ==> r.value.modelId in ModelWhitelist
    ensures r.Ok? ==> (r.value.modelId == Env.GetOptionalEnv(env, "GEMINI_MODEL_ID", "")
                       || (r.value.modelId == DefaultModelId && Env.GetOptionalEnv(env, "GEMINI_MODEL_ID", "") !in ModelWhitelist))
  {
    var key := Env.GetOptionalEnv(env, "GEMINI_API_KEY", Env.GetOptionalEnv(env, "GOOGLE_GENERATIVE_AI_API_KEY", ""));
    if key == "" then Err(MissingApiKey)
    else
      var wanted := Env.GetOptionalEnv(env, "GEMINI_MODEL_ID", "");
      Ok(GeminiModel(key, if wanted != "" && wanted in ModelWhitelist then wanted else DefaultModelId))
  }
}
