/**
 * Intent classification, entity extraction, the FAQ short-cut and the
 * quick-reply choice of the multi-tenant chat handler
 * (functions/api/lib/chatHelpers.ts). The configurations that the handler
 * reads from the knowledge base are parameters: `None` stands for no
 * knowledge base, a lookup that threw, or a missing configuration.
 */
module ChatHelpers {
  import opened Common
  import opened Knowledge

  // ---------------------------------------------------------------------
  // classifyIntent

  datatype SpecialConditions = SpecialConditions(shortMessage: bool, shortMessageThreshold: Option<int>)

  datatype Intent = Intent(
    id: string, priority: int, keywords: seq<string>, excludeKeywords: seq<string>,
    contextKeywords: seq<string>, specialConditions: Option<SpecialConditions>)

  datatype IntentFallback = IntentFallback(useContextIntent: bool, contextIntentThreshold: int, defaultIntent: string)

  /** `intents` is `None` when the configuration lacks the list. */
  datatype IntentConfig = IntentConfig(intents: Option<seq<Intent>>, fallback: IntentFallback)

  const DefaultIntent := "service_inquiry"

  /** `words.some(w => text.includes(w))`. */
  predicate AnyContained(text: string, words: seq<string>)
  {
    exists i :: 0 <= i < |words| && Contains(text, words[i])
  }

  /** `shortMessageThreshold || 5`. */
  function ShortThreshold(c: SpecialConditions): int
  {
    if c.shortMessageThreshold.None? || c.shortMessageThreshold.value == 0 then 5 else c.shortMessageThreshold.value
  }

  predicate IsShortForIntent(intent: Intent, lowerMessage: string)
  {
    intent.specialConditions.Some? && intent.specialConditions.value.shortMessage
    && JsLength(lowerMessage) < ShortThreshold(intent.specialConditions.value)
  }

  /** An intent applies: a keyword, a context keyword or the short-message rule holds, and no exclude keyword occurs. */
  predicate Applies(intent: Intent, lowerMessage: string)
  {
    (AnyContained(lowerMessage, intent.keywords) || AnyContained(lowerMessage, intent.contextKeywords)
     || IsShortForIntent(intent, lowerMessage))
    && !AnyContained(lowerMessage, intent.excludeKeywords)
  }

  /** Ranks by ascending priority; the stable sort keeps equal priorities in list order. */
  function ByPriority(intents: seq<Intent>): (r: seq<Ranked<Intent>>)
    ensures |r| == |intents|
    ensures forall i :: 0 <= i < |r| ==> r[i] == Ranked(intents[i], -intents[i].priority, 0)
  {
    if intents == [] then [] else [Ranked(intents[0], -intents[0].priority, 0)] + ByPriority(intents[1..])
  }

  /** `[...intents].sort((a, b) => a.priority - b.priority)`. */
  function SortedIntents(intents: seq<Intent>): (r: seq<Intent>)
    ensures |r| == |intents|
  {
    Items(SortRanked(ByPriority(intents)))
  }

  /** The sorted intents are in non-decreasing priority. */
  lemma SortedIntentsOrdered(intents: seq<Intent>)
    ensures forall i, j :: 0 <= i < j < |SortedIntents(intents)| ==>
      SortedIntents(intents)[i].priority <= SortedIntents(intents)[j].priority
  {
    var ranked := ByPriority(intents);
    var sorted := SortRanked(ranked);
    SortSorted(ranked);
    forall i | 0 <= i < |sorted| ensures sorted[i].score == -sorted[i].item.priority && sorted[i].tie == 0 {
      assert sorted[i] in multiset(ranked);
    }
  }

  /** Sorting neither adds nor drops an intent. */
  lemma SortedIntentsSameMembers(intents: seq<Intent>)
    ensures forall x :: x in SortedIntents(intents) <==> x in intents
  {
    var ranked := ByPriority(intents);
    var sorted := SortRanked(ranked);
    forall x | x in SortedIntents(intents) ensures x in intents {
      var i :| 0 <= i < |sorted| && sorted[i].item == x;
      assert sorted[i] in multiset(ranked);
      var k :| 0 <= k < |ranked| && ranked[k] == sorted[i];
    }
    forall x | x in intents ensures x in SortedIntents(intents) {
      var k :| 0 <= k < |intents| && intents[k] == x;
      assert ranked[k] in multiset(sorted);
      var i :| 0 <= i < |sorted| && sorted[i] == ranked[k];
      assert SortedIntents(intents)[i] == x;
    }
  }

  predicate IsFirstApplying(intents: seq<Intent>, i: int, lowerMessage: string)
  {
    0 <= i < |intents| && Applies(intents[i], lowerMessage) && forall j :: 0 <= j < i ==> !Applies(intents[j], lowerMessage)
  }

  /** The first intent, in the given order, that applies. */
  function FirstApplying(intents: seq<Intent>, lowerMessage: string): (r: Option<string>)
    ensures r.Some? ==> exists i :: IsFirstApplying(intents, i, lowerMessage) && intents[i].id == r.value
    ensures r.None? <==> forall i :: 0 <= i < |intents| ==> !Applies(intents[i], lowerMessage)
  {
    if intents == [] then None
    else if Applies(intents[0], lowerMessage) then Some(intents[0].id)
    else
      var r := FirstApplying(intents[1..], lowerMessage);
      assert forall i :: 1 <= i < |intents| ==> intents[i] == intents[1..][i - 1];
      r
  }

  /**
   * `classifyIntent(message, context, kb)`; `lastIntent` is `context.last_intent`,
   * "" when absent.
   */
  function ClassifyIntent(message: string, lastIntent: string, config: Option<IntentConfig>): (r: string)
    ensures (config.None? || config.value.intents.None?) && lastIntent != "" && JsLength(message) < 10 ==> r == lastIntent
    ensures (config.None? || config.value.intents.None?) && (lastIntent == "" || JsLength(message) >= 10) ==> r == DefaultIntent
    ensures (config.Some? && config.value.intents.Some?
             && FirstApplying(SortedIntents(config.value.intents.value), ToLower(message)).Some?) ==>
      r == FirstApplying(SortedIntents(config.value.intents.value), ToLower(message)).value
  {
    var lowerMessage := ToLower(message);
    ToLowerJsLength(message);
    if config.None? || config.value.intents.None? then
      if lastIntent != "" && JsLength(lowerMessage) < 10 then lastIntent else DefaultIntent
    else
      var found := FirstApplying(SortedIntents(config.value.intents.value), lowerMessage);
      if found.Some? then found.value
      else
        var fb := config.value.fallback;
        if fb.useContextIntent && lastIntent != "" && JsLength(lowerMessage) < fb.contextIntentThreshold then lastIntent
        else fb.defaultIntent
  }

  /**
   * `length` counts UTF-16 code units: five copies of U+1F600 are ten units
   * long, so without a configuration they are not short enough to keep the
   * context intent.
   */
  lemma AstralMessageNotShort(lastIntent: string)
    ensures ClassifyIntent(seq(5, _ => '\U{1F600}'), lastIntent, None) == DefaultIntent
  {
    var m := seq(5, _ => '\U{1F600}');
    assert forall i :: 0 <= i < |m| ==> m[i] == '\U{1F600}';
    JsLengthOfPlane(m);
  }

  /** When no intent applies, the context intent is kept only for a short enough message, else the default. */
  lemma ClassifyFallback(message: string, lastIntent: string, config: IntentConfig)
    requires config.intents.Some?
    requires forall i :: i in config.intents.value ==> !Applies(i, ToLower(message))
    ensures var fb := config.fallback;
      ClassifyIntent(message, lastIntent, Some(config))
      == (if fb.useContextIntent && lastIntent != "" && JsLength(message) < fb.contextIntentThreshold then lastIntent
          else fb.defaultIntent)
  {
    ToLowerJsLength(message);
    var sorted := SortedIntents(config.intents.value);
    SortedIntentsSameMembers(config.intents.value);
    forall k | 0 <= k < |sorted| ensures !Applies(sorted[k], ToLower(message)) {
      assert sorted[k] in sorted;
    }
  }

  /** The classified intent is one of the configured ones, the context intent or the configured default. */
  lemma ClassifyIntentRange(message: string, lastIntent: string, config: IntentConfig)
    requires config.intents.Some?
    ensures var r := ClassifyIntent(message, lastIntent, Some(config));
      r == lastIntent || r == config.fallback.defaultIntent
      || exists i :: i in config.intents.value && i.id == r && Applies(i, ToLower(message))
  {
    var sorted := SortedIntents(config.intents.value);
    SortedIntentsSameMembers(config.intents.value);
    var found := FirstApplying(sorted, ToLower(message));
    if found.Some? {
      var k :| IsFirstApplying(sorted, k, ToLower(message)) && sorted[k].id == found.value;
      assert sorted[k] in sorted;
    }
  }

  // ---------------------------------------------------------------------
  // extractEntities

  /** A pattern list or an object's entries: an id with its keywords, in order. */
  type Patterns = seq<(string, seq<string>)>

  datatype EntityPatterns = EntityPatterns(
    serviceType: Option<Patterns>, useCase: Option<Patterns>, persona: Option<Patterns>,
    branch: Option<Patterns>, bookingAction: Option<Patterns>)

  predicate IsFirstWithKeyword(lowerMessage: string, entries: Patterns, i: int)
  {
    0 <= i < |entries| && AnyContained(lowerMessage, entries[i].1)
    && forall j :: 0 <= j < i ==> !AnyContained(lowerMessage, entries[j].1)
  }

  /** The id of the first entry with a keyword contained in the message. */
  function FirstWithKeyword(lowerMessage: string, entries: Patterns): (r: Option<string>)
    ensures r.Some? ==> exists i :: IsFirstWithKeyword(lowerMessage, entries, i) && entries[i].0 == r.value
    ensures r.None? <==> forall i :: 0 <= i < |entries| ==> !AnyContained(lowerMessage, entries[i].1)
  {
    if entries == [] then None
    else if AnyContained(lowerMessage, entries[0].1) then Some(entries[0].0)
    else
      assert forall i :: 1 <= i < |entries| ==> entries[i] == entries[1..][i - 1];
      FirstWithKeyword(lowerMessage, entries[1..])
  }

  /** The search loop shared by `extractEntityByPatterns` and the branch and booking-action loops. */
  method ExtractEntityByPatterns(message: string, entries: Patterns) returns (r: Option<string>)
    ensures r == FirstWithKeyword(ToLower(message), entries)
  {
    var lowerMessage := ToLower(message);
    var i := 0;
    while i < |entries|
      invariant 0 <= i <= |entries|
      invariant FirstWithKeyword(lowerMessage, entries) == FirstWithKeyword(lowerMessage, entries[i..])
    {
      var k := 0;
      var hit := false;
      while k < |entries[i].1| && !hit
        invariant 0 <= k <= |entries[i].1|
        invariant hit <==> k > 0 && Contains(lowerMessage, entries[i].1[k - 1])
        invariant !hit ==> forall j :: 0 <= j < k ==> !Contains(lowerMessage, entries[i].1[j])
      {
        hit := Contains(lowerMessage, entries[i].1[k]);
        k := k + 1;
      }
      assert entries[i..][0] == entries[i];
      if hit {
        return Some(entries[i].0);
      }
      assert entries[i..][1..] == entries[i + 1..];
      i := i + 1;
    }
    r := None;
  }

  /** An entity slot: absent, present as `undefined`, or an id. */
  function Slot(e: Option<string>): Value
  {
    if e.Some? then Str(e.value) else Undefined
  }

  /** A pattern-list kind: when configured, the key is set to the id found or to `undefined`. */
  function SetSlot(m: map<string, Value>, key: string, lowerMessage: string, entries: Option<Patterns>): map<string, Value>
  {
    if entries.Some? then m[key := Slot(FirstWithKeyword(lowerMessage, entries.value))] else m
  }

  /** An object-entries kind: the key is set only when some entry matches. */
  function SetFound(m: map<string, Value>, key: string, lowerMessage: string, entries: Option<Patterns>): map<string, Value>
  {
    if entries.Some? && FirstWithKeyword(lowerMessage, entries.value).Some? then
      m[key := Str(FirstWithKeyword(lowerMessage, entries.value).value)]
    else m
  }

  /** The entities the configuration yields, kind by kind. */
  function Entities(lowerMessage: string, p: EntityPatterns): map<string, Value>
  {
    var m := SetSlot(SetSlot(SetSlot(map[], "service_type", lowerMessage, p.serviceType),
                             "use_case", lowerMessage, p.useCase), "persona", lowerMessage, p.persona);
    SetFound(SetFound(m, "branch", lowerMessage, p.branch), "booking_action", lowerMessage, p.bookingAction)
  }

  /** Which keys appear: every configured list kind, and an object kind only when an entry matches. */
  lemma EntitiesKeys(lowerMessage: string, p: EntityPatterns)
    ensures "service_type" in Entities(lowerMessage, p) <==> p.serviceType.Some?
    ensures "persona" in Entities(lowerMessage, p) <==> p.persona.Some?
    ensures "branch" in Entities(lowerMessage, p)
      <==> p.branch.Some? && FirstWithKeyword(lowerMessage, p.branch.value).Some?
    ensures "booking_action" in Entities(lowerMessage, p)
      <==> p.bookingAction.Some? && FirstWithKeyword(lowerMessage, p.bookingAction.value).Some?
  {
  }

  /** Without patterns only booking_action = "book" can be set. */
  function FallbackEntities(lowerMessage: string): (r: map<string, Value>)
    ensures r.Keys <= {"booking_action"}
    ensures "booking_action" in r <==> Contains(lowerMessage, "预约") || Contains(lowerMessage, "book")
    ensures "booking_action" in r ==> r["booking_action"] == Str("book")
  {
    if Contains(lowerMessage, "预约") || Contains(lowerMessage, "book") then map["booking_action" := Str("book")]
    else map[]
  }

  /** `extractEntities(message, kb)`: the record filled kind by kind. */
  method ExtractEntities(message: string, patterns: Option<EntityPatterns>) returns (entities: map<string, Value>)
    ensures patterns.None? ==> entities == FallbackEntities(ToLower(message))
    ensures patterns.Some? ==> entities == Entities(ToLower(message), patterns.value)
  {
    var lowerMessage := ToLower(message);
    entities := map[];
    if patterns.None? {
      if Contains(lowerMessage, "预约") || Contains(lowerMessage, "book") {
        entities := entities["booking_action" := Str("book")];
      }
      return;
    }
    var p := patterns.value;
    entities := ExtractSlot(entities, "service_type", message, p.serviceType);
    entities := ExtractSlot(entities, "use_case", message, p.useCase);
    entities := ExtractSlot(entities, "persona", message, p.persona);
    entities := ExtractFound(entities, "branch", message, p.branch);
    entities := ExtractFound(entities, "booking_action", message, p.bookingAction);
  }

  /** `if (patterns.kind) entities.kind = extractEntityByPatterns(message, patterns.kind)`. */
  method ExtractSlot(m: map<string, Value>, key: string, message: string, entries: Option<Patterns>)
    returns (r: map<string, Value>)
    ensures r == SetSlot(m, key, ToLower(message), entries)
  {
    r := m;
    if entries.Some? {
      var e := ExtractEntityByPatterns(message, entries.value);
      r := m[key := Slot(e)];
    }
  }

  /** The entries loop with `break` on the first match. */
  method ExtractFound(m: map<string, Value>, key: string, message: string, entries: Option<Patterns>)
    returns (r: map<string, Value>)
    ensures r == SetFound(m, key, ToLower(message), entries)
  {
    r := m;
    if entries.Some? {
      var e := ExtractEntityByPatterns(message, entries.value);
      if e.Some? {
        r := m[key := Str(e.value)];
      }
    }
  }

  /** Every extracted id is the id of an entry with a keyword in the message. */
  lemma EntityIdsAreListed(lowerMessage: string, p: EntityPatterns)
    requires p.branch.Some? && "branch" in Entities(lowerMessage, p)
    ensures exists i :: IsFirstWithKeyword(lowerMessage, p.branch.value, i) && Entities(lowerMessage, p)["branch"] == Str(p.branch.value[i].0)
  {
  }

  // ---------------------------------------------------------------------
  // handleFAQIfNeeded

  /** The FAQ rules by intent; only these three intents consult the FAQ. */
  datatype FaqRule = LocationRule | PriceRule | BookingRule

  function RuleFor(intent: string): Option<FaqRule>
  {
    if intent == "location_inquiry" then Some(LocationRule)
    else if intent == "price_inquiry" then Some(PriceRule)
    else if intent == "booking_inquiry" then Some(BookingRule)
    else None
  }

  const PriceTriggers: seq<string> := ["可以跟我說到", "說到多細", "哪些一定要", "再問真人", "報價範圍"]
  const BookingTriggers: seq<string> := ["改期", "取消", "reschedule", "cancel"]

  /** `rule.shouldCheckFAQ(message)`. */
  predicate ShouldCheckFaq(rule: FaqRule, message: string)
  {
    match rule
    case LocationRule => true
    case PriceRule => AnyContained(ToLower(message), PriceTriggers)
    case BookingRule => AnyContained(ToLower(message), BookingTriggers)
  }

  /** `faq.keywords.some(k => message.toLowerCase().includes(k.toLowerCase()))`. */
  predicate KeywordInMessage(p: Policy, message: string)
  {
    exists i :: 0 <= i < |p.keywords| && Contains(ToLower(message), ToLower(p.keywords[i]))
  }

  /** The rule's filter, or `faq.critical` when it has none. */
  predicate Accepts(rule: FaqRule, p: Policy, message: string)
  {
    match rule
    case LocationRule => p.critical
    case PriceRule => p.critical && p.id == "policy_price_scope"
    case BookingRule => p.critical && (p.id == "policy_reschedule_cancel" || (message != "" && KeywordInMessage(p, message)))
  }

  /** `results.find(filter)`. */
  function FindAccepted(rule: FaqRule, results: seq<Policy>, message: string): (r: Option<Policy>)
    ensures r.Some? ==> r.value in results && Accepts(rule, r.value, message)
    ensures r.None? <==> forall p :: p in results ==> !Accepts(rule, p, message)
  {
    if results == [] then None
    else if Accepts(rule, results[0], message) then Some(results[0])
    else FindAccepted(rule, results[1..], message)
  }

  /** The TypeError thrown when `faqHandlingRules[intent]` finds an inherited member, which has no `shouldCheckFAQ`. */
  const ShouldCheckTypeError := "rule.shouldCheckFAQ is not a function"

  /**
   * `handleFAQIfNeeded(...)`: `Some(answer)` when a critical FAQ answers the
   * message (the handler then replies with that answer), `None` to go on to
   * the model. The FAQ is searched only when the intent's rule asks for it.
   * The rules are a plain object, so an intent named like an
   * `Object.prototype` member finds a truthy inherited value and the call to
   * its `shouldCheckFAQ` throws.
   */
  method HandleFaqIfNeeded(intent: string, message: string, kb: KnowledgeBase) returns (r: Result<Option<string>, string>)
    ensures RuleFor(intent).None? && IsInheritedKey(intent) ==> r == Err(ShouldCheckTypeError)
    ensures ((RuleFor(intent).None? && !IsInheritedKey(intent))
             || (RuleFor(intent).Some? && !ShouldCheckFaq(RuleFor(intent).value, message))) ==> r == Ok(None)
    ensures (RuleFor(intent).Some? && ShouldCheckFaq(RuleFor(intent).value, message)) ==>
      (r.Err? <==> !kb.loaded)
    ensures (RuleFor(intent).Some? && ShouldCheckFaq(RuleFor(intent).value, message) && kb.loaded) ==>
      var hit := FindAccepted(RuleFor(intent).value, Top(ScoredPolicies(kb.policies, ToLower(message)), 3), message);
      r == Ok(if hit.Some? then Some(hit.value.answer) else None)
  {
    var rule := RuleFor(intent);
    if rule.None? && IsInheritedKey(intent) {
      return Err(ShouldCheckTypeError);
    }
    if rule.None? || !ShouldCheckFaq(rule.value, message) {
      return Ok(None);
    }
    var results := kb.SearchFAQ(message);
    if results.Err? {
      return Err(results.error);
    }
    var hit := FindAccepted(rule.value, results.value, message);
    r := Ok(if hit.Some? then Some(hit.value.answer) else None);
  }

  /** A FAQ answer is only ever given for a critical policy among the search hits. */
  lemma FaqAnswerIsCritical(rule: FaqRule, results: seq<Policy>, message: string)
    requires FindAccepted(rule, results, message).Some?
    ensures FindAccepted(rule, results, message).value.critical
  {
  }

  // ---------------------------------------------------------------------
  // getSuggestedQuickReplies

  const FallbackReplies: seq<string> := ["我想了解更多", "如何预约", "联络真人"]

  /**
   * `getSuggestedQuickReplies(intent, entities, state, kb)`: the next best
   * actions, else the template's actions, else the fixed three; a lookup
   * that throws (knowledge base not loaded) falls through.
   */
  function GetSuggestedQuickReplies(intent: string, kb: KnowledgeBase?): (r: seq<string>)
    reads kb
    ensures r != []
  {
    if kb == null then FallbackReplies
    else
      var nba := kb.GetNextBestActions(intent);
      var template := kb.GetResponseTemplate(intent);
      if nba.Ok? && nba.value != [] then nba.value
      else if template.Ok? && template.value.Some? && template.value.value.nextBestActions != [] then
        template.value.value.nextBestActions
      else FallbackReplies
  }

  /** The second priority is subsumed by the first: the replies are the template's non-empty actions, else the fixed list. */
  lemma QuickRepliesFromTemplate(intent: string, kb: KnowledgeBase?)
    ensures var t := if kb != null && kb.loaded then kb.GetResponseTemplate(intent).value else None;
      GetSuggestedQuickReplies(intent, kb)
      == (if t.Some? && t.value.nextBestActions != [] then t.value.nextBestActions else FallbackReplies)
  {
  }
}
