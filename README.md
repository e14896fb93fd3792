# chatbot-service, modelled in Dafny

This project models the core of a multi-tenant customer-service chatbot. The service runs on Next.js and Cloudflare Pages Functions. Each module models one source file; the file it models is named in the module's opening comment.

- **Request handling of the chat API.**
  - `ChatTypes` models the runtime type guards and `WidgetError` the widget's props check.
  - `ErrorHandler` models client-safe error responses, `Validation` input sanitising and `RateLimit` the in-memory rate limiter.
  - `Env` models environment lookups and `ChatApi` the chat route's helpers: body decoding, retrieval of knowledge chunks and model choice.
  - `ChatHelpers` models intent classification, entity extraction and the FAQ short-cut.
  - `ValidateRequest` models validation node 01 and `ValidateNode` the v3 validation node.
- **Tenants and knowledge.**
  - `CompanyConfig` models company ids and CORS origin checks.
  - `Knowledge` models the knowledge base, with its lookups, FAQ searches and rankings.
  - `KnowledgeCache` models the TTL and LRU cache of knowledge files.
  - `PostMessage` models the widget's choice of where to post its messages.
  - `FaqWidget` models the FAQ-first chat widget of company B.
- **The v3 pipeline.**
  - `Node` models the node base class and the node registry, and `ExampleNode` models a sample node.
  - `Execution` models the execution context, `StateManagement` the workflow and node state machine, and `NodeExecution` retries, fallbacks, batches and chains.
  - `DataFlow` models the data-flow manager and its transformers.
  - `WorkflowGraph` models cycle detection and the entry, next-node and error-handler lookups. `Engine` models the workflow engine.
  - `Tracing` models the execution tracer and `Flowchart` the Mermaid diagrams.
  - `WorkflowService` models the workflow REST API and `Scheduler` the cron task scheduler.
- **Tooling.**
  - `JsonDiff` models the console's JSON diff and its summary.
  - `CodeHealth` models the code-health report script.
- **Shared pieces.**
  - `Common` holds Option and Result types and a JavaScript-like dynamic `Value`. It also holds the small string operations the sources take from their standard libraries, such as trimming, ASCII case mapping, substring search, split and join.
  - `Http` holds the request and JSON-error slice of the Fetch API.

Code that changes objects in place is modelled as classes with fields and `modifies` and `reads` frames. Examples are the rate limiter, the cache, the knowledge base, the execution context, the state manager, the data-flow manager, the tracer, the engine, the API store, the scheduler, the widget and the report checker. Their loops are methods with invariants, each proved against a specification function. Pure code is modelled as functions and lemmas.

Values that are nondeterministic or come from the outside are parameters:
- the clock, random ids and environment variables;
- the network, the LLM and a node's `execute` behaviour;
- subprocess output, regular expressions beyond simple character classes, and JSON sizes.

A JavaScript `Map` is modelled as a Dafny `map` together with a sequence of its keys in insertion order.

## Model

| member | source | states |
|---|---|---|
| Common.Trim | lib/env.ts:59 | JavaScript `trim`: no white space at either end, empty exactly when the string is all white space, a string already trimmed unchanged |
| Common.TrimWithSlice | lib/env.ts:59 | trimming returns exactly the middle of the string: the part that has only white space before and after it and a non-space character at each end |
| Common.TrimIsMiddle | lib/env.ts:59 | `trim` returns the non-blank middle between the leading and the trailing white space; with the empty case above, this pins the result down for every string |
| Common.StripIsMiddle | scripts/code_health_check.py:61 | Python `strip` returns the non-blank middle between the leading and the trailing white space |
| Common.Split | lib/env.ts:59 | JavaScript `split` on one character: at least one piece, and no piece holds the separator |
| Common.JoinSplit | lib/env.ts:59 | joining the pieces of a split with the separator gives the string back |
| Common.Join | functions/api/pipeline-v3/visualization/FlowDiagram.ts:102 | JavaScript `join`: the text starts with the first piece, and one piece is the text itself |
| Common.Utf16 | lib/validation.ts:53 | the UTF-16 code units of a string: at least one and at most two per character |
| Common.JsLength | lib/validation.ts:53 | JavaScript's `length`: between the number of characters and twice that |
| Common.Utf16Append | lib/validation.ts:53 | the code units, and so the `length`, of a concatenation are those of its parts added up |
| Common.JsLengthOfPlane | lib/validation.ts:53 | a string inside the Basic Multilingual Plane has as many code units as characters; one made only of characters outside it has twice as many |
| Common.ToLowerJsLength | functions/api/lib/chatHelpers.ts:70 | lower-casing keeps the `length` |
| Common.JsPrefix | components/console/json-viewer/JsonDiffViewer.tsx:87 | `substring(0, n)` at a character boundary: the longest prefix of at most n code units, so the whole string when it fits, and otherwise one whose next character would pass n |
| ErrorHandler.NewAppError | lib/error-handler.ts:6-16 | an AppError keeps its message, code and details; the status defaults to 500 when omitted |
| ErrorHandler.ValidationError | lib/error-handler.ts:18-23 | a ValidationError has status 400 and code VALIDATION_ERROR, and keeps its message and details |
| ErrorHandler.NotFoundError | lib/error-handler.ts:25-30 | status 404, code NOT_FOUND, no details; the message defaults to "Resource not found" |
| ErrorHandler.UnauthorizedError | lib/error-handler.ts:32-37 | status 401, code UNAUTHORIZED, no details; the message defaults to "Unauthorized" |
| ErrorHandler.FormatErrorResponse | lib/error-handler.ts:42-77 | an application error is reported with its own message and code, with details only in development; a plain Error gets INTERNAL_ERROR and its message is replaced in production; any other value gets UNKNOWN_ERROR |
| ErrorHandler.ProductionHidesErrorMessage | lib/error-handler.ts:57-64 | in production a plain Error's own message never reaches the response |
| ErrorHandler.LogError | lib/error-handler.ts:82-89 | the logged entry carries the error and context unchanged; its message is the error's message for Errors and String(value) otherwise |
| Validation.EscapeInOrderChar | lib/validation.ts:24-30 | on a single character the six replacements, `&` first, give exactly that character's HTML entity |
| Validation.EscapeInOrderIsEscaped | lib/validation.ts:24-30 | the six global replacements in source order equal escaping each character on its own: no entity written by one step is rewritten by a later step |
| Validation.EscapedIsSafe | lib/validation.ts:24-30 | escaped text contains none of `< > " ' /` |
| Validation.SanitizeInput | lib/validation.ts:9-33 | a non-string is refused with "Input must be a string"; otherwise the result is the stripped text, escaped and trimmed, holds no unsafe character, and has no white space at either end |
| Validation.ValidateMessage | lib/validation.ts:38-82 | accepted exactly when the message is a string whose trimmed form is non-empty, at most 2000 UTF-16 code units long, at most 30% special characters counted against that length and free of suspicious patterns; the trimmed form is returned; each refusal has the source's message and status 400 |
| Validation.MessageLengthBoundary | lib/validation.ts:53-55 | a clean message of exactly 2000 UTF-16 code units is accepted, and one more non-space character makes it refused |
| Validation.AstralCountsTwice | lib/validation.ts:53-55 | 1001 copies of U+1F600 are 2002 code units long and refused as too long |
| Validation.ValidateCompanyId | lib/validation.ts:87-106 | accepted exactly when a string of 2 to 50 letters, digits, `_` or `-`; the result is lower-cased; every refusal is a VALIDATION_ERROR |
| Validation.CompanyIdNormalised | lib/validation.ts:105 | an accepted company id, lower-cased, validates to itself |
| Validation.ValidateSessionLike | lib/validation.ts:111-156 | a falsy id gives undefined, and only a falsy id does; an id is returned unchanged exactly when it starts with `session_` or `conv_` in any case, continues with one or more identifier characters, and is at most 200 long |
| Validation.ValidateSessionId | lib/validation.ts:111-131 | undefined exactly for a falsy id; accepted and unchanged exactly for a well-formed session-like string of at most 200 characters |
| Validation.ValidateConversationId | lib/validation.ts:136-156 | the same rule as for session ids: the two prefixes are accepted in either order of preference |
| Validation.SessionPrefixes | lib/validation.ts:122-147 | `session_x` and `CONV_x` are valid session ids, `conv_x` a valid conversation id, and a bare `session_` is refused |
| Validation.ValidateChatRequest | lib/validation.ts:167-179 | a body that is not a truthy object is refused; otherwise the request is accepted exactly when all three fields validate, carries their validated values, and reports the message error first |
| RateLimit.DefaultKeyGenerator | lib/rate-limit.ts:27-36 | the key is `rate-limit:` followed by the first non-empty of cf-connecting-ip, x-real-ip and the first trimmed x-forwarded-for entry, else `unknown` |
| RateLimit.Decide | lib/rate-limit.ts:60-90 | a missing or expired record opens a new window with count 1; a full window denies with remaining 0 and keeps the record; otherwise the count goes up by one; an allowed request's remaining count is the limit minus the stored count; counts stay between 1 and the limit |
| RateLimit.AllowedWithinWindow | lib/rate-limit.ts:76-90 | within one window, of n simultaneous requests exactly min(n, limit - count) are allowed |
| RateLimit.AllowedPerWindow | lib/rate-limit.ts:62-90 | of n simultaneous requests for a fresh key exactly min(n, maxRequests) pass |
| RateLimit.Unexpired | lib/rate-limit.ts:53-57 | the surviving records are exactly those whose window has not ended, with their values unchanged |
| RateLimit.CeilDiv | lib/rate-limit.ts:105 | the quotient is the ceiling of a / b |
| RateLimit.CeilDivLater | lib/rate-limit.ts:105-114 | of the two seconds-left readings, the later one is never larger, and one taken at most a second later is at most one smaller |
| RateLimit.LimitHeaders | lib/rate-limit.ts:109-115 | exactly the five refusal headers, JSON content type, and each numeric header written with `String(n)` so that it parses back to its number |
| RateLimit.LimitResponse | lib/rate-limit.ts:100-120 | no response exactly when the request is allowed; a refusal is a 429 with exactly the five headers: JSON content type, limit and remaining headers that parse back to the limit and the remaining count, a Reset header that is the reset time in seconds rounded up, the body's retryAfter the seconds left at the first clock reading rounded up, and a Retry-After header the seconds left at the second reading rounded up, never more than the body's value when the clock has not gone back, at most one less when the second reading is at most a second later, and equal to it when both readings agree; the body carries the source's error and message texts |
| RateLimit.RateLimiter.constructor | lib/rate-limit.ts:13 | the store starts empty |
| RateLimit.RateLimiter.CleanupExpired | lib/rate-limit.ts:51-58 | the loop deletes exactly the expired records |
| RateLimit.RateLimiter.CheckRateLimit | lib/rate-limit.ts:13-91 | the store is cleaned only when over 10000 entries; a key the plain-object store does not own but inherits from `Object.prototype` is allowed and changes no entry; otherwise only the requested key's record changes, as Decide says; counts never exceed the limit |
| RateLimit.RateLimiter.Middleware | lib/rate-limit.ts:96-122 | the middleware lets an inherited key through, answers any other key with LimitResponse of the decision and its two clock readings, and leaves the store as CheckRateLimit does |
| KnowledgeCache.Unexpired | lib/knowledge-cache.ts:35-39 | the keys kept are exactly the listed keys whose entry has not expired, in their order, without repeats |
| KnowledgeCache.StatsOf | lib/knowledge-cache.ts:139-143 | one statistics line per key in insertion order, giving its id, age and time to expiry |
| KnowledgeCache.DropExpired | lib/knowledge-cache.ts:33-40 | the walk keeps the unexpired keys in order and deletes exactly the expired entries, leaving the other values unchanged |
| KnowledgeCache.OldestIndex | lib/knowledge-cache.ts:51-52 | the index of the first entry with the smallest timestamp, as a stable sort by timestamp puts first |
| KnowledgeCache.EvictOldest | lib/knowledge-cache.ts:45-58 | over the limit, the surplus entries are deleted, each no newer than any entry kept, and size becomes min(size, 100); at or under the limit nothing changes |
| KnowledgeCache.KnowledgeCache.constructor | lib/knowledge-cache.ts:15 | the cache starts empty |
| KnowledgeCache.KnowledgeCache.Size | lib/knowledge-cache.ts:46 | the size is the number of entries |
| KnowledgeCache.KnowledgeCache.CleanExpired | lib/knowledge-cache.ts:33-40 | removes exactly the entries whose expiry is before now and keeps the rest and their order |
| KnowledgeCache.KnowledgeCache.EnforceMaxSize | lib/knowledge-cache.ts:45-58 | deletes only the surplus over 100, oldest first; at or under 100 nothing changes |
| KnowledgeCache.KnowledgeCache.Get | lib/knowledge-cache.ts:33-88 | the cleanup, when the draw fires on a non-empty cache, removes the entries expired at its own clock reading; the data is returned exactly when the entry exists, survived that cleanup, and has not expired at the second reading, which agrees with a plain expiry check whenever the cleanup's reading is not later; the survivors keep their values and insertion order |
| KnowledgeCache.KnowledgeCache.Set | lib/knowledge-cache.ts:33-112 | the new entry is stored with timestamp now and expiry now + ttl, now being the reading after the cleanup; every other entry is an old one, unchanged, that had not expired at the cleanup's own earlier reading; the cache holds at most 101 entries |
| KnowledgeCache.KnowledgeCache.Clear | lib/knowledge-cache.ts:117-120 | removes exactly that company's entry |
| KnowledgeCache.KnowledgeCache.ClearAll | lib/knowledge-cache.ts:125-128 | the cache becomes empty |
| KnowledgeCache.KnowledgeCache.GetCacheStats | lib/knowledge-cache.ts:133-150 | reports the entry count, the fixed maximum 100 and one line per entry in insertion order, each key exactly once, with its age and time to expiry |
| Env.GetRequiredEnv | lib/env.ts:7-16 | succeeds exactly when the variable is set and non-empty, with its value; otherwise the error names the key |
| Env.GetOptionalEnv | lib/env.ts:21-23 | the value when set and non-empty, else the default |
| Env.OptionalMatchesRequired | lib/env.ts:7-23 | the optional getter falls back to the default exactly when the required getter fails, and otherwise returns the same value |
| Env.GetBooleanEnv | lib/env.ts:28-32 | the default when unset; otherwise true exactly for "true" in any case or "1" |
| Env.GetNumberEnv | lib/env.ts:37-42 | the default when unset or when parseInt gives NaN, else the parsed integer |
| Env.NumberEnvRoundTrip | lib/env.ts:37-42 | an integer written in decimal is read back unchanged |
| Env.TrimmedNonEmpty | lib/env.ts:59 | every kept origin is non-empty and has no white space at either end |
| Env.TrimmedNonEmptyComplete | lib/env.ts:59 | every non-blank piece appears, trimmed, in the list |
| Env.TrimmedNonEmptySound | lib/env.ts:59 | every listed origin is the trimmed form of some piece |
| Env.TrimmedNonEmptyAppend | lib/env.ts:59 | trimming and filtering a concatenation of piece lists is the concatenation of the results |
| Env.TrimmedNonEmptySplits | lib/env.ts:59 | at every cut of the piece list, the kept origins are those of the front followed by those of the back, so the pieces' order is kept |
| Env.TrimmedNonEmptyLists | lib/env.ts:59 | the kept origins are complete, sound and in the pieces' order |
| Env.GetAllowedOrigins | lib/env.ts:47-60 | unset means ["*"] in development and an error elsewhere; when set, the list holds exactly the trimmed non-empty pieces, each the trimmed form of some piece, in the order of the pieces |
| Env.IsOriginAllowed | lib/env.ts:65-75 | a missing origin is refused before the list is read; otherwise the list's error propagates, and the origin is allowed exactly when "*" or the origin itself is listed |
| Env.DevelopmentAllowsAll | lib/env.ts:49-72 | in development with nothing configured every real origin is allowed |
| PostMessage.UnescapedDotAcceptsLookalike | lib/utils/postmessage.ts:16-19 | the matcher as written accepts `https://xpagesydev` for the pattern `https://*.pages.dev`, which the intended wildcard match refuses |
| PostMessage.LookalikeRegex | lib/utils/postmessage.ts:16-19 | as written, the pattern's unescaped dots let the look-alike host through |
| PostMessage.LookalikeGlob | lib/utils/postmessage.ts:5-20 | the intended wildcard match refuses the look-alike host |
| PostMessage.GlobSingleStar | lib/utils/postmessage.ts:15-20 | a pattern `a*b` with literal parts matches a string starting with `a` exactly when the rest ends with `b` |
| PostMessage.RegexMatchLiteralPrefix | lib/utils/postmessage.ts:17-19 | a shared literal prefix without `*` or `.` does not change whether the written regular expression matches |
| PostMessage.GlobLiteralPrefix | lib/utils/postmessage.ts:15-20 | a shared literal prefix does not change whether the wildcard pattern matches |
| PostMessage.GlobLiteral | lib/utils/postmessage.ts:11-13 | a pattern without `*` matches exactly itself |
| PostMessage.GlobStarMeansSuffix | lib/utils/postmessage.ts:15-20 | `*` followed by a literal tail matches exactly the origins ending with that tail |
| PostMessage.StarMatchesAll | lib/utils/postmessage.ts:15-20 | the pattern `*` alone admits every origin |
| PostMessage.DefaultOrigin | lib/utils/postmessage.ts:55 | the result is listed: it is the first entry without `*`, or the first entry when every entry has one |
| PostMessage.SafePostTarget | lib/utils/postmessage.ts:32-81 | nothing is posted outside an iframe; with a list, a listed parent gets the message, else the default entry with `*` removed, or `*`; without a list, the configured widget origin, else in development only the parent or the page's own origin |
| PostMessage.ListedTargetsOnly | lib/utils/postmessage.ts:45-60 | with a non-empty list a message always goes out, and only to a listed origin, to `*`, or to a listed entry with its `*` removed |
| WidgetError.ValidateChatbotWidgetProps | lib/utils/widget-error.tsx:31-45 | valid exactly when the props, their companyId and their apiEndpoint are all truthy, and then without an error; otherwise the error names the first thing missing, in that order |
| WidgetError.ReportsFirstMissing | lib/utils/widget-error.tsx:36-42 | props lacking both fields report companyId |
| WidgetError.FalsyPropsRejected | lib/utils/widget-error.tsx:32-34 | null, undefined and the other falsy values are refused before any field is read |
| ChatTypes.UIMessageShape | types/chat.ts:70-78 | a UI message is exactly an object whose role field is one of the strings user, assistant or system |
| ChatTypes.RequestBodyKeysOnly | types/chat.ts:83-89 | a body with a message or messages key is accepted whatever that key's value, undefined included |
| ChatTypes.ArraysAreNotMessages | types/chat.ts:70-101 | arrays pass `typeof` as objects but satisfy none of the three object guards |
| ChatTypes.StreamResultNeedsFunction | types/chat.ts:94-101 | a stream result is accepted with a function member and refused with any other member value |
| ChatTypes.StatusCodeNeedsError | types/chat.ts:106-108 | a plain object never has a status code in this sense; an Error instance has one exactly when the key is present |
| ChatTypes.TextPartShape | types/chat.ts:113-115 | a text part is exactly a part of type text whose text is a string |
| CompanyConfig.ValidIdsPassRequestValidation | functions/api/lib/companyConfig.ts:175-180 | every id this check accepts also passes the Next.js request validator, unchanged |
| CompanyConfig.RequestValidationIsWider | functions/api/lib/companyConfig.ts:175-180 | the request validator also accepts upper case and `_`, which this check refuses |
| CompanyConfig.IsOriginAllowed | functions/api/lib/companyConfig.ts:185-213 | a missing origin is refused and a listed one accepted; any other origin is accepted exactly when it mentions `.pages.dev` and a Pages wildcard or the project domain is configured, or the origin itself mentions the project domain |
| CompanyConfig.AllowedIsMonotone | functions/api/lib/companyConfig.ts:185-213 | configuring more origins never revokes an allowed one |
| CompanyConfig.ProjectDomainIsSubstringTest | functions/api/lib/companyConfig.ts:203-209 | with nothing configured, any origin containing the project's Pages domain anywhere is let in |
| CompanyConfig.GetAllowedOrigin | functions/api/lib/companyConfig.ts:219-227 | the request origin when allowed, else the first configured origin, or undefined for an empty list |
| CompanyConfig.AnsweredOriginIsAllowed | functions/api/lib/companyConfig.ts:219-227 | a non-empty origin answered for CORS always passes the origin check |
| Knowledge.Insert | functions/api/lib/knowledge.ts:492-495 | inserting a hit into a ranked list adds exactly that hit: the multiset grows by one element |
| Knowledge.SortRanked | functions/api/lib/knowledge.ts:706-723 | the sort is a permutation of the hits |
| Knowledge.InsertSorted | functions/api/lib/knowledge.ts:492-495 | inserting into a sorted list keeps it sorted |
| Knowledge.SortSorted | functions/api/lib/knowledge.ts:706-723 | the sort orders by score, highest first, then by tie key, smallest first |
| Knowledge.InsertWithKey | functions/api/lib/knowledge.ts:492-495 | inserting a hit keeps the hits sharing any one key in their previous order, the new one behind them |
| Knowledge.SortStable | functions/api/lib/knowledge.ts:706-723 | the sort is stable: the hits sharing a key come out in the order they went in |
| Knowledge.Items | functions/api/lib/knowledge.ts:495 | the items are the hits' items, position by position |
| Knowledge.Top | functions/api/lib/knowledge.ts:492-495 | `sort(...).slice(0, n).map(...)` has min(n, hits) elements |
| Knowledge.TopIsRanked | functions/api/lib/knowledge.ts:706-723 | the top n are the first n of a sorted permutation of the hits |
| Knowledge.KeywordPoints | functions/api/lib/knowledge.ts:466-471 | at most one point per keyword |
| Knowledge.PolicyScore | functions/api/lib/knowledge.ts:463-486 | a policy scores at most its keyword count plus 3 |
| Knowledge.ScoredPolicies | functions/api/lib/knowledge.ts:462-490 | every hit is a listed policy with its own positive score; all hits share the tie key, so ties keep list order |
| Knowledge.DetailedKeywordPoints | functions/api/lib/knowledge.ts:663-675 | at most 5 points per keyword: 3 for a keyword in the query, 2 for a query of two or more UTF-16 code units in the keyword |
| Knowledge.AstralQueryIsLongEnough | functions/api/lib/knowledge.ts:664-673 | a one-character query outside the BMP is two code units long, so a keyword equal to it earns both the 3 and the 2 points |
| Knowledge.WordPoints | functions/api/lib/knowledge.ts:678-688 | at most 3 points per query word; one-character words are skipped |
| Knowledge.WordMatches | functions/api/lib/knowledge.ts:678-688 | at most one match per query word |
| Knowledge.RoundRatio | functions/api/lib/knowledge.ts:700-703 | the bonus is `Math.round(2 * matches / words)`: at most 2 and the nearest integer, halves rounded up |
| Knowledge.ScoredQuestions | functions/api/lib/knowledge.ts:647-706 | every hit has a positive detailed score, and its tie key is the question's length in UTF-16 code units |
| Knowledge.ScoredCategories | functions/api/lib/knowledge.ts:644-706 | over all categories, every hit has a positive score and the question's UTF-16 length as its tie key |
| Knowledge.RunLength | functions/api/lib/knowledge.ts:729-751 | the length of the longest prefix of matching characters |
| Knowledge.Runs | functions/api/lib/knowledge.ts:733-748 | each run is non-empty and made only of characters of the class |
| Knowledge.CountAppend | functions/api/lib/knowledge.ts:733-748 | counting the matching characters of a concatenation adds the counts of its parts |
| Knowledge.RunsCoverMatches | functions/api/lib/knowledge.ts:733-748 | the runs together hold every matching character exactly once |
| Knowledge.ExtractWords | functions/api/lib/knowledge.ts:729-751 | every word is non-empty and made only of CJK characters, lower-case letters and digits |
| Knowledge.ExtractWordsCover | functions/api/lib/knowledge.ts:729-751 | the words together hold exactly as many characters as the text has CJK characters, lower-case letters and digits |
| Knowledge.CategoryTitle | functions/api/lib/knowledge.ts:841 | the category's own title, else the fixed title for its key, else the key |
| Knowledge.MenuQuestions | functions/api/lib/knowledge.ts:842-845 | one menu question per question, with its text and its id, or `key-index` when it has none |
| Knowledge.FaqMenu | functions/api/lib/knowledge.ts:837-849 | at most one entry per category, each with questions |
| Knowledge.FaqMenuComplete | functions/api/lib/knowledge.ts:837-849 | every present category with questions appears in the menu, and every menu entry comes from one |
| Knowledge.AsTemplate | functions/api/lib/knowledge.ts:525-540 | a bare string becomes the main answer with no supplementary text and no actions; an empty string is null; a structured template is kept |
| Knowledge.KnowledgeBase.constructor | functions/api/lib/knowledge.ts:203-217 | the company id defaults to goldenyears, and nothing is loaded |
| Knowledge.KnowledgeBase.Load | functions/api/lib/knowledge.ts:400-424 | success installs the data and sets loaded; a failure leaves it not loaded, keeps the services, policies, templates and FAQ it had, and reports "Failed to load knowledge base: " with the cause |
| Knowledge.KnowledgeBase.GetService | functions/api/lib/knowledge.ts:429-434 | an error before load; otherwise the first service with that id, or null exactly when none has it |
| Knowledge.KnowledgeBase.SearchFAQ | functions/api/lib/knowledge.ts:459-496 | an error before load; otherwise the top 3 of the scored policies |
| Knowledge.KnowledgeBase.SearchFAQDetailed | functions/api/lib/knowledge.ts:627-724 | an error before load; none without FAQ data or for a blank query; otherwise the top 5 of the scored questions of all categories |
| Knowledge.KnowledgeBase.GetResponseTemplate | functions/api/lib/knowledge.ts:521-541 | an error before load; null for a missing intent; otherwise the stored template in structured form |
| Knowledge.KnowledgeBase.GetNextBestActions | functions/api/lib/knowledge.ts:592-602 | an error before load; the template's actions, or none without a template |
| Knowledge.KnowledgeBase.GetFAQMenu | functions/api/lib/knowledge.ts:811-853 | an error before load; an empty menu without FAQ data, else the menu of the categories |
| Knowledge.FirstServiceIndex | functions/api/lib/knowledge.ts:433 | the position of the first service with that id, or the length when none has it |
| Knowledge.FindService | functions/api/lib/knowledge.ts:433 | `find(...) or null`: the first service with that id, or null exactly when none has it |
| Knowledge.ScorePolicies | functions/api/lib/knowledge.ts:465-490 | the loop collects exactly the scored policies |
| Knowledge.ScorePolicy | functions/api/lib/knowledge.ts:466-486 | the accumulated score equals the policy's score |
| Knowledge.ScoreAllCategories | functions/api/lib/knowledge.ts:644-706 | the loop over the categories, skipping null ones, collects exactly the scored questions |
| Knowledge.ScoreCategory | functions/api/lib/knowledge.ts:647-706 | the loop over one category collects exactly its scored questions |
| Knowledge.ScoreQuestion | functions/api/lib/knowledge.ts:648-700 | the accumulated score equals the question's detailed score |
| Knowledge.KeywordLoop | functions/api/lib/knowledge.ts:663-675 | the keyword loop adds exactly the keyword points |
| Knowledge.WordLoop | functions/api/lib/knowledge.ts:678-688 | the word loop adds exactly the word points and counts the words found in the question |
| Knowledge.SearchFAQRanking | functions/api/lib/knowledge.ts:459-496 | at most 3 listed policies, each with a positive score, sorted by score, with equal scores in list order |
| Knowledge.SearchFAQDetailedRanking | functions/api/lib/knowledge.ts:706-723 | at most 5 hits, each with a positive score, sorted by score and then by shorter question, measured in UTF-16 code units |
| Knowledge.PlainTemplateHasNoActions | functions/api/lib/knowledge.ts:531-601 | a bare string template yields its text as the main answer and no next actions |
| ChatHelpers.ByPriority | functions/api/lib/chatHelpers.ts:92 | each intent is ranked by its priority, lowest first, all with the same tie key |
| ChatHelpers.SortedIntents | functions/api/lib/chatHelpers.ts:92 | the sorted copy has as many intents as the configuration |
| ChatHelpers.SortedIntentsOrdered | functions/api/lib/chatHelpers.ts:92 | the sorted intents are in non-decreasing priority |
| ChatHelpers.SortedIntentsSameMembers | functions/api/lib/chatHelpers.ts:92 | sorting neither adds nor drops an intent |
| ChatHelpers.FirstApplying | functions/api/lib/chatHelpers.ts:95-120 | the id of the first intent whose keyword, context keyword or short-message rule (a message shorter than the threshold in UTF-16 code units) holds and that has no exclude keyword in the message; none exactly when no intent applies |
| ChatHelpers.ClassifyIntent | functions/api/lib/chatHelpers.ts:65-130 | without a configuration, the last intent for a message under 10 UTF-16 code units, else service_inquiry; with one, the first applying intent in priority order |
| ChatHelpers.ClassifyFallback | functions/api/lib/chatHelpers.ts:123-129 | when no intent applies, the last intent is kept only when the fallback allows it and the message is shorter than its threshold in UTF-16 code units, else the default intent |
| ChatHelpers.AstralMessageNotShort | functions/api/lib/chatHelpers.ts:83-89 | five copies of U+1F600 are ten code units long, so without a configuration they give service_inquiry rather than the last intent |
| ChatHelpers.ClassifyIntentRange | functions/api/lib/chatHelpers.ts:65-130 | the result is the last intent, the configured default, or a configured intent that applies to the message |
| ChatHelpers.FirstWithKeyword | functions/api/lib/chatHelpers.ts:139-146 | the id of the first entry with a keyword contained in the message; none exactly when no entry has one |
| ChatHelpers.ExtractEntityByPatterns | functions/api/lib/chatHelpers.ts:135-147 | the search loop returns the first entry with a keyword in the lower-cased message |
| ChatHelpers.EntitiesKeys | functions/api/lib/chatHelpers.ts:180-212 | service_type and persona are set whenever configured (possibly to undefined); branch and booking_action only when an entry matches |
| ChatHelpers.FallbackEntities | functions/api/lib/chatHelpers.ts:169-175 | without patterns only booking_action can be set, to `book`, and exactly when the message contains 预约 or `book` |
| ChatHelpers.ExtractEntities | functions/api/lib/chatHelpers.ts:151-215 | the record is the fallback one without patterns, and the one the patterns give, kind by kind, otherwise |
| ChatHelpers.ExtractSlot | functions/api/lib/chatHelpers.ts:180-193 | a configured list kind sets its key to the first match's id, or undefined |
| ChatHelpers.ExtractFound | functions/api/lib/chatHelpers.ts:196-212 | the entries loop sets the key to the first matching id and stops; without a match nothing changes |
| ChatHelpers.EntityIdsAreListed | functions/api/lib/chatHelpers.ts:196-203 | an extracted branch is the id of the first entry with a keyword in the message |
| ChatHelpers.FindAccepted | functions/api/lib/chatHelpers.ts:271-277 | the first hit the rule's filter accepts (or the first critical hit without a filter); none exactly when no hit is accepted |
| ChatHelpers.HandleFaqIfNeeded | functions/api/lib/chatHelpers.ts:256-294 | a TypeError when the intent names an inherited `Object.prototype` member instead of a rule; nothing when the intent has no rule or the rule does not ask; otherwise an error before load, else the answer of the first accepted policy among the top 3 search hits, or nothing |
| ChatHelpers.FaqAnswerIsCritical | functions/api/lib/chatHelpers.ts:225-250 | an FAQ answer is given only for a critical policy |
| ChatHelpers.GetSuggestedQuickReplies | functions/api/lib/chatHelpers.ts:300-329 | the replies are never empty |
| ChatHelpers.QuickRepliesFromTemplate | functions/api/lib/chatHelpers.ts:306-329 | the replies are the template's non-empty actions, else the fixed three; the second priority adds nothing to the first |
| ChatApi.TextsOf | lib/api/chat-helpers.ts:47-51 | throws exactly when some part is null or undefined, with the TypeError of the first such part (as `isTextPart` reads `part.type`, types/chat.ts:113-115); otherwise the texts of the text parts, none exactly when no part is a text part |
| ChatApi.TruthyString | lib/api/chat-helpers.ts:55-68 | a field's value when it is a non-empty string, else empty |
| ChatApi.ExtractContent | lib/api/chat-helpers.ts:44-68 | the TypeError of a null or undefined part first; otherwise the joined text parts if non-empty, else a non-empty string content, else a non-empty string text |
| ChatApi.StringField | lib/api/chat-helpers.ts:74-75 | an id field passes through exactly when it is a string |
| ChatApi.FromLastMessage | lib/api/chat-helpers.ts:34-80 | accepted exactly when the last message is a UI message whose extraction does not throw and whose content is not blank; the content is returned untrimmed with the two ids; a null or undefined part throws its TypeError, and every other refusal is a ValidationError (400) |
| ChatApi.PartsContent | lib/api/chat-helpers.ts:46-52 | throws exactly when `parts` is an array whose filter throws |
| ChatApi.OnlyNullishPartsThrowTypeErrors | lib/api/chat-helpers.ts:34-80 | the messages branch throws something other than a ValidationError exactly when the last message is a UI message whose `parts` array holds a null or undefined element |
| ChatApi.Raise | lib/api/chat-helpers.ts:83-90 | the result of validateChatRequest, its refusal thrown as the application error it is |
| ChatApi.ParseChatRequest | lib/api/chat-helpers.ts:23-94 | a body failing the guard is refused; a non-empty messages array takes precedence over `message`, which goes through validateChatRequest; a body with neither is refused; every refusal is a ValidationError except the TypeError of a null or undefined part |
| ChatApi.OnlyLastMessageCounts | lib/api/chat-helpers.ts:34-35 | only the last element of messages is read: the earlier ones may be anything |
| ChatApi.Or | lib/api/chat-helpers.ts:138-139 | JavaScript `a or b`: a when truthy, else b |
| ChatApi.Stage1 | lib/api/chat-helpers.ts:133-146 | stage 1 records one text and one id per chunk added, at most one per chunk |
| ChatApi.Add | lib/api/chat-helpers.ts:165-171 | a push adds one text and one id |
| ChatApi.AddTagged | lib/api/chat-helpers.ts:155-172 | the inner pass of stage 2 only pushes, one id per text |
| ChatApi.Stage2 | lib/api/chat-helpers.ts:148-177 | stage 2 only pushes onto what it was given, one id per text |
| ChatApi.AddExact | lib/api/chat-helpers.ts:183-194 | the inner pass of stage 3 only pushes, one id per text |
| ChatApi.Stage3 | lib/api/chat-helpers.ts:180-197 | stage 3 only pushes onto what it was given, one id per text |
| ChatApi.Retrieve | lib/api/chat-helpers.ts:99-205 | the retrieval records as many ids as texts, and when stage 1 finds something its result is the answer |
| ChatApi.RetrieveRelevantChunks | lib/api/chat-helpers.ts:99-205 | the three loops compute exactly the texts of the staged retrieval |
| ChatApi.MatchTriggers | lib/api/chat-helpers.ts:133-146 | the chunk loop of stage 1 computes exactly stage 1 |
| ChatApi.AnyTrigger | lib/api/chat-helpers.ts:136-144 | the trigger loop stops true exactly when some trigger, lower-cased, occurs in the message |
| ChatApi.MatchAliases | lib/api/chat-helpers.ts:148-177 | the alias loop computes exactly stage 2 |
| ChatApi.KeywordHitIffListed | lib/api/chat-helpers.ts:151-154 | the keyword loop breaks at position b exactly when the key or one of its aliases occurs in the message |
| ChatApi.AddTaggedChunks | lib/api/chat-helpers.ts:155-172 | the inner loop of stage 2 adds exactly the chunks with a related tag and an unseen id |
| ChatApi.MatchTags | lib/api/chat-helpers.ts:180-197 | the tag loop computes exactly stage 3: only the first tag found in the message is used |
| ChatApi.AddExactChunks | lib/api/chat-helpers.ts:183-194 | the inner loop of stage 3 adds exactly the chunks carrying the tag and an unseen id |
| ChatApi.NothingToRetrieve | lib/api/chat-helpers.ts:114-128 | a blank message, or no chunks array, retrieves nothing |
| ChatApi.TriggersTakePrecedence | lib/api/chat-helpers.ts:148-180 | when stage 1 finds something, stages 2 and 3 do not run |
| ChatApi.Stage1Exact | lib/api/chat-helpers.ts:133-146 | stage 1 over a list extends stage 1 over a prefix by one text exactly when the next chunk is triggered |
| ChatApi.Stage1PerChunk | lib/api/chat-helpers.ts:133-146 | a chunk contributes its text once if one of its triggers occurs, and nothing otherwise |
| ChatApi.AddTaggedFresh | lib/api/chat-helpers.ts:165-171 | the inner pass of stage 2 records only ids not seen before |
| ChatApi.AddExactFresh | lib/api/chat-helpers.ts:186-192 | the inner pass of stage 3 records only ids not seen before |
| ChatApi.Stage2Fresh | lib/api/chat-helpers.ts:148-177 | stage 2 never repeats an id |
| ChatApi.Stage3Fresh | lib/api/chat-helpers.ts:180-197 | stage 3 never repeats an id |
| ChatApi.LaterStagesNeverRepeat | lib/api/chat-helpers.ts:148-197 | when stages 2 and 3 run, no chunk id is recorded twice, and each text has its id |
| ChatApi.CreateGeminiModel | lib/api/chat-helpers.ts:304-334 | an error exactly when neither key variable is set; otherwise the first key set, and GEMINI_MODEL_ID when whitelisted, else gemini-2.0-flash |
| ValidateRequest.BuildCorsHeaders | functions/api/nodes/01-validate-request.ts:28-71 | The four CORS headers, always the same keys; without a company configuration (or without `allowedOrigins`) the origin is echoed or `*`, otherwise the allowed origin chosen from the list. |
| ValidateRequest.AllowedOrigin | functions/api/nodes/01-validate-request.ts:46-63 | A listed non-empty origin is echoed; a `.pages.dev` origin is echoed when either wildcard spelling is listed; otherwise the first listed origin, undefined exactly when the list is empty; the result is always a listed origin or the request's own. |
| ValidateRequest.UnlistedOriginNotEchoed | functions/api/nodes/01-validate-request.ts:46-63 | An origin that is neither listed nor covered by a Pages wildcard is never echoed back in `Access-Control-Allow-Origin`. |
| ValidateRequest.WildcardListed | functions/api/nodes/01-validate-request.ts:53-55 | The two wildcard spellings the node accepts are exactly what the company configuration's Pages-wildcard test accepts. |
| ValidateRequest.ConversationIdExamples | functions/api/nodes/01-validate-request.ts:164-182 | `conv_abc_123`, an absent id and an empty id pass the conversation-id check; `conv_`, `conv-abc` and a number fail it. |
| ValidateRequest.WithDefaultsAsWritten | functions/api/nodes/01-validate-request.ts:216-221 | The stored body as written: every key of the body plus the three defaulted keys, and every key the body holds keeps the body's value (the spread wins). |
| ValidateRequest.NullModeSurvivesAsWritten | functions/api/nodes/01-validate-request.ts:216-221 | Under the as-written merge a body with `mode: null` is stored with `mode` still null. |
| ValidateRequest.WithDefaults | functions/api/nodes/01-validate-request.ts:216-221 | The corrected merge: every other field kept, and `mode`/`source`/`pageType` are the body's value unless null or absent, then `auto`/`input`/`demo`. |
| ValidateRequest.DefaultsAgreeOnWellFormedBodies | functions/api/nodes/01-validate-request.ts:216-221 | When the body holds no null or undefined `mode`, `source` or `pageType`, the corrected and as-written merges give the same object. |
| ValidateRequest.DefaultsNeverNull | functions/api/nodes/01-validate-request.ts:216-221 | After the corrected merge the three defaulted fields are never null or undefined. |
| ValidateRequest.BadRequest | functions/api/nodes/01-validate-request.ts:93-105 | A 400 response whose JSON body carries the error and message. |
| ValidateRequest.CheckFields | functions/api/nodes/01-validate-request.ts:129-213 | No response exactly when every field check passes; any response is a 400; a missing or blank message, a message over 1000 UTF-16 code units, a malformed conversation id and a non-string mode/source/pageType each answer with their own error, in the source's order. |
| ValidateRequest.CheckRequest | functions/api/nodes/01-validate-request.ts:82-213 | OPTIONS answers 204 with the CORS headers before any check; the request continues exactly when it is accepted; it throws exactly when a JSON request's body is null; every other answer is a 400, with the content-type and invalid-JSON errors for those failures. |
| ValidateRequest.ResolveCors | functions/api/nodes/01-validate-request.ts:78-80 | Headers already in the context are kept; an empty set is replaced by the headers built from the request's origin and the allowed origins; nothing else in the context changes. |
| ValidateRequest.NodeValidateRequest | functions/api/nodes/01-validate-request.ts:76-223 | CORS headers are built only when the context has none; the outcome is the request check against the headers in force; an accepted body is stored with its defaults and a rejected request leaves the body unchanged. |
| ValidateRequest.AcceptedBodyIsObject | functions/api/nodes/01-validate-request.ts:129-144 | Only an object body passes the message check, so the stored body is always an object's fields. |
| ValidateNode.BuildCorsHeaders | functions/api/nodes-v3/core/ValidateNode/index.ts:194-204 | The four CORS headers, the allowed origin being the one the company configuration's `getAllowedOrigin` answers (undefined when it answers none). |
| ValidateNode.CorsOriginIsAllowed | functions/api/nodes-v3/core/ValidateNode/index.ts:194-204 | A non-empty origin in `Access-Control-Allow-Origin` is always one the company configuration allows. |
| ValidateNode.CreateErrorResponse | functions/api/nodes-v3/core/ValidateNode/index.ts:209-240 | A failed result on the `error` output carrying the JSON error response with the given status, and the error text `error: message`. |
| ValidateNode.OptionsResult | functions/api/nodes-v3/core/ValidateNode/index.ts:56-71 | OPTIONS is answered by a failed result on the `error` output carrying an empty 204 with the CORS headers and no error. |
| ValidateNode.Includes | functions/api/nodes-v3/core/ValidateNode/index.ts:140 | `list.includes(v)` on an array is membership; on null or undefined it throws the property-access TypeError. |
| ValidateNode.JoinWith | functions/api/nodes-v3/core/ValidateNode/index.ts:143 | Joining no items gives the empty string and joining one string gives that string. |
| ValidateNode.CheckMembership | functions/api/nodes-v3/core/ValidateNode/index.ts:139-170 | A falsy value or one the configured list includes passes; a rejection happens only for an array that lacks the value and carries the 400 listing the allowed values. |
| ValidateNode.ExceedsLimit | functions/api/nodes-v3/core/ValidateNode/index.ts:112 | an undefined, object or function limit never rejects; a blank string limit and an empty array limit act as 0; an array holding one number acts as that number |
| ValidateNode.IntToStringTrimmed | functions/api/nodes-v3/core/ValidateNode/index.ts:112 | the decimal form of a number is non-empty and has no white space to trim |
| ValidateNode.StringNumberOfInt | functions/api/nodes-v3/core/ValidateNode/index.ts:112 | the decimal form of an integer converts back to that integer |
| ValidateNode.StringNumber | functions/api/nodes-v3/core/ValidateNode/index.ts:112 | a blank configured limit reads as 0, and a read limit is the integer its trimmed digits spell |
| ValidateNode.NumericStringLimit | functions/api/nodes-v3/core/ValidateNode/index.ts:112 | a limit configured as the string "10" rejects 11 characters and accepts 10 |
| ValidateNode.WordIsNaN | functions/api/nodes-v3/core/ValidateNode/index.ts:112 | the number conversion of the word `ten` gives NaN: it has nothing to trim and no leading digit |
| ValidateNode.WordLimitNeverRejects | functions/api/nodes-v3/core/ValidateNode/index.ts:112 | a limit configured as a word is NaN, so no message length exceeds it |
| ValidateNode.CheckLists | functions/api/nodes-v3/core/ValidateNode/index.ts:139-170 | The three list checks pass exactly when each truthy `mode`, `source` and `pageType` is in its configured list; a rejection is a 400 on the `error` output; with all three settings being lists none of them throws. |
| ValidateNode.CheckBody | functions/api/nodes-v3/core/ValidateNode/index.ts:100-170 | The body passes exactly when every check of steps 5 to 10 holds; a null body throws on reading `message`; a missing or blank message gets its own 400; the length limit is tested against the message's UTF-16 code units; every rejection is a 400 on the `error` output. |
| ValidateNode.CheckRequest | functions/api/nodes-v3/core/ValidateNode/index.ts:56-170 | OPTIONS is answered first; a missing JSON content type and an unparsable body get their own 400s; the request passes exactly when it is JSON, parsed and its body accepted. |
| ValidateNode.Execute | functions/api/nodes-v3/core/ValidateNode/index.ts:41-189 | Missing inputs give the error result without touching the context; otherwise the CORS headers are stored first (or the size limit refuses them); the result is then the checks' verdict, success only with the `{body, corsHeaders, companyId, companyConfig}` output; the trace is unchanged. |
| ValidateNode.WellConfiguredOnlyNullBodyThrows | functions/api/nodes-v3/core/ValidateNode/index.ts:85-170 | With the three allowed-value lists configured as arrays, the only exception the checks can raise comes from a null or undefined body. |
| ValidateNode.CheckBodyFailsOnlyOnNull | functions/api/nodes-v3/core/ValidateNode/index.ts:100-170 | With list-valued settings the body checks throw only on a null or undefined body. |
| ValidateNode.MembershipNeverFails | functions/api/nodes-v3/core/ValidateNode/index.ts:139-170 | A membership check against an array never throws. |
| Http.CorsHeaders | functions/api/nodes/01-validate-request.ts:65-70 | Exactly the four CORS header names, the given origin under `Access-Control-Allow-Origin`, `POST, OPTIONS`, `Content-Type` and `86400` under the others. |
| Http.JsonError | functions/api/nodes/01-validate-request.ts:93-105 | The response has the given status and `{error, message}` body, `Content-Type: application/json`, and every other CORS header kept. |
| Node.MergeConfig | functions/api/pipeline-v3/base/Node.ts:166-170 | The merged configuration holds every key of either object; the constructor's own value wins over the metadata default. |
| Node.FirstMissing | functions/api/pipeline-v3/base/Node.ts:196-204 | None exactly when no required input is undefined or null; otherwise a required input, declared in the metadata, that is missing. |
| Node.CreateSuccessResult | functions/api/pipeline-v3/base/Node.ts:240-256 | A successful result carrying the output and no error, under the given output name or `success`. |
| Node.CreateErrorResult | functions/api/pipeline-v3/base/Node.ts:266-288 | A failed result with a null output on the `error` output, whose message is the Error's own message or the value converted to a string. |
| Node.BaseNode.constructor | functions/api/pipeline-v3/base/Node.ts:166-170 | The node keeps its metadata, its configuration is the merge, and `verbose` is the truthiness of `config.verbose`. |
| Node.BaseNode.ValidateInput | functions/api/pipeline-v3/base/Node.ts:193-228 | A null or undefined input throws on the first declared input's property read; otherwise the first missing required input, in declaration order, throws its message, and with none missing the answer is true. |
| Node.BaseNode.SetConfig | functions/api/pipeline-v3/base/Node.ts:356-358 | Exactly that key of the configuration changes; every other key and `verbose` are unchanged. |
| Node.BaseNode.SetVerbose | functions/api/pipeline-v3/base/Node.ts:365-367 | `verbose` becomes the flag; the configuration is unchanged. |
| Node.NodeRegistry.constructor | functions/api/pipeline-v3/base/Node.ts:376 | The registry starts empty. |
| Node.NodeRegistry.Register | functions/api/pipeline-v3/base/Node.ts:383-390 | The class is stored under its metadata id; a new id is appended to the listing order and a re-registered id keeps its place; ids stay distinct and match the map. |
| Node.NodeRegistry.Get | functions/api/pipeline-v3/base/Node.ts:398-400 | Found exactly when the id is registered, and then it is the class registered under it. |
| Node.NodeRegistry.List | functions/api/pipeline-v3/base/Node.ts:407-409 | Every registered id exactly once. |
| Node.NodeRegistry.Clear | functions/api/pipeline-v3/base/Node.ts:414-416 | The registry is empty again. |
| ExampleNode.Plus | functions/api/nodes-v3/core/ExampleNode/index.ts:52 | JavaScript's `+`: two strings concatenate and two numbers add. |
| ExampleNode.Transform | functions/api/nodes-v3/core/ExampleNode/index.ts:46-53 | Throws exactly when upper-casing is configured and the message is not a string; with neither option set the message is unchanged. |
| ExampleNode.UppercaseBeforePrefix | functions/api/nodes-v3/core/ExampleNode/index.ts:46-53 | With both options set, the result is the prefix followed by the upper-cased message: the prefix is kept as it is and no lower-case letter follows it. |
| ExampleNode.BuildOutput | functions/api/nodes-v3/core/ExampleNode/index.ts:55-68 | The output holds the message and `processed: true`, a timestamp exactly when `addTimestamp` is set, the options exactly when they have own keys, and nothing else. |
| ExampleNode.NextCount | functions/api/nodes-v3/core/ExampleNode/index.ts:72 | A numeric count becomes one higher. |
| ExampleNode.RecordRun | functions/api/nodes-v3/core/ExampleNode/index.ts:70-72 | On success the context's data gains the last processed message and the counter one higher than before; the trace is untouched. |
| ExampleNode.Execute | functions/api/nodes-v3/core/ExampleNode/index.ts:36-91 | Every failure is an error result with a null output; success happens only with the transformed message, the built output, and the context holding that message and a count one higher; a failing transform leaves the context's data unchanged. |
| Execution.NodeRecords | functions/api/pipeline-v3/ExecutionContext.ts:311-313 | At most as many records as the trace, and exactly the trace's records of that node. |
| Execution.LastIndex | functions/api/pipeline-v3/ExecutionContext.ts:321-324 | The position of the node's latest record, or -1 exactly when the node has no record. |
| Execution.LastOfRecords | functions/api/pipeline-v3/ExecutionContext.ts:311-324 | A node has records exactly when it has a latest position, and the last of its records is the record at that position. |
| Execution.LastStatuses | functions/api/pipeline-v3/ExecutionContext.ts:343-348 | Exactly the nodes with a record other than `started`, none of them mapped to `started`. |
| Execution.StatusOf | functions/api/pipeline-v3/ExecutionContext.ts:359-364 | `success` exactly when there are no errors; `partial` exactly when there are errors and completions. |
| Execution.ExecutionContext.constructor | functions/api/pipeline-v3/ExecutionContext.ts:130-149 | Identifiers and start time kept, `verbose` is the option's truthiness, the limit is a non-zero `maxDataSize` or 10 MiB, and data and trace start empty. |
| Execution.ExecutionContext.SetData | functions/api/pipeline-v3/ExecutionContext.ts:158-171 | When the current size plus the value's size exceeds the limit, the data is unchanged and the `Data size limit exceeded: total > limit` error is returned; otherwise exactly that key is set; the trace never changes. |
| Execution.ExecutionContext.GetData | functions/api/pipeline-v3/ExecutionContext.ts:180-183 | The stored value when present and not undefined, the default otherwise. |
| Execution.ExecutionContext.DeleteData | functions/api/pipeline-v3/ExecutionContext.ts:201-207 | Answers whether the key was there; afterwards it is gone and nothing else changed. |
| Execution.ExecutionContext.ClearData | functions/api/pipeline-v3/ExecutionContext.ts:212-215 | The data is empty; the trace is unchanged. |
| Execution.ExecutionContext.RecordNodeStart | functions/api/pipeline-v3/ExecutionContext.ts:237-247 | Exactly one `started` record appended, holding the input only in verbose mode; the data is unchanged. |
| Execution.ExecutionContext.RecordNodeComplete | functions/api/pipeline-v3/ExecutionContext.ts:255-267 | Exactly one `completed` record with the result appended; the data is unchanged. |
| Execution.ExecutionContext.RecordNodeError | functions/api/pipeline-v3/ExecutionContext.ts:275-285 | Exactly one `error` record with the error appended; the data is unchanged. |
| Execution.ExecutionContext.RecordNodeSkipped | functions/api/pipeline-v3/ExecutionContext.ts:293-303 | Exactly one `skipped` record with the reason appended; the data is unchanged. |
| Execution.ExecutionContext.GetNodeRecords | functions/api/pipeline-v3/ExecutionContext.ts:311-313 | Exactly the trace's records of that node. |
| Execution.ExecutionContext.GetLastNodeRecord | functions/api/pipeline-v3/ExecutionContext.ts:321-324 | None exactly when the node has no record; otherwise the record at the node's latest position. |
| Execution.ExecutionContext.GetSummary | functions/api/pipeline-v3/ExecutionContext.ts:331-379 | Each node counted once, by its last status other than `started`: executed is the number of such nodes and equals succeeded + failed + skipped; the status follows the error and completion counts; duration is the end time minus the start time. |
| Execution.CollectStatuses | functions/api/pipeline-v3/ExecutionContext.ts:341-348 | The first loop builds exactly the map of last non-`started` statuses. |
| Execution.CountInAdd | functions/api/pipeline-v3/ExecutionContext.ts:350-354 | Counting one more node adds one exactly when its status is the one counted. |
| Execution.CountsCover | functions/api/pipeline-v3/ExecutionContext.ts:350-356 | Every node with a final status is counted under exactly one of completed, error and skipped. |
| Execution.StatusCountsCover | functions/api/pipeline-v3/ExecutionContext.ts:350-356 | When no node is left at `started`, the completed, error and skipped counts over all nodes add up to the number of nodes. |
| Execution.CountStatuses | functions/api/pipeline-v3/ExecutionContext.ts:350-356 | The second loop's three counts are the numbers of nodes with each status, and they add up to the number of nodes. |
| Execution.CountStep | functions/api/pipeline-v3/ExecutionContext.ts:350-354 | Moving one node from the nodes left to the nodes counted keeps the partition and adds it to its own status's count. |
| StateManagement.EnterState | functions/api/pipeline-v3/StateManager.ts:190-210 | The workflow takes the new state with its node states and current node unchanged; the start time is set only on entering running without one, the end time only on entering completed, failed or cancelled without one; the entry invariant is preserved. |
| StateManagement.EnterNodeState | functions/api/pipeline-v3/StateManager.ts:270-278 | Exactly that node's state changes; a running node becomes the current node, the current node leaving running leaves none, and any other current node stays; the entry invariant is preserved. |
| StateManagement.Push | functions/api/pipeline-v3/StateManager.ts:381-388 | The history gains the record at its end; below the maximum nothing is dropped, and otherwise only the oldest entries go, so it never grows past the maximum once within it. |
| StateManagement.AllPending | functions/api/pipeline-v3/StateManager.ts:155-170 | Exactly the listed nodes, each pending. |
| StateManagement.Bump | functions/api/pipeline-v3/StateManager.ts:502-521 | Counting one more node raises the total by one. |
| StateManagement.HavingAdd | functions/api/pipeline-v3/StateManager.ts:502-521 | Counting one more node adds one to its own state's count and nothing to the others. |
| StateManagement.TallyAdd | functions/api/pipeline-v3/StateManager.ts:502-521 | The counts of one more node are the old counts bumped at that node's state. |
| StateManagement.Percent | functions/api/pipeline-v3/StateManager.ts:523-526 | The percentage of the exact ratio rounded half up: `r` is within one half of `finished * 100 / total` (the source rounds a double-precision product; see "## Left out"). |
| StateManagement.PercentAtMost100 | functions/api/pipeline-v3/StateManager.ts:523-526 | With no more finished nodes than nodes, progress is at most 100. |
| StateManagement.IndexOf | functions/api/pipeline-v3/StateManager.ts:443 | The first position at which the listener occurs. |
| StateManagement.RemoveFirst | functions/api/pipeline-v3/StateManager.ts:441-446 | A missing listener changes nothing; a present one has its first occurrence cut out, one fewer element and the same others. |
| StateManagement.FilterHistory | functions/api/pipeline-v3/StateManager.ts:397-412 | Exactly the records matching the target id when one is given and the target type when one is given; never longer than the history. |
| StateManagement.FilterKeepsOrder | functions/api/pipeline-v3/StateManager.ts:397-412 | The filtered history keeps the history's order: it is a subsequence. |
| StateManagement.TallyCovers | functions/api/pipeline-v3/StateManager.ts:502-521 | Every node is counted under exactly one state: the counts add up to the number of nodes. |
| StateManagement.CountStep | functions/api/pipeline-v3/StateManager.ts:502-521 | Moving one node from the nodes left to the nodes counted keeps the partition and bumps its own state's count. |
| StateManagement.CountStates | functions/api/pipeline-v3/StateManager.ts:502-521 | The `forEach` count equals the tally of the whole node map and adds up to its size. |
| StateManagement.NodeStatistics | functions/api/pipeline-v3/StateManager.ts:492-528 | The statistics count the nodes by state, the counts add up to the node count, and progress is the rounded percentage of completed or skipped nodes, at most 100 (0 for no nodes). |
| StateManagement.StateManager.constructor | functions/api/pipeline-v3/StateManager.ts:135-147 | History recording on and a maximum of 1000 unless configured; no workflows, history or listeners, and an empty insertion order. |
| StateManagement.StateManager.InitializeWorkflow | functions/api/pipeline-v3/StateManager.ts:155-170 | The workflow is (re)filed as pending with no times and no current node, each listed node pending; a new id goes last in the insertion order, a known one keeps its place; history and listeners untouched. |
| StateManagement.StateManager.RecordStateChange | functions/api/pipeline-v3/StateManager.ts:381-388 | The history becomes the push of the record, bounded by the maximum; nothing else changes. |
| StateManagement.StateManager.SetWorkflowState | functions/api/pipeline-v3/StateManager.ts:179-237 | An unknown workflow throws `Workflow not found`; the same state changes nothing; otherwise only that entry changes, as `EnterState` says, and one record is pushed when history is on; the entry invariants hold. The start or end time comes from one clock reading and the history record's timestamp from a later one (StateManager.ts:202/:209 and :219). |
| StateManagement.StateManager.SetNodeState | functions/api/pipeline-v3/StateManager.ts:247-305 | An unknown workflow or node throws its message, and only then; the same state changes nothing; otherwise only that entry changes, as `EnterNodeState` says, and one node record is pushed when history is on. |
| StateManagement.StateManager.GetWorkflowState | functions/api/pipeline-v3/StateManager.ts:313-315 | Found exactly for a known workflow, and then its state. |
| StateManagement.StateManager.GetNodeState | functions/api/pipeline-v3/StateManager.ts:324-326 | Found exactly for a known node of a known workflow, and then its state. |
| StateManagement.StateManager.GetWorkflowStateInfo | functions/api/pipeline-v3/StateManager.ts:334-336 | Found exactly for a known workflow; the entry is filed under its id and keeps the entry invariant. |
| StateManagement.StateManager.IsWorkflowRunning | functions/api/pipeline-v3/StateManager.ts:344-346 | True exactly for a known workflow in the running state. |
| StateManagement.StateManager.IsNodeRunning | functions/api/pipeline-v3/StateManager.ts:355-357 | True exactly for a known node of a known workflow in the running state. |
| StateManagement.StateManager.GetRunningWorkflows | functions/api/pipeline-v3/StateManager.ts:364-374 | Every running workflow, each once, and nothing else, in the order the workflows were first filed. |
| StateManagement.RunningIn | functions/api/pipeline-v3/StateManager.ts:364-374 | The ids of the order whose workflow is running, exactly those; distinct when the order is. |
| StateManagement.RunningKeepsOrder | functions/api/pipeline-v3/StateManager.ts:364-374 | The running ids come in the insertion order: they are a subsequence of it. |
| StateManagement.CollectRunning | functions/api/pipeline-v3/StateManager.ts:367-372 | The loop over the map's entries collects exactly the running ids, in order. |
| StateManagement.StateManager.GetStateHistory | functions/api/pipeline-v3/StateManager.ts:397-412 | Exactly the history records matching the given filters. |
| StateManagement.StateManager.AddListener | functions/api/pipeline-v3/StateManager.ts:420-429 | The callback is appended to that target's list, created empty if absent; nothing else changes. |
| StateManagement.StateManager.RemoveListener | functions/api/pipeline-v3/StateManager.ts:437-449 | A target without a list changes nothing; otherwise that list loses the callback's first occurrence, if any. |
| StateManagement.StateManager.GetWorkflowStatistics | functions/api/pipeline-v3/StateManager.ts:477-529 | Undefined exactly for an unknown workflow; otherwise statistics that describe its node map. |
| StateManagement.StateManager.CleanupWorkflow | functions/api/pipeline-v3/StateManager.ts:536-540 | That workflow's entry and the listeners filed under its id are removed, and its id leaves the insertion order; history untouched. |
| StateManagement.StateManager.Reset | functions/api/pipeline-v3/StateManager.ts:545-550 | No workflows, no insertion order, no history, no listeners. |
| NodeExecution.WithDefaults | functions/api/pipeline-v3/NodeExecutor.ts:90-96 | Without options: a 30000 ms timeout, no retries with exponential back-off from 1000 ms, errors not caught; each option given is kept. |
| NodeExecution.Pow2 | functions/api/pipeline-v3/NodeExecutor.ts:243 | `2^n` is at least 1. |
| NodeExecution.DelaySteps | functions/api/pipeline-v3/NodeExecutor.ts:237-249 | Each exponential delay doubles the previous one, each linear delay adds the initial one, and both start at the initial delay. |
| NodeExecution.ExponentialAtLeastLinear | functions/api/pipeline-v3/NodeExecutor.ts:237-249 | For a non-negative initial delay, exponential back-off never waits less than linear back-off for the same retry. |
| NodeExecution.PowAtLeast | functions/api/pipeline-v3/NodeExecutor.ts:243 | `2^n >= n + 1`. |
| NodeExecution.FirstReturnWins | functions/api/pipeline-v3/NodeExecutor.ts:104-128 | When attempt `k` is the first to return, the outcome is its result with `k` retries and not timed out. |
| NodeExecution.AllThrow | functions/api/pipeline-v3/NodeExecutor.ts:129-180 | When every allowed attempt throws, the last error is returned as an error result (with its timeout flag and `maxRetries` retries) when errors are caught, and rethrown otherwise. |
| NodeExecution.AttemptsBounded | functions/api/pipeline-v3/NodeExecutor.ts:104 | At most `maxRetries + 1` attempts are made: later attempts cannot change the outcome. |
| NodeExecution.CaughtIsErrorResult | functions/api/pipeline-v3/NodeExecutor.ts:153-176 | A failed result that came from a thrown attempt is the caught error result after the last retry; a thrown outcome means errors are not caught. |
| NodeExecution.Execute | functions/api/pipeline-v3/NodeExecutor.ts:81-183 | Returns or throws what the attempts decide (a negative `maxRetries` throws `Unexpected execution flow`); it waits once per retry, each wait the back-off delay of that retry, as many waits as retries and never more than `maxRetries`. |
| NodeExecution.ChunkSize | functions/api/pipeline-v3/NodeExecutor.ts:277-292 | The chunk size is positive for a non-empty batch and never larger than the batch. |
| NodeExecution.SpliceAsWritten | functions/api/pipeline-v3/NodeExecutor.ts:292 | `splice` splits the queue into the removed prefix and the rest, which together are the queue. |
| NodeExecution.NegativeLimitStalls | functions/api/pipeline-v3/NodeExecutor.ts:289-292 | With a negative `maxParallel` and a non-empty queue, `splice` removes nothing: the queue never shrinks. |
| NodeExecution.RunChunk | functions/api/pipeline-v3/NodeExecutor.ts:294-299 | Either one result per job, each the outcome of that job on its own input, in order, or an error that one of the jobs threw. |
| NodeExecution.ExecuteBatch | functions/api/pipeline-v3/NodeExecutor.ts:268-305 | Either one result per execution, each the outcome of that execution, in input order, or an error that one of the executions threw. |
| NodeExecution.ChainAppend | functions/api/pipeline-v3/NodeExecutor.ts:318-344 | Chains compose: when the first part ends in success, the whole list runs as the rest started on that part's final output. |
| NodeExecution.ExecuteChain | functions/api/pipeline-v3/NodeExecutor.ts:318-344 | The result is what the chain says: each node runs on the previous output, an unsuccessful result stops it, and an empty list throws `No nodes to execute`. |
| DataFlow.Step | functions/api/pipeline-v3/DataFlowManager.ts:192-204 | The data changes only when the transformer has `validate`, it answers true and `transform` returns; then the data becomes what `transform` returned. |
| DataFlow.NoValidateNoChange | functions/api/pipeline-v3/DataFlowManager.ts:187-206 | Transformers without `validate` never change the data, whatever their `transform` does. |
| DataFlow.ThrowingTransformersSkipped | functions/api/pipeline-v3/DataFlowManager.ts:187-206 | Transformers whose `transform` always throws leave the data as it was: the errors are swallowed. |
| DataFlow.Register | functions/api/pipeline-v3/DataFlowManager.ts:174-177 | A known name keeps its place and takes the new transformer; a new name goes last; every other transformer stays where it was. |
| DataFlow.RegisterKeepsNamesDistinct | functions/api/pipeline-v3/DataFlowManager.ts:174-177 | Registering keeps the transformer names distinct, as a map keyed by name does. |
| DataFlow.Push | functions/api/pipeline-v3/DataFlowManager.ts:283-290 | The log gains the record at its end; below 1000 records nothing is dropped, and otherwise the oldest goes, so it keeps at most 1000. |
| DataFlow.TotalSizeAppend | functions/api/pipeline-v3/DataFlowManager.ts:332-335 | The total data size splits over concatenation, so each record counts once. |
| DataFlow.Select | functions/api/pipeline-v3/DataFlowManager.ts:299-311 | Exactly the records from the given source node and to the given target node, each filter applying only when given; never longer than the log. |
| DataFlow.SelectAll | functions/api/pipeline-v3/DataFlowManager.ts:299-311 | With neither filter every record is returned, in order. |
| DataFlow.FirstArrow | functions/api/pipeline-v3/DataFlowManager.ts:377 | The position of the first `->`, or none exactly when the string has none. |
| DataFlow.KeyRoundTrip | functions/api/pipeline-v3/DataFlowManager.ts:370-377 | For node ids without `->`, splitting a pair key gives back the two ids it was built from. |
| DataFlow.KeysOf | functions/api/pipeline-v3/DataFlowManager.ts:368-373 | The distinct pair keys of the records, each carried by some record, none repeated. |
| DataFlow.CountKeyPositive | functions/api/pipeline-v3/DataFlowManager.ts:368-373 | A key has a positive count exactly when some record carries it. |
| DataFlow.DataFlowManager.constructor | functions/api/pipeline-v3/DataFlowManager.ts:101-113 | Type checking and transformers on, a 10 MiB limit and no logging unless configured; no transformers and no records. |
| DataFlow.DataFlowManager.Passes | functions/api/pipeline-v3/DataFlowManager.ts:128-167 | Throws `Data size exceeds limit: size > limit bytes` exactly when the data is over the limit; otherwise the clone, put through the transformers when they are enabled. |
| DataFlow.DataFlowManager.ApplyTransformers | functions/api/pipeline-v3/DataFlowManager.ts:187-206 | The loop applies every transformer in registration order, each on the previous output. |
| DataFlow.DataFlowManager.PassData | functions/api/pipeline-v3/DataFlowManager.ts:128-167 | Returns or throws what `Passes` says; the processed data is logged with its size only when it passed and logging is on; transformers are unchanged. |
| DataFlow.DataFlowManager.RegisterTransformer | functions/api/pipeline-v3/DataFlowManager.ts:174-177 | The transformers become the registration of the new one; the log is unchanged. |
| DataFlow.DataFlowManager.GetFlowRecords | functions/api/pipeline-v3/DataFlowManager.ts:299-311 | Exactly the logged records matching the filters. |
| DataFlow.DataFlowManager.ClearFlowRecords | functions/api/pipeline-v3/DataFlowManager.ts:316-319 | No records; transformers unchanged. |
| DataFlow.DataFlowManager.Reset | functions/api/pipeline-v3/DataFlowManager.ts:438-442 | No records and no transformers. |
| DataFlow.DataFlowManager.GetStatistics | functions/api/pipeline-v3/DataFlowManager.ts:326-345 | The number of flows, their total size and the number of transformers. |
| DataFlow.DataFlowManager.PassBatch | functions/api/pipeline-v3/DataFlowManager.ts:383-422 | The entries are `Entries(flows)` and the log becomes `BatchLog` of the old log: each flow goes through `passData` in order, and a rejected flow does not stop the later ones. |
| DataFlow.DataFlowManager.EntryOf | functions/api/pipeline-v3/DataFlowManager.ts:395-412 | A flow is rejected exactly when its data is over the size limit; a passed entry carries the data `passData` returns. |
| DataFlow.DataFlowManager.Entries | functions/api/pipeline-v3/DataFlowManager.ts:391-419 | One entry per flow, the `i`-th being the entry of flow `i`. |
| DataFlow.DataFlowManager.BatchLog | functions/api/pipeline-v3/DataFlowManager.ts:391-419 | Without logging the log stays as it was; it never exceeds 1000 records; while there is room for every flow no old record is dropped and at most one is added per flow. |
| DataFlow.DataFlowManager.BatchLogCountsPassed | functions/api/pipeline-v3/DataFlowManager.ts:391-419 | With logging on and room for every flow, the batch adds exactly one record per entry that passed. |
| DataFlow.DataFlowManager.GenerateVisualization | functions/api/pipeline-v3/DataFlowManager.ts:354-382 | The placeholder diagram without records; otherwise one edge line per distinct pair key, in order of first appearance, labelled with the number of records carrying it. |
| DataFlow.CountKeyStep | functions/api/pipeline-v3/DataFlowManager.ts:370-373 | Record `i` adds one to its own key's count and nothing to the others. |
| DataFlow.CountFlows | functions/api/pipeline-v3/DataFlowManager.ts:368-373 | The counting loop yields the distinct keys in insertion order and, for each, the number of records carrying it. |
| DataFlow.EdgeShowsPair | functions/api/pipeline-v3/DataFlowManager.ts:376-379 | The edge of every recorded pair of node ids without `->` shows those two ids and its positive count. |
| Tracing.PushEvent | functions/api/pipeline-v3/visualization/ExecutionTracer.ts:266-272 | The events gain the new one at the end and lose at most the oldest; below `maxEvents` nothing is dropped; the list never grows past the bound once within it. |
| Tracing.CountType | functions/api/pipeline-v3/visualization/ExecutionTracer.ts:424-425 | A type's count never exceeds the number of events. |
| Tracing.CountTwoTypes | functions/api/pipeline-v3/visualization/ExecutionTracer.ts:424-425 | Events of two different types are counted apart: together they never exceed the number of events. |
| Tracing.CountTypeAppend | functions/api/pipeline-v3/visualization/ExecutionTracer.ts:424-425 | Appending one event adds one to its own type's count and nothing to the others. |
| Tracing.StartEvent | functions/api/pipeline-v3/visualization/ExecutionTracer.ts:105-111 | A `workflow_start` event for the workflow carrying its name. |
| Tracing.Label | functions/api/pipeline-v3/visualization/ExecutionTracer.ts:401 | The node name when it is non-empty, else the workflow id. |
| Tracing.SessionsOf | functions/api/pipeline-v3/visualization/ExecutionTracer.ts:308-310 | One session per listed id, in that order. |
| Tracing.ExecutionTracer.constructor | functions/api/pipeline-v3/visualization/ExecutionTracer.ts:77-87 | 1000 events and data and errors captured, unless configured; no sessions and no listeners. |
| Tracing.ExecutionTracer.WorkflowIdOf | functions/api/pipeline-v3/visualization/ExecutionTracer.ts:382-385 | The session's workflow id when it has a non-empty one, `unknown` otherwise. |
| Tracing.ExecutionTracer.RecordEvent | functions/api/pipeline-v3/visualization/ExecutionTracer.ts:259-296 | An unknown session changes nothing; otherwise only that session's events change, by one bounded push. |
| Tracing.ExecutionTracer.OpenSession | functions/api/pipeline-v3/visualization/ExecutionTracer.ts:92-103 | A fresh running session without events is filed under the id, after every existing one unless it replaces one. |
| Tracing.ExecutionTracer.StartSession | functions/api/pipeline-v3/visualization/ExecutionTracer.ts:92-116 | A running session whose only event is the `workflow_start` event (no event at all when `maxEvents` is below one); the session's start time and the event's timestamp are separate clock readings. |
| Tracing.ExecutionTracer.EndSession | functions/api/pipeline-v3/visualization/ExecutionTracer.ts:121-141 | An unknown session changes nothing; otherwise the end time and summary are set, the status is `completed` only for a summary whose status is the string `completed`, and the matching event is recorded without a duration (the summary has no `totalExecutionTime` field); the end time and the event's timestamp are separate clock readings. |
| Tracing.ExecutionTracer.RecordNodeStart | functions/api/pipeline-v3/visualization/ExecutionTracer.ts:146-158 | One `node_start` event on a known session, keeping the input only when data is captured. |
| Tracing.ExecutionTracer.RecordNodeComplete | functions/api/pipeline-v3/visualization/ExecutionTracer.ts:163-182 | One `node_complete` event with its duration, keeping the output only when data is captured. |
| Tracing.ExecutionTracer.RecordNodeError | functions/api/pipeline-v3/visualization/ExecutionTracer.ts:187-211 | One `node_error` event with the message and duration, keeping the stack only when errors are captured. |
| Tracing.ExecutionTracer.RecordDataFlow | functions/api/pipeline-v3/visualization/ExecutionTracer.ts:216-233 | One `data_flow` event with both endpoints, keeping the data only when data is captured. |
| Tracing.ExecutionTracer.RecordStateChange | functions/api/pipeline-v3/visualization/ExecutionTracer.ts:238-254 | One `state_change` event with the node and both states. |
| Tracing.ExecutionTracer.GetSession | functions/api/pipeline-v3/visualization/ExecutionTracer.ts:301-303 | Found exactly for a known session, and then that session. |
| Tracing.ExecutionTracer.GetAllSessions | functions/api/pipeline-v3/visualization/ExecutionTracer.ts:308-310 | Every session exactly once (as many as there are), and nothing else. |
| Tracing.ExecutionTracer.KeysMatchOrder | functions/api/pipeline-v3/visualization/ExecutionTracer.ts:308-310 | The insertion-order list has one entry per session. |
| Tracing.ExecutionTracer.ClearSession | functions/api/pipeline-v3/visualization/ExecutionTracer.ts:315-317 | Only that session goes, from the map and from the order. |
| Tracing.ExecutionTracer.ClearAllSessions | functions/api/pipeline-v3/visualization/ExecutionTracer.ts:322-324 | No sessions; listeners kept. |
| Tracing.ExecutionTracer.On | functions/api/pipeline-v3/visualization/ExecutionTracer.ts:329-334 | The listener is appended to that event type's list, created empty if absent. |
| Tracing.ExecutionTracer.Off | functions/api/pipeline-v3/visualization/ExecutionTracer.ts:339-347 | A type without listeners changes nothing; otherwise the listener's first registration goes, if there is one. |
| Tracing.ExecutionTracer.GenerateTimeline | functions/api/pipeline-v3/visualization/ExecutionTracer.ts:390-405 | Nothing for an unknown session; otherwise one entry per event, in order, with its time, type, label and duration. |
| Tracing.ExecutionTracer.GenerateStats | functions/api/pipeline-v3/visualization/ExecutionTracer.ts:410-443 | All zeros for an unknown session; otherwise the event count, the `node_complete` and `node_error` counts and the summed durations of the completions. |
| Tracing.PushNoDrop | functions/api/pipeline-v3/visualization/ExecutionTracer.ts:266-272 | Below the bound, recording keeps every earlier event. |
| Tracing.EndSessionNeverCompletes | functions/api/pipeline-v3/visualization/ExecutionTracer.ts:121-127 | No summary status is the string `completed`, so `endSession` always marks a session failed. |
| Tracing.EndStatus | functions/api/pipeline-v3/visualization/ExecutionTracer.ts:129 | the corrected status: a session ends completed exactly when its summary succeeded, failed otherwise, never running |
| Tracing.PushCounted | functions/api/pipeline-v3/visualization/ExecutionTracer.ts:259-272 | When nothing is dropped, recording an event adds one to its own type's count and nothing to any other. |
| Flowchart.NewConfig | functions/api/pipeline-v3/visualization/FlowDiagram.ts:38-46 | Direction `TD` and no configuration details unless configured. |
| Flowchart.NodeShape | functions/api/pipeline-v3/visualization/FlowDiagram.ts:206-221 | A diamond exactly for decision/check types; a stadium exactly for start/end types that are not decisions; a subroutine only for validate types; a rounded rectangle only for response/output types; a rectangle exactly when no keyword matches. |
| Flowchart.ClassName | functions/api/pipeline-v3/visualization/FlowDiagram.ts:226-232 | Always one of the five classes (never null); `validation` exactly for validate types; `processing` exactly when no keyword matches. |
| Flowchart.ShapeAndClassPrioritiesDiffer | functions/api/pipeline-v3/visualization/FlowDiagram.ts:206-232 | The two priorities differ: a `validate-check` node is drawn as a decision but styled as a validation. |
| Flowchart.NodeIcon | functions/api/pipeline-v3/visualization/FlowDiagram.ts:181-201 | The node's own icon when present, else its type's icon, else a pin; never empty. |
| Flowchart.ArrowStyle | functions/api/pipeline-v3/visualization/FlowDiagram.ts:237-246 | Dotted for `error`, thick for `response`, plain otherwise, including no output. |
| Flowchart.LinkLabel | functions/api/pipeline-v3/visualization/FlowDiagram.ts:146-152 | The output and the comment joined by `<br/>` when both are present, either one alone otherwise; empty exactly when neither is present. |
| Flowchart.LinkLine | functions/api/pipeline-v3/visualization/FlowDiagram.ts:137-162 | A warning comment when either end is missing from the workflow; otherwise the arrow between the ids, labelled when the label is non-empty. |
| Flowchart.NodeLines | functions/api/pipeline-v3/visualization/FlowDiagram.ts:60-62 | One definition line per node, in order. |
| Flowchart.LinkLines | functions/api/pipeline-v3/visualization/FlowDiagram.ts:67-69 | One line per connection, in order. |
| Flowchart.ClassLines | functions/api/pipeline-v3/visualization/FlowDiagram.ts:95-100 | One `class` line per node, in order. |
| Flowchart.Assemble | functions/api/pipeline-v3/visualization/FlowDiagram.ts:51-103 | The header and node section, then the connection lines, then the nine fixed class-definition lines, then the `class` lines. |
| Flowchart.MermaidHead | functions/api/pipeline-v3/visualization/FlowDiagram.ts:54-66 | The `graph <direction>` line, then each node's definition line from the fourth line on. |
| Flowchart.FullChartLines | functions/api/pipeline-v3/visualization/FlowDiagram.ts:51-62 | The full chart opens with `graph <direction>` and draws every node once, in the workflow's order, from the fourth line on. |
| Flowchart.ChartLinkLines | functions/api/pipeline-v3/visualization/FlowDiagram.ts:64-69 | The full chart draws every connection once, in order, right after the node section (a warning comment in place of a connection with a missing end). |
| Flowchart.ChartClassLines | functions/api/pipeline-v3/visualization/FlowDiagram.ts:93-100 | The full chart ends with the `class` lines, one per node, in the workflow's order. |
| Flowchart.MermaidLines | functions/api/pipeline-v3/visualization/FlowDiagram.ts:51-102 | The full chart has fourteen fixed lines besides two per node and one per connection, and opens with `graph <direction>`. |
| Flowchart.GenerateMermaid | functions/api/pipeline-v3/visualization/FlowDiagram.ts:51-102 | The joined chart text starts with `graph <direction>`. |
| Flowchart.GenerateSimplifiedMermaid | functions/api/pipeline-v3/visualization/FlowDiagram.ts:251-283 | The joined simplified chart starts with `graph <direction>`. |
| Flowchart.GenerateNodeDetails | functions/api/pipeline-v3/visualization/FlowDiagram.ts:288-316 | The joined details start with the `###` heading carrying the node's name. |
| Flowchart.MainLinks | functions/api/pipeline-v3/visualization/FlowDiagram.ts:258-260 | Exactly the connections without an output or with `success` or `continue`. |
| Flowchart.Endpoints | functions/api/pipeline-v3/visualization/FlowDiagram.ts:263-267 | Exactly the ids at either end of the given connections. |
| Flowchart.UsedNodes | functions/api/pipeline-v3/visualization/FlowDiagram.ts:269 | Exactly the nodes whose id is in the set, in order. |
| Flowchart.SimplifiedKeepsMainPath | functions/api/pipeline-v3/visualization/FlowDiagram.ts:251-283 | The simplified chart draws a node exactly when it is at one end of a main-path connection, and one line per main-path connection, endpoints still looked up among all nodes. |
| Flowchart.NodeDetailLines | functions/api/pipeline-v3/visualization/FlowDiagram.ts:288-316 | A heading with the name, the id and type lines, and two more lines exactly when there is a description. |
| Flowchart.LinkDetailLines | functions/api/pipeline-v3/visualization/FlowDiagram.ts:321-340 | A heading, then one line each for the output and the comment when present. |
| Flowchart.Bump | functions/api/pipeline-v3/visualization/FlowDiagram.ts:363-365 | A known key is incremented in place; a new key is appended with count 1; keys keep their order. |
| Flowchart.BumpCounts | functions/api/pipeline-v3/visualization/FlowDiagram.ts:363-365 | A bump adds one to the total and to its own key's count, nothing to the others, and keeps keys distinct. |
| Flowchart.BumpTotal | functions/api/pipeline-v3/visualization/FlowDiagram.ts:363-365 | A bump adds one to the total. |
| Flowchart.BumpCountOf | functions/api/pipeline-v3/visualization/FlowDiagram.ts:363-365 | A bump adds one to its own key's count and nothing to the others. |
| Flowchart.BumpDistinct | functions/api/pipeline-v3/visualization/FlowDiagram.ts:363-365 | A bump keeps the keys distinct. |
| Flowchart.TallyCounts | functions/api/pipeline-v3/visualization/FlowDiagram.ts:361-379 | The counts sum to the number of items, every key is counted as often as it occurs, and no key appears twice. |
| Flowchart.CountKeys | functions/api/pipeline-v3/visualization/FlowDiagram.ts:361-379 | The counting loop yields the tally of its keys, whose counts sum to their number. |
| Flowchart.NodeTypes | functions/api/pipeline-v3/visualization/FlowDiagram.ts:363 | Each node's type, in order. |
| Flowchart.LinkTypes | functions/api/pipeline-v3/visualization/FlowDiagram.ts:374-375 | Each connection's output, or `default`, in order. |
| Flowchart.Branches | functions/api/pipeline-v3/visualization/FlowDiagram.ts:386 | The number of connections with an output other than `success`, at most the number of connections. |
| Flowchart.Complexity | functions/api/pipeline-v3/visualization/FlowDiagram.ts:384-388 | Between nodes + connections and nodes + 3 × connections; the lower bound exactly when there are no branches. |
| Flowchart.SuccessOnlyIsLinear | functions/api/pipeline-v3/visualization/FlowDiagram.ts:386 | A workflow whose connections all leave through `success` has no branches. |
| Flowchart.GenerateWorkflowStats | functions/api/pipeline-v3/visualization/FlowDiagram.ts:345-356 | The workflow's identity, its node and connection counts, the per-type counts summing to those counts, and its complexity. |
| Engine.InitSpec | functions/api/pipeline-v3/WorkflowEngine.ts:131-155 | instantiating the definitions succeeds exactly when every node's type is registered, and the node map then has one entry per node id |
| Engine.InitFailsAtFirst | functions/api/pipeline-v3/WorkflowEngine.ts:133-139 | a failed initialisation names the first definition whose type is not registered, and every earlier type is registered |
| Engine.InitKeepsLast | functions/api/pipeline-v3/WorkflowEngine.ts:141-143 | an id defined twice maps to the instance built from its last definition |
| Engine.InitStopsAt | functions/api/pipeline-v3/WorkflowEngine.ts:133-139 | once a prefix initialises and the next type is unregistered, the whole initialisation fails with that type's message |
| Engine.FirstUnknown | functions/api/pipeline-v3/WorkflowEngine.ts:173-180 | none exactly when both ends of every connection are nodes; otherwise an endpoint of some connection that is not a node |
| Engine.Exec | functions/api/pipeline-v3/WorkflowEngine.ts:293-365 | an unknown node throws `Node not found: <id>` and records nothing; a known node's trace begins with its start record |
| Engine.ReturnIsTerminal | functions/api/pipeline-v3/WorkflowEngine.ts:324-344 | every value an execution returns is the output of a node that completed successfully and has no outgoing connection for its output name |
| Engine.RecoverReturnIsTerminal | functions/api/pipeline-v3/WorkflowEngine.ts:346-363 | the same for the `catch` block's routing to the error handler |
| Engine.AttemptReturnIsTerminal | functions/api/pipeline-v3/WorkflowEngine.ts:318-344 | the same for the `try` block |
| Engine.ThrownErrorIsRecorded | functions/api/pipeline-v3/WorkflowEngine.ts:346-363 | when all connections lead to known nodes, every error an execution throws was recorded as a node error |
| Engine.HandlerCatches | functions/api/pipeline-v3/WorkflowEngine.ts:328-363 | a node with an error handler passes on an error only as the result of a run of that handler |
| Engine.WorkflowEngine.constructor | functions/api/pipeline-v3/WorkflowEngine.ts:116-119 | the workflow is kept and the node map and history start empty |
| Engine.WorkflowEngine.InitializeNodes | functions/api/pipeline-v3/WorkflowEngine.ts:131-155 | succeeds exactly when the specification of initialisation does, sets the node map to its result or returns its error, and keeps the history |
| Engine.WorkflowEngine.ValidateWorkflow | functions/api/pipeline-v3/WorkflowEngine.ts:164-192 | succeeds exactly when there is a node, every endpoint is known and the graph has no cycle; an empty workflow gets `Workflow must have at least one node` and an unknown endpoint its own message |
| Engine.WorkflowEngine.HasEntry | functions/api/pipeline-v3/WorkflowEngine.ts:184-189 | a constructed engine always finds an entry node, so the missing-entry warning cannot occur after validation |
| Engine.WorkflowEngine.ValidRanked | functions/api/pipeline-v3/WorkflowEngine.ts:201-234 | an acyclic validated workflow has a ranking under which every connection leads to a lower rank, so every execution is finite |
| Engine.WorkflowEngine.ExecuteNode | functions/api/pipeline-v3/WorkflowEngine.ts:293-365 | returns or throws what the execution function describes and appends exactly its records to the trace; the engine itself writes nothing to the context data |
| Engine.WorkflowEngine.TryNode | functions/api/pipeline-v3/WorkflowEngine.ts:316-344 | the `try` block: the node's result routed to its error handler, its next node or returned, with the records it adds |
| Engine.WorkflowEngine.CatchNode | functions/api/pipeline-v3/WorkflowEngine.ts:345-363 | the `catch` block: the error handler run on `{ error, nodeId, nodeName }`, or the error rethrown |
| Engine.WorkflowEngine.Execute | functions/api/pipeline-v3/WorkflowEngine.ts:243-283 | the context gets the given non-empty id or a generated one and is verbose when asked or when the workflow traces; no entry node throws `No entry node found in workflow`; otherwise the run from the entry node; the context is added to the bounded history either way |
| Engine.WorkflowEngine.GetExecutionHistory | functions/api/pipeline-v3/WorkflowEngine.ts:456-461 | the whole history for a zero limit, otherwise the last `limit` runs (a negative limit drops that many from the front, as `slice` does) |
| Engine.SliceStart | functions/api/pipeline-v3/WorkflowEngine.ts:458 | the start index of `slice(start)` never passes the array's end |
| Engine.WorkflowEngine.GetExecution | functions/api/pipeline-v3/WorkflowEngine.ts:469-471 | none exactly when no kept run has the id; otherwise the first kept run with it |
| Engine.FindContext | functions/api/pipeline-v3/WorkflowEngine.ts:470 | `find` over the history: the first context with the id, none exactly when there is none |
| Engine.WorkflowEngine.AddToHistory | functions/api/pipeline-v3/WorkflowEngine.ts:441-448 | the history becomes the old history plus the context, with the oldest dropped beyond the cap |
| Engine.Bounded | functions/api/pipeline-v3/WorkflowEngine.ts:442-447 | one push keeps at most 100 runs, drops exactly one when over the cap, and keeps the newest runs in order |
| Engine.WorkflowEngine.GenerateVisualization | functions/api/pipeline-v3/WorkflowEngine.ts:478-498 | the diagram built by the loop equals the header, the node lines and the connection lines |
| Engine.BoxesPrefix | functions/api/pipeline-v3/WorkflowEngine.ts:482-489 | the node lines of a prefix of the definitions are a prefix of all node lines |
| Engine.ArrowsPrefix | functions/api/pipeline-v3/WorkflowEngine.ts:492-495 | the connection lines of a prefix of the connections are a prefix of all connection lines |
| Engine.DiagramLists | functions/api/pipeline-v3/WorkflowEngine.ts:478-498 | after the `graph TD` header, the lines of each prefix of the node definitions, and then of each prefix of the connections, begin the diagram |
| Engine.Create | functions/api/pipeline-v3/WorkflowEngine.ts:116-122 | construction throws the initialisation error when a type is unregistered, and succeeds exactly when initialisation succeeds, there is a node, every endpoint is known and there is no cycle; the new engine holds the node map and an empty history |
| WorkflowGraph.PathDescends | functions/api/pipeline-v3/WorkflowEngine.ts:201-234 | along any path from a ranked node the rank strictly falls |
| WorkflowGraph.NoCycleUnderRanking | functions/api/pipeline-v3/WorkflowEngine.ts:201-234 | a ranking of every connection's source under which connections descend rules out every cycle |
| WorkflowGraph.ReachSelf | functions/api/pipeline-v3/WorkflowEngine.ts:205-207 | every node reaches itself by the empty path |
| WorkflowGraph.ReachStep | functions/api/pipeline-v3/WorkflowEngine.ts:209-218 | a node reached, followed by one connection, reaches the connection's target |
| WorkflowGraph.CycleFromReach | functions/api/pipeline-v3/WorkflowEngine.ts:219-220 | a connection back to a node still on the recursion stack closes a real cycle, so the thrown error is justified |
| WorkflowGraph.FewerLeft | functions/api/pipeline-v3/WorkflowEngine.ts:205-206 | adding an unvisited node strictly grows the visited set, so the search terminates |
| WorkflowGraph.SubsetNoLarger | functions/api/pipeline-v3/WorkflowEngine.ts:205-206 | the visited set never exceeds the set of nodes |
| WorkflowGraph.Above | functions/api/pipeline-v3/WorkflowEngine.ts:224-225 | a finished node is given a rank above every target of its connections |
| WorkflowGraph.Search | functions/api/pipeline-v3/WorkflowEngine.ts:205-226 | the inner `dfs`: an error only when the connections contain a cycle; otherwise the node is finished and ranked, the visited set only grows and the search invariant holds |
| WorkflowGraph.Follow | functions/api/pipeline-v3/WorkflowEngine.ts:214-221 | one connection of the search: an unvisited target is searched, a target on the stack is a cycle, a finished one is skipped; success leaves the target ranked |
| WorkflowGraph.DetectCycles | functions/api/pipeline-v3/WorkflowEngine.ts:201-234 | fails exactly when the connections contain a cycle; otherwise every node is ranked and every connection leads to a lower rank |
| WorkflowGraph.FindEntryNode | functions/api/pipeline-v3/WorkflowEngine.ts:374-392 | none exactly when every node has an incoming connection; otherwise the first node in definition order without one |
| WorkflowGraph.TopRanked | functions/api/pipeline-v3/WorkflowEngine.ts:374-392 | some node has a rank at least that of every node |
| WorkflowGraph.EntryExists | functions/api/pipeline-v3/WorkflowEngine.ts:184-189 | an acyclic, ranked workflow with a node always has an entry node |
| WorkflowGraph.FirstTarget | functions/api/pipeline-v3/WorkflowEngine.ts:404-408 | the target of the first connection leaving the node through the output, or none when no connection does |
| WorkflowGraph.FindNextNode | functions/api/pipeline-v3/WorkflowEngine.ts:403-409 | the target of the first connection leaving the node through the given output name, none when there is none |
| WorkflowGraph.FindErrorHandler | functions/api/pipeline-v3/WorkflowEngine.ts:419-425 | the target of the first connection leaving the node through `error`, none when there is none |
| WorkflowGraph.TargetRanksLower | functions/api/pipeline-v3/WorkflowEngine.ts:403-425 | in a ranked workflow the next node and the error handler rank below the node they follow |
| WorkflowService.ErrorResponse | functions/api/pipeline-v3/api/WorkflowAPI.ts:450-467 | a failed envelope with no data, carrying the code, message and details, the time and API version 3.0.0 |
| WorkflowService.Success | functions/api/pipeline-v3/api/WorkflowAPI.ts:90-97 | a successful envelope with no error carrying exactly the given data, the time and API version 3.0.0 |
| WorkflowService.Stamped | functions/api/pipeline-v3/api/WorkflowAPI.ts:157-161 | the stored definition has `created` and `updated` set from two separate clock readings, keeps the other metadata keys, and differs from the request only in its metadata |
| WorkflowService.MergeMetadata | functions/api/pipeline-v3/api/WorkflowAPI.ts:205-209 | `updated` is now; `created` comes from the update when it has one, else from the stored metadata; the other keys are the union, the update's values winning |
| WorkflowService.Updated | functions/api/pipeline-v3/api/WorkflowAPI.ts:201-210 | every field the update gives replaces the stored one, the others stay, the id is never changed, and the metadata is merged |
| WorkflowService.UpdateIdempotent | functions/api/pipeline-v3/api/WorkflowAPI.ts:201-210 | applying the same update twice at the same time stores what applying it once stores |
| WorkflowService.UpdateIgnoresId | functions/api/pipeline-v3/api/WorkflowAPI.ts:204 | an id inside the update has no effect on what is stored |
| WorkflowService.LastModified | functions/api/pipeline-v3/api/WorkflowAPI.ts:87 | the `updated` stamp when present, else the `created` stamp, else now; it is one of these three |
| WorkflowService.Item | functions/api/pipeline-v3/api/WorkflowAPI.ts:80-88 | a list entry copies id, name and version, is `active`, counts nodes and connections, and carries the last-modified time |
| WorkflowService.Items | functions/api/pipeline-v3/api/WorkflowAPI.ts:80-88 | one entry per key, in the map's insertion order |
| WorkflowService.CountStatus | functions/api/pipeline-v3/api/WorkflowAPI.ts:423-424 | the number of sessions with a status never exceeds the number of sessions |
| WorkflowService.CountStatusCountsOccurrences | functions/api/pipeline-v3/api/WorkflowAPI.ts:423-424 | the count equals how often the status occurs among the sessions' statuses, which is what `filter(...).length` gives |
| WorkflowService.StatusesPartition | functions/api/pipeline-v3/api/WorkflowAPI.ts:419-425 | completed, failed and running sessions add up to all sessions |
| WorkflowService.NoneRunningAllCounted | functions/api/pipeline-v3/api/WorkflowAPI.ts:419-425 | with no running session, successful and failed executions add up to all executions |
| WorkflowService.NoneRunningCount | functions/api/pipeline-v3/api/WorkflowAPI.ts:419-425 | with no running session none is counted as running |
| WorkflowService.StatsOf | functions/api/pipeline-v3/api/WorkflowAPI.ts:419-425 | counts the stored workflows and the sessions; the successes are the number of completed sessions and the failures the number of failed ones, and with the running sessions they add up to all executions |
| WorkflowService.Insert | functions/api/pipeline-v3/api/WorkflowAPI.ts:362 | inserting into a newest-first list keeps it newest first and adds exactly the one session |
| WorkflowService.BehindHead | functions/api/pipeline-v3/api/WorkflowAPI.ts:362 | a session older than the head stays behind it after insertion into the rest |
| WorkflowService.SortByStart | functions/api/pipeline-v3/api/WorkflowAPI.ts:361-362 | the sort returns the same sessions, newest first |
| WorkflowService.SliceEnd | functions/api/pipeline-v3/api/WorkflowAPI.ts:363 | the kept length of `slice(0, limit)`: the limit when in range, the whole list beyond it, and a negative limit counted from the end |
| WorkflowService.History | functions/api/pipeline-v3/api/WorkflowAPI.ts:361-363 | the history is newest first, has the length `slice` gives, holds only the tracer's sessions and, when the limit covers them, all of them |
| WorkflowService.HistoryKeepsNewest | functions/api/pipeline-v3/api/WorkflowAPI.ts:361-363 | a session cut off by the limit is no newer than any session kept |
| WorkflowService.DroppedIsBehind | functions/api/pipeline-v3/api/WorkflowAPI.ts:363 | a session missing from a prefix occurs after it |
| WorkflowService.HistoryResponse | functions/api/pipeline-v3/api/WorkflowAPI.ts:359-380 | a successful envelope with at most `limit` sessions taken from the tracer's |
| WorkflowService.WorkflowApi.constructor | functions/api/pipeline-v3/api/WorkflowAPI.ts:65-73 | the store is empty and the tracer is fresh, captures data and errors and keeps up to 1000 events |
| WorkflowService.WorkflowApi.ListWorkflows | functions/api/pipeline-v3/api/WorkflowAPI.ts:78-105 | one list entry per stored workflow, in insertion order, and every stored id appears |
| WorkflowService.WorkflowApi.GetWorkflow | functions/api/pipeline-v3/api/WorkflowAPI.ts:110-136 | succeeds exactly when the id is stored, returning its definition; otherwise `WORKFLOW_NOT_FOUND` |
| WorkflowService.WorkflowApi.CreateWorkflow | functions/api/pipeline-v3/api/WorkflowAPI.ts:141-184 | a missing id or name gives `INVALID_WORKFLOW` and a stored id `WORKFLOW_EXISTS`, both changing nothing; otherwise the definition stamped with the `created` and `updated` readings is stored under its id, last in order, and returned with a response timestamp from a third reading |
| WorkflowService.WorkflowApi.UpdateWorkflow | functions/api/pipeline-v3/api/WorkflowAPI.ts:189-232 | an unknown id gives `WORKFLOW_NOT_FOUND` and changes nothing; otherwise the definition updated with one clock reading replaces the stored one in place and is returned with a response timestamp from another |
| WorkflowService.WorkflowApi.DeleteWorkflow | functions/api/pipeline-v3/api/WorkflowAPI.ts:237-262 | an unknown id gives `WORKFLOW_NOT_FOUND` and changes nothing; otherwise exactly that id leaves the store and the order |
| WorkflowService.WorkflowApi.ExecuteWorkflow | functions/api/pipeline-v3/api/WorkflowAPI.ts:267-315 | never succeeds: an unknown id gives `WORKFLOW_NOT_FOUND`, a stored one `EXECUTE_WORKFLOW_ERROR` because the engine has no `loadWorkflow` |
| WorkflowService.WorkflowApi.GetWorkflowVisualization | functions/api/pipeline-v3/api/WorkflowAPI.ts:320-354 | succeeds exactly when the id is stored, with the top-down Mermaid chart of that definition; otherwise `WORKFLOW_NOT_FOUND` |
| WorkflowService.WorkflowApi.GetExecutionHistory | functions/api/pipeline-v3/api/WorkflowAPI.ts:359-380 | always succeeds with the newest-first history of the tracer's sessions, every one of which the tracer holds |
| WorkflowService.WorkflowApi.GetExecution | functions/api/pipeline-v3/api/WorkflowAPI.ts:385-411 | succeeds exactly when the tracer has the session, returning it; otherwise `SESSION_NOT_FOUND` |
| WorkflowService.WorkflowApi.GetStats | functions/api/pipeline-v3/api/WorkflowAPI.ts:416-445 | always succeeds, counting the stored workflows and the tracer's sessions; successes and failures are the numbers of completed and failed sessions among them, which with the running ones make up all executions |
| WorkflowService.Chart | functions/api/pipeline-v3/api/WorkflowAPI.ts:335-341 | the chart of a stored definition carries its id, name, version, nodes and connections |
| Scheduler.DefaultIdsDistinct | functions/api/scheduler/TaskScheduler.ts:40-147 | the constructor registers five tasks with five distinct ids |
| Scheduler.DefaultStep | functions/api/scheduler/TaskScheduler.ts:40-147 | registering the next default task keeps the earlier ones and adds it at the end of the order |
| Scheduler.Outcome | functions/api/scheduler/TaskScheduler.ts:204-232 | an unknown id throws `Task not found: <id>`, a disabled task is skipped, and an enabled task runs or throws as its callback does |
| Scheduler.AfterRun | functions/api/scheduler/TaskScheduler.ts:204-232 | only a successful run changes the registry, and then only by stamping that task's `lastRun` |
| Scheduler.AfterRuns | functions/api/scheduler/TaskScheduler.ts:244-251 | running several tasks keeps the registry's ids |
| Scheduler.AfterRunsStep | functions/api/scheduler/TaskScheduler.ts:244-251 | running one more task applies one more run to the registry |
| Scheduler.AfterRunsStamps | functions/api/scheduler/TaskScheduler.ts:244-251 | running a list stamps `lastRun` on exactly the listed enabled tasks whose callback succeeds and changes nothing else; a failure does not stop later tasks |
| Scheduler.Selected | functions/api/scheduler/TaskScheduler.ts:238-240 | the enabled tasks whose schedule matches (any schedule without a cron string), each once; Scheduler.SelectedKeepsOrder gives their insertion order |
| Scheduler.SelectedKeepsOrder | functions/api/scheduler/TaskScheduler.ts:238-240 | the tasks run by executeAllTasks and handleScheduledEvent come in the Map's insertion order: a subsequence of it |
| Scheduler.CountEnabled | functions/api/scheduler/TaskScheduler.ts:293-294 | a count of tasks is at most the number of tasks |
| Scheduler.EnabledPlusDisabled | functions/api/scheduler/TaskScheduler.ts:291-294 | enabled and disabled tasks add up to all tasks |
| Scheduler.StatusOf | functions/api/scheduler/TaskScheduler.ts:295-302 | a status entry copies the task's id, name, schedule, enabled flag and run times |
| Scheduler.TaskScheduler.constructor | functions/api/scheduler/TaskScheduler.ts:32-147 | the five default tasks, in order, exactly as listed |
| Scheduler.TaskScheduler.RegisterTask | functions/api/scheduler/TaskScheduler.ts:152-155 | the task is stored under its id; a new id joins the end of the order and a known one keeps its place |
| Scheduler.TaskScheduler.UnregisterTask | functions/api/scheduler/TaskScheduler.ts:160-163 | exactly that id leaves the registry and the order |
| Scheduler.TaskScheduler.GetTasks | functions/api/scheduler/TaskScheduler.ts:168-170 | every task once, in insertion order |
| Scheduler.TaskScheduler.GetTask | functions/api/scheduler/TaskScheduler.ts:175-177 | the task when the id is registered, none otherwise |
| Scheduler.TaskScheduler.SetEnabled | functions/api/scheduler/TaskScheduler.ts:182-199 | enabling or disabling changes only that task's flag, and an unknown id changes nothing |
| Scheduler.TaskScheduler.ExecuteTask | functions/api/scheduler/TaskScheduler.ts:204-232 | returns or throws the outcome for the task and leaves the registry as one run leaves it |
| Scheduler.TaskScheduler.RunEach | functions/api/scheduler/TaskScheduler.ts:244-251 | every listed task is attempted in turn, each failure caught, and the registry is as the runs leave it |
| Scheduler.TaskScheduler.ExecuteAllTasks | functions/api/scheduler/TaskScheduler.ts:237-254 | attempts exactly the enabled tasks in insertion order, whatever fails, with one outcome each |
| Scheduler.TaskScheduler.HandleScheduledEvent | functions/api/scheduler/TaskScheduler.ts:259-283 | attempts exactly the enabled tasks whose schedule is the event's cron string, in order, with one outcome each |
| Scheduler.TaskScheduler.GetStatusReport | functions/api/scheduler/TaskScheduler.ts:288-304 | counts all, enabled and disabled tasks (the last two adding up to the first) and lists each task's status in insertion order |
| Scheduler.ScheduledEventStamps | functions/api/scheduler/TaskScheduler.ts:259-283 | a scheduled event stamps exactly the enabled tasks with that schedule whose callback succeeds, and no other task |
| JsonDiff.Keys | components/console/json-viewer/JsonDiffViewer.tsx:60 | the keys of an object, one per field, in field order |
| JsonDiff.KeyIndex | components/console/json-viewer/JsonDiffViewer.tsx:64-65 | the position of a present key holds a field with that key |
| JsonDiff.Dedupe | components/console/json-viewer/JsonDiffViewer.tsx:60 | the `Set` of the keys: each key once, no key lost or invented |
| JsonDiff.AllKeys | components/console/json-viewer/JsonDiffViewer.tsx:60 | every key of either object exactly once |
| JsonDiff.ChildPath | components/console/json-viewer/JsonDiffViewer.tsx:63 | at the top level the key itself, otherwise the parent path, a dot and the key |
| JsonDiff.Diff | components/console/json-viewer/JsonDiffViewer.tsx:25-80 | a nullish side gives one addition or removal (nothing when both are nullish), unequal primitives one change, arrays one change exactly when they serialise differently; objects are compared key by key |
| JsonDiff.KeyChanges | components/console/json-viewer/JsonDiffViewer.tsx:62-76 | a key only in the new object is an addition with its new value, a key only in the old one a removal with its old value |
| JsonDiff.Canon | components/console/json-viewer/JsonDiffViewer.tsx:51 | The value as serialised: arrays stay arrays of the same length, objects stay objects, every other value is itself. |
| JsonDiff.DiffSelf | components/console/json-viewer/JsonDiffViewer.tsx:25-80 | comparing a value with itself reports no change, at any depth |
| JsonDiff.DiffKeysSelf | components/console/json-viewer/JsonDiffViewer.tsx:62-77 | comparing an object's keys with themselves reports no change |
| JsonDiff.OneSidedKeysReported | components/console/json-viewer/JsonDiffViewer.tsx:67-72 | a key present on only one side is always reported at its path, as an addition exactly when the new object has it |
| JsonDiff.ComputeDiff | components/console/json-viewer/JsonDiffViewer.tsx:25-80 | the changes built by pushing onto the list are the changes of the diff |
| JsonDiff.DiffObject | components/console/json-viewer/JsonDiffViewer.tsx:57-79 | the loop over the keys of both objects yields the object branch's changes |
| JsonDiff.DiffKey | components/console/json-viewer/JsonDiffViewer.tsx:63-76 | one key yields the key's changes |
| JsonDiff.CountAdded | components/console/json-viewer/JsonDiffViewer.tsx:104 | the additions are at most all changes |
| JsonDiff.CountRemoved | components/console/json-viewer/JsonDiffViewer.tsx:105 | the removals are at most all changes |
| JsonDiff.CountChanged | components/console/json-viewer/JsonDiffViewer.tsx:106 | the changed entries are at most all changes |
| JsonDiff.SummaryOf | components/console/json-viewer/JsonDiffViewer.tsx:102-108 | the summary's three counts add up to the number of changes |
| JsonDiff.SummaryPartition | components/console/json-viewer/JsonDiffViewer.tsx:102-108 | every change is exactly one of added, removed or changed |
| JsonDiff.FormatValue | components/console/json-viewer/JsonDiffViewer.tsx:83-93 | a string over 100 UTF-16 code units shows its first 100 units followed by `...` (99 only when the hundredth unit opens a surrogate pair); a shorter one is quoted whole; an object or array shows its indented form cut the same way at 100 units (all of it when it fits), then `...` exactly when its compact form is longer than 100 units |
| FaqWidget.DropRemovable | projects/company-b/components/chatbot/ChatbotWidget.tsx:118 | no full-width punctuation mark or white space is left, text without any is unchanged, and the text never grows |
| FaqWidget.Normalize | projects/company-b/components/chatbot/ChatbotWidget.tsx:118 | the normalised text has no removable character and no upper-case ASCII letter |
| FaqWidget.NormalizeIdempotent | projects/company-b/components/chatbot/ChatbotWidget.tsx:118 | normalising twice is normalising once |
| FaqWidget.AnswerOf | projects/company-b/components/chatbot/ChatbotWidget.tsx:129-142 | the entry's answer, with its follow-up actions or an empty list when it has none |
| FaqWidget.FindFaqAnswer | projects/company-b/components/chatbot/ChatbotWidget.tsx:111-153 | nothing is found while the menu or its categories are not loaded |
| FaqWidget.FirstMatch | projects/company-b/components/chatbot/ChatbotWidget.tsx:122-145 | the first item whose question matches after normalising, every earlier item failing to match |
| FaqWidget.FindInQuestionsFirst | projects/company-b/components/chatbot/ChatbotWidget.tsx:123-144 | within a category the search answers with the first question that matches after normalising, or nothing |
| FaqWidget.FindIsFirstMatch | projects/company-b/components/chatbot/ChatbotWidget.tsx:122-152 | over the whole menu the search answers with the first matching item in category and question order; the exact comparison never decides anything the normalised one would not |
| FaqWidget.FirstMatchAppend | projects/company-b/components/chatbot/ChatbotWidget.tsx:122-145 | the first match of two lists in a row is the first list's, or else the second's shifted past the first |
| FaqWidget.TextContent | projects/company-b/components/chatbot/ChatbotWidget.tsx:261-264 | a message without text parts has empty content |
| FaqWidget.TextContentAppend | projects/company-b/components/chatbot/ChatbotWidget.tsx:261-264 | one more text part appends its text to the content, any other part nothing |
| FaqWidget.Suggestions | projects/company-b/components/chatbot/ChatbotWidget.tsx:274-292 | a message shows follow-ups exactly when it is a non-empty assistant message right after a non-empty user message whose text finds an FAQ entry with at least one action, and then those actions |
| FaqWidget.DisplayMessages | projects/company-b/components/chatbot/ChatbotWidget.tsx:258-301 | one displayed entry per message, in order, with its id, role, text content and follow-ups |
| FaqWidget.TextMessage | projects/company-b/components/chatbot/ChatbotWidget.tsx:170-181 | a message with the id, role and exactly the given text as content |
| FaqWidget.FaqReplyShowsActions | projects/company-b/components/chatbot/ChatbotWidget.tsx:157-182 | an FAQ answer appended after its question shows that entry's follow-up actions when it has any |
| FaqWidget.ChatbotWidget.constructor | projects/company-b/components/chatbot/ChatbotWidget.tsx:68 | no messages and no menu yet |
| FaqWidget.ChatbotWidget.SetFaqMenu | projects/company-b/components/chatbot/ChatbotWidget.tsx:351 | the menu is set and the messages stay |
| FaqWidget.ChatbotWidget.HandleFaqQuestionClick | projects/company-b/components/chatbot/ChatbotWidget.tsx:157-213 | the question and then the FAQ answer, or the fixed apology when nothing matches, are appended; the AI is never called |
| FaqWidget.ChatbotWidget.HandleSubmit | projects/company-b/components/chatbot/ChatbotWidget.tsx:216-253 | an FAQ hit appends the question and its answer and sends nothing; a miss sends the text to the AI and leaves the list alone |
| FaqWidget.ChatbotWidget.Display | projects/company-b/components/chatbot/ChatbotWidget.tsx:258-301 | one entry per current message with its id and its text content |
| CodeHealth.Take | scripts/code_health_check.py:70-71 | Python's `xs[:n]`: the first `n` items, or all when there are fewer |
| CodeHealth.StripKeepsInfix | scripts/code_health_check.py:61-64 | stripping a line cannot cut into a phrase that starts and ends with a non-space, so a kept line still names it |
| CodeHealth.LineCountIsNewlines | scripts/code_health_check.py:112-113 | splitting the content at newlines gives one line more than the content has newlines |
| CodeHealth.LineKinds | scripts/code_health_check.py:115-118 | a line is never both code and blank, and a line that is neither carries a comment marker |
| CodeHealth.LineCounts | scripts/code_health_check.py:115-118 | code and blank lines never exceed all lines, and code, blank and comment lines together cover them |
| CodeHealth.MaxDepthIsPrefixMaximum | scripts/code_health_check.py:126-134 | the recorded depth is the largest brace balance over all prefixes of the content |
| CodeHealth.CentiKb | scripts/code_health_check.py:150 | `round(bytes / 1024, 2)` in hundredths of a kilobyte, within half a hundredth of the exact size |
| CodeHealth.DeciKb | scripts/code_health_check.py:140 | the one-decimal size of the warning in tenths of a kilobyte, within half a tenth of the exact size |
| CodeHealth.LargeFileIffBytes | scripts/code_health_check.py:188 | a file counts as large exactly from 51206 bytes on |
| CodeHealth.AnalysisFacts | scripts/code_health_check.py:108-157 | no analysis exactly when the file cannot be read; otherwise the path is kept, the line total is the newline count plus one, the line kinds cover the lines, the depth bounds every prefix's balance, the score is at least twice the depth, and the size warning appears exactly above 102400 bytes |
| CodeHealth.AnalyzeFile | scripts/code_health_check.py:108-157 | the analysis built with the character loop for the nesting depth is the file's analysis |
| CodeHealth.FileIssues | scripts/code_health_check.py:177-183 | at most three issues, each prefixed by the file's path, and none exactly when the score is at most 50, the depth at most 5 and there is no size warning |
| CodeHealth.KeepFiles | scripts/code_health_check.py:172-173 | keeps exactly the files whose path names neither `node_modules` nor `.next` |
| CodeHealth.WalkIntendedComplete | scripts/code_health_check.py:166-183 | the intended walk analyses every file of every directory and extension that is not excluded, and no excluded file |
| CodeHealth.WalkAsWrittenDropsFiles | scripts/code_health_check.py:171-177 | as indented, a group of two files has only its second analysed, and an empty first group stops the script |
| CodeHealth.Analyses | scripts/code_health_check.py:174-176 | one analysis per readable file, never more than there are files |
| CodeHealth.LargeFiles | scripts/code_health_check.py:188 | exactly the analysed files whose rounded size exceeds 50 KB |
| CodeHealth.ComplexFiles | scripts/code_health_check.py:189 | exactly the analysed files whose complexity score exceeds 30 |
| CodeHealth.AnalyzeFiles | scripts/code_health_check.py:166-183 | the loop yields the analyses of the readable files and their issues, in order |
| CodeHealth.ComplexIssueIsComplexFile | scripts/code_health_check.py:177-189 | a file flagged for high complexity is always listed among the complex files, whose count is then positive |
| CodeHealth.StrippedWhere | scripts/code_health_check.py:60-64 | the kept stripped lines are never more than the lines |
| CodeHealth.ClassifyCompilerLines | scripts/code_health_check.py:58-64 | the line loop lists each stripped line naming `error TS` as an error, else one naming `warning TS` as a warning |
| CodeHealth.CollectUnusedNotices | scripts/code_health_check.py:274-277 | the line loop lists each stripped line carrying either unused-declaration phrase |
| CodeHealth.StrippedWhereContains | scripts/code_health_check.py:274-277 | a kept entry still names one of the phrases its line was kept for |
| CodeHealth.StrippedWhereAvoids | scripts/code_health_check.py:61-64 | an entry whose line does not name a phrase does not name it after stripping |
| CodeHealth.ErrorsAndWarningsDisjoint | scripts/code_health_check.py:60-64 | every output line is counted at most once, as an error or a warning |
| CodeHealth.TsReportCounts | scripts/code_health_check.py:48-73 | the check passes exactly on a zero exit code, then with nothing counted; errors and warnings never exceed the output lines, and each list holds the first 50 entries |
| CodeHealth.TsReportEntries | scripts/code_health_check.py:60-64 | every listed error names `error TS`; every listed warning names `warning TS` and not `error TS` |
| CodeHealth.UnusedReportFacts | scripts/code_health_check.py:265-281 | a zero exit code finds nothing; the count never exceeds the output lines, the list holds the first 30, and each entry carries an unused-declaration phrase |
| CodeHealth.LineOf | scripts/code_health_check.py:315 | a match's line number lies between 1 and the number of lines |
| CodeHealth.LineOfMonotone | scripts/code_health_check.py:315 | a later match never lies on an earlier line |
| CodeHealth.SecretIssues | scripts/code_health_check.py:308-316 | at most one issue per match, each naming the file and a line of it |
| CodeHealth.SecretIssuesExact | scripts/code_health_check.py:308-316 | a match is reported, with its type and line, exactly when it does not look like an example or a to-do note |
| CodeHealth.ScanFile | scripts/code_health_check.py:306-318 | the loop over one file's matches yields the file's issues |
| CodeHealth.CollectSecretIssues | scripts/code_health_check.py:297-320 | the loop over the scanned files yields all their issues; an unreadable file adds none |
| CodeHealth.SummaryFacts | scripts/code_health_check.py:351-388 | the run fails exactly on compiler errors or hard-coded secrets, which is exactly when there is a critical issue; the issue total is the sum of the five counts, with one critical line or warning per non-zero count |
| CodeHealth.Numbered | scripts/code_health_check.py:553-554 | `enumerate(items, first)`: each item numbered from `first`, in order |
| CodeHealth.SuggestionFacts | scripts/code_health_check.py:536-556 | the fixed all-good line appears exactly when there is nothing to suggest, which needs every count at zero and at least five test files; a failing run always has suggestions, numbered from 1 |
| CodeHealth.CodeHealthChecker.constructor | scripts/code_health_check.py:18-30 | every section of the results starts empty |
| CodeHealth.CodeHealthChecker.CheckTypescript | scripts/code_health_check.py:48-73 | returns whether the compiler passed and stores the compiler report, leaving the other sections |
| CodeHealth.CodeHealthChecker.AnalyzeCodeQuality | scripts/code_health_check.py:159-206 | replaces the whole code-quality section with the report over the analysed files it is given; which files the walk yields is stated by CodeHealth.WalkAsWritten and CodeHealth.WalkIntended |
| CodeHealth.CodeHealthChecker.CheckUnusedImports | scripts/code_health_check.py:265-281 | adds the unused-declaration report to the code-quality section |
| CodeHealth.CodeHealthChecker.CheckSecurity | scripts/code_health_check.py:283-326 | stores the count of all secret issues and the first 30 of them |
| CodeHealth.CodeHealthChecker.CheckTestCoverage | scripts/code_health_check.py:328-349 | adds the test files, their count and the runner's pass or fail to the code-quality section |
| CodeHealth.CodeHealthChecker.GenerateSummary | scripts/code_health_check.py:351-388 | stores the summary of the results as they stand |

## Left out

- **I/O and the outside world.** The model does not perform fetches, subprocess runs, Cloudflare and Next.js request plumbing, React rendering, the LLM calls (`loadKnowledgeContext`, `generateAIResponse`), logging (`console.*`, `logger.*`, `clientLogger.*`) or the print output of the report script. The clock (`Date.now`, ISO timestamps), `Math.random`, `crypto.randomUUID` and generated ids are parameters; where one call reads the clock more than once, each reading is a parameter of its own, except in the two members listed below.
- **Floating point.** The model leaves out averages and percentages with `toFixed`: the data-flow `averageDataSize`, the tracer's `avgNodeDuration`, the API's `successRate` and the report's `average_complexity`. Numbers are unbounded integers, and NaN and infinities are not modelled.
- **Case mapping is ASCII only.** Common.ToLower and Common.ToUpper map only the letters A-Z and a-z, while JavaScript's `toLowerCase` and `toUpperCase` apply the full Unicode case mapping. So the source retrieves "CAFÉ" for the trigger "café", matches full-width "ＷＩＦＩ" against "ｗｉｆｉ" and upper-cases "straße" to "STRASSE"; the model does none of these. Unicode case mapping can also change a string's length, which the model's never does. The members this affects are:
  - ChatApi.AnyTrigger, ChatApi.KeywordHitIffListed, ChatApi.MatchTriggers, ChatApi.MatchAliases, ChatApi.MatchTags and ChatApi.Stage1 to ChatApi.Stage3 (the retrieval in lib/api/chat-helpers.ts);
  - ChatHelpers.ClassifyIntent, ChatHelpers.FirstApplying, ChatHelpers.ExtractEntityByPatterns and ChatHelpers.ExtractEntities;
  - the Knowledge search scores (Knowledge.PolicyScore, Knowledge.DetailedKeywordPoints, Knowledge.ScoredQuestions and the loops that compute them);
  - ExampleNode.Transform and ExampleNode.UppercaseBeforePrefix;
  - FaqWidget.Normalize and the FAQ lookups built on it;
  - Env.GetBooleanEnv and Validation.ValidateSessionLike (their prefixes and keywords are ASCII, so only non-ASCII input that case-maps onto them differs).
- **String lengths count UTF-16 code units.** JavaScript's `length` and `substring` count code units, and a character outside the Basic Multilingual Plane takes two. The model counts the same way through Common.JsLength, Common.JsPrefix and Common.StartsWithCut. The one thing it cannot hold is a lone surrogate. When `substring(0, n)` would end in the middle of a pair, JavaScript keeps the first half, while Common.JsPrefix stops one unit earlier. Knowledge.DetailedScore compares the five-unit prefix code unit by code unit, so it needs no such cut. The two members with a cut are on the next lines.
- JsonDiff.FormatValue: a string or JSON text whose hundredth code unit opens a surrogate pair is shown with 99 units before the `...`, where the source shows 100.
- Validation.ValidateSessionLike: an invalid id quoted in its error message is cut the same way at 50 code units.
- **JSON sizes and copies.** `JSON.stringify(...).length` and structured clones are abstract measures handed to the model.
- `lib/error-handler.ts`: the model does not render the `WidgetError` React component.
- `lib/env.ts`: `process.env` is the map `env`.
- `lib/validation.ts`: the regular expressions for suspicious content and tag stripping are predicates given as parameters.
- **`lib/rate-limit.ts`.**
  - The store, a module-level plain object, is a class field, and each `Date.now()` reading is a parameter of its own.
  - RateLimit.RateLimiter.CheckRateLimit: for a key inherited from `Object.prototype` it returns `InheritedAllowed` in place of `remaining: NaN` and `resetTime: undefined`, and does not model the write of `count = NaN` onto the inherited member.
- **`lib/knowledge-cache.ts`.**
  - The cache's new state is computed on values and then assigned to the fields.
- `lib/utils/postmessage.ts`: the `window.parent.postMessage` call itself is not modelled; the model returns the target origin. The unused `fallbackOrigin` option is not modelled.
- **`lib/api/chat-helpers.ts`.**
  - The retrieval index is a value handed to the model.
- **`functions/api/lib/companyConfig.ts`.** The model leaves out `loadRegistry`, `loadCompanyConfig`, `getCompanyConfig` and `clearConfigCache`, because they are network fetches and caches.
- **`functions/api/lib/knowledge.ts`.**
  - Fetching the JSON files, and the URL checks around that, are replaced by the data handed to `Load`.
  - Lower-casing is ASCII only.
  - The following plain lookups are not modelled:
    - `getAllServices`, `getPersona`, `getContactInfo`, `isLoaded` and `getServiceSummary`;
    - `getEmotionTemplate` and `findEmotionTemplateByKeywords`;
    - `getFAQDetailed`, `getFAQByCategory` and `getFAQQuestionById`;
    - `getIntentConfig`, `getEntityPatterns` and `getStateTransitionsConfig`.
- `functions/api/lib/chatHelpers.ts`: `buildResponse` is not modelled. `handleFAQIfNeeded` returns the answer instead of logging and sending it.
- **`functions/api/nodes-v3/core/ValidateNode/index.ts`.** `metadata.json` is not part of this model. The node's configuration is a map of dynamic values.
- `functions/api/nodes-v3/core/ExampleNode/index.ts`: NaN is represented as `undefined`.
- **`functions/api/pipeline-v3/base/Node.ts`.** The type-mismatch warnings of `validateInput` only log, so they are not modelled. `getMetadata`, `getConfig`, `getId` and `getName` are plain field reads.
- **`functions/api/pipeline-v3/ExecutionContext.ts`.** The model leaves out `getDataSize` (an abstract measure), `getDuration` and `isTimedOut` (the clock), and `toJSON` (serialisation).
- **`functions/api/pipeline-v3/StateManager.ts`.** Listeners are identities, and `notifyListeners` does not call them.
- **`functions/api/pipeline-v3/NodeExecutor.ts`.**
  - Timeouts, `sleep`, `Promise.race` and `Promise.all` are outcomes (`Attempt`) handed to the model.
  - The `beforeExecute` and `afterExecute` hooks are not modelled.
  - Which rejection `Promise.all` reports first is not modelled.
- **`functions/api/pipeline-v3/DataFlowManager.ts`.** `validateDataType` only logs a warning, so it has no effect in the model.
- **`functions/api/pipeline-v3/visualization/ExecutionTracer.ts`.**
  - The model leaves out the listener calls of `emitEvent`, `exportSession` (JSON), `generateHTMLReport` (HTML) and the console output of `logLevel`.
  - A configuration spread with explicit `undefined` values is not modelled.
- **`functions/api/pipeline-v3/visualization/FlowDiagram.ts`.**
  - The model leaves out custom `nodeStyles` and `generateStyleDefinition`, `generateInteractiveHTML`, and the `theme` and `showMetadata` options.
  - Flowchart.FullChartLines states `generateMermaid` through its lines, not the joined string (so do Flowchart.ChartLinkLines and Flowchart.ChartClassLines).
- **`functions/api/pipeline-v3/WorkflowEngine.ts`.**
  - The timeout check at the start of `executeNode` needs the clock, so it is not modelled.
  - `getWorkflowDefinition`, `getNodeIds` and `getNode` are plain field reads.
  - A node class's constructor is taken not to throw.
- **`functions/api/pipeline-v3/api/WorkflowAPI.ts`.**
  - `healthCheck` is a constant response.
  - The `catch` branches for unexpected exceptions are not modelled.
- **`components/console/json-viewer/JsonDiffViewer.tsx`.** The model leaves out the React rendering and the expanded-path state.
- **`projects/company-b/components/chatbot/ChatbotWidget.tsx`.**
  - The model leaves out the chat SDK's streaming, sending to the AI (it returns the text to send), iframe messaging and the markdown clean-up of the rendering.
  - Lower-casing is ASCII only.
- **`scripts/code_health_check.py`.**
  - Subprocesses are replaced by their exit codes and output.
  - The model leaves out `check_eslint`'s output parsing, `check_dependencies`, `run_all_checks`, `main`, the report file and the report's other Markdown sections.
  - Regular-expression match counts and secret matches are inputs.
  - Sizes are in hundredths of a kilobyte.
- NodeExecution.Execute: a caught failure's `metadata.executionTime` and `totalExecutionTime` are two clock readings in the source (NodeExecutor.ts:162, :172); the model gives both the one `elapsed`, so they are equal here (so do NodeExecution.ExecuteBatch and NodeExecution.ExecuteChain).
- WorkflowService.WorkflowApi.ListWorkflows: the fallback `lastModified` of each workflow without metadata times and the response timestamp are separate readings in the source (WorkflowAPI.ts:87, :94); the model uses one `now` for all of them.
- KnowledgeCache.KnowledgeCache.Set: when eviction runs it does not state which old entries were kept. It only states that each kept entry is an unexpired old one and that the size bound holds.
- ChatApi.FromLastMessage: the error message omits the list of JSON keys that the source appends.
- ChatApi.ReadTypeError: the TypeError's text is V8's wording; other engines word it differently.
- Flowchart.GenerateWorkflowStats: its keys are in insertion order, ignoring JavaScript's rule that integer-like keys come first.
- WorkflowService.WorkflowApi.constructor: the engine field is left out. The source builds it with `new WorkflowEngine()` and no workflow, which would throw in the engine's constructor; the model lets construction complete.
- CodeHealth.CodeHealthChecker.CheckSecurity: the model takes the list of scanned files as given. The scan's file loop has the same mis-indentation as the analysis walk, so the script reads only each group's last file; that choice of files is not modelled.
- CodeHealth.CodeHealthChecker.AnalyzeCodeQuality: the model takes the analysed files as given. As written, the script analyses only the last file of each group and stops on an empty first group (CodeHealth.WalkAsWritten); the method does not choose between that walk and the intended one.
- PostMessage.SafePostTarget: matches the allowed origins with the corrected wildcard match of the first Findings row, not the unescaped regular expression the code builds, so `https://xpagesydev` against `https://*.pages.dev` is refused here and posted to by the code.
- ValidateRequest.NodeValidateRequest: stores the request with the corrected defaults of the second Findings row, so a body field that is explicitly `null` takes the default here and stays `null` in the code.
- NodeExecution.ExecuteBatch: splits the queue with the corrected chunk size of the third Findings row, so a negative `maxParallel` runs everything in one chunk here while the code's loop never ends.
- Engine.WorkflowEngine.ExecuteNode: a node's `execute` is the pure function `run` of the node id and the input, so writes a node makes to the shared context (`setData`) are not modelled; the ensures that the context data is unchanged speaks of the engine's own steps only (so do Engine.WorkflowEngine.TryNode and Engine.WorkflowEngine.CatchNode).
- Engine.WorkflowEngine.TryNode: node writes to the context are not modelled, as for ExecuteNode.
- Engine.WorkflowEngine.CatchNode: the error handler's writes to the context are not modelled, as for ExecuteNode.
- JsonDiff.KeyChanges: objects are maps of their own keys, so `key in prev` does not see keys inherited from `Object.prototype`; with prev `{}` and next `{"toString": 1}` the code reports a change and the model an addition.
- Knowledge.KnowledgeBase.GetResponseTemplate: templates are a map of their own keys, so an intent named like an `Object.prototype` member (`toString`, `constructor`) gets null here, while the code finds the inherited function, which is truthy and not a string, and returns it as the template.
- Flowchart.NodeIcon: the icon table holds only its own entries, so a type named like an `Object.prototype` member (`constructor`, `toString`) gets the pin here, while the code finds the inherited member and draws no pin.
- Flowchart.TallyCounts: counts start from zero for every type, whereas for a type named like an `Object.prototype` member the code starts from the inherited function and produces a string (so does Flowchart.GenerateWorkflowStats).
- Tracing.ExecutionTracer.EndSession: follows the code as written, so a session never ends completed; Tracing.EndStatus, the corrected status of the fourth Findings row, is not used by the tracer, whose sessions stay those the source produces.
- Flowchart.NewConfig: an explicit `direction: undefined` in the configuration overrides the default `TD` in the source; the model reads it as absent.
- StateManagement.Percent: rounds the exact ratio half up. The source computes `finished / totalNodes` and its product with 100 in double precision before `Math.round`, and the product can land just below a half: for 23 finished nodes of 40 the source reports 57 and the model 58 (29 of 200: 14 against 15; 46 of 80: 57 against 58). StateManagement.NodeStatistics and StateManagement.StateManager.GetWorkflowStatistics report this exactly rounded progress.
- ValidateNode.StringNumber: reads only blank strings and optionally signed decimal integers; decimals, exponents, hexadecimal and `Infinity` are read as NaN, so such a configured limit never rejects here (ValidateNode.ExceedsLimit).
- ErrorHandler.JsString: a function shows as `function` rather than its source text, and an `Error` nested in another value shows as `[object Object]` rather than `Error: message`.
- WorkflowService.SortByStart: the order of sessions with equal start times is not stated.

## Findings

| source | as written | input that shows it | evidently intended | confidence | as-written member | corrected member |
|---|---|---|---|---|---|---|
| lib/utils/postmessage.ts:16-19 | the wildcard pattern is turned into a regular expression without escaping its dots, so `.` matches any character | origin `https://xpagesydev` against the allowed pattern `https://*.pages.dev` | `*` stands for any text and every other character matches only itself | high, not executed | PostMessage.UnescapedDotAcceptsLookalike, PostMessage.LookalikeRegex | PostMessage.LookalikeGlob, PostMessage.GlobStarMeansSuffix |
| functions/api/nodes/01-validate-request.ts:216-221 | `...body` is spread after the `??` defaults, so an explicit `null` in the body overrides the default | body `{"message": "hi", "mode": null}` gives `mode: null` | `mode`, `source` and `pageType` are never null after defaulting | medium, not executed | ValidateRequest.WithDefaultsAsWritten, ValidateRequest.NullModeSurvivesAsWritten | ValidateRequest.WithDefaults, ValidateRequest.DefaultsNeverNull |
| functions/api/pipeline-v3/NodeExecutor.ts:277-292 | a negative `maxParallel` passes the guard, and `splice(0, maxParallel)` then removes nothing, so the batch loop never ends | `maxParallel = -1` with one execution | a non-positive limit means no limit, so every batch takes at least one execution | high, not executed | NodeExecution.SpliceAsWritten, NodeExecution.NegativeLimitStalls | NodeExecution.ChunkSize |
| functions/api/pipeline-v3/visualization/ExecutionTracer.ts:129 | the session is marked completed only when the summary's status is the string `completed`, which no summary status (`success`, `error`, `partial`) ever is | any session ended with a summary of status `success` is marked failed and records a `workflow_error` event | a successful summary completes the session | high, not executed | Tracing.EndSessionNeverCompletes | Tracing.EndStatus |
| scripts/code_health_check.py:171-177 | the analysis is indented one level outside the `rglob` loop, so each group analyses only its last file, skips the exclusion test, and an empty first group leaves `file_path` unbound | one directory group with files `a.ts` and `b.ts`: only `b.ts` is analysed | every file of every group except the excluded ones is analysed | high, not executed | CodeHealth.WalkAsWrittenDropsFiles | CodeHealth.WalkIntendedComplete |
