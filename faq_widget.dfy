/**
 * The FAQ-first chat widget of company B
 * (projects/company-b/components/chatbot/ChatbotWidget.tsx): questions are
 * answered from the loaded FAQ menu when one matches, otherwise sent to the
 * AI; the displayed messages carry the text of their parts and, under an
 * FAQ answer, that entry's suggested follow-up questions. Message ids use
 * random UUIDs, which are parameters here; the chat SDK's own handling of
 * a sent message is not part of this model.
 */
module FaqWidget {
  import opened Common

  datatype FaqItem = FaqItem(id: string, question: string, answer: string, nextBestActions: Option<seq<string>>)

  datatype FaqCategory = FaqCategory(title: string, questions: seq<FaqItem>)

  /** The menu; `categories` lists `Object.values(categories)` in order. */
  datatype FaqMenu = FaqMenu(categories: Option<seq<FaqCategory>>)

  datatype FaqAnswer = FaqAnswer(answer: string, nextBestActions: seq<string>)

  datatype Role = User | Assistant | SystemRole

  datatype Part = TextPart(text: string) | OtherPart(kind: string)

  datatype Message = Message(id: string, role: Role, parts: seq<Part>)

  datatype DisplayMessage = DisplayMessage(id: string, role: Role, content: string, suggestedQuestions: Option<seq<string>>)

  const Apology := "抱歉，这个问题暂时无法回答。请尝试其他问题，或直接在输入框中输入您的问题。"

  // ---------------------------------------------------------------------
  // Matching questions

  /** A character `normalize` deletes: full-width ，。！？ and white space. */
  predicate Removable(c: char)
  {
    c == '，' || c == '。' || c == '！' || c == '？' || IsJsSpace(c)
  }

  /** `text.replace(/[，。！？\s]/g, '')`. */
  function DropRemovable(s: string): (r: string)
    ensures forall i :: 0 <= i < |r| ==> !Removable(r[i])
    ensures (forall i :: 0 <= i < |s| ==> !Removable(s[i])) ==> r == s
    ensures |r| <= |s|
  {
    if s == [] then ""
    else
      var init := s[..|s| - 1];
      var rest := DropRemovable(init);
      var c := s[|s| - 1];
      assert forall i :: 0 <= i < |init| ==> init[i] == s[i];
      assert s == init + [c];
      if Removable(c) then rest else rest + [c]
  }

  /** `normalize(text)`: punctuation and spaces deleted, then lower-cased (ASCII letters). */
  function Normalize(s: string): (r: string)
    ensures forall i :: 0 <= i < |r| ==> !Removable(r[i]) && !IsUpper(r[i])
  {
    ToLower(DropRemovable(s))
  }

  /** Normalising twice is normalising once. */
  lemma NormalizeIdempotent(s: string)
    ensures Normalize(Normalize(s)) == Normalize(s)
  {
    var n := Normalize(s);
    assert DropRemovable(n) == n;
    assert ToLower(n) == n;
  }

  /** What `findFAQAnswer` returns for an item: its answer and actions, `[]` when it has none. */
  function AnswerOf(item: FaqItem): (a: FaqAnswer)
    ensures a.answer == item.answer
    ensures a.nextBestActions == (if item.nextBestActions.Some? then item.nextBestActions.value else [])
  {
    FaqAnswer(item.answer, if item.nextBestActions.Some? then item.nextBestActions.value else [])
  }

  /** The inner loop: the first question of a category matching exactly or after normalising. */
  function FindInQuestions(items: seq<FaqItem>, q: string): (r: Option<FaqAnswer>)
  {
    if items == [] then None
    else if items[0].question == q || Normalize(items[0].question) == Normalize(q) then Some(AnswerOf(items[0]))
    else FindInQuestions(items[1..], q)
  }

  /** The outer loop over the categories. */
  function FindInCategories(cats: seq<FaqCategory>, q: string): (r: Option<FaqAnswer>)
  {
    if cats == [] then None
    else
      var hit := FindInQuestions(cats[0].questions, q);
      if hit.Some? then hit else FindInCategories(cats[1..], q)
  }

  /** `findFAQAnswer(question)`: nothing while the menu or its categories are not loaded. */
  function FindFaqAnswer(menu: Option<FaqMenu>, q: string): (r: Option<FaqAnswer>)
    ensures (menu.None? || menu.value.categories.None?) ==> r.None?
  {
    if menu.None? || menu.value.categories.None? then None
    else FindInCategories(menu.value.categories.value, q)
  }

  /** Every question of the menu, in category and question order. */
  function AllItems(cats: seq<FaqCategory>): (r: seq<FaqItem>)
  {
    if cats == [] then [] else cats[0].questions + AllItems(cats[1..])
  }

  /** The two questions are the same after normalising. */
  predicate Matches(item: FaqItem, q: string)
  {
    Normalize(item.question) == Normalize(q)
  }

  /** The position of the first item matching `q`, or `|items|` when none does. */
  function FirstMatch(items: seq<FaqItem>, q: string): (i: nat)
    ensures i <= |items|
    ensures i < |items| ==> Matches(items[i], q)
    ensures forall j :: 0 <= j < i ==> !Matches(items[j], q)
  {
    if items == [] then 0
    else if Matches(items[0], q) then 0
    else 1 + FirstMatch(items[1..], q)
  }

  /** Within one category, the search finds the first question matching after normalising. */
  lemma {:induction false} FindInQuestionsFirst(items: seq<FaqItem>, q: string)
    ensures var i := FirstMatch(items, q);
            FindInQuestions(items, q) == if i < |items| then Some(AnswerOf(items[i])) else None
  {
    if items != [] && !Matches(items[0], q) {
      FindInQuestionsFirst(items[1..], q);
    }
  }

  /**
   * The nested search answers with the first item of the whole menu that
   * matches after normalising; the exact comparison never decides anything
   * the normalised one would not.
   */
  lemma {:induction false} FindIsFirstMatch(cats: seq<FaqCategory>, q: string)
    ensures var all := AllItems(cats);
            var i := FirstMatch(all, q);
            FindInCategories(cats, q) == if i < |all| then Some(AnswerOf(all[i])) else None
  {
    if cats != [] {
      var qs := cats[0].questions;
      var rest := AllItems(cats[1..]);
      FindInQuestionsFirst(qs, q);
      FindIsFirstMatch(cats[1..], q);
      FirstMatchAppend(qs, rest, q);
    }
  }

  lemma {:induction false} FirstMatchAppend(a: seq<FaqItem>, b: seq<FaqItem>, q: string)
    ensures FirstMatch(a, q) < |a| ==> FirstMatch(a + b, q) == FirstMatch(a, q)
    ensures FirstMatch(a, q) == |a| ==> FirstMatch(a + b, q) == |a| + FirstMatch(b, q)
  {
    if a != [] {
      assert (a + b)[1..] == a[1..] + b;
      if !Matches(a[0], q) {
        FirstMatchAppend(a[1..], b, q);
      }
    } else {
      assert a + b == b;
    }
  }

  // ---------------------------------------------------------------------
  // Displayed messages

  /** The concatenated text of the text parts. */
  function TextContent(parts: seq<Part>): (r: string)
    ensures (forall i :: 0 <= i < |parts| ==> parts[i].OtherPart?) ==> r == ""
  {
    if parts == [] then ""
    else TextContent(parts[..|parts| - 1]) + (if parts[|parts| - 1].TextPart? then parts[|parts| - 1].text else "")
  }

  /** Text appended part by part: a text part adds its text, any other part nothing. */
  lemma TextContentAppend(parts: seq<Part>, p: Part)
    ensures TextContent(parts + [p]) == TextContent(parts) + (if p.TextPart? then p.text else "")
  {
    assert (parts + [p])[..|parts|] == parts;
  }

  /** The follow-up questions shown under message `i`. */
  function Suggestions(messages: seq<Message>, i: nat, menu: Option<FaqMenu>): (r: Option<seq<string>>)
    requires i < |messages|
    ensures r.Some? <==>
              messages[i].role == Assistant && TextContent(messages[i].parts) != ""
              && i > 0 && messages[i - 1].role == User && TextContent(messages[i - 1].parts) != ""
              && FindFaqAnswer(menu, TextContent(messages[i - 1].parts)).Some?
              && |FindFaqAnswer(menu, TextContent(messages[i - 1].parts)).value.nextBestActions| > 0
    ensures r.Some? ==> r.value == FindFaqAnswer(menu, TextContent(messages[i - 1].parts)).value.nextBestActions
  {
    if messages[i].role == Assistant && TextContent(messages[i].parts) != "" && i > 0 && messages[i - 1].role == User then
      var userText := TextContent(messages[i - 1].parts);
      if userText == "" then None
      else
        var hit := FindFaqAnswer(menu, userText);
        if hit.Some? && |hit.value.nextBestActions| > 0 then Some(hit.value.nextBestActions) else None
    else None
  }

  /** `displayMessages`: one entry per message, in order. */
  function DisplayMessages(messages: seq<Message>, menu: Option<FaqMenu>): (r: seq<DisplayMessage>)
    ensures |r| == |messages|
    ensures forall i :: 0 <= i < |messages| ==>
              r[i] == DisplayMessage(messages[i].id, messages[i].role, TextContent(messages[i].parts), Suggestions(messages, i, menu))
  {
    seq(|messages|, i requires 0 <= i < |messages| =>
      DisplayMessage(messages[i].id, messages[i].role, TextContent(messages[i].parts), Suggestions(messages, i, menu)))
  }

  /** A message with a single text part. */
  function TextMessage(id: string, role: Role, text: string): (m: Message)
    ensures m.id == id && m.role == role && TextContent(m.parts) == text
  {
    TextContentAppend([], TextPart(text));
    Message(id, role, [TextPart(text)])
  }

  /** An FAQ answer appended after its question shows the entry's follow-ups, when it has any. */
  lemma FaqReplyShowsActions(messages: seq<Message>, menu: Option<FaqMenu>, q: string, userId: string, assistantId: string)
    requires q != "" && FindFaqAnswer(menu, q).Some?
    requires FindFaqAnswer(menu, q).value.answer != ""
    ensures var a := FindFaqAnswer(menu, q).value;
            var ms := messages + [TextMessage(userId, User, q), TextMessage(assistantId, Assistant, a.answer)];
            Suggestions(ms, |ms| - 1, menu) == (if |a.nextBestActions| > 0 then Some(a.nextBestActions) else None)
  {
  }

  // ---------------------------------------------------------------------
  // The widget's message list

  class ChatbotWidget {
    var messages: seq<Message>
    var faqMenu: Option<FaqMenu>

    constructor ()
      ensures messages == [] && faqMenu == None
    {
      messages := [];
      faqMenu := None;
    }

    /** `setFaqMenu(faqData)` once the menu has been fetched. */
    method SetFaqMenu(menu: FaqMenu)
      modifies this
      ensures faqMenu == Some(menu) && messages == old(messages)
    {
      faqMenu := Some(menu);
    }

    /**
     * `handleFAQQuestionClick(question)`: the question and the FAQ answer,
     * or the fixed apology when no entry matches, are appended; the AI is
     * never called.
     */
    method HandleFaqQuestionClick(question: string, userUuid: string, assistantUuid: string)
      modifies this
      ensures faqMenu == old(faqMenu)
      ensures var hit := FindFaqAnswer(old(faqMenu), question);
              messages == old(messages) + [TextMessage("user-" + userUuid, User, question),
                                           TextMessage("assistant-" + assistantUuid, Assistant,
                                                       if hit.Some? then hit.value.answer else Apology)]
    {
      var hit := FindFaqAnswer(faqMenu, question);
      var reply := if hit.Some? then hit.value.answer else Apology;
      messages := messages + [TextMessage("user-" + userUuid, User, question),
                              TextMessage("assistant-" + assistantUuid, Assistant, reply)];
    }

    /**
     * `handleSubmit(messageText)`: an FAQ hit appends the question and its
     * answer; a miss returns the text to send to the AI and leaves the list
     * to the chat SDK.
     */
    method HandleSubmit(text: string, userUuid: string, assistantUuid: string) returns (toAi: Option<string>)
      modifies this
      ensures faqMenu == old(faqMenu)
      ensures var hit := FindFaqAnswer(old(faqMenu), text);
              (hit.Some? ==> toAi.None? && messages == old(messages) + [TextMessage("user-" + userUuid, User, text),
                                                                      TextMessage("assistant-" + assistantUuid, Assistant, hit.value.answer)])
              && (hit.None? ==> toAi == Some(text) && messages == old(messages))
    {
      var hit := FindFaqAnswer(faqMenu, text);
      if hit.Some? {
        messages := messages + [TextMessage("user-" + userUuid, User, text),
                                TextMessage("assistant-" + assistantUuid, Assistant, hit.value.answer)];
        toAi := None;
      } else {
        toAi := Some(text);
      }
    }

    /** `displayMessages` of the current list. */
    function Display(): (r: seq<DisplayMessage>)
      reads this
      ensures |r| == |messages|
      ensures forall i :: 0 <= i < |r| ==> r[i].id == messages[i].id && r[i].content == TextContent(messages[i].parts)
    {
      DisplayMessages(messages, faqMenu)
    }
  }
}
