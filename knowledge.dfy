/**
 * The knowledge base of the Pages Functions API
 * (functions/api/lib/knowledge.ts): the loaded guard, lookups, the two FAQ
 * searches with their scores and rankings, word extraction, the FAQ menu and
 * the response templates. Fetching the JSON files is replaced by the data
 * handed to `Load`.
 */
module Knowledge {
  import opened Common

  datatype Service = Service(id: string, details: map<string, Value>)

  datatype Policy = Policy(id: string, category: string, critical: bool, question: string, answer: string, keywords: seq<string>)

  datatype ResponseTemplate = ResponseTemplate(mainAnswer: string, supplementaryInfo: string, nextBestActions: seq<string>)

  /** A stored template: a bare string (the older format) or the structured form. */
  datatype StoredTemplate = Plain(text: string) | Structured(template: ResponseTemplate)

  /** A detailed FAQ question; an empty `id` stands for a missing one. */
  datatype FaqQuestion = FaqQuestion(id: string, question: string, answer: string, keywords: seq<string>)

  /** A category; an empty `title` stands for a missing one, and missing questions for none. */
  datatype FaqCategory = FaqCategory(title: string, questions: seq<FaqQuestion>)

  /** The categories in their enumeration order; `None` is a null entry. */
  datatype FaqDetailed = FaqDetailed(categories: seq<(string, Option<FaqCategory>)>)

  /** What a successful `load` assigns. */
  datatype KnowledgeData = KnowledgeData(
    services: seq<Service>, policies: seq<Policy>,
    templates: map<string, StoredTemplate>, faqDetailed: Option<FaqDetailed>)

  const NotLoaded := "Knowledge base not loaded. Call load() first."

  // ---------------------------------------------------------------------
  // Ranking: Array.prototype.sort is stable, so equal keys keep input order

  /** A search hit with its score and its tie-break key (smaller first). */
  datatype Ranked<T> = Ranked(item: T, score: int, tie: int)

  /** `a` sorts strictly before `b`: a higher score, or the same score and a smaller tie key. */
  predicate Precedes<T>(a: Ranked<T>, b: Ranked<T>)
  {
    a.score > b.score || (a.score == b.score && a.tie < b.tie)
  }

  predicate Ranked_Sorted<T>(s: seq<Ranked<T>>)
  {
    forall i, j :: 0 <= i < j < |s| ==> !Precedes(s[j], s[i])
  }

  /** Inserts `x` before the first element that does not sort strictly before it. */
  function Insert<T>(x: Ranked<T>, ys: seq<Ranked<T>>): (r: seq<Ranked<T>>)
    ensures multiset(r) == multiset(ys) + multiset{x}
    ensures |r| == |ys| + 1
  {
    if ys == [] then [x]
    else if Precedes(ys[0], x) then
      assert ys == [ys[0]] + ys[1..];
      [ys[0]] + Insert(x, ys[1..])
    else [x] + ys
  }

  /** The stable sort by `Precedes`. */
  function SortRanked<T>(xs: seq<Ranked<T>>): (r: seq<Ranked<T>>)
    ensures multiset(r) == multiset(xs)
    ensures |r| == |xs|
  {
    if xs == [] then []
    else
      assert xs == [xs[0]] + xs[1..];
      Insert(xs[0], SortRanked(xs[1..]))
  }

  lemma {:induction false} InsertSorted<T>(x: Ranked<T>, ys: seq<Ranked<T>>)
    requires Ranked_Sorted(ys)
    ensures Ranked_Sorted(Insert(x, ys))
  {
    if ys != [] && Precedes(ys[0], x) {
      InsertSorted(x, ys[1..]);
      var r := Insert(x, ys);
      var t := Insert(x, ys[1..]);
      assert r == [ys[0]] + t;
      forall j | 0 < j < |r| ensures !Precedes(r[j], r[0]) {
        assert r[j] == t[j - 1];
        assert r[j] in multiset(t);
        assert r[j] == x || r[j] in multiset(ys[1..]);
        if r[j] != x {
          var k :| 0 <= k < |ys[1..]| && ys[1..][k] == r[j];
          assert ys[k + 1] == r[j];
        }
      }
    } else if ys != [] {
      var r := [x] + ys;
      forall j | 0 < j < |r| ensures !Precedes(r[j], r[0]) {
        assert r[j] == ys[j - 1];
        assert !Precedes(ys[j - 1], ys[0]) || j - 1 == 0;
      }
    }
  }

  /** The sort orders by score, highest first, then by tie key, smallest first. */
  lemma {:induction false} SortSorted<T>(xs: seq<Ranked<T>>)
    ensures Ranked_Sorted(SortRanked(xs))
  {
    if xs != [] {
      SortSorted(xs[1..]);
      InsertSorted(xs[0], SortRanked(xs[1..]));
    }
  }

  /** The elements with a given key, in order. */
  function WithKey<T>(s: seq<Ranked<T>>, score: int, tie: int): seq<Ranked<T>>
  {
    if s == [] then []
    else (if s[0].score == score && s[0].tie == tie then [s[0]] else []) + WithKey(s[1..], score, tie)
  }

  lemma {:induction false} InsertWithKey<T>(x: Ranked<T>, ys: seq<Ranked<T>>, score: int, tie: int)
    ensures WithKey(Insert(x, ys), score, tie)
         == (if x.score == score && x.tie == tie then [x] else []) + WithKey(ys, score, tie)
    decreases |ys|, 1
  {
    if ys == [] {
      WithKeyCons(x, [], score, tie);
    } else if Precedes(ys[0], x) {
      InsertBehindWithKey(x, ys, score, tie);
    } else {
      assert Insert(x, ys) == [x] + ys;
      WithKeyCons(x, ys, score, tie);
    }
  }

  lemma {:induction false} InsertBehindWithKey<T>(x: Ranked<T>, ys: seq<Ranked<T>>, score: int, tie: int)
    requires ys != [] && Precedes(ys[0], x)
    ensures WithKey(Insert(x, ys), score, tie)
         == (if x.score == score && x.tie == tie then [x] else []) + WithKey(ys, score, tie)
    decreases |ys|, 0
  {
    var rest := Insert(x, ys[1..]);
    var tail := WithKey(ys[1..], score, tie);
    var kx := if x.score == score && x.tie == tie then [x] else [];
    var ky := if ys[0].score == score && ys[0].tie == tie then [ys[0]] else [];
    calc {
      WithKey(Insert(x, ys), score, tie);
      { assert Insert(x, ys) == [ys[0]] + rest; }
      WithKey([ys[0]] + rest, score, tie);
      { WithKeyCons(ys[0], rest, score, tie); }
      ky + WithKey(rest, score, tie);
      { InsertWithKey(x, ys[1..], score, tie); }
      ky + (kx + tail);
      // ys[0] sorts strictly before x, so they cannot share a key
      { SwapWhenOneEmpty(kx, ky, tail); }
      kx + (ky + tail);
      { assert ys == [ys[0]] + ys[1..]; WithKeyCons(ys[0], ys[1..], score, tie); }
      kx + WithKey(ys, score, tie);
    }
  }

  lemma SwapWhenOneEmpty<T>(a: seq<T>, b: seq<T>, c: seq<T>)
    requires a == [] || b == []
    ensures b + (a + c) == a + (b + c)
  {
  }

  lemma WithKeyCons<T>(y: Ranked<T>, rest: seq<Ranked<T>>, score: int, tie: int)
    ensures WithKey([y] + rest, score, tie) == (if y.score == score && y.tie == tie then [y] else []) + WithKey(rest, score, tie)
  {
    assert ([y] + rest)[1..] == rest;
  }

  /** Stability: the elements sharing a key come out in the order they went in. */
  lemma {:induction false} SortStable<T>(xs: seq<Ranked<T>>, score: int, tie: int)
    ensures WithKey(SortRanked(xs), score, tie) == WithKey(xs, score, tie)
  {
    if xs != [] {
      SortStable(xs[1..], score, tie);
      InsertWithKey(xs[0], SortRanked(xs[1..]), score, tie);
    }
  }

  function Items<T>(s: seq<Ranked<T>>): (r: seq<T>)
    ensures |r| == |s|
    ensures forall i :: 0 <= i < |s| ==> r[i] == s[i].item
  {
    if s == [] then [] else [s[0].item] + Items(s[1..])
  }

  /** `results.sort(cmp).slice(0, n).map(r => r.item)`. */
  function Top<T>(results: seq<Ranked<T>>, n: nat): (r: seq<T>)
    ensures |r| == Min(n, |results|)
  {
    var sorted := SortRanked(results);
    Items(sorted[..Min(n, |sorted|)])
  }

  /** The top `n` are the first `n` of the stable sort: in rank order, all hits, and no more than `n`. */
  lemma TopIsRanked<T>(results: seq<Ranked<T>>, n: nat)
    ensures var sorted := SortRanked(results);
      Ranked_Sorted(sorted) && multiset(sorted) == multiset(results)
      && Top(results, n) == Items(sorted[..Min(n, |sorted|)])
  {
    SortSorted(results);
  }

  // ---------------------------------------------------------------------
  // searchFAQ scoring

  /** One point per keyword, lower-cased, found in the query. */
  function KeywordPoints(keywords: seq<string>, lowerQuery: string): (n: nat)
    ensures n <= |keywords|
  {
    if keywords == [] then 0
    else
      KeywordPoints(keywords[..|keywords| - 1], lowerQuery)
      + (if Contains(lowerQuery, ToLower(keywords[|keywords| - 1])) then 1 else 0)
  }

  /** The score of a policy: keyword points, +2 for the query in the question, +1 for it in the answer. */
  function PolicyScore(p: Policy, lowerQuery: string): (n: nat)
    ensures n <= |p.keywords| + 3
  {
    KeywordPoints(p.keywords, lowerQuery)
    + (if Contains(ToLower(p.question), lowerQuery) then 2 else 0)
    + (if Contains(ToLower(p.answer), lowerQuery) then 1 else 0)
  }

  /** The policies of a prefix with a positive score, in order; all ties share key 0. */
  function ScoredPolicies(policies: seq<Policy>, lowerQuery: string): (r: seq<Ranked<Policy>>)
    ensures |r| <= |policies|
    ensures forall i :: 0 <= i < |r| ==>
      (r[i].score > 0 && r[i].tie == 0 && r[i].item in policies && r[i].score == PolicyScore(r[i].item, lowerQuery))
  {
    if policies == [] then []
    else
      var rest := ScoredPolicies(policies[..|policies| - 1], lowerQuery);
      var p := policies[|policies| - 1];
      var s := PolicyScore(p, lowerQuery);
      assert forall q :: q in policies[..|policies| - 1] ==> q in policies;
      if s > 0 then rest + [Ranked(p, s, 0)] else rest
  }

  // ---------------------------------------------------------------------
  // searchFAQDetailed scoring

  /** Keyword part of the detailed score: +3 for a keyword in the query, +2 for a query of 2+ characters in the keyword. */
  function DetailedKeywordPoints(keywords: seq<string>, lowerQuery: string): (n: nat)
    ensures n <= 5 * |keywords|
  {
    if keywords == [] then 0
    else
      var k := ToLower(keywords[|keywords| - 1]);
      DetailedKeywordPoints(keywords[..|keywords| - 1], lowerQuery)
      + (if Contains(lowerQuery, k) then 3 else 0)
      + (if Contains(k, lowerQuery) && JsLength(lowerQuery) >= 2 then 2 else 0)
  }

  /**
   * A query of one character outside the BMP is two code units long, so a
   * keyword equal to it earns both the forward and the reverse points.
   */
  lemma AstralQueryIsLongEnough()
    ensures DetailedKeywordPoints(["\U{1F600}"], "\U{1F600}") == 5
  {
    var q := "\U{1F600}";
    assert ToLower(q) == q;
    assert IsPrefix(q, q[0..]);
    assert Contains(q, q);
    JsLengthOfPlane(q);
    assert DetailedKeywordPoints([q][..0], q) == 0;
  }

  /** Word part of the detailed score: +2 for a word in the question, +1 in the answer; words shorter than two UTF-16 code units are skipped. */
  function WordPoints(words: seq<string>, lowerQuestion: string, lowerAnswer: string): (n: nat)
    ensures n <= 3 * |words|
  {
    if words == [] then 0
    else
      var w := words[|words| - 1];
      WordPoints(words[..|words| - 1], lowerQuestion, lowerAnswer)
      + (if JsLength(w) < 2 then 0
         else (if Contains(lowerQuestion, w) then 2 else 0) + (if Contains(lowerAnswer, w) then 1 else 0))
  }

  /** The words of two or more UTF-16 code units found in the question. */
  function WordMatches(words: seq<string>, lowerQuestion: string): (n: nat)
    ensures n <= |words|
  {
    if words == [] then 0
    else
      var w := words[|words| - 1];
      WordMatches(words[..|words| - 1], lowerQuestion) + (if JsLength(w) >= 2 && Contains(lowerQuestion, w) then 1 else 0)
  }

  /** `Math.round(2 * m / n)` for 0 <= m <= n, n > 0. */
  function RoundRatio(m: nat, n: nat): (r: nat)
    requires 0 < n && m <= n
    ensures r <= 2
    ensures 2 * n * r <= 4 * m + n < 2 * n * (r + 1)
  {
    var a, d := 4 * m + n, 2 * n;
    var q := a / d;
    assert d * q <= a < d * (q + 1);
    TimesAtLeastThree(d, q);
    q
  }

  lemma TimesAtLeastThree(d: nat, q: nat)
    ensures q >= 3 ==> d * q >= 3 * d
  {
    if q >= 3 {
      assert d * q == d * 3 + d * (q - 3);
    }
  }

  /** The detailed score of one question against the lower-cased, trimmed query and its words. */
  function DetailedScore(q: FaqQuestion, lowerQuery: string, words: seq<string>): (n: nat)
    requires lowerQuery != ""
  {
    var lq := ToLower(q.question);
    var la := ToLower(q.answer);
    (if lq == lowerQuery then 10 else if Contains(lq, lowerQuery) then 5 else 0)
    + DetailedKeywordPoints(q.keywords, lowerQuery)
    + WordPoints(words, lq, la)
    + (if StartsWithCut(lq, lowerQuery, 5) then 2 else 0)
    + (if Contains(la, lowerQuery) then 1 else 0)
    + (if words != [] then RoundRatio(WordMatches(words, lq), |words|) else 0)
  }

  /** The questions of a prefix of one category with a positive score; ties are broken by the question's UTF-16 `length`. */
  function ScoredQuestions(qs: seq<FaqQuestion>, lowerQuery: string, words: seq<string>): (r: seq<Ranked<FaqQuestion>>)
    requires lowerQuery != ""
    ensures |r| <= |qs|
    ensures forall i :: 0 <= i < |r| ==>
      (r[i].score > 0 && r[i].tie == JsLength(r[i].item.question) && r[i].score == DetailedScore(r[i].item, lowerQuery, words))
  {
    if qs == [] then []
    else
      var rest := ScoredQuestions(qs[..|qs| - 1], lowerQuery, words);
      var q := qs[|qs| - 1];
      var s := DetailedScore(q, lowerQuery, words);
      if s > 0 then rest + [Ranked(q, s, JsLength(q.question))] else rest
  }

  /** The scored questions of a prefix of the categories, category by category. */
  function ScoredCategories(cats: seq<(string, Option<FaqCategory>)>, lowerQuery: string, words: seq<string>)
    : (r: seq<Ranked<FaqQuestion>>)
    requires lowerQuery != ""
    ensures forall i :: 0 <= i < |r| ==> r[i].score > 0 && r[i].tie == JsLength(r[i].item.question)
  {
    if cats == [] then []
    else
      var rest := ScoredCategories(cats[..|cats| - 1], lowerQuery, words);
      var c := cats[|cats| - 1].1;
      if c.None? then rest else rest + ScoredQuestions(c.value.questions, lowerQuery, words)
  }

  // ---------------------------------------------------------------------
  // extractWords

  /** `[一-龥]`. */
  predicate IsCjk(c: char) { '一' <= c <= '龥' }

  /** Length of the longest prefix of `s` whose characters satisfy `p`. */
  function RunLength(s: string, p: char -> bool): (k: nat)
    ensures k <= |s|
    ensures forall i :: 0 <= i < k ==> p(s[i])
    ensures k < |s| ==> !p(s[k])
  {
    if s == [] || !p(s[0]) then 0 else 1 + RunLength(s[1..], p)
  }

  /** `s.match(/[class]+/g) || []`: the maximal runs of characters satisfying `p`, left to right. */
  function Runs(s: string, p: char -> bool): (r: seq<string>)
    ensures forall i :: 0 <= i < |r| ==> r[i] != [] && forall j :: 0 <= j < |r[i]| ==> p(r[i][j])
    decreases |s|
  {
    if s == [] then []
    else if !p(s[0]) then Runs(s[1..], p)
    else
      var k := RunLength(s, p);
      var rest := Runs(s[k..], p);
      [s[..k]] + rest
  }

  /** Counts the characters of `s` satisfying `p`. */
  function CountWhere(s: string, p: char -> bool): nat
  {
    if s == [] then 0 else (if p(s[0]) then 1 else 0) + CountWhere(s[1..], p)
  }

  function TotalLength(r: seq<string>): nat
  {
    if r == [] then 0 else |r[0]| + TotalLength(r[1..])
  }

  lemma {:induction false} CountAppend(a: string, b: string, p: char -> bool)
    ensures CountWhere(a + b, p) == CountWhere(a, p) + CountWhere(b, p)
  {
    if a != [] {
      assert (a + b)[1..] == a[1..] + b;
      CountAppend(a[1..], b, p);
    } else {
      assert a + b == b;
    }
  }

  lemma {:induction false} CountAll(s: string, p: char -> bool)
    requires forall i :: 0 <= i < |s| ==> p(s[i])
    ensures CountWhere(s, p) == |s|
  {
    if s != [] { CountAll(s[1..], p); }
  }

  /** The runs cover every matching character exactly once: none is lost or repeated. */
  lemma {:induction false} RunsCoverMatches(s: string, p: char -> bool)
    ensures TotalLength(Runs(s, p)) == CountWhere(s, p)
    decreases |s|
  {
    if s != [] {
      if !p(s[0]) {
        RunsCoverMatches(s[1..], p);
      } else {
        var k := RunLength(s, p);
        RunsCoverMatches(s[k..], p);
        assert s == s[..k] + s[k..];
        CountAppend(s[..k], s[k..], p);
        CountAll(s[..k], p);
        assert Runs(s, p)[1..] == Runs(s[k..], p);
      }
    }
  }

  /** `extractWords(text)`: the CJK runs, then the lower-case letter runs, then the digit runs. */
  function ExtractWords(text: string): (r: seq<string>)
    ensures forall i :: 0 <= i < |r| ==> r[i] != []
    ensures forall i, j :: 0 <= i < |r| && 0 <= j < |r[i]| ==> IsCjk(r[i][j]) || IsLowerLetter(r[i][j]) || IsDigit(r[i][j])
  {
    Runs(text, IsCjk) + Runs(text, IsLowerLetter) + Runs(text, IsDigit)
  }

  lemma {:induction false} TotalLengthAppend(a: seq<string>, b: seq<string>)
    ensures TotalLength(a + b) == TotalLength(a) + TotalLength(b)
  {
    if a != [] {
      assert (a + b)[1..] == a[1..] + b;
      TotalLengthAppend(a[1..], b);
    } else {
      assert a + b == b;
    }
  }

  /**
   * The words account for the text's characters by count: their total
   * length is the number of CJK characters, lower-case letters and digits
   * in `text`.
   */
  lemma ExtractWordsCover(text: string)
    ensures TotalLength(ExtractWords(text)) ==
      CountWhere(text, IsCjk) + CountWhere(text, IsLowerLetter) + CountWhere(text, IsDigit)
  {
    var a, b, c := Runs(text, IsCjk), Runs(text, IsLowerLetter), Runs(text, IsDigit);
    TotalLengthAppend(a + b, c);
    TotalLengthAppend(a, b);
    RunsCoverMatches(text, IsCjk);
    RunsCoverMatches(text, IsLowerLetter);
    RunsCoverMatches(text, IsDigit);
  }

  // ---------------------------------------------------------------------
  // getFAQMenu

  datatype MenuQuestion = MenuQuestion(id: string, question: string)

  datatype MenuEntry = MenuEntry(category: string, title: string, questions: seq<MenuQuestion>)

  /** The built-in category titles. */
  const CategoryTitles: map<string, string> :=
    map["booking" := "預訂相關", "delivery" := "取件相關", "shooting" := "拍攝相關", "other" := "其他"]

  function CategoryTitle(key: string, c: FaqCategory): (t: string)
    ensures c.title != "" ==> t == c.title
    ensures c.title == "" && key in CategoryTitles ==> t == CategoryTitles[key]
    ensures c.title == "" && key !in CategoryTitles ==> t == key
  {
    if c.title != "" then c.title else if key in CategoryTitles then CategoryTitles[key] else key
  }

  /** `questions.map((q, index) => ({ id: q.id || `${key}-${index}`, question: q.question }))` from index `from`. */
  function MenuQuestions(key: string, qs: seq<FaqQuestion>, from: nat): (r: seq<MenuQuestion>)
    ensures |r| == |qs|
    ensures forall i :: 0 <= i < |qs| ==>
      (r[i].question == qs[i].question && r[i].id == (if qs[i].id != "" then qs[i].id else key + "-" + NatToString(from + i)))
  {
    if qs == [] then []
    else
      var id := if qs[0].id != "" then qs[0].id else key + "-" + NatToString(from);
      [MenuQuestion(id, qs[0].question)] + MenuQuestions(key, qs[1..], from + 1)
  }

  /** The menu: one entry per category, in order, that is present and has questions. */
  function FaqMenu(cats: seq<(string, Option<FaqCategory>)>): (r: seq<MenuEntry>)
    ensures |r| <= |cats|
    ensures forall e :: e in r ==> e.questions != []
  {
    if cats == [] then []
    else
      var (key, c) := cats[0];
      var rest := FaqMenu(cats[1..]);
      if c.Some? && c.value.questions != [] then
        [MenuEntry(key, CategoryTitle(key, c.value), MenuQuestions(key, c.value.questions, 0))] + rest
      else rest
  }

  /** The entry the menu shows for category `i`. */
  function EntryOf(cats: seq<(string, Option<FaqCategory>)>, i: int): MenuEntry
    requires 0 <= i < |cats| && cats[i].1.Some?
  {
    MenuEntry(cats[i].0, CategoryTitle(cats[i].0, cats[i].1.value), MenuQuestions(cats[i].0, cats[i].1.value.questions, 0))
  }

  predicate Listed(cats: seq<(string, Option<FaqCategory>)>, i: int)
  {
    0 <= i < |cats| && cats[i].1.Some? && cats[i].1.value.questions != []
  }

  /** Every present category with questions appears, and every entry comes from one. */
  lemma {:induction false} FaqMenuComplete(cats: seq<(string, Option<FaqCategory>)>)
    ensures forall i :: Listed(cats, i) ==> EntryOf(cats, i) in FaqMenu(cats)
    ensures forall e :: e in FaqMenu(cats) ==> exists i :: Listed(cats, i) && e == EntryOf(cats, i)
  {
    if cats != [] {
      var rest := cats[1..];
      FaqMenuComplete(rest);
      forall i | Listed(cats, i) ensures EntryOf(cats, i) in FaqMenu(cats) {
        if i > 0 {
          assert Listed(rest, i - 1);
          assert EntryOf(cats, i) == EntryOf(rest, i - 1);
        }
      }
      forall e | e in FaqMenu(cats) ensures exists i :: Listed(cats, i) && e == EntryOf(cats, i) {
        if e in FaqMenu(rest) {
          var k :| Listed(rest, k) && e == EntryOf(rest, k);
          assert Listed(cats, k + 1) && EntryOf(cats, k + 1) == EntryOf(rest, k);
        } else {
          assert Listed(cats, 0) && e == EntryOf(cats, 0);
        }
      }
    }
  }

  // ---------------------------------------------------------------------
  // Templates

  /** A stored template in the structured form: a bare string becomes the main answer. */
  function AsTemplate(t: StoredTemplate): (r: Option<ResponseTemplate>)
    ensures t.Plain? && t.text != "" ==> r == Some(ResponseTemplate(t.text, "", []))
    ensures t.Plain? && t.text == "" ==> r == None
    ensures t.Structured? ==> r == Some(t.template)
  {
    match t
    case Plain(s) => if s == "" then None else Some(ResponseTemplate(s, "", []))
    case Structured(rt) => Some(rt)
  }

  // ---------------------------------------------------------------------
  // The knowledge base object

  class KnowledgeBase {
    var companyId: string
    var loaded: bool
    var services: seq<Service>
    var policies: seq<Policy>
    var responseTemplates: map<string, StoredTemplate>
    var faqDetailed: Option<FaqDetailed>

    /** `new KnowledgeBase(companyId = 'goldenyears')`: nothing loaded yet. */
    constructor (id: Option<string>)
      ensures companyId == (if id.Some? then id.value else "goldenyears")
      ensures !loaded && services == [] && policies == [] && responseTemplates == map[] && faqDetailed == None
    {
      companyId := if id.Some? then id.value else "goldenyears";
      loaded := false;
      services := [];
      policies := [];
      responseTemplates := map[];
      faqDetailed := None;
    }

    /**
     * `load(...)`: `data` is what the fetches produced, or the message of
     * the first failure. A failure leaves the object not loaded (so that a
     * later call retries) and reports the cause; success installs the data
     * and marks it loaded.
     */
    method Load(data: Result<KnowledgeData, string>) returns (r: Result<(), string>)
      modifies this
      ensures r.Ok? <==> data.Ok?
      ensures loaded <==> data.Ok?
      ensures companyId == old(companyId)
      ensures data.Err? ==> r == Err("Failed to load knowledge base: " + data.error)
      ensures data.Err? ==> services == old(services) && policies == old(policies)
      ensures data.Err? ==> responseTemplates == old(responseTemplates) && faqDetailed == old(faqDetailed)
      ensures data.Ok? ==> services == data.value.services && policies == data.value.policies
      ensures data.Ok? ==> responseTemplates == data.value.templates && faqDetailed == data.value.faqDetailed
    {
      if data.Err? {
        loaded := false;
        return Err("Failed to load knowledge base: " + data.error);
      }
      services := data.value.services;
      policies := data.value.policies;
      responseTemplates := data.value.templates;
      faqDetailed := data.value.faqDetailed;
      loaded := true;
      r := Ok(());
    }

    /** `getService(id)`: the first service with that id, or null. */
    function GetService(id: string): (r: Result<Option<Service>, string>)
      reads this
      ensures r.Err? <==> !loaded
      ensures r.Err? ==> r.error == NotLoaded
      ensures r.Ok? && r.value.Some? ==> r.value.value in services && r.value.value.id == id
      ensures r.Ok? && r.value.Some? ==> exists i :: IsFirstWithId(services, i, id) && services[i] == r.value.value
      ensures r.Ok? && r.value.None? ==> forall s :: s in services ==> s.id != id
    {
      if !loaded then Err(NotLoaded) else Ok(FindService(services, id))
    }

    /** `searchFAQ(query)`: the three best-scoring policies. */
    method SearchFAQ(query: string) returns (r: Result<seq<Policy>, string>)
      ensures r.Err? <==> !loaded
      ensures r.Err? ==> r.error == NotLoaded
      ensures r.Ok? ==> r.value == Top(ScoredPolicies(policies, ToLower(query)), 3)
    {
      if !loaded {
        return Err(NotLoaded);
      }
      var lowerQuery := ToLower(query);
      var results := ScorePolicies(policies, lowerQuery);
      r := Ok(Top(results, 3));
    }

    /** `searchFAQDetailed(query)`: the five best-scoring questions over all categories. */
    method SearchFAQDetailed(query: string) returns (r: Result<seq<FaqQuestion>, string>)
      ensures r.Err? <==> !loaded
      ensures r.Err? ==> r.error == NotLoaded
      ensures r.Ok? && (faqDetailed.None? || Trim(ToLower(query)) == "") ==> r.value == []
      ensures r.Ok? && faqDetailed.Some? && Trim(ToLower(query)) != "" ==>
        var lq := Trim(ToLower(query));
        r.value == Top(ScoredCategories(faqDetailed.value.categories, lq, ExtractWords(lq)), 5)
    {
      if !loaded {
        return Err(NotLoaded);
      }
      if faqDetailed.None? {
        return Ok([]);
      }
      var lowerQuery := Trim(ToLower(query));
      if lowerQuery == "" {
        return Ok([]);
      }
      var words := ExtractWords(lowerQuery);
      var results := ScoreAllCategories(faqDetailed.value.categories, lowerQuery, words);
      r := Ok(Top(results, 5));
    }

    /** `getResponseTemplate(intent)`: null when missing or falsy, a bare string converted. */
    function GetResponseTemplate(intent: string): (r: Result<Option<ResponseTemplate>, string>)
      reads this
      ensures r.Err? <==> !loaded
      ensures r.Ok? && intent !in responseTemplates ==> r.value == None
      ensures r.Ok? && intent in responseTemplates ==> r.value == AsTemplate(responseTemplates[intent])
    {
      if !loaded then Err(NotLoaded)
      else if intent !in responseTemplates then Ok(None)
      else Ok(AsTemplate(responseTemplates[intent]))
    }

    /** `getNextBestActions(intent)`: the template's actions, or none. */
    function GetNextBestActions(intent: string): (r: Result<seq<string>, string>)
      reads this
      ensures r.Err? <==> !loaded
      ensures r.Ok? && GetResponseTemplate(intent).value.Some? ==>
        r.value == GetResponseTemplate(intent).value.value.nextBestActions
      ensures r.Ok? && GetResponseTemplate(intent).value.None? ==> r.value == []
    {
      if !loaded then Err(NotLoaded)
      else
        var t := GetResponseTemplate(intent).value;
        if t.Some? && t.value.nextBestActions != [] then Ok(t.value.nextBestActions) else Ok([])
    }

    /** `getFAQMenu()`. */
    function GetFAQMenu(): (r: Result<seq<MenuEntry>, string>)
      reads this
      ensures r.Err? <==> !loaded
      ensures r.Ok? && faqDetailed.None? ==> r.value == []
      ensures r.Ok? && faqDetailed.Some? ==> r.value == FaqMenu(faqDetailed.value.categories)
    {
      if !loaded then Err(NotLoaded)
      else if faqDetailed.None? then Ok([])
      else Ok(FaqMenu(faqDetailed.value.categories))
    }
  }

  /** The index of the first service with that id, or the length when there is none. */
  function FirstServiceIndex(services: seq<Service>, id: string): (i: nat)
    ensures i <= |services|
    ensures forall j :: 0 <= j < i ==> services[j].id != id
    ensures i < |services| ==> services[i].id == id
  {
    if services == [] then 0
    else if services[0].id == id then 0
    else 1 + FirstServiceIndex(services[1..], id)
  }

  /** `i` is the position of the first service with that id. */
  predicate IsFirstWithId(services: seq<Service>, i: int, id: string)
  {
    0 <= i < |services| && services[i].id == id && forall j :: 0 <= j < i ==> services[j].id != id
  }

  /** `services.find(s => s.id === id) || null`. */
  function FindService(services: seq<Service>, id: string): (r: Option<Service>)
    ensures r.Some? ==> r.value.id == id && exists i :: IsFirstWithId(services, i, id) && services[i] == r.value
    ensures r.None? ==> forall s :: s in services ==> s.id != id
  {
    var i := FirstServiceIndex(services, id);
    if i < |services| then Some(services[i]) else None
  }

  /** The loop over the policies of searchFAQ. */
  method ScorePolicies(policies: seq<Policy>, lowerQuery: string) returns (results: seq<Ranked<Policy>>)
    ensures results == ScoredPolicies(policies, lowerQuery)
  {
    results := [];
    var i := 0;
    while i < |policies|
      invariant 0 <= i <= |policies|
      invariant results == ScoredPolicies(policies[..i], lowerQuery)
    {
      var policy := policies[i];
      var score := ScorePolicy(policy, lowerQuery);
      if score > 0 {
        results := results + [Ranked(policy, score, 0)];
      }
      assert policies[..i + 1][..i] == policies[..i];
      i := i + 1;
    }
    assert policies[..i] == policies;
  }

  /** The score of one policy, accumulated as searchFAQ does. */
  method ScorePolicy(policy: Policy, lowerQuery: string) returns (score: nat)
    ensures score == PolicyScore(policy, lowerQuery)
  {
    score := 0;
    var k := 0;
    while k < |policy.keywords|
      invariant 0 <= k <= |policy.keywords|
      invariant score == KeywordPoints(policy.keywords[..k], lowerQuery)
    {
      if Contains(lowerQuery, ToLower(policy.keywords[k])) {
        score := score + 1;
      }
      assert policy.keywords[..k + 1][..k] == policy.keywords[..k];
      k := k + 1;
    }
    assert policy.keywords[..k] == policy.keywords;
    if Contains(ToLower(policy.question), lowerQuery) {
      score := score + 2;
    }
    if Contains(ToLower(policy.answer), lowerQuery) {
      score := score + 1;
    }
  }

  /** The loop over the categories, skipping null ones. */
  method ScoreAllCategories(cats: seq<(string, Option<FaqCategory>)>, lowerQuery: string, words: seq<string>)
    returns (results: seq<Ranked<FaqQuestion>>)
    requires lowerQuery != ""
    ensures results == ScoredCategories(cats, lowerQuery, words)
  {
    results := [];
    var c := 0;
    while c < |cats|
      invariant 0 <= c <= |cats|
      invariant results == ScoredCategories(cats[..c], lowerQuery, words)
    {
      ScoredCategoriesStep(cats, c, lowerQuery, words);
      var category := cats[c].1;
      if category.Some? {
        var more := ScoreCategory(category.value.questions, lowerQuery, words);
        results := results + more;
      }
      c := c + 1;
    }
    assert cats[..c] == cats;
  }

  /** One more category: its scored questions are appended, a null category adds nothing. */
  lemma ScoredCategoriesStep(cats: seq<(string, Option<FaqCategory>)>, c: nat, lowerQuery: string, words: seq<string>)
    requires c < |cats| && lowerQuery != ""
    ensures ScoredCategories(cats[..c + 1], lowerQuery, words) ==
      if cats[c].1.None? then ScoredCategories(cats[..c], lowerQuery, words)
      else ScoredCategories(cats[..c], lowerQuery, words) + ScoredQuestions(cats[c].1.value.questions, lowerQuery, words)
  {
    assert cats[..c + 1][..c] == cats[..c];
  }

  /** The loop over one category's questions, with the keyword and word loops inside. */
  method ScoreCategory(qs: seq<FaqQuestion>, lowerQuery: string, words: seq<string>) returns (results: seq<Ranked<FaqQuestion>>)
    requires lowerQuery != ""
    ensures results == ScoredQuestions(qs, lowerQuery, words)
  {
    results := [];
    var i := 0;
    while i < |qs|
      invariant 0 <= i <= |qs|
      invariant results == ScoredQuestions(qs[..i], lowerQuery, words)
    {
      var question := qs[i];
      var score := ScoreQuestion(question, lowerQuery, words);
      if score > 0 {
        results := results + [Ranked(question, score, JsLength(question.question))];
      }
      assert qs[..i + 1][..i] == qs[..i];
      i := i + 1;
    }
    assert qs[..i] == qs;
  }

  /** The score of one question, accumulated as the source does. */
  method ScoreQuestion(question: FaqQuestion, lowerQuery: string, words: seq<string>) returns (score: nat)
    requires lowerQuery != ""
    ensures score == DetailedScore(question, lowerQuery, words)
  {
    var lowerQuestion := ToLower(question.question);
    var lowerAnswer := ToLower(question.answer);
    score := 0;
    if lowerQuestion == lowerQuery {
      score := score + 10;
    } else if Contains(lowerQuestion, lowerQuery) {
      score := score + 5;
    }
    var kp := KeywordLoop(question.keywords, lowerQuery);
    score := score + kp;
    var wp, wordMatches := WordLoop(words, lowerQuestion, lowerAnswer);
    score := score + wp;
    if StartsWithCut(lowerQuestion, lowerQuery, 5) {
      score := score + 2;
    }
    if Contains(lowerAnswer, lowerQuery) {
      score := score + 1;
    }
    if |words| > 0 {
      score := score + RoundRatio(wordMatches, |words|);
    }
  }

  /** The keyword loop of one question. */
  method KeywordLoop(keywords: seq<string>, lowerQuery: string) returns (kp: nat)
    ensures kp == DetailedKeywordPoints(keywords, lowerQuery)
  {
    kp := 0;
    var k := 0;
    while k < |keywords|
      invariant 0 <= k <= |keywords|
      invariant kp == DetailedKeywordPoints(keywords[..k], lowerQuery)
    {
      var lowerKeyword := ToLower(keywords[k]);
      if Contains(lowerQuery, lowerKeyword) {
        kp := kp + 3;
      }
      if Contains(lowerKeyword, lowerQuery) && JsLength(lowerQuery) >= 2 {
        kp := kp + 2;
      }
      assert keywords[..k + 1][..k] == keywords[..k];
      k := k + 1;
    }
    assert keywords[..k] == keywords;
  }

  /** The query-word loop of one question: its points and how many words the question holds. */
  method WordLoop(words: seq<string>, lowerQuestion: string, lowerAnswer: string) returns (wp: nat, wordMatches: nat)
    ensures wp == WordPoints(words, lowerQuestion, lowerAnswer)
    ensures wordMatches == WordMatches(words, lowerQuestion)
  {
    wp := 0;
    wordMatches := 0;
    var w := 0;
    while w < |words|
      invariant 0 <= w <= |words|
      invariant wp == WordPoints(words[..w], lowerQuestion, lowerAnswer)
      invariant wordMatches == WordMatches(words[..w], lowerQuestion)
    {
      var word := words[w];
      assert words[..w + 1][..w] == words[..w];
      if JsLength(word) >= 2 {
        if Contains(lowerQuestion, word) {
          wp := wp + 2;
          wordMatches := wordMatches + 1;
        }
        if Contains(lowerAnswer, word) {
          wp := wp + 1;
        }
      }
      w := w + 1;
    }
    assert words[..w] == words;
  }

  /** searchFAQ keeps at most three hits, best first, each with a positive score; equal scores keep list order. */
  lemma SearchFAQRanking(policies: seq<Policy>, lowerQuery: string)
    ensures var hits := ScoredPolicies(policies, lowerQuery);
      var top := Top(hits, 3);
      |top| <= 3 && (forall p :: p in top ==> p in policies && PolicyScore(p, lowerQuery) > 0)
      && Ranked_Sorted(SortRanked(hits))
      && forall s :: WithKey(SortRanked(hits), s, 0) == WithKey(hits, s, 0)
  {
    var hits := ScoredPolicies(policies, lowerQuery);
    SortSorted(hits);
    forall s ensures WithKey(SortRanked(hits), s, 0) == WithKey(hits, s, 0) {
      SortStable(hits, s, 0);
    }
    var sorted := SortRanked(hits);
    forall p | p in Top(hits, 3) ensures p in policies && PolicyScore(p, lowerQuery) > 0 {
      var i :| 0 <= i < |Top(hits, 3)| && Top(hits, 3)[i] == p;
      assert sorted[i] in multiset(hits);
      var j :| 0 <= j < |hits| && hits[j] == sorted[i];
    }
  }

  /** searchFAQDetailed keeps at most five hits, each with a positive score, by score and then by the question's UTF-16 `length`, shorter first. */
  lemma SearchFAQDetailedRanking(cats: seq<(string, Option<FaqCategory>)>, lowerQuery: string)
    requires lowerQuery != ""
    ensures var hits := ScoredCategories(cats, lowerQuery, ExtractWords(lowerQuery));
      |Top(hits, 5)| <= 5 && Ranked_Sorted(SortRanked(hits))
      && (forall i :: 0 <= i < |SortRanked(hits)| ==> SortRanked(hits)[i].score > 0)
  {
    var hits := ScoredCategories(cats, lowerQuery, ExtractWords(lowerQuery));
    SortSorted(hits);
    var sorted := SortRanked(hits);
    forall i | 0 <= i < |sorted| ensures sorted[i].score > 0 {
      assert sorted[i] in multiset(hits);
      var j :| 0 <= j < |hits| && hits[j] == sorted[i];
    }
  }

  /** A bare string template yields its text as the only content and no next actions. */
  lemma PlainTemplateHasNoActions(kb: KnowledgeBase, intent: string, s: string)
    requires kb.loaded && intent in kb.responseTemplates && kb.responseTemplates[intent] == Plain(s)
    ensures kb.GetNextBestActions(intent) == Ok([])
    ensures s != "" ==> kb.GetResponseTemplate(intent) == Ok(Some(ResponseTemplate(s, "", [])))
  {
  }
}
