/**
 * Origin checks for messages posted from the embedded widget to its parent
 * page (lib/utils/postmessage.ts). The browser state (iframe or not, the
 * referrer's origin, the page's own origin) and the environment are
 * parameters; posting itself is the returned target.
 */
module PostMessage {
  import opened Common

  /** Characters that JavaScript's `.` does not match. */
  predicate IsLineTerminator(c: char)
  {
    c == '\n' || c == '\r' || c == '\U{2028}' || c == '\U{2029}'
  }

  /**
   * The test `isOriginAllowed` runs on a pattern entry, as written: each `*`
   * of the entry becomes `.*` in an anchored regular expression, so `*` matches any run of characters other than line terminators,
   * and the entry's own `.` characters, left unescaped, match any single such
   * character. Other characters of an origin are taken literally.
   */
  predicate RegexMatch(p: string, t: string)
    decreases |p| + |t|
  {
    if p == [] then t == []
    else if p[0] == '*' then
      RegexMatch(p[1..], t) || (t != [] && !IsLineTerminator(t[0]) && RegexMatch(p, t[1..]))
    else if p[0] == '.' then
      t != [] && !IsLineTerminator(t[0]) && RegexMatch(p[1..], t[1..])
    else
      t != [] && t[0] == p[0] && RegexMatch(p[1..], t[1..])
  }

  /** The wildcard match the comment describes: `*` is any substring, all else literal. */
  predicate GlobMatch(p: string, t: string)
    decreases |p| + |t|
  {
    if p == [] then t == []
    else if p[0] == '*' then GlobMatch(p[1..], t) || (t != [] && GlobMatch(p, t[1..]))
    else t != [] && t[0] == p[0] && GlobMatch(p[1..], t[1..])
  }

  /** `isOriginAllowed(targetOrigin, allowedOrigins)` as written. */
  predicate IsOriginAllowedAsWritten(target: string, allowed: seq<string>)
  {
    exists i :: 0 <= i < |allowed| && (allowed[i] == target || (HasChar(allowed[i], '*') && RegexMatch(allowed[i], target)))
  }

  /** `isOriginAllowed` with the wildcard meaning intended: exact, or a `*` pattern matching as a glob. */
  predicate IsOriginAllowed(target: string, allowed: seq<string>)
  {
    exists i :: 0 <= i < |allowed| && (allowed[i] == target || (HasChar(allowed[i], '*') && GlobMatch(allowed[i], target)))
  }

  /** The written matcher admits a look-alike host for the pattern of every Pages deployment. */
  lemma UnescapedDotAcceptsLookalike()
    ensures IsOriginAllowedAsWritten("https://xpagesydev", ["https://*.pages.dev"])
    ensures !IsOriginAllowed("https://xpagesydev", ["https://*.pages.dev"])
  {
    LookalikeRegex();
    LookalikeGlob();
  }

  lemma LookalikeRegex()
    ensures IsOriginAllowedAsWritten("https://xpagesydev", ["https://*.pages.dev"])
  {
    var p := "https://*.pages.dev";
    var t := "https://xpagesydev";
    assert p == "https://" + "*.pages.dev" && t == "https://" + "xpagesydev";
    RegexTailMatches();
    RegexMatchLiteralPrefix("https://", "*.pages.dev", "xpagesydev");
    assert HasChar(p, '*') by { assert p[8] == '*'; }
    assert [p][0] == p;
  }

  lemma LookalikeGlob()
    ensures !IsOriginAllowed("https://xpagesydev", ["https://*.pages.dev"])
  {
    var p := "https://*.pages.dev";
    var t := "https://xpagesydev";
    GlobNoMatch();
    assert p != t by { assert p[8] != t[8]; }
    assert forall i :: 0 <= i < |[p]| ==> [p][i] == p;
  }

  lemma GlobNoMatch()
    ensures !GlobMatch("https://*.pages.dev", "https://xpagesydev")
  {
    var a, b, u := "https://", ".pages.dev", "xpagesydev";
    assert "https://*.pages.dev" == a + ("*" + b);
    assert "https://xpagesydev" == a + u;
    GlobSingleStar(a, b, u);
    assert u[0] != b[0];
  }

  /** A pattern `a*b` with literal `a` and `b`, on a string starting with `a`, asks only that it end with `b`. */
  lemma GlobSingleStar(a: string, b: string, u: string)
    requires forall i :: 0 <= i < |a| ==> a[i] != '*'
    requires forall i :: 0 <= i < |b| ==> b[i] != '*'
    ensures GlobMatch(a + ("*" + b), a + u) <==> |b| <= |u| && u[|u| - |b|..] == b
  {
    GlobLiteralPrefix(a, "*" + b, u);
    GlobStarMeansSuffix(b, u);
  }

  lemma RegexTailMatches()
    ensures RegexMatch("*.pages.dev", "xpagesydev")
  {
    RegexPagesMatches();
    var p := "*.pages.dev";
    assert p[0] == '*' && p[1..] == ".pages.dev";
  }

  /** `.pages.dev` as a pattern matches `xpagesydev`: both dots match any character. */
  lemma RegexPagesMatches()
    ensures RegexMatch(".pages.dev", "xpagesydev")
  {
    RegexDevMatches();
    RegexMatchLiteralPrefix("pages", ".dev", "ydev");
    assert "pages" + ".dev" == "pages.dev" && "pages" + "ydev" == "pagesydev";
    assert ".pages.dev"[1..] == "pages.dev" && "xpagesydev"[1..] == "pagesydev";
  }

  lemma RegexDevMatches()
    ensures RegexMatch(".dev", "ydev")
  {
    RegexMatchLiteralPrefix("dev", "", "");
    assert "dev" + "" == "dev";
    assert ".dev"[1..] == "dev" && "ydev"[1..] == "dev";
  }

  lemma {:induction false} RegexMatchLiteralPrefix(a: string, p: string, t: string)
    requires forall i :: 0 <= i < |a| ==> a[i] != '*' && a[i] != '.'
    ensures RegexMatch(a + p, a + t) == RegexMatch(p, t)
  {
    if a != [] {
      assert (a + p)[0] == a[0] && (a + p)[1..] == a[1..] + p;
      assert (a + t)[0] == a[0] && (a + t)[1..] == a[1..] + t;
      RegexMatchLiteralPrefix(a[1..], p, t);
    } else {
      assert a + p == p && a + t == t;
    }
  }

  lemma {:induction false} GlobLiteralPrefix(a: string, p: string, t: string)
    requires forall i :: 0 <= i < |a| ==> a[i] != '*'
    ensures GlobMatch(a + p, a + t) == GlobMatch(p, t)
  {
    if a != [] {
      assert (a + p)[0] == a[0] && (a + p)[1..] == a[1..] + p;
      assert (a + t)[0] == a[0] && (a + t)[1..] == a[1..] + t;
      GlobLiteralPrefix(a[1..], p, t);
    } else {
      assert a + p == p && a + t == t;
    }
  }

  /** A pattern without `*` matches exactly itself. */
  lemma {:induction false} GlobLiteral(p: string, t: string)
    requires forall i :: 0 <= i < |p| ==> p[i] != '*'
    ensures GlobMatch(p, t) <==> p == t
    decreases |p| + |t|
  {
    if p != [] && t != [] {
      GlobLiteral(p[1..], t[1..]);
      if p[0] == t[0] && p[1..] == t[1..] {
        assert p == [p[0]] + p[1..] && t == [t[0]] + t[1..];
      }
    }
  }

  /** `*` followed by a literal tail matches exactly the strings that end with the tail. */
  lemma {:induction false} GlobStarMeansSuffix(b: string, t: string)
    requires forall i :: 0 <= i < |b| ==> b[i] != '*'
    ensures GlobMatch("*" + b, t) <==> |b| <= |t| && t[|t| - |b|..] == b
    decreases |t|
  {
    var p := "*" + b;
    assert p[0] == '*' && p[1..] == b;
    GlobLiteral(b, t);
    if t != [] {
      GlobStarMeansSuffix(b, t[1..]);
      if |b| <= |t| - 1 {
        assert t[1..][|t[1..]| - |b|..] == t[|t| - |b|..];
      }
    }
  }

  /** `*` alone admits every origin. */
  lemma {:induction false} StarMatchesAll(t: string)
    ensures GlobMatch("*", t)
    decreases |t|
  {
    assert "*"[1..] == "";
    if t != [] { StarMatchesAll(t[1..]); }
  }

  // ---------------------------------------------------------------------
  // Target choice of safePostMessage

  datatype Post = NoPost | PostTo(targetOrigin: string)

  /** The first entry without `*`, else the first entry. */
  function DefaultOrigin(allowed: seq<string>): (r: string)
    requires allowed != []
    ensures r in allowed
    ensures HasChar(r, '*') ==> r == allowed[0] && forall i :: 0 <= i < |allowed| ==> HasChar(allowed[i], '*')
    ensures !HasChar(r, '*') ==>
      (exists i :: 0 <= i < |allowed| && r == allowed[i] && forall j :: 0 <= j < i ==> HasChar(allowed[j], '*'))
  {
    FirstStarFree(allowed, 0)
  }

  function FirstStarFree(allowed: seq<string>, from: nat): (r: string)
    requires 0 <= from <= |allowed| && allowed != []
    requires forall j :: 0 <= j < from ==> HasChar(allowed[j], '*')
    ensures r in allowed
    ensures HasChar(r, '*') ==> r == allowed[0] && forall i :: 0 <= i < |allowed| ==> HasChar(allowed[i], '*')
    ensures !HasChar(r, '*') ==>
      (exists i :: 0 <= i < |allowed| && r == allowed[i] && forall j :: 0 <= j < i ==> HasChar(allowed[j], '*'))
    decreases |allowed| - from
  {
    if from == |allowed| then allowed[0]
    else if !HasChar(allowed[from], '*') then allowed[from]
    else FirstStarFree(allowed, from + 1)
  }

  /** An allow-list was passed and is not empty. */
  predicate HasList(allowed: Option<seq<string>>)
  {
    allowed.Some? && allowed.value != []
  }

  /** The referrer's origin is known and on the list. */
  predicate ParentAllowed(parentOrigin: Option<string>, allowed: seq<string>)
  {
    parentOrigin.Some? && parentOrigin.value != "" && IsOriginAllowed(parentOrigin.value, allowed)
  }

  /** The fallback target when the parent is not on the list: the default entry with `*` removed, or `*`. */
  function Fallback(allowed: seq<string>): string
    requires allowed != []
  {
    var safe := RemoveChar(DefaultOrigin(allowed), '*');
    if safe != "" then safe else "*"
  }

  /**
   * Where `safePostMessage(message, allowedOrigins)` posts. `inIframe` is
   * `window.parent !== window`; `parentOrigin` is the referrer's origin;
   * `widgetOrigin` is NEXT_PUBLIC_WIDGET_ORIGIN; `ownOrigin` is
   * `window.location.origin`.
   */
  function SafePostTarget(
    inIframe: bool, parentOrigin: Option<string>, allowed: Option<seq<string>>,
    widgetOrigin: Option<string>, nodeEnv: Option<string>, ownOrigin: string): (r: Post)
    ensures r.PostTo? ==> inIframe
    ensures (inIframe && HasList(allowed) && ParentAllowed(parentOrigin, allowed.value)) ==>
      r == PostTo(parentOrigin.value)
    ensures (inIframe && HasList(allowed) && !ParentAllowed(parentOrigin, allowed.value)) ==>
      r == PostTo(Fallback(allowed.value)) && (r.targetOrigin == "*" || !HasChar(r.targetOrigin, '*'))
    ensures (inIframe && !HasList(allowed) && widgetOrigin.Some? && widgetOrigin.value != "") ==>
      r == PostTo(widgetOrigin.value)
    ensures (inIframe && !HasList(allowed) && !(widgetOrigin.Some? && widgetOrigin.value != "")) ==>
      (r.PostTo? <==> nodeEnv == Some("development"))
    ensures (inIframe && !HasList(allowed) && !(widgetOrigin.Some? && widgetOrigin.value != "")
             && nodeEnv == Some("development")) ==>
      r.targetOrigin == (if parentOrigin.Some? && parentOrigin.value != "" then parentOrigin.value else ownOrigin)
  {
    if !inIframe then NoPost
    else if HasList(allowed) then
      if ParentAllowed(parentOrigin, allowed.value) then PostTo(parentOrigin.value)
      else
        PostTo(Fallback(allowed.value))
    else if widgetOrigin.Some? && widgetOrigin.value != "" then PostTo(widgetOrigin.value)
    else if parentOrigin.Some? && parentOrigin.value != "" && nodeEnv == Some("development") then PostTo(parentOrigin.value)
    else if nodeEnv == Some("development") then PostTo(ownOrigin)
    else NoPost
  }

  /** With a list, a message never goes to an origin that is neither listed nor a listed entry's `*`-free form. */
  lemma ListedTargetsOnly(parentOrigin: Option<string>, allowed: seq<string>, widgetOrigin: Option<string>,
                          nodeEnv: Option<string>, ownOrigin: string)
    requires allowed != []
    ensures var r := SafePostTarget(true, parentOrigin, Some(allowed), widgetOrigin, nodeEnv, ownOrigin);
      r.PostTo? && (IsOriginAllowed(r.targetOrigin, allowed)
                    || r.targetOrigin == "*" || exists i :: 0 <= i < |allowed| && r.targetOrigin == RemoveChar(allowed[i], '*'))
  {
    var r := SafePostTarget(true, parentOrigin, Some(allowed), widgetOrigin, nodeEnv, ownOrigin);
    if !ParentAllowed(parentOrigin, allowed) {
      var d := DefaultOrigin(allowed);
      if !HasChar(d, '*') {
        var i :| 0 <= i < |allowed| && d == allowed[i];
        assert RemoveChar(d, '*') == d;
        assert allowed[i] == r.targetOrigin || r.targetOrigin == "*";
      } else {
        assert RemoveChar(allowed[0], '*') == RemoveChar(d, '*');
      }
    }
  }
}
