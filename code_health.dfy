/**
 * The code health report script: the per-file complexity analysis, the shaping of the
 * TypeScript compiler output, the hard-coded secret filter, the summary and the list of
 * suggestions at the end of the Markdown report.  The compiler, npm and the test runner
 * are replaced by their exit codes and output, the directory walks by the files they
 * yield, the regular-expression searches by their matches or match counts.
 */
module CodeHealth {
  import opened Common

  datatype Status = Pass | Fail

  /** Python `xs[:n]`. */
  function Take<T>(xs: seq<T>, n: nat): (r: seq<T>)
    ensures |r| == Min(|xs|, n) && r == xs[..|r|]
  {
    xs[..Min(|xs|, n)]
  }

  // ---------------------------------------------------------------------
  // Substrings and str.strip()

  lemma PrefixContained(p: string, s: string)
    requires IsPrefix(p, s)
    ensures Contains(s, p)
  {
    assert s[0..] == s;
  }

  lemma ContainsTrans(s: string, t: string, sub: string)
    requires Contains(s, t) && Contains(t, sub)
    ensures Contains(s, sub)
  {
    var i :| 0 <= i <= |s| - |t| && IsPrefix(t, s[i..]);
    var j :| 0 <= j <= |t| - |sub| && IsPrefix(sub, t[j..]);
    assert t == s[i..i + |t|];
    assert sub == s[i + j..i + j + |sub|];
    assert IsPrefix(sub, s[i + j..]);
  }

  /** `s.strip()` is the slice of `s` between an all-space head and an all-space tail. */
  lemma StripBounds(s: string) returns (a: nat, b: nat)
    ensures a <= b <= |s| && Strip(s) == s[a..b]
    ensures AllSpace(s[..a], IsPySpace) && AllSpace(s[b..], IsPySpace)
  {
    a := LeadingSpace(s, IsPySpace);
    var rest := s[a..];
    var j := TrailingSpace(rest, IsPySpace);
    b := a + |rest| - j;
    assert Strip(s) == s[a..b] by {
      assert Strip(s) == TrimWith(s, IsPySpace);
      assert TrimWith(s, IsPySpace) == rest[..|rest| - j];
      assert rest[..|rest| - j] == s[a..b];
    }
    assert s[b..] == rest[|rest| - j..];
  }

  lemma StripContained(s: string)
    ensures Contains(s, Strip(s))
  {
    var a, b := StripBounds(s);
    assert IsPrefix(Strip(s), s[a..]);
  }

  lemma NonSpaceAfterHead(s: string, a: nat, k: nat)
    requires a <= |s| && k < |s| && AllSpace(s[..a], IsPySpace) && !IsPySpace(s[k])
    ensures a <= k
  {
  }

  lemma NonSpaceBeforeTail(s: string, b: nat, e: nat)
    requires b <= |s| && e < |s| && AllSpace(s[b..], IsPySpace) && !IsPySpace(s[e])
    ensures e < b
  {
  }

  lemma EndsOfOccurrence(s: string, sub: string, k: nat)
    requires sub != [] && k + |sub| <= |s| && IsPrefix(sub, s[k..])
    ensures s[k] == sub[0] && s[k + |sub| - 1] == sub[|sub| - 1]
  {
    assert s[k..][..|sub|] == sub;
    assert s[k..][..|sub|][0] == s[k];
    assert s[k..][..|sub|][|sub| - 1] == s[k + |sub| - 1];
  }

  lemma SliceKeepsInfix(s: string, sub: string, a: nat, b: nat, k: nat)
    requires a <= k && k + |sub| <= b <= |s| && IsPrefix(sub, s[k..])
    ensures Contains(s[a..b], sub)
  {
    assert s[a..b][k - a..][..|sub|] == s[k..][..|sub|];
  }

  lemma SpaceTrimmedKeepsInfix(s: string, sub: string, a: nat, b: nat)
    requires sub != [] && !IsPySpace(sub[0]) && !IsPySpace(sub[|sub| - 1])
    requires Contains(s, sub)
    requires a <= b <= |s| && AllSpace(s[..a], IsPySpace) && AllSpace(s[b..], IsPySpace)
    ensures Contains(s[a..b], sub)
  {
    var k :| 0 <= k <= |s| - |sub| && IsPrefix(sub, s[k..]);
    EndsOfOccurrence(s, sub, k);
    NonSpaceAfterHead(s, a, k);
    NonSpaceBeforeTail(s, b, k + |sub| - 1);
    SliceKeepsInfix(s, sub, a, b, k);
  }

  /** Stripping cannot cut into a substring that starts and ends with a non-space. */
  lemma StripKeepsInfix(s: string, sub: string)
    requires sub != [] && !IsPySpace(sub[0]) && !IsPySpace(sub[|sub| - 1])
    requires Contains(s, sub)
    ensures Contains(Strip(s), sub)
  {
    var a, b := StripBounds(s);
    SpaceTrimmedKeepsInfix(s, sub, a, b);
  }

  // ---------------------------------------------------------------------
  // Lines

  /** Number of newline characters in `s`. */
  function NewlineCount(s: string): nat
  {
    if s == [] then 0 else (if s[0] == '\n' then 1 else 0) + NewlineCount(s[1..])
  }

  lemma {:induction false} NewlineCountAppend(a: string, b: string)
    ensures NewlineCount(a + b) == NewlineCount(a) + NewlineCount(b)
  {
    if a == [] {
      assert a + b == b;
    } else {
      assert (a + b)[1..] == a[1..] + b;
      NewlineCountAppend(a[1..], b);
    }
  }

  lemma {:induction false} NoNewlines(s: string)
    requires !HasChar(s, '\n')
    ensures NewlineCount(s) == 0
  {
    if s != [] {
      NoNewlines(s[1..]);
    }
  }

  /** `content.split('\n')` has one piece more than there are newlines. */
  lemma {:induction false} LineCountIsNewlines(s: string)
    ensures |Split(s, '\n')| == NewlineCount(s) + 1
    decreases |s|
  {
    var i := IndexOfChar(s, '\n');
    NoNewlines(s[..i]);
    if i == |s| {
      assert s[..i] == s;
    } else {
      var tail := [s[i]] + s[i + 1..];
      assert s == s[..i] + tail;
      NewlineCountAppend(s[..i], tail);
      assert tail[1..] == s[i + 1..];
      LineCountIsNewlines(s[i + 1..]);
    }
  }

  predicate IsBlank(l: string)
  {
    Strip(l) == []
  }

  /** Not blank, and not starting with a line or block comment marker once stripped. */
  predicate IsCodeLine(l: string)
  {
    var t := Strip(l);
    t != [] && !IsPrefix("//", t) && !IsPrefix("/*", t)
  }

  predicate IsCommentLine(l: string)
  {
    Contains(l, "//") || Contains(l, "/*") || Contains(l, "*/")
  }

  /** A line is never both code and blank, and a line that is neither carries a comment marker. */
  lemma LineKinds(l: string)
    ensures !(IsCodeLine(l) && IsBlank(l))
    ensures IsCodeLine(l) || IsBlank(l) || IsCommentLine(l)
  {
    var t := Strip(l);
    if t != [] && !IsCodeLine(l) {
      StripContained(l);
      if IsPrefix("//", t) {
        PrefixContained("//", t);
        ContainsTrans(l, t, "//");
      } else {
        PrefixContained("/*", t);
        ContainsTrans(l, t, "/*");
      }
    }
  }

  function CountWhere(ls: seq<string>, p: string -> bool): (n: nat)
    ensures n <= |ls|
  {
    if ls == [] then 0 else (if p(ls[0]) then 1 else 0) + CountWhere(ls[1..], p)
  }

  lemma {:induction false} LineCounts(ls: seq<string>)
    ensures CountWhere(ls, IsCodeLine) + CountWhere(ls, IsBlank) <= |ls|
    ensures |ls| <= CountWhere(ls, IsCodeLine) + CountWhere(ls, IsBlank) + CountWhere(ls, IsCommentLine)
  {
    if ls != [] {
      LineKinds(ls[0]);
      LineCounts(ls[1..]);
    }
  }

  // ---------------------------------------------------------------------
  // Nesting depth

  /** The brace balance after reading `s`: `{` adds one, `}` takes one away but never below zero. */
  function Balance(s: string): nat
  {
    if s == [] then 0
    else
      var d := Balance(s[..|s| - 1]);
      if s[|s| - 1] == '{' then d + 1
      else if s[|s| - 1] == '}' then (if d == 0 then 0 else d - 1)
      else d
  }

  /** The deepest balance reached right after a `{`. */
  function MaxDepth(s: string): nat
  {
    if s == [] then 0
    else
      var m := MaxDepth(s[..|s| - 1]);
      var d := Balance(s);
      if s[|s| - 1] == '{' && m < d then d else m
  }

  /** Measuring only after `{` loses nothing: the result is the largest balance over all prefixes. */
  lemma {:induction false} MaxDepthIsPrefixMaximum(s: string)
    ensures forall i :: 0 <= i <= |s| ==> Balance(s[..i]) <= MaxDepth(s)
    ensures exists i :: 0 <= i <= |s| && Balance(s[..i]) == MaxDepth(s)
  {
    if s == [] {
      assert Balance(s[..0]) == 0;
    } else {
      var init := s[..|s| - 1];
      MaxDepthIsPrefixMaximum(init);
      forall i | 0 <= i <= |s|
        ensures Balance(s[..i]) <= MaxDepth(s)
      {
        if i < |s| {
          assert s[..i] == init[..i];
        } else {
          assert s[..i] == s;
          assert init[..|init|] == init;
        }
      }
      if MaxDepth(s) == MaxDepth(init) {
        var i :| 0 <= i <= |init| && Balance(init[..i]) == MaxDepth(init);
        assert s[..i] == init[..i];
      } else {
        assert s[..|s|] == s;
      }
    }
  }

  // ---------------------------------------------------------------------
  // Sizes: bytes / 1024 rounded as Python rounds an exact binary value

  /** `round(bytes / 1024, 2)` in hundredths of a kilobyte (ties to even). */
  function CentiKb(bytes: nat): (r: nat)
    ensures 512 * r <= 50 * bytes + 256 && 50 * bytes <= 512 * r + 256
  {
    var q := bytes * 25 / 256;
    var m := bytes * 25 % 256;
    if m > 128 || (m == 128 && q % 2 == 1) then q + 1 else q
  }

  /** `f"{bytes / 1024:.1f}"` in tenths of a kilobyte (ties to even). */
  function DeciKb(bytes: nat): (r: nat)
    ensures 1024 * r <= 10 * bytes + 512 && 10 * bytes <= 1024 * r + 512
  {
    var q := bytes * 5 / 512;
    var m := bytes * 5 % 512;
    if m > 256 || (m == 256 && q % 2 == 1) then q + 1 else q
  }

  function OneDecimal(tenths: nat): string
  {
    NatToString(tenths / 10) + "." + [DigitChar(tenths % 10)]
  }

  /** Files over 100 KB carry a warning with their size to one decimal. */
  function SizeWarning(bytes: nat): Option<string>
  {
    if bytes > 100 * 1024 then Some("文件过大 (" + OneDecimal(DeciKb(bytes)) + " KB)") else None
  }

  /** A file counts as large (rounded size over 50 KB) exactly from 51206 bytes on. */
  lemma LargeFileIffBytes(bytes: nat)
    ensures CentiKb(bytes) > 5000 <==> bytes > 51205
  {
  }

  // ---------------------------------------------------------------------
  // Per-file analysis

  /** Numbers of matches of the function, class, import and export patterns. */
  datatype PatternCounts = PatternCounts(functions: nat, classes: nat, imports: nat, exports: nat)

  /** A source file as read: `content` is None when reading it as UTF-8 failed. */
  datatype SourceFile = SourceFile(path: string, content: Option<string>, sizeBytes: nat, patterns: PatternCounts)

  datatype FileAnalysis = FileAnalysis(
    path: string,
    totalLines: nat,
    codeLines: nat,
    commentLines: nat,
    blankLines: nat,
    functionCount: nat,
    classCount: nat,
    importCount: nat,
    exportCount: nat,
    maxNestingDepth: nat,
    fileSizeCentiKb: nat,
    sizeWarning: Option<string>,
    complexityScore: nat)

  function Complexity(p: PatternCounts, depth: nat): nat
  {
    p.functions * 2 + p.classes * 3 + depth * 2
  }

  function AnalysisOf(f: SourceFile): Option<FileAnalysis>
  {
    match f.content
    case None => None
    case Some(c) =>
      var ls := Split(c, '\n');
      var depth := MaxDepth(c);
      Some(FileAnalysis(
        f.path, |ls|, CountWhere(ls, IsCodeLine), CountWhere(ls, IsCommentLine), CountWhere(ls, IsBlank),
        f.patterns.functions, f.patterns.classes, f.patterns.imports, f.patterns.exports,
        depth, CentiKb(f.sizeBytes), SizeWarning(f.sizeBytes), Complexity(f.patterns, depth)))
  }

  /** What the analysis reports about a readable file. */
  lemma AnalysisFacts(f: SourceFile)
    ensures AnalysisOf(f).None? <==> f.content.None?
    ensures f.content.Some? ==>
      var c := f.content.value;
      var a := AnalysisOf(f).value;
      && a.path == f.path
      && a.totalLines == NewlineCount(c) + 1
      && a.codeLines + a.blankLines <= a.totalLines
      && a.totalLines <= a.codeLines + a.blankLines + a.commentLines
      && (forall i :: 0 <= i <= |c| ==> Balance(c[..i]) <= a.maxNestingDepth)
      && a.complexityScore >= 2 * a.maxNestingDepth
      && (a.sizeWarning.Some? <==> f.sizeBytes > 102400)
  {
    if f.content.Some? {
      var c := f.content.value;
      LineCountIsNewlines(c);
      LineCounts(Split(c, '\n'));
      MaxDepthIsPrefixMaximum(c);
    }
  }

  /** `analyze_file_complexity`, with its character loop for the nesting depth. */
  method AnalyzeFile(f: SourceFile) returns (a: Option<FileAnalysis>)
    ensures a == AnalysisOf(f)
  {
    if f.content.None? {
      return None;
    }
    var content := f.content.value;
    var lines := Split(content, '\n');
    var maxDepth, depth := 0, 0;
    for i := 0 to |content|
      invariant depth == Balance(content[..i])
      invariant maxDepth == MaxDepth(content[..i])
    {
      assert content[..i + 1][..i] == content[..i];
      if content[i] == '{' {
        depth := depth + 1;
        if maxDepth < depth {
          maxDepth := depth;
        }
      } else if content[i] == '}' {
        depth := if depth == 0 then 0 else depth - 1;
      }
    }
    assert content[..|content|] == content;
    a := Some(FileAnalysis(
      f.path, |lines|, CountWhere(lines, IsCodeLine), CountWhere(lines, IsCommentLine), CountWhere(lines, IsBlank),
      f.patterns.functions, f.patterns.classes, f.patterns.imports, f.patterns.exports,
      maxDepth, CentiKb(f.sizeBytes), SizeWarning(f.sizeBytes), Complexity(f.patterns, maxDepth)));
  }

  /** The issues `analyze_code_quality` raises for one analysed file, in order. */
  function FileIssues(a: FileAnalysis): (r: seq<string>)
    ensures |r| <= 3
    ensures forall k :: 0 <= k < |r| ==> IsPrefix(a.path + ": ", r[k])
    ensures r == [] <==> a.complexityScore <= 50 && a.maxNestingDepth <= 5 && a.sizeWarning.None?
  {
    var head := a.path + ": ";
    var complex := if a.complexityScore > 50 then [head + "复杂度较高 (score: " + NatToString(a.complexityScore) + ")"] else [];
    var deep := if a.maxNestingDepth > 5 then [head + "嵌套深度过深 (" + NatToString(a.maxNestingDepth) + ")"] else [];
    var large := if a.sizeWarning.Some? then [head + a.sizeWarning.value] else [];
    assert forall x :: x in complex + deep + large ==> x[..|head|] == head;
    complex + deep + large
  }

  // ---------------------------------------------------------------------
  // The directory walk

  /** Paths under `node_modules` or `.next` are meant to be skipped. */
  predicate Excluded(path: string)
  {
    Contains(path, "node_modules") || Contains(path, ".next")
  }

  function KeepFiles(g: seq<SourceFile>): (r: seq<SourceFile>)
    ensures forall x :: x in r ==> x in g && !Excluded(x.path)
    ensures forall x :: x in g && !Excluded(x.path) ==> x in r
  {
    if g == [] then [] else (if Excluded(g[0].path) then [] else [g[0]]) + KeepFiles(g[1..])
  }

  /**
   * The intended walk: every file of every (directory, extension) group, in order,
   * except the excluded paths.
   */
  function WalkIntended(groups: seq<seq<SourceFile>>): (r: seq<SourceFile>)
  {
    if groups == [] then [] else KeepFiles(groups[0]) + WalkIntended(groups[1..])
  }

  lemma {:induction false} WalkIntendedComplete(groups: seq<seq<SourceFile>>)
    ensures forall x :: x in WalkIntended(groups) ==> !Excluded(x.path)
    ensures forall i, x :: 0 <= i < |groups| && x in groups[i] && !Excluded(x.path) ==> x in WalkIntended(groups)
  {
    if groups != [] {
      WalkIntendedComplete(groups[1..]);
      forall i, x | 0 <= i < |groups| && x in groups[i] && !Excluded(x.path)
        ensures x in WalkIntended(groups)
      {
        if i > 0 {
          assert groups[1..][i - 1] == groups[i];
        }
      }
    }
  }

  /**
   * The walk as the script runs it: the analysis sits one level out of the file loop, so
   * each group contributes only the loop variable's final value, excluded or not; an
   * empty group reuses the previous group's file, and with no previous file the name is
   * unbound and the script stops (None).
   */
  function WalkAsWritten(groups: seq<seq<SourceFile>>, last: Option<SourceFile>): Option<seq<SourceFile>>
  {
    if groups == [] then Some([])
    else
      var cur := if groups[0] == [] then last else Some(groups[0][|groups[0]| - 1]);
      match cur
      case None => None
      case Some(f) =>
        match WalkAsWritten(groups[1..], cur)
        case None => None
        case Some(rest) => Some([f] + rest)
  }

  /** Two files in one group: the script analyses only the second; an empty first group stops it. */
  lemma WalkAsWrittenDropsFiles()
    ensures
      var a := SourceFile("a.ts", Some(""), 0, PatternCounts(0, 0, 0, 0));
      var b := SourceFile("b.ts", Some(""), 0, PatternCounts(0, 0, 0, 0));
      && WalkAsWritten([[a, b]], None) == Some([b])
      && WalkIntended([[a, b]]) == [a, b]
      && WalkAsWritten([[], [a]], None) == None
      && WalkIntended([[], [a]]) == [a]
  {
    var a := SourceFile("a.ts", Some(""), 0, PatternCounts(0, 0, 0, 0));
    var b := SourceFile("b.ts", Some(""), 0, PatternCounts(0, 0, 0, 0));
    assert !Excluded(a.path) && !Excluded(b.path);
    assert KeepFiles([b]) == [b] by { assert [b][1..] == []; }
    assert KeepFiles([a]) == [a] by { assert [a][1..] == []; }
    assert KeepFiles([a, b]) == [a, b] by { assert [a, b][1..] == [b]; }
    assert WalkIntended([[a, b]]) == [a, b] by { assert [[a, b]][1..] == []; }
    assert WalkAsWritten([[a, b]], None) == Some([b]) by { assert [[a, b]][1..] == []; }
    assert WalkIntended([[a]]) == [a] by { assert [[a]][1..] == []; }
    assert WalkIntended([[], [a]]) == [a] by { assert [[], [a]][1..] == [[a]]; }
  }

  // ---------------------------------------------------------------------
  // The code-quality section

  datatype SizedPath = SizedPath(path: string, sizeCentiKb: nat)
  datatype ScoredPath = ScoredPath(path: string, score: nat)

  datatype QualityReport = QualityReport(
    totalFilesAnalyzed: nat,
    largeFilesCount: nat,
    complexFilesCount: nat,
    largeFiles: seq<SizedPath>,
    complexFiles: seq<ScoredPath>,
    issues: seq<string>)

  /** The analyses of the readable files, in order. */
  function Analyses(files: seq<SourceFile>): (r: seq<FileAnalysis>)
    ensures |r| <= |files|
  {
    if files == [] then []
    else
      var init := Analyses(files[..|files| - 1]);
      match AnalysisOf(files[|files| - 1])
      case None => init
      case Some(a) => init + [a]
  }

  function IssuesOf(analyses: seq<FileAnalysis>): seq<string>
  {
    if analyses == [] then []
    else IssuesOf(analyses[..|analyses| - 1]) + FileIssues(analyses[|analyses| - 1])
  }

  /** Files whose rounded size exceeds 50 KB. */
  function LargeFiles(analyses: seq<FileAnalysis>): (r: seq<SizedPath>)
    ensures |r| <= |analyses|
    ensures forall k :: 0 <= k < |r| ==> r[k].sizeCentiKb > 5000
    ensures forall a :: a in analyses && a.fileSizeCentiKb > 5000 ==> SizedPath(a.path, a.fileSizeCentiKb) in r
  {
    if analyses == [] then []
    else
      var a := analyses[0];
      (if a.fileSizeCentiKb > 5000 then [SizedPath(a.path, a.fileSizeCentiKb)] else []) + LargeFiles(analyses[1..])
  }

  /** Files whose complexity score exceeds 30. */
  function ComplexFiles(analyses: seq<FileAnalysis>): (r: seq<ScoredPath>)
    ensures |r| <= |analyses|
    ensures forall k :: 0 <= k < |r| ==> r[k].score > 30
    ensures forall a :: a in analyses && a.complexityScore > 30 ==> ScoredPath(a.path, a.complexityScore) in r
  {
    if analyses == [] then []
    else
      var a := analyses[0];
      (if a.complexityScore > 30 then [ScoredPath(a.path, a.complexityScore)] else []) + ComplexFiles(analyses[1..])
  }

  function QualityOf(analyses: seq<FileAnalysis>): QualityReport
  {
    var large := LargeFiles(analyses);
    var complex := ComplexFiles(analyses);
    QualityReport(|analyses|, |large|, |complex|, Take(large, 10), Take(complex, 10), Take(IssuesOf(analyses), 50))
  }

  lemma AnalysesStep(files: seq<SourceFile>, i: nat)
    requires i < |files|
    ensures Analyses(files[..i + 1]) ==
      match AnalysisOf(files[i])
      case None => Analyses(files[..i])
      case Some(a) => Analyses(files[..i]) + [a]
  {
    assert files[..i + 1][..i] == files[..i];
  }

  lemma IssuesStep(analyses: seq<FileAnalysis>, a: FileAnalysis)
    ensures IssuesOf(analyses + [a]) == IssuesOf(analyses) + FileIssues(a)
  {
    assert (analyses + [a])[..|analyses|] == analyses;
  }

  /** The analysis loop of `analyze_code_quality`: analyses of the readable files and their issues. */
  method AnalyzeFiles(files: seq<SourceFile>) returns (analyzed: seq<FileAnalysis>, issues: seq<string>)
    ensures analyzed == Analyses(files) && issues == IssuesOf(analyzed)
  {
    analyzed, issues := [], [];
    for i := 0 to |files|
      invariant analyzed == Analyses(files[..i])
      invariant issues == IssuesOf(analyzed)
    {
      AnalysesStep(files, i);
      var a := AnalyzeFile(files[i]);
      if a.Some? {
        IssuesStep(analyzed, a.value);
        analyzed, issues := analyzed + [a.value], issues + FileIssues(a.value);
      }
    }
    assert files[..|files|] == files;
  }

  /** Every file that raised the high-complexity issue is also listed among the complex files. */
  lemma {:induction false} ComplexIssueIsComplexFile(analyses: seq<FileAnalysis>, a: FileAnalysis)
    requires a in analyses && a.complexityScore > 50
    ensures |FileIssues(a)| > 0
    ensures ScoredPath(a.path, a.complexityScore) in ComplexFiles(analyses)
    ensures QualityOf(analyses).complexFilesCount > 0
  {
    var complex := ComplexFiles(analyses);
    assert ScoredPath(a.path, a.complexityScore) in complex;
  }

  // ---------------------------------------------------------------------
  // Compiler output

  predicate IsTsError(l: string)
  {
    Contains(l, "error TS")
  }

  predicate IsTsWarning(l: string)
  {
    !IsTsError(l) && Contains(l, "warning TS")
  }

  predicate IsUnusedNotice(l: string)
  {
    Contains(l, "is declared but its value is never read") || Contains(l, "is declared but never used")
  }

  /** The stripped lines that satisfy `keep`, in order. */
  function StrippedWhere(ls: seq<string>, keep: string -> bool): (r: seq<string>)
    ensures |r| <= |ls|
  {
    if ls == [] then []
    else
      var init := StrippedWhere(ls[..|ls| - 1], keep);
      if keep(ls[|ls| - 1]) then init + [Strip(ls[|ls| - 1])] else init
  }

  lemma StrippedWhereStep(ls: seq<string>, i: nat, keep: string -> bool)
    requires i < |ls|
    ensures StrippedWhere(ls[..i + 1], keep) ==
      if keep(ls[i]) then StrippedWhere(ls[..i], keep) + [Strip(ls[i])] else StrippedWhere(ls[..i], keep)
  {
    assert ls[..i + 1][..i] == ls[..i];
  }

  /** The line loop of `check_typescript`: a line is an error, else a warning, else neither. */
  method ClassifyCompilerLines(lines: seq<string>) returns (errors: seq<string>, warnings: seq<string>)
    ensures errors == StrippedWhere(lines, IsTsError)
    ensures warnings == StrippedWhere(lines, IsTsWarning)
  {
    errors, warnings := [], [];
    for i := 0 to |lines|
      invariant errors == StrippedWhere(lines[..i], IsTsError)
      invariant warnings == StrippedWhere(lines[..i], IsTsWarning)
    {
      StrippedWhereStep(lines, i, IsTsError);
      StrippedWhereStep(lines, i, IsTsWarning);
      var line := lines[i];
      if IsTsError(line) {
        errors := errors + [Strip(line)];
      } else if Contains(line, "warning TS") {
        warnings := warnings + [Strip(line)];
      }
    }
    assert lines[..|lines|] == lines;
  }

  /** The line loop of `check_unused_imports`. */
  method CollectUnusedNotices(lines: seq<string>) returns (found: seq<string>)
    ensures found == StrippedWhere(lines, IsUnusedNotice)
  {
    found := [];
    for i := 0 to |lines|
      invariant found == StrippedWhere(lines[..i], IsUnusedNotice)
    {
      StrippedWhereStep(lines, i, IsUnusedNotice);
      if IsUnusedNotice(lines[i]) {
        found := found + [Strip(lines[i])];
      }
    }
    assert lines[..|lines|] == lines;
  }

  /** Entries kept because their line names `sub1` or `sub2` still name it after stripping. */
  lemma {:induction false} StrippedWhereContains(ls: seq<string>, keep: string -> bool, sub1: string, sub2: string)
    requires sub1 != [] && !IsPySpace(sub1[0]) && !IsPySpace(sub1[|sub1| - 1])
    requires sub2 != [] && !IsPySpace(sub2[0]) && !IsPySpace(sub2[|sub2| - 1])
    requires forall l :: keep(l) ==> Contains(l, sub1) || Contains(l, sub2)
    ensures forall e :: e in StrippedWhere(ls, keep) ==> Contains(e, sub1) || Contains(e, sub2)
  {
    if ls != [] {
      var last := ls[|ls| - 1];
      StrippedWhereContains(ls[..|ls| - 1], keep, sub1, sub2);
      if keep(last) {
        if Contains(last, sub1) {
          StripKeepsInfix(last, sub1);
        } else {
          StripKeepsInfix(last, sub2);
        }
      }
    }
  }

  /** Entries whose line does not name `sub` do not name it after stripping either. */
  lemma {:induction false} StrippedWhereAvoids(ls: seq<string>, keep: string -> bool, sub: string)
    requires forall l :: keep(l) ==> !Contains(l, sub)
    ensures forall e :: e in StrippedWhere(ls, keep) ==> !Contains(e, sub)
  {
    if ls != [] {
      var last := ls[|ls| - 1];
      StrippedWhereAvoids(ls[..|ls| - 1], keep, sub);
      if keep(last) && Contains(Strip(last), sub) {
        StripContained(last);
        ContainsTrans(last, Strip(last), sub);
      }
    }
  }

  lemma {:induction false} ErrorsAndWarningsDisjoint(ls: seq<string>)
    ensures |StrippedWhere(ls, IsTsError)| + |StrippedWhere(ls, IsTsWarning)| <= |ls|
  {
    if ls != [] {
      ErrorsAndWarningsDisjoint(ls[..|ls| - 1]);
    }
  }

  datatype TsReport = TsReport(status: Status, errorCount: nat, warningCount: nat, errors: seq<string>, warnings: seq<string>)

  function OutputLines(stdout: string, stderr: string): seq<string>
  {
    Split(stderr + stdout, '\n')
  }

  function TsReportOf(returncode: int, stdout: string, stderr: string): TsReport
  {
    if returncode == 0 then TsReport(Pass, 0, 0, [], [])
    else
      var ls := OutputLines(stdout, stderr);
      var errors := StrippedWhere(ls, IsTsError);
      var warnings := StrippedWhere(ls, IsTsWarning);
      TsReport(Fail, |errors|, |warnings|, Take(errors, 50), Take(warnings, 50))
  }

  /**
   * A zero exit code passes with nothing counted; otherwise every output line is counted at
   * most once and each list holds the first 50 entries.
   */
  lemma TsReportCounts(returncode: int, stdout: string, stderr: string)
    ensures var r := TsReportOf(returncode, stdout, stderr);
      && (r.status == Pass <==> returncode == 0)
      && (r.status == Pass ==> r.errorCount == 0 && r.warningCount == 0 && r.errors == [] && r.warnings == [])
      && r.errorCount + r.warningCount <= |OutputLines(stdout, stderr)|
      && |r.errors| == Min(r.errorCount, 50) && |r.warnings| == Min(r.warningCount, 50)
  {
    ErrorsAndWarningsDisjoint(OutputLines(stdout, stderr));
  }

  /** Every listed error still names `error TS`; every listed warning names `warning TS` and not `error TS`. */
  lemma TsReportEntries(returncode: int, stdout: string, stderr: string)
    ensures var r := TsReportOf(returncode, stdout, stderr);
      && (forall e :: e in r.errors ==> Contains(e, "error TS"))
      && (forall w :: w in r.warnings ==> Contains(w, "warning TS") && !Contains(w, "error TS"))
  {
    var ls := OutputLines(stdout, stderr);
    StrippedWhereContains(ls, IsTsError, "error TS", "error TS");
    StrippedWhereContains(ls, IsTsWarning, "warning TS", "warning TS");
    StrippedWhereAvoids(ls, IsTsWarning, "error TS");
    var r := TsReportOf(returncode, stdout, stderr);
    assert forall e :: e in r.errors ==> e in StrippedWhere(ls, IsTsError);
    assert forall w :: w in r.warnings ==> w in StrippedWhere(ls, IsTsWarning);
  }

  datatype UnusedReport = UnusedReport(count: nat, issues: seq<string>)

  function UnusedReportOf(returncode: int, stdout: string, stderr: string): UnusedReport
  {
    if returncode == 0 then UnusedReport(0, [])
    else
      var found := StrippedWhere(OutputLines(stdout, stderr), IsUnusedNotice);
      UnusedReport(|found|, Take(found, 30))
  }

  /** Every listed unused-declaration notice still carries one of the two compiler phrases. */
  lemma UnusedReportFacts(returncode: int, stdout: string, stderr: string)
    ensures var r := UnusedReportOf(returncode, stdout, stderr);
      && (returncode == 0 ==> r.count == 0)
      && r.count <= |OutputLines(stdout, stderr)|
      && |r.issues| == Min(r.count, 30)
      && forall e :: e in r.issues ==>
           Contains(e, "is declared but its value is never read") || Contains(e, "is declared but never used")
  {
    var ls := OutputLines(stdout, stderr);
    StrippedWhereContains(ls, IsUnusedNotice, "is declared but its value is never read", "is declared but never used");
    var r := UnusedReportOf(returncode, stdout, stderr);
    assert forall e :: e in r.issues ==> e in StrippedWhere(ls, IsUnusedNotice);
  }

  // ---------------------------------------------------------------------
  // Hard-coded secrets

  /** One match of a sensitive pattern: the issue type, its start offset and the matched text. */
  datatype SecretMatch = SecretMatch(kind: string, start: nat, text: string)

  datatype SecurityIssue = SecurityIssue(file: string, kind: string, line: nat)

  /** A scanned file with its matches in pattern order; `content` is None when it could not be read. */
  datatype ScannedFile = ScannedFile(path: string, content: Option<string>, matches: seq<SecretMatch>)

  /** Matches that look like examples or to-do notes are not reported. */
  predicate IsPlaceholder(text: string)
  {
    Contains(ToLower(text), "example") || Contains(text, "TODO")
  }

  /** The 1-based line on which a match starts: one more than the newlines before it. */
  function LineOf(content: string, start: nat): (line: nat)
    ensures 1 <= line <= NewlineCount(content) + 1
  {
    var k := Min(start, |content|);
    assert content == content[..k] + content[k..];
    NewlineCountAppend(content[..k], content[k..]);
    NewlineCount(content[..k]) + 1
  }

  lemma LineOfMonotone(content: string, s1: nat, s2: nat)
    requires s1 <= s2
    ensures LineOf(content, s1) <= LineOf(content, s2)
  {
    var k1, k2 := Min(s1, |content|), Min(s2, |content|);
    assert content[..k2] == content[..k1] + content[k1..k2];
    NewlineCountAppend(content[..k1], content[k1..k2]);
  }

  function SecretIssues(path: string, content: string, ms: seq<SecretMatch>): (r: seq<SecurityIssue>)
    ensures |r| <= |ms|
    ensures forall k :: 0 <= k < |r| ==> r[k].file == path && 1 <= r[k].line <= |Split(content, '\n')|
  {
    LineCountIsNewlines(content);
    if ms == [] then []
    else
      var init := SecretIssues(path, content, ms[..|ms| - 1]);
      var m := ms[|ms| - 1];
      if IsPlaceholder(m.text) then init else init + [SecurityIssue(path, m.kind, LineOf(content, m.start))]
  }

  /** A match is reported exactly when it is not a placeholder. */
  lemma {:induction false} SecretIssuesExact(path: string, content: string, ms: seq<SecretMatch>)
    ensures forall k :: 0 <= k < |ms| && !IsPlaceholder(ms[k].text) ==>
      SecurityIssue(path, ms[k].kind, LineOf(content, ms[k].start)) in SecretIssues(path, content, ms)
    ensures forall x :: x in SecretIssues(path, content, ms) ==>
      exists k :: 0 <= k < |ms| && !IsPlaceholder(ms[k].text) && x == SecurityIssue(path, ms[k].kind, LineOf(content, ms[k].start))
  {
    if ms != [] {
      var init := ms[..|ms| - 1];
      SecretIssuesExact(path, content, init);
      forall x | x in SecretIssues(path, content, ms)
        ensures exists k :: 0 <= k < |ms| && !IsPlaceholder(ms[k].text) && x == SecurityIssue(path, ms[k].kind, LineOf(content, ms[k].start))
      {
        if x in SecretIssues(path, content, init) {
          var k :| 0 <= k < |init| && !IsPlaceholder(init[k].text) && x == SecurityIssue(path, init[k].kind, LineOf(content, init[k].start));
          assert ms[k] == init[k];
        } else {
          assert x == SecurityIssue(path, ms[|ms| - 1].kind, LineOf(content, ms[|ms| - 1].start));
        }
      }
      forall k | 0 <= k < |ms| && !IsPlaceholder(ms[k].text)
        ensures SecurityIssue(path, ms[k].kind, LineOf(content, ms[k].start)) in SecretIssues(path, content, ms)
      {
        if k < |init| {
          assert ms[k] == init[k];
        }
      }
    }
  }

  /** The matches of one file, filtered as the scan loop filters them. */
  method ScanFile(path: string, content: string, ms: seq<SecretMatch>) returns (issues: seq<SecurityIssue>)
    ensures issues == SecretIssues(path, content, ms)
  {
    issues := [];
    for i := 0 to |ms|
      invariant issues == SecretIssues(path, content, ms[..i])
    {
      assert ms[..i + 1][..i] == ms[..i];
      var m := ms[i];
      if !IsPlaceholder(m.text) {
        issues := issues + [SecurityIssue(path, m.kind, LineOf(content, m.start))];
      }
    }
    assert ms[..|ms|] == ms;
  }

  function AllSecretIssues(files: seq<ScannedFile>): seq<SecurityIssue>
  {
    if files == [] then []
    else
      var f := files[|files| - 1];
      AllSecretIssues(files[..|files| - 1])
      + (if f.content.Some? then SecretIssues(f.path, f.content.value, f.matches) else [])
  }

  /** The scan loop over all files; an unreadable file contributes nothing. */
  method CollectSecretIssues(files: seq<ScannedFile>) returns (issues: seq<SecurityIssue>)
    ensures issues == AllSecretIssues(files)
  {
    issues := [];
    for i := 0 to |files|
      invariant issues == AllSecretIssues(files[..i])
    {
      assert files[..i + 1][..i] == files[..i];
      var f := files[i];
      if f.content.Some? {
        var found := ScanFile(f.path, f.content.value, f.matches);
        issues := issues + found;
      }
    }
    assert files[..|files|] == files;
  }

  datatype SecurityReport = SecurityReport(hardcodedSecretsCount: nat, issues: seq<SecurityIssue>)

  // ---------------------------------------------------------------------
  // Results and summary

  datatype TestingReport = TestingReport(testFilesCount: nat, testStatus: Status, testFiles: seq<string>)
  datatype CodeQuality = CodeQuality(report: Option<QualityReport>, unusedImports: Option<UnusedReport>, testing: Option<TestingReport>)
  datatype EslintReport = EslintReport(status: Status, issueCount: nat, issues: seq<string>)
  datatype DependencyReport = DependencyReport(totalDependencies: nat, totalDevDependencies: nat, outdatedCount: nat, vulnerabilitiesCount: nat)
  datatype Summary = Summary(overallStatus: Status, issuesFound: nat, criticalIssues: seq<string>, warnings: seq<string>)

  /** The sections of the results; a section that no check has filled is None. */
  datatype Results = Results(
    typescript: Option<TsReport>,
    eslint: Option<EslintReport>,
    codeQuality: CodeQuality,
    dependencies: Option<DependencyReport>,
    security: Option<SecurityReport>,
    summary: Option<Summary>)

  const EmptyResults := Results(None, None, CodeQuality(None, None, None), None, None, None)

  // The counts read with `.get(…, 0)`.
  function TsErrors(r: Results): nat { if r.typescript.Some? then r.typescript.value.errorCount else 0 }
  function EslintIssues(r: Results): nat { if r.eslint.Some? then r.eslint.value.issueCount else 0 }
  function Secrets(r: Results): nat { if r.security.Some? then r.security.value.hardcodedSecretsCount else 0 }
  function Vulnerabilities(r: Results): nat { if r.dependencies.Some? then r.dependencies.value.vulnerabilitiesCount else 0 }
  function UnusedImports(r: Results): nat
  {
    if r.codeQuality.unusedImports.Some? then r.codeQuality.unusedImports.value.count else 0
  }
  function ComplexFileCount(r: Results): nat
  {
    if r.codeQuality.report.Some? then r.codeQuality.report.value.complexFilesCount else 0
  }
  function TestFileCount(r: Results): nat
  {
    if r.codeQuality.testing.Some? then r.codeQuality.testing.value.testFilesCount else 0
  }

  function Counted(n: nat, message: string): seq<string>
  {
    if n > 0 then [message] else []
  }

  function Positive(n: nat): nat { if n > 0 then 1 else 0 }

  /** `generate_summary`. */
  function SummaryOf(r: Results): Summary
  {
    var ts, lint, sec, vuln, unused := TsErrors(r), EslintIssues(r), Secrets(r), Vulnerabilities(r), UnusedImports(r);
    var critical :=
      Counted(ts, "TypeScript 错误: " + NatToString(ts) + " 个")
      + Counted(sec, "安全问题: " + NatToString(sec) + " 个潜在硬编码密钥");
    var warnings :=
      Counted(lint, "ESLint 问题: " + NatToString(lint) + " 个")
      + Counted(vuln, "依赖漏洞: " + NatToString(vuln) + " 个")
      + Counted(unused, "未使用的导入: " + NatToString(unused) + " 个");
    Summary(if ts > 0 || sec > 0 then Fail else Pass, ts + lint + sec + vuln + unused, critical, warnings)
  }

  /**
   * The run fails exactly when there are compiler errors or hard-coded secrets, which is
   * exactly when there is a critical issue; the issue total is the sum of the five counts.
   */
  lemma SummaryFacts(r: Results)
    ensures var s := SummaryOf(r);
      && (s.overallStatus == Fail <==> TsErrors(r) > 0 || Secrets(r) > 0)
      && (s.overallStatus == Fail <==> s.criticalIssues != [])
      && s.issuesFound == TsErrors(r) + EslintIssues(r) + Secrets(r) + Vulnerabilities(r) + UnusedImports(r)
      && |s.criticalIssues| == Positive(TsErrors(r)) + Positive(Secrets(r))
      && |s.warnings| == Positive(EslintIssues(r)) + Positive(Vulnerabilities(r)) + Positive(UnusedImports(r))
  {
  }

  // ---------------------------------------------------------------------
  // Suggestions at the end of the report

  const NoSuggestions := "✅ 代码质量良好，无需特别改进"

  function Suggestions(r: Results): seq<string>
  {
    Counted(TsErrors(r), "修复所有 TypeScript 编译错误")
    + Counted(EslintIssues(r), "修复 ESLint 代码风格问题")
    + Counted(Vulnerabilities(r), "更新有安全漏洞的依赖包")
    + Counted(UnusedImports(r), "清理未使用的导入")
    + Counted(ComplexFileCount(r), "重构复杂度过高的文件，提高可维护性")
    + Counted(Secrets(r), "移除硬编码的敏感信息，使用环境变量")
    + (if TestFileCount(r) < 5 then ["增加测试覆盖率，提高代码质量"] else [])
  }

  /** `enumerate(items, first)` rendered as `"{i}. {item}"`. */
  function Numbered(items: seq<string>, first: nat): (r: seq<string>)
    ensures |r| == |items|
    ensures forall k :: 0 <= k < |items| ==> r[k] == NatToString(first + k) + ". " + items[k]
  {
    if items == [] then [] else [NatToString(first) + ". " + items[0]] + Numbered(items[1..], first + 1)
  }

  function SuggestionLines(r: Results): seq<string>
  {
    var s := Suggestions(r);
    if s == [] then [NoSuggestions] else Numbered(s, 1)
  }

  /**
   * The fixed line appears exactly when there is nothing to suggest, which needs every
   * count at zero and at least five test files; a failing run always has suggestions.
   */
  lemma SuggestionFacts(r: Results)
    ensures SuggestionLines(r) == [NoSuggestions] <==> Suggestions(r) == []
    ensures Suggestions(r) == [] <==>
      TsErrors(r) == 0 && EslintIssues(r) == 0 && Vulnerabilities(r) == 0 && UnusedImports(r) == 0
      && ComplexFileCount(r) == 0 && Secrets(r) == 0 && TestFileCount(r) >= 5
    ensures SummaryOf(r).overallStatus == Fail ==> Suggestions(r) != []
    ensures Suggestions(r) != [] ==>
      |SuggestionLines(r)| == |Suggestions(r)|
      && forall k :: 0 <= k < |Suggestions(r)| ==> SuggestionLines(r)[k] == NatToString(k + 1) + ". " + Suggestions(r)[k]
  {
    var s := Suggestions(r);
    if s != [] {
      var lines := Numbered(s, 1);
      assert lines[0] == NatToString(1) + ". " + s[0];
      assert NatToString(1) == "1";
      assert lines[0][0] == '1';
      assert lines[0] != NoSuggestions;
    }
  }

  // ---------------------------------------------------------------------
  // The checker

  class CodeHealthChecker {
    var results: Results

    constructor()
      ensures results == EmptyResults
    {
      results := EmptyResults;
    }

    /** `check_typescript`: classifies each output line once; returns whether the compiler passed. */
    method CheckTypescript(returncode: int, stdout: string, stderr: string) returns (passed: bool)
      modifies this
      ensures passed <==> returncode == 0
      ensures results == old(results).(typescript := Some(TsReportOf(returncode, stdout, stderr)))
    {
      var errors: seq<string> := [];
      var warnings: seq<string> := [];
      if returncode != 0 {
        errors, warnings := ClassifyCompilerLines(OutputLines(stdout, stderr));
      }
      var status := if returncode == 0 then Pass else Fail;
      results := results.(typescript := Some(TsReport(status, |errors|, |warnings|, Take(errors, 50), Take(warnings, 50))));
      passed := returncode == 0;
    }

    /**
     * `analyze_code_quality` over the analysed files, which the caller
     * takes from the walk (`WalkAsWritten` for the script as it stands);
     * replaces the whole code-quality section.
     */
    method AnalyzeCodeQuality(files: seq<SourceFile>)
      modifies this
      ensures results == old(results).(codeQuality := CodeQuality(Some(QualityOf(Analyses(files))), None, None))
    {
      var analyzed, issues := AnalyzeFiles(files);
      var large := LargeFiles(analyzed);
      var complex := ComplexFiles(analyzed);
      var report := QualityReport(|analyzed|, |large|, |complex|, Take(large, 10), Take(complex, 10), Take(issues, 50));
      results := results.(codeQuality := CodeQuality(Some(report), None, None));
    }

    /** `check_unused_imports`: adds its entry to the code-quality section. */
    method CheckUnusedImports(returncode: int, stdout: string, stderr: string)
      modifies this
      ensures results == old(results).(codeQuality :=
        old(results).codeQuality.(unusedImports := Some(UnusedReportOf(returncode, stdout, stderr))))
    {
      var found: seq<string> := [];
      if returncode != 0 {
        found := CollectUnusedNotices(OutputLines(stdout, stderr));
      }
      results := results.(codeQuality := results.codeQuality.(unusedImports := Some(UnusedReport(|found|, Take(found, 30)))));
    }

    /** `check_security` over the scanned files; unreadable files contribute nothing. */
    method CheckSecurity(files: seq<ScannedFile>)
      modifies this
      ensures results == old(results).(security :=
        Some(SecurityReport(|AllSecretIssues(files)|, Take(AllSecretIssues(files), 30))))
    {
      var issues := CollectSecretIssues(files);
      results := results.(security := Some(SecurityReport(|issues|, Take(issues, 30))));
    }

    /** `check_test_coverage`: the test files found and the test runner's exit code. */
    method CheckTestCoverage(testFiles: seq<string>, returncode: int)
      modifies this
      ensures results == old(results).(codeQuality := old(results).codeQuality.(testing :=
        Some(TestingReport(|testFiles|, if returncode == 0 then Pass else Fail, testFiles))))
    {
      var status := if returncode == 0 then Pass else Fail;
      results := results.(codeQuality := results.codeQuality.(testing := Some(TestingReport(|testFiles|, status, testFiles))));
    }

    method GenerateSummary()
      modifies this
      ensures results == old(results).(summary := Some(SummaryOf(old(results))))
    {
      results := results.(summary := Some(SummaryOf(results)));
    }
  }
}
