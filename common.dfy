/**
 * Shared vocabulary for the chatbot-service model: optional and failing
 * results, a JavaScript-like dynamic value, and the small string operations
 * (trim, ASCII lower-casing, substring search, split/join) that the source
 * uses through its standard library.
 */
module Common {

  datatype Option<T> = None | Some(value: T)

  /** A computation that either yields a value or raises an error. */
  datatype Result<T, E> = Ok(value: T) | Err(error: E)

  /**
   * A dynamic JavaScript value as seen by type guards and request decoders.
   * Numbers are integers; `Obj` covers plain objects and `Error` instances
   * (`isError`), with own enumerable properties in `fields`. A key mapped to
   * `Undefined` is present (`'k' in obj` holds) but has value undefined.
   */
  datatype Value =
    | Undefined
    | Null
    | Bool(b: bool)
    | Num(n: int)
    | Str(s: string)
    | Arr(items: seq<Value>)
    | Obj(isError: bool, fields: map<string, Value>)
    | Fn

  /** JavaScript truthiness, `!!v`. */
  predicate Truthy(v: Value)
  {
    match v
    case Undefined => false
    case Null => false
    case Bool(b) => b
    case Num(n) => n != 0
    case Str(s) => s != ""
    case _ => true
  }

  /** `typeof v === 'object' && v !== null` (arrays are objects too). */
  predicate IsObject(v: Value)
  {
    v.Arr? || v.Obj?
  }

  /** `k in v` for an object, and `v[k]` (undefined when absent). */
  predicate HasKey(v: Value, k: string)
  {
    (v.Obj? && k in v.fields) || (v.Arr? && k == "length")
  }

  function Get(v: Value, k: string): Value
  {
    if v.Obj? && k in v.fields then v.fields[k]
    else if v.Arr? && k == "length" then Num(|v.items|)
    else Undefined
  }

  // ---------------------------------------------------------------------
  // Whitespace and trimming

  /** White space removed by JavaScript's String.prototype.trim. */
  predicate IsJsSpace(c: char)
  {
    c == ' ' || ('\t' <= c <= '\r') || c == '\U{00A0}' || c == '\U{1680}'
    || ('\U{2000}' <= c <= '\U{200A}') || c == '\U{2028}' || c == '\U{2029}'
    || c == '\U{202F}' || c == '\U{205F}' || c == '\U{3000}' || c == '\U{FEFF}'
  }

  /** White space removed by Python's str.strip() with no argument. */
  predicate IsPySpace(c: char)
  {
    c == ' ' || ('\t' <= c <= '\r') || ('\U{001C}' <= c <= '\U{001F}')
    || c == '\U{0085}' || c == '\U{00A0}' || c == '\U{1680}'
    || ('\U{2000}' <= c <= '\U{200A}') || c == '\U{2028}' || c == '\U{2029}'
    || c == '\U{202F}' || c == '\U{205F}' || c == '\U{3000}'
  }

  predicate AllSpace(s: string, space: char -> bool)
  {
    forall i :: 0 <= i < |s| ==> space(s[i])
  }

  /** Length of the longest all-space prefix. */
  function LeadingSpace(s: string, space: char -> bool): (k: nat)
    ensures k <= |s| && AllSpace(s[..k], space)
    ensures k < |s| ==> !space(s[k])
  {
    if s == [] || !space(s[0]) then 0
    else
      var k := 1 + LeadingSpace(s[1..], space);
      assert forall i :: 1 <= i < k ==> s[..k][i] == s[1..][..k - 1][i - 1];
      k
  }

  /** Length of the longest all-space suffix. */
  function TrailingSpace(s: string, space: char -> bool): (k: nat)
    ensures k <= |s| && AllSpace(s[|s| - k..], space)
    ensures k < |s| ==> !space(s[|s| - k - 1])
  {
    if s == [] || !space(s[|s| - 1]) then 0
    else
      var k := 1 + TrailingSpace(s[..|s| - 1], space);
      assert s[|s| - k..] == s[..|s| - 1][|s| - k..] + [s[|s| - 1]];
      k
  }

  function TrimWith(s: string, space: char -> bool): (r: string)
    ensures |r| <= |s|
    ensures r == [] <==> AllSpace(s, space)
    ensures r != [] ==> !space(r[0]) && !space(r[|r| - 1])
    ensures forall k :: 0 <= k < |r| ==> r[k] in s
    ensures s == [] || (!space(s[0]) && !space(s[|s| - 1])) ==> r == s
  {
    var i := LeadingSpace(s, space);
    var rest := s[i..];
    var j := TrailingSpace(rest, space);
    assert i == |s| ==> AllSpace(s, space) by {
      if i == |s| { assert s[..i] == s; }
    }
    assert AllSpace(s, space) ==> i == |s|;
    var r := rest[..|rest| - j];
    assert r == s[i..i + |r|];
    assert r != [] ==> r[0] == s[i];
    assert s != [] && !space(s[0]) && !space(s[|s| - 1]) ==> i == 0 && j == 0;
    r
  }

  /**
   * Trimming is determined by the text alone: a non-blank middle `s[i..j]`
   * with only white space before and after it, and non-space characters at
   * both of its ends, is exactly what trimming returns.
   */
  lemma TrimWithSlice(s: string, space: char -> bool, i: nat, j: nat)
    requires i < j <= |s|
    requires AllSpace(s[..i], space) && AllSpace(s[j..], space)
    requires !space(s[i]) && !space(s[j - 1])
    ensures TrimWith(s, space) == s[i..j]
  {
    LeadingSpaceAt(s, space, i);
    var rest := s[i..];
    assert rest[j - i..] == s[j..];
    TrailingSpaceAt(rest, space, j - i);
    assert TrimWith(s, space) == rest[..j - i];
  }

  /** The white space before the first non-space character is all the leading white space. */
  lemma LeadingSpaceAt(s: string, space: char -> bool, i: nat)
    requires i < |s| && AllSpace(s[..i], space) && !space(s[i])
    ensures LeadingSpace(s, space) == i
  {
  }

  /** The white space after the last non-space character is all the trailing white space. */
  lemma TrailingSpaceAt(s: string, space: char -> bool, j: nat)
    requires 0 < j <= |s| && AllSpace(s[j..], space) && !space(s[j - 1])
    ensures TrailingSpace(s, space) == |s| - j
  {
  }

  /** `s.trim()` is the non-blank middle of `s` between its leading and trailing white space. */
  lemma TrimIsMiddle(s: string, i: nat, j: nat)
    requires i < j <= |s|
    requires AllSpace(s[..i], IsJsSpace) && AllSpace(s[j..], IsJsSpace)
    requires !IsJsSpace(s[i]) && !IsJsSpace(s[j - 1])
    ensures Trim(s) == s[i..j]
  {
    TrimWithSlice(s, IsJsSpace, i, j);
  }

  /** `s.strip()` is the non-blank middle of `s` between its leading and trailing white space. */
  lemma StripIsMiddle(s: string, i: nat, j: nat)
    requires i < j <= |s|
    requires AllSpace(s[..i], IsPySpace) && AllSpace(s[j..], IsPySpace)
    requires !IsPySpace(s[i]) && !IsPySpace(s[j - 1])
    ensures Strip(s) == s[i..j]
  {
    TrimWithSlice(s, IsPySpace, i, j);
  }

  /** JavaScript `s.trim()`. */
  function Trim(s: string): (r: string)
    ensures |r| <= |s|
    ensures r == [] <==> AllSpace(s, IsJsSpace)
    ensures r != [] ==> !IsJsSpace(r[0]) && !IsJsSpace(r[|r| - 1])
    ensures forall k :: 0 <= k < |r| ==> r[k] in s
    ensures s == [] || (!IsJsSpace(s[0]) && !IsJsSpace(s[|s| - 1])) ==> r == s
  {
    TrimWith(s, IsJsSpace)
  }

  /** Python `s.strip()`. */
  function Strip(s: string): (r: string)
    ensures |r| <= |s|
    ensures r == [] <==> AllSpace(s, IsPySpace)
    ensures r != [] ==> !IsPySpace(r[0]) && !IsPySpace(r[|r| - 1])
    ensures forall k :: 0 <= k < |r| ==> r[k] in s
    ensures s == [] || (!IsPySpace(s[0]) && !IsPySpace(s[|s| - 1])) ==> r == s
  {
    TrimWith(s, IsPySpace)
  }

  // ---------------------------------------------------------------------
  // UTF-16 lengths

  /** A character outside the Basic Multilingual Plane, which JavaScript stores as a surrogate pair. */
  predicate IsAstral(c: char) { c as int >= 0x1_0000 }

  /** The UTF-16 code units of one character. */
  function CodeUnits(c: char): (u: seq<int>)
    ensures |u| == (if IsAstral(c) then 2 else 1)
  {
    if IsAstral(c) then
      [0xD800 + (c as int - 0x1_0000) / 0x400, 0xDC00 + (c as int - 0x1_0000) % 0x400]
    else [c as int]
  }

  /** The UTF-16 code units of a string: what JavaScript's string methods index and count. */
  function Utf16(s: string): (u: seq<int>)
    ensures |s| <= |u| <= 2 * |s|
  {
    if s == [] then [] else CodeUnits(s[0]) + Utf16(s[1..])
  }

  /** JavaScript's `s.length`: one unit per character, two for a character outside the BMP. */
  function JsLength(s: string): (n: nat)
    ensures |s| <= n <= 2 * |s|
  {
    |Utf16(s)|
  }

  /** The code units of a concatenation are those of its parts, one after the other. */
  lemma {:induction false} Utf16Append(a: string, b: string)
    ensures Utf16(a + b) == Utf16(a) + Utf16(b)
    ensures JsLength(a + b) == JsLength(a) + JsLength(b)
  {
    if a == [] {
      assert a + b == b;
    } else {
      var ab := a + b;
      assert ab[0] == a[0] && ab[1..] == a[1..] + b;
      Utf16Append(a[1..], b);
      var c, x, y := CodeUnits(a[0]), Utf16(a[1..]), Utf16(b);
      assert Utf16(ab) == c + (x + y);
      assert Utf16(a) == c + x;
      assert c + (x + y) == (c + x) + y;
    }
  }

  /** Inside the BMP `length` counts characters; outside it, twice as many. */
  lemma {:induction false} JsLengthOfPlane(s: string)
    ensures (forall i :: 0 <= i < |s| ==> !IsAstral(s[i])) ==> JsLength(s) == |s|
    ensures (forall i :: 0 <= i < |s| ==> IsAstral(s[i])) ==> JsLength(s) == 2 * |s|
  {
    if s != [] {
      JsLengthOfPlane(s[1..]);
      assert forall i :: 1 <= i < |s| ==> s[1..][i - 1] == s[i];
    }
  }

  /** Characters that agree on being inside or outside the BMP give strings of the same `length`. */
  lemma {:induction false} JsLengthPointwise(a: string, b: string)
    requires |a| == |b| && forall i :: 0 <= i < |a| ==> (IsAstral(a[i]) <==> IsAstral(b[i]))
    ensures JsLength(a) == JsLength(b)
  {
    if a != [] {
      assert forall i :: 1 <= i < |a| - 1 + 1 ==> a[1..][i - 1] == a[i] && b[1..][i - 1] == b[i];
      JsLengthPointwise(a[1..], b[1..]);
    }
  }

  /**
   * `s.startsWith(t.substring(0, n))`, compared code unit by code unit as
   * JavaScript does, so the cut may end in the first half of a surrogate pair.
   */
  predicate StartsWithCut(s: string, t: string, n: nat)
  {
    var u, p := Utf16(s), Utf16(t);
    var k := if n < |p| then n else |p|;
    k <= |u| && u[..k] == p[..k]
  }

  /**
   * `s.substring(0, n)` cut at a character boundary: the longest prefix of
   * `s` that is at most `n` code units long.
   */
  function JsPrefix(s: string, n: nat): (r: string)
    ensures IsPrefix(r, s) && JsLength(r) <= n
    ensures JsLength(s) <= n ==> r == s
    ensures JsLength(s) > n ==> |r| < |s| && JsLength(r) + |CodeUnits(s[|r|])| > n
    ensures JsLength(s) > n ==> JsLength(r) + 1 >= n
    ensures JsLength(s) > n ==> JsLength(r) == n || (JsLength(r) + 1 == n && IsAstral(s[|r|]))
    decreases |s|
  {
    if s == [] || |CodeUnits(s[0])| > n then []
    else
      var rest := JsPrefix(s[1..], n - |CodeUnits(s[0])|);
      var r := [s[0]] + rest;
      assert r[0] == s[0] && r[1..] == rest;
      assert s[..|r|] == [s[0]] + s[1..][..|rest|];
      assert |rest| < |s[1..]| ==> s[|rest| + 1] == s[1..][|rest|];
      r
  }

  // ---------------------------------------------------------------------
  // Case

  predicate IsUpper(c: char) { 'A' <= c <= 'Z' }
  predicate IsLowerLetter(c: char) { 'a' <= c <= 'z' }
  predicate IsDigit(c: char) { '0' <= c <= '9' }

  function LowerChar(c: char): char
  {
    if IsUpper(c) then (c as int + 32) as char else c
  }

  /** `s.toLowerCase()`, restricted to the ASCII letters. */
  function ToLower(s: string): (r: string)
    ensures |r| == |s|
    ensures forall i :: 0 <= i < |s| ==> r[i] == LowerChar(s[i])
    ensures forall i :: 0 <= i < |r| ==> !IsUpper(r[i])
  {
    seq(|s|, i requires 0 <= i < |s| => LowerChar(s[i]))
  }

  /** Lower-casing ASCII letters keeps the UTF-16 `length`. */
  lemma ToLowerJsLength(s: string)
    ensures JsLength(ToLower(s)) == JsLength(s)
  {
    JsLengthPointwise(s, ToLower(s));
  }

  function UpperChar(c: char): char
  {
    if IsLowerLetter(c) then (c as int - 32) as char else c
  }

  /** `s.toUpperCase()`, restricted to the ASCII letters. */
  function ToUpper(s: string): (r: string)
    ensures |r| == |s|
    ensures forall i :: 0 <= i < |s| ==> r[i] == UpperChar(s[i])
    ensures forall i :: 0 <= i < |r| ==> !IsLowerLetter(r[i])
  {
    seq(|s|, i requires 0 <= i < |s| => UpperChar(s[i]))
  }

  // ---------------------------------------------------------------------
  // Substrings

  predicate IsPrefix(p: string, s: string)
  {
    |p| <= |s| && s[..|p|] == p
  }

  /** `s.includes(sub)` / Python `sub in s`. */
  predicate Contains(s: string, sub: string)
  {
    exists i :: 0 <= i <= |s| - |sub| && IsPrefix(sub, s[i..])
  }

  predicate HasChar(s: string, c: char)
  {
    exists i :: 0 <= i < |s| && s[i] == c
  }

  lemma ContainsSelf(s: string)
    ensures Contains(s, s)
  {
    assert IsPrefix(s, s[0..]);
  }

  lemma ContainsEmpty(s: string)
    ensures Contains(s, "")
  {
    assert IsPrefix("", s[0..]);
  }

  lemma ContainsCharIffHasChar(s: string, c: char)
    ensures Contains(s, [c]) <==> HasChar(s, c)
  {
    if HasChar(s, c) {
      var i :| 0 <= i < |s| && s[i] == c;
      assert IsPrefix([c], s[i..]);
    }
    if Contains(s, [c]) {
      var i :| 0 <= i <= |s| - 1 && IsPrefix([c], s[i..]);
      assert s[i] == s[i..][..1][0];
    }
  }

  // ---------------------------------------------------------------------
  // Split and join on one separator character

  /** Index of the first `c` in `s`, or |s|. */
  function IndexOfChar(s: string, c: char): (k: nat)
    ensures k <= |s|
    ensures k < |s| ==> s[k] == c
    ensures forall i :: 0 <= i < k ==> s[i] != c
  {
    if s == [] then 0
    else if s[0] == c then 0
    else 1 + IndexOfChar(s[1..], c)
  }

  /** JavaScript `s.split(c)`: "" gives [""], separators at the ends give empty pieces. */
  function Split(s: string, c: char): (r: seq<string>)
    ensures |r| >= 1
    ensures forall k :: 0 <= k < |r| ==> !HasChar(r[k], c)
    decreases |s|
  {
    var i := IndexOfChar(s, c);
    if i == |s| then [s] else [s[..i]] + Split(s[i + 1..], c)
  }

  /** JavaScript `parts.join(c)`: the pieces with `c` between neighbours. */
  function Join(parts: seq<string>, c: char): (r: string)
    ensures parts != [] ==> parts[0] <= r
    ensures |parts| == 1 ==> r == parts[0]
  {
    if parts == [] then ""
    else if |parts| == 1 then parts[0]
    else parts[0] + [c] + Join(parts[1..], c)
  }

  lemma JoinCons(x: string, rest: seq<string>, c: char)
    requires rest != []
    ensures Join([x] + rest, c) == x + [c] + Join(rest, c)
  {
    assert ([x] + rest)[1..] == rest;
  }

  /** Splitting on `c` and joining the pieces with `c` gives back the input. */
  lemma {:induction false} JoinSplit(s: string, c: char)
    ensures Join(Split(s, c), c) == s
    decreases |s|
  {
    var i := IndexOfChar(s, c);
    if i < |s| {
      var rest := Split(s[i + 1..], c);
      assert Split(s, c) == [s[..i]] + rest;
      JoinSplit(s[i + 1..], c);
      JoinCons(s[..i], rest, c);
      assert s == s[..i] + [c] + s[i + 1..];
    }
  }

  // ---------------------------------------------------------------------
  // Replacing characters

  /** `s.replace(/c/g, "")`. */
  function RemoveChar(s: string, c: char): (r: string)
    ensures !HasChar(r, c)
    ensures |r| <= |s|
    ensures !HasChar(s, c) ==> r == s
  {
    if s == [] then ""
    else if s[0] == c then RemoveChar(s[1..], c)
    else
      var t := RemoveChar(s[1..], c);
      assert !HasChar(s, c) ==> !HasChar(s[1..], c) by {
        if !HasChar(s, c) {
          forall i | 0 <= i < |s[1..]| ensures s[1..][i] != c { assert s[1..][i] == s[i + 1]; }
        }
      }
      assert forall i :: 1 <= i < |[s[0]] + t| ==> ([s[0]] + t)[i] == t[i - 1];
      [s[0]] + t
  }

  // ---------------------------------------------------------------------
  // Decimal numbers

  function DigitChar(d: nat): char
    requires d < 10
  {
    ('0' as int + d) as char
  }

  /** The value of a decimal digit; other characters count as 0. */
  function DigitValue(c: char): nat
  {
    if IsDigit(c) then c as int - '0' as int else 0
  }

  /** `String(n)` for a natural number: its shortest decimal form. */
  function NatToString(n: nat): (r: string)
    ensures r != [] && forall i :: 0 <= i < |r| ==> IsDigit(r[i])
    ensures |r| > 1 ==> r[0] != '0'
  {
    if n < 10 then [DigitChar(n)] else NatToString(n / 10) + [DigitChar(n % 10)]
  }

  /** `String(n)` for an integer. */
  function IntToString(n: int): string
  {
    if n < 0 then "-" + NatToString(-n) else NatToString(n)
  }

  /** The number of leading decimal digits of `s`. */
  function DigitPrefix(s: string): (k: nat)
    ensures k <= |s| && forall i :: 0 <= i < k ==> IsDigit(s[i])
    ensures k < |s| ==> !IsDigit(s[k])
  {
    if s == [] || !IsDigit(s[0]) then 0 else 1 + DigitPrefix(s[1..])
  }

  /** The value of a string of decimal digits. */
  function DigitsValue(ds: string): nat
  {
    if ds == [] then 0 else 10 * DigitsValue(ds[..|ds| - 1]) + DigitValue(ds[|ds| - 1])
  }

  /**
   * `parseInt(s, 10)`: skip leading white space, read an optional sign and
   * the longest run of digits; None stands for NaN (no digit at all).
   */
  function ParseInt(s: string): Option<int>
  {
    ParseSigned(s[LeadingSpace(s, IsJsSpace)..])
  }

  /** The sign, then the digits. */
  function ParseSigned(t: string): Option<int>
  {
    if t != [] && (t[0] == '-' || t[0] == '+') then ParseDigits(t[1..], t[0] == '-') else ParseDigits(t, false)
  }

  /** The longest run of leading digits, negated when `neg`. */
  function ParseDigits(u: string, neg: bool): Option<int>
  {
    var k := DigitPrefix(u);
    if k == 0 then None
    else if neg then Some(-(DigitsValue(u[..k]) as int))
    else Some(DigitsValue(u[..k]))
  }

  lemma {:induction false} DigitsValueOfNatToString(n: nat)
    ensures DigitsValue(NatToString(n)) == n
  {
    var r := NatToString(n);
    if n >= 10 {
      DigitsValueOfNatToString(n / 10);
      assert r[..|r| - 1] == NatToString(n / 10);
    }
  }

  /** `parseInt(String(n), 10) == n` for every integer. */
  lemma ParseIntOfIntToString(n: int)
    ensures ParseInt(IntToString(n)) == Some(n)
  {
    var m: nat := if n < 0 then -n else n;
    var ds := NatToString(m);
    var s := IntToString(n);
    DigitsValueOfNatToString(m);
    ParseDigitsOfDigits(ds, n < 0);
    NoLeadingSpace(s);
    assert ParseInt(s) == ParseSigned(s) by { assert s[0..] == s; }
    if n < 0 {
      assert s[1..] == ds;
      assert ParseSigned(s) == ParseDigits(ds, true);
    } else {
      assert ParseSigned(s) == ParseDigits(ds, false);
    }
  }

  lemma NoLeadingSpace(s: string)
    requires s != [] && !IsJsSpace(s[0])
    ensures LeadingSpace(s, IsJsSpace) == 0
  {
  }

  lemma ParseDigitsOfDigits(ds: string, neg: bool)
    requires ds != [] && forall i :: 0 <= i < |ds| ==> IsDigit(ds[i])
    ensures ParseDigits(ds, neg) == Some(if neg then -(DigitsValue(ds) as int) else DigitsValue(ds))
  {
    DigitPrefixAllDigits(ds);
    ParseDigitsAt(ds, neg, |ds|);
    assert ds[..|ds|] == ds;
  }

  /** ParseDigits once the length of the digit run is known. */
  lemma ParseDigitsAt(u: string, neg: bool, k: nat)
    requires 0 < k == DigitPrefix(u) <= |u|
    ensures ParseDigits(u, neg) == Some(if neg then -(DigitsValue(u[..k]) as int) else DigitsValue(u[..k]))
  {
  }

  lemma {:induction false} DigitPrefixAllDigits(ds: string)
    requires forall i :: 0 <= i < |ds| ==> IsDigit(ds[i])
    ensures DigitPrefix(ds) == |ds|
  {
    if ds != [] { DigitPrefixAllDigits(ds[1..]); }
  }

  /** Concatenation regroups freely; an explicit step for long chains of appends. */
  lemma AppendAssoc<T>(a: seq<T>, b: seq<T>, c: seq<T>)
    ensures a + b + c == a + (b + c)
  {
  }

  /** `a` is `b` with some elements left out, the rest in their order. */
  predicate IsSubsequence<T(==)>(a: seq<T>, b: seq<T>)
  {
    if a == [] then true
    else if b == [] then false
    else if a[0] == b[0] then IsSubsequence(a[1..], b[1..])
    else IsSubsequence(a, b[1..])
  }

  /** Appending to the longer list keeps a subsequence. */
  lemma {:induction false} SubsequenceExtend<T>(a: seq<T>, b: seq<T>, y: T)
    requires IsSubsequence(a, b)
    ensures IsSubsequence(a, b + [y])
  {
    if a != [] {
      assert (b + [y])[0] == b[0] && (b + [y])[1..] == b[1..] + [y];
      if a[0] == b[0] {
        SubsequenceExtend(a[1..], b[1..], y);
      } else {
        SubsequenceExtend(a, b[1..], y);
      }
    }
  }

  /** Appending the same element to both lists keeps a subsequence. */
  lemma {:induction false} SubsequenceAppendBoth<T>(a: seq<T>, b: seq<T>, x: T)
    requires IsSubsequence(a, b)
    ensures IsSubsequence(a + [x], b + [x])
    decreases |b|
  {
    if a == [] {
      if b == [] {
        assert IsSubsequence([x][1..], [x][1..]);
      } else {
        assert (b + [x])[1..] == b[1..] + [x];
        SubsequenceAppendBoth(a, b[1..], x);
        if b[0] == x {
          assert ([x])[1..] == [];
        }
      }
    } else {
      assert b != [];
      assert (a + [x])[0] == a[0] && (a + [x])[1..] == a[1..] + [x];
      assert (b + [x])[0] == b[0] && (b + [x])[1..] == b[1..] + [x];
      if a[0] == b[0] {
        SubsequenceAppendBoth(a[1..], b[1..], x);
      } else {
        SubsequenceAppendBoth(a, b[1..], x);
      }
    }
  }

  /**
   * The names a plain object inherits from `Object.prototype`: `obj[k]` on an
   * object literal without its own `k` finds a function there (the prototype
   * itself for `__proto__`), not undefined.
   */
  predicate IsInheritedKey(k: string)
  {
    k in ["constructor", "__proto__", "hasOwnProperty", "isPrototypeOf", "propertyIsEnumerable",
          "toLocaleString", "toString", "valueOf", "__defineGetter__", "__defineSetter__",
          "__lookupGetter__", "__lookupSetter__"]
  }

  /** No element occurs twice. */
  predicate Distinct<T(==)>(s: seq<T>)
  {
    forall i, j :: 0 <= i < j < |s| ==> s[i] != s[j]
  }

  /** A distinct list has as many elements as the set of its elements. */
  lemma {:induction false} DistinctCard<T>(s: seq<T>)
    requires Distinct(s)
    ensures |set k | k in s| == |s|
  {
    if s != [] {
      var init := s[..|s| - 1];
      assert Distinct(init) by {
        forall i, j | 0 <= i < j < |init|
          ensures init[i] != init[j]
        {
          assert init[i] == s[i] && init[j] == s[j];
        }
      }
      DistinctCard(init);
      assert (set k | k in s) == (set k | k in init) + {s[|s| - 1]};
      assert s[|s| - 1] !in init by {
        forall i | 0 <= i < |init|
          ensures init[i] != s[|s| - 1]
        {
          assert init[i] == s[i];
        }
      }
    }
  }

  /** Moving one key from the keys still to visit to the keys visited keeps the two a partition. */
  lemma MoveKey<K>(done: set<K>, left: set<K>, k: K)
    requires left !! done && k in left
    ensures (left - {k}) !! (done + {k}) && (left - {k}) + (done + {k}) == left + done
  {
  }

  /** A map whose keys are listed once each by `order` has `|order|` entries. */
  lemma OrderedKeysCard<K, V>(order: seq<K>, m: map<K, V>)
    requires Distinct(order) && forall k :: k in m <==> k in order
    ensures |m| == |order|
  {
    DistinctCard(order);
    assert m.Keys == set k | k in order;
  }

  /** `s` with every occurrence of `x` removed, the rest in order. */
  function Without<T(==,!new)>(s: seq<T>, x: T): (r: seq<T>)
    ensures forall k :: k in r <==> k in s && k != x
    ensures Distinct(s) ==> Distinct(r)
    ensures |r| <= |s|
  {
    if s == [] then []
    else
      var init := s[..|s| - 1];
      var rest := Without(init, x);
      assert forall i :: 0 <= i < |s| - 1 ==> init[i] == s[i];
      assert Distinct(s) ==> Distinct(init) && s[|s| - 1] !in init;
      if s[|s| - 1] == x then rest else rest + [s[|s| - 1]]
  }

  /** The message of the TypeError thrown by reading property `key` of null or undefined. */
  function PropertyAccessError(v: Value, key: string): string
  {
    "Cannot read properties of " + (if v.Null? then "null" else "undefined") + " (reading '" + key + "')"
  }

  /** The sum of a sequence of naturals. */
  function Sum(xs: seq<nat>): nat
  {
    if xs == [] then 0 else xs[0] + Sum(xs[1..])
  }

  function Max(a: int, b: int): int { if a < b then b else a }
  function Min(a: int, b: int): int { if a < b then a else b }
}
