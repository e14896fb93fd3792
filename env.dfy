/**
 * Environment-variable helpers (lib/env.ts). `process.env` is the map
 * `env`; an absent variable and an empty one are both falsy.
 */
module Env {
  import opened Common

  type Environment = map<string, string>

  /** The variable is set to a non-empty string. */
  predicate IsSet(env: Environment, key: string)
  {
    key in env && env[key] != ""
  }

  /** `getRequiredEnv(key)`: the value, or an error naming the key. */
  function GetRequiredEnv(env: Environment, key: string): (r: Result<string, string>)
    ensures r.Ok? <==> IsSet(env, key)
    ensures r.Ok? ==> r.value == env[key]
    ensures r.Err? ==> IsPrefix("Missing required environment variable: " + key, r.error)
  {
    if !IsSet(env, key) then
      Err("Missing required environment variable: " + key + ". "
        + "Please check your .env.local file or deployment configuration.")
    else Ok(env[key])
  }

  /** `getOptionalEnv(key, default)`. */
  function GetOptionalEnv(env: Environment, key: string, default: string): (r: string)
    ensures IsSet(env, key) ==> r == env[key]
    ensures !IsSet(env, key) ==> r == default
  {
    if IsSet(env, key) then env[key] else default
  }

  /** Both helpers agree on every key: the optional one falls back exactly when the required one fails. */
  lemma OptionalMatchesRequired(env: Environment, key: string, default: string)
    ensures GetRequiredEnv(env, key).Ok? ==> GetOptionalEnv(env, key, default) == GetRequiredEnv(env, key).value
    ensures GetRequiredEnv(env, key).Err? ==> GetOptionalEnv(env, key, default) == default
  {
  }

  /** `getBooleanEnv(key, default)`: "true" in any ASCII case, or exactly "1". */
  function GetBooleanEnv(env: Environment, key: string, default: bool): (r: bool)
    ensures !IsSet(env, key) ==> r == default
    ensures IsSet(env, key) ==> (r <==> ToLower(env[key]) == "true" || env[key] == "1")
  {
    if !IsSet(env, key) then default else ToLower(env[key]) == "true" || env[key] == "1"
  }

  /** `getNumberEnv(key, default)`: `parseInt(value, 10)`, the default for NaN. */
  function GetNumberEnv(env: Environment, key: string, default: int): (r: int)
    ensures !IsSet(env, key) ==> r == default
    ensures IsSet(env, key) && ParseInt(env[key]).None? ==> r == default
    ensures IsSet(env, key) && ParseInt(env[key]).Some? ==> r == ParseInt(env[key]).value
  {
    if !IsSet(env, key) then default
    else
      var n := ParseInt(env[key]);
      if n.None? then default else n.value
  }

  /** A number written with `String(n)` is read back by getNumberEnv. */
  lemma NumberEnvRoundTrip(env: Environment, key: string, n: int, default: int)
    ensures GetNumberEnv(env[key := IntToString(n)], key, default) == n
  {
    ParseIntOfIntToString(n);
  }

  /** `.map(origin => origin.trim()).filter(Boolean)`. */
  function TrimmedNonEmpty(parts: seq<string>): (r: seq<string>)
    ensures |r| <= |parts|
    ensures forall o :: o in r ==> o != "" && !IsJsSpace(o[0]) && !IsJsSpace(o[|o| - 1])
  {
    if parts == [] then []
    else
      var t := Trim(parts[0]);
      var rest := TrimmedNonEmpty(parts[1..]);
      if t == "" then rest
      else [t] + rest
  }

  /** Every non-blank piece appears trimmed in the list. */
  lemma {:induction false} TrimmedNonEmptyComplete(parts: seq<string>)
    ensures forall k :: 0 <= k < |parts| && Trim(parts[k]) != "" ==> Trim(parts[k]) in TrimmedNonEmpty(parts)
  {
    if parts != [] {
      var rest := TrimmedNonEmpty(parts[1..]);
      var all := TrimmedNonEmpty(parts);
      assert forall o :: o in rest ==> o in all;
      TrimmedNonEmptyComplete(parts[1..]);
      forall k | 0 <= k < |parts| && Trim(parts[k]) != "" ensures Trim(parts[k]) in all {
        if k > 0 {
          assert parts[k] == parts[1..][k - 1];
          assert Trim(parts[k]) in rest;
        }
      }
    }
  }

  /** Every listed origin is the trimmed form of some piece. */
  lemma {:induction false} TrimmedNonEmptySound(parts: seq<string>, o: string)
    requires o in TrimmedNonEmpty(parts)
    ensures exists k :: 0 <= k < |parts| && o == Trim(parts[k])
  {
    if o != Trim(parts[0]) {
      TrimmedNonEmptySound(parts[1..], o);
      var k :| 0 <= k < |parts[1..]| && o == Trim(parts[1..][k]);
      assert parts[1..][k] == parts[k + 1];
    }
  }

  /** Trimming and dropping empties works piece by piece: the origins keep the order of their pieces. */
  lemma {:induction false} TrimmedNonEmptyAppend(a: seq<string>, b: seq<string>)
    ensures TrimmedNonEmpty(a + b) == TrimmedNonEmpty(a) + TrimmedNonEmpty(b)
  {
    if a == [] {
      assert a + b == b;
    } else {
      var ab := a + b;
      assert ab[0] == a[0] && ab[1..] == a[1..] + b;
      TrimmedNonEmptyAppend(a[1..], b);
      var t := Trim(a[0]);
      if t != "" {
        calc {
          TrimmedNonEmpty(ab);
          [t] + TrimmedNonEmpty(a[1..] + b);
          [t] + (TrimmedNonEmpty(a[1..]) + TrimmedNonEmpty(b));
          ([t] + TrimmedNonEmpty(a[1..])) + TrimmedNonEmpty(b);
        }
      }
    }
  }

  /** Every listed origin is the trimmed form of some piece. */
  lemma TrimmedNonEmptySoundAll(parts: seq<string>)
    ensures forall o :: o in TrimmedNonEmpty(parts) ==> exists k :: 0 <= k < |parts| && o == Trim(parts[k])
  {
    forall o | o in TrimmedNonEmpty(parts) ensures exists k :: 0 <= k < |parts| && o == Trim(parts[k]) {
      TrimmedNonEmptySound(parts, o);
    }
  }

  /** The origins of the pieces before any cut come before those of the pieces after it. */
  lemma TrimmedNonEmptySplits(parts: seq<string>)
    ensures forall i :: 0 <= i <= |parts| ==>
      TrimmedNonEmpty(parts) == TrimmedNonEmpty(parts[..i]) + TrimmedNonEmpty(parts[i..])
  {
    forall i | 0 <= i <= |parts|
      ensures TrimmedNonEmpty(parts) == TrimmedNonEmpty(parts[..i]) + TrimmedNonEmpty(parts[i..])
    {
      assert parts == parts[..i] + parts[i..];
      TrimmedNonEmptyAppend(parts[..i], parts[i..]);
    }
  }

  const AllowedOriginsMissing :=
    "ALLOWED_ORIGINS environment variable is required in production. "
    + "Please set it to a comma-separated list of allowed origins."

  /**
   * `getAllowedOrigins()`: the comma-separated ALLOWED_ORIGINS, trimmed,
   * empties dropped; unset means ["*"] in development and an error elsewhere.
   */
  function GetAllowedOrigins(env: Environment): (r: Result<seq<string>, string>)
    ensures !IsSet(env, "ALLOWED_ORIGINS") && GetOptionalEnv(env, "NODE_ENV", "") == "development" ==> r == Ok(["*"])
    ensures !IsSet(env, "ALLOWED_ORIGINS") && GetOptionalEnv(env, "NODE_ENV", "") != "development" ==>
      r == Err(AllowedOriginsMissing)
    ensures IsSet(env, "ALLOWED_ORIGINS") ==> r.Ok?
    ensures IsSet(env, "ALLOWED_ORIGINS") ==> forall o :: o in r.value ==>
      o != "" && !IsJsSpace(o[0]) && !IsJsSpace(o[|o| - 1]) && !HasChar(o, ',')
    ensures IsSet(env, "ALLOWED_ORIGINS") ==> ListsPieces(r.value, Split(env["ALLOWED_ORIGINS"], ','))
  {
    var origins := GetOptionalEnv(env, "ALLOWED_ORIGINS", "");
    if origins == "" then
      if GetOptionalEnv(env, "NODE_ENV", "") == "development" then Ok(["*"]) else Err(AllowedOriginsMissing)
    else
      var parts := Split(origins, ',');
      var r := TrimmedNonEmpty(parts);
      TrimmedNonEmptyLists(parts);
      assert forall o :: o in r ==> !HasChar(o, ',') by {
        forall o | o in r ensures !HasChar(o, ',') {
          TrimmedNonEmptySound(parts, o);
          var k :| 0 <= k < |parts| && o == Trim(parts[k]);
          NoCharAfterTrim(parts[k], ',');
        }
      }
      Ok(r)
  }

  /**
   * `origins` lists the pieces: every non-blank piece appears trimmed, every
   * origin is the trimmed form of a piece, and the origins of the pieces
   * before any cut come before those of the pieces after it.
   */
  ghost predicate ListsPieces(origins: seq<string>, parts: seq<string>)
  {
    && (forall k :: 0 <= k < |parts| && Trim(parts[k]) != "" ==> Trim(parts[k]) in origins)
    && (forall o :: o in origins ==> exists k :: 0 <= k < |parts| && o == Trim(parts[k]))
    && (forall i :: 0 <= i <= |parts| ==> origins == TrimmedNonEmpty(parts[..i]) + TrimmedNonEmpty(parts[i..]))
  }

  /** `.map(trim).filter(Boolean)` lists the pieces, in order. */
  lemma TrimmedNonEmptyLists(parts: seq<string>)
    ensures ListsPieces(TrimmedNonEmpty(parts), parts)
  {
    TrimmedNonEmptyComplete(parts);
    TrimmedNonEmptySoundAll(parts);
    TrimmedNonEmptySplits(parts);
  }

  lemma NoCharAfterTrim(s: string, c: char)
    requires !HasChar(s, c)
    ensures !HasChar(Trim(s), c)
  {
    var t := Trim(s);
    forall i | 0 <= i < |t| ensures t[i] != c {
      assert t[i] in s;
    }
  }

  /**
   * `isOriginAllowed(origin)`: false for a missing origin (before the list
   * is read); otherwise any origin when "*" is listed, else list membership.
   * The error of getAllowedOrigins propagates.
   */
  function IsOriginAllowed(env: Environment, origin: Option<string>): (r: Result<bool, string>)
    ensures origin.None? || origin.value == "" ==> r == Ok(false)
    ensures origin.Some? && origin.value != "" ==>
      (r.Err? <==> GetAllowedOrigins(env).Err?)
    ensures origin.Some? && origin.value != "" && GetAllowedOrigins(env).Ok? ==>
      r == Ok("*" in GetAllowedOrigins(env).value || origin.value in GetAllowedOrigins(env).value)
  {
    if origin.None? || origin.value == "" then Ok(false)
    else
      var allowed := GetAllowedOrigins(env);
      if allowed.Err? then Err(allowed.error)
      else if "*" in allowed.value then Ok(true)
      else Ok(origin.value in allowed.value)
  }

  /** In development with nothing configured every real origin is allowed. */
  lemma DevelopmentAllowsAll(env: Environment, origin: string)
    requires !IsSet(env, "ALLOWED_ORIGINS") && IsSet(env, "NODE_ENV") && env["NODE_ENV"] == "development"
    requires origin != ""
    ensures IsOriginAllowed(env, Some(origin)) == Ok(true)
  {
  }
}
