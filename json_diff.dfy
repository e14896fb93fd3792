/**
 * The JSON diff of the console's JSON viewer
 * (components/console/json-viewer/JsonDiffViewer.tsx): the list of added,
 * removed and changed paths between two JSON values, the summary counts
 * over it, and the short display form of a value. The React rendering is
 * not part of this model.
 */
module JsonDiff {
  import opened Common

  /** A JSON value as `JSON.parse` produces it, plus `undefined`; object fields keep their key order. */
  datatype Json =
    | JUndefined
    | JNull
    | JBool(b: bool)
    | JNum(n: int)
    | JStr(s: string)
    | JArr(items: seq<Json>)
    | JObj(fields: seq<Field>)

  datatype Field = Field(key: string, value: Json)

  datatype Change =
    | Added(path: string, after: Json)
    | Removed(path: string, before: Json)
    | Changed(path: string, before: Json, after: Json)

  datatype Summary = Summary(added: nat, removed: nat, changed: nat)

  /** `v === null || v === undefined`. */
  predicate IsNullish(v: Json)
  {
    v.JUndefined? || v.JNull?
  }

  /** A non-nullish value whose `typeof` is not `object`. */
  predicate IsPrimitive(v: Json)
  {
    v.JBool? || v.JNum? || v.JStr?
  }

  /** `Object.keys(fields)`. */
  function Keys(fields: seq<Field>): (r: seq<string>)
    ensures |r| == |fields| && forall i :: 0 <= i < |fields| ==> r[i] == fields[i].key
  {
    seq(|fields|, i requires 0 <= i < |fields| => fields[i].key)
  }

  /** The position of key `k`. */
  function KeyIndex(fields: seq<Field>, k: string): (i: nat)
    requires k in Keys(fields)
    ensures i < |fields| && fields[i].key == k
  {
    if fields[0].key == k then 0
    else
      assert k in Keys(fields[1..]) by {
        var j :| 0 <= j < |fields| && Keys(fields)[j] == k;
        assert j > 0 && Keys(fields[1..])[j - 1] == k;
      }
      1 + KeyIndex(fields[1..], k)
  }

  /** `new Set(keys)` iterated: first occurrences, in order. */
  function Dedupe(s: seq<string>): (r: seq<string>)
    ensures Distinct(r)
    ensures forall k :: k in r <==> k in s
  {
    if s == [] then []
    else
      var rest := Dedupe(s[..|s| - 1]);
      assert s == s[..|s| - 1] + [s[|s| - 1]];
      if s[|s| - 1] in rest then rest else rest + [s[|s| - 1]]
  }

  /** The keys of both objects, those of `prev` first. */
  function AllKeys(pf: seq<Field>, nf: seq<Field>): (r: seq<string>)
    ensures Distinct(r)
    ensures forall k :: k in r <==> k in Keys(pf) || k in Keys(nf)
  {
    Dedupe(Keys(pf) + Keys(nf))
  }

  /** `path ? `${path}.${key}` : key`. */
  function ChildPath(path: string, key: string): (r: string)
    ensures path == "" ==> r == key
    ensures path != "" ==> IsPrefix(path + ".", r) && r[|path| + 1..] == key
  {
    if path == "" then key else path + "." + key
  }

  /**
   * The value as `JSON.stringify` sees it: `undefined` inside an array is
   * written `null` and an object field holding `undefined` is dropped. The
   * diff compares values through this form.
   */
  function Canon(v: Json): (r: Json)
    ensures r.JArr? <==> v.JArr?
    ensures r.JObj? <==> v.JObj?
    ensures v.JArr? ==> |r.items| == |v.items|
    ensures !v.JArr? && !v.JObj? ==> r == v
  {
    match v
    case JArr(items) => JArr(CanonItems(items))
    case JObj(fields) => JObj(CanonFields(fields))
    case _ => v
  }

  function CanonItems(items: seq<Json>): (r: seq<Json>)
    ensures |r| == |items|
  {
    if items == [] then []
    else [if items[0].JUndefined? then JNull else Canon(items[0])] + CanonItems(items[1..])
  }

  function CanonFields(fields: seq<Field>): seq<Field>
  {
    if fields == [] then []
    else if fields[0].value.JUndefined? then CanonFields(fields[1..])
    else [Field(fields[0].key, Canon(fields[0].value))] + CanonFields(fields[1..])
  }

  /** `computeDiff(prev, next, path)`. */
  function Diff(prev: Json, next: Json, path: string): (r: seq<Change>)
    decreases prev, 2
    ensures IsNullish(prev) ==> r == (if IsNullish(next) then [] else [Added(path, next)])
    ensures !IsNullish(prev) && IsNullish(next) ==> r == [Removed(path, prev)]
    ensures !IsNullish(prev) && !IsNullish(next) && (IsPrimitive(prev) || IsPrimitive(next)) ==>
              r == (if prev == next then [] else [Changed(path, prev, next)])
    ensures (prev.JArr? && !IsNullish(next) && !IsPrimitive(next)) || (next.JArr? && !IsNullish(prev) && !IsPrimitive(prev)) ==>
              r == (if Canon(prev) == Canon(next) then [] else [Changed(path, prev, next)])
  {
    if IsNullish(prev) then (if IsNullish(next) then [] else [Added(path, next)])
    else if IsNullish(next) then [Removed(path, prev)]
    else if IsPrimitive(prev) || IsPrimitive(next) then (if prev == next then [] else [Changed(path, prev, next)])
    else if prev.JArr? || next.JArr? then (if Canon(prev) == Canon(next) then [] else [Changed(path, prev, next)])
    else DiffKeys(prev.fields, next.fields, AllKeys(prev.fields, next.fields), path)
  }

  /** The changes of the object branch for the keys `keys`, in order. */
  function DiffKeys(pf: seq<Field>, nf: seq<Field>, keys: seq<string>, path: string): (r: seq<Change>)
    decreases pf, 1, |keys|
  {
    if keys == [] then []
    else DiffKeys(pf, nf, keys[..|keys| - 1], path) + KeyChanges(pf, nf, keys[|keys| - 1], path)
  }

  /** One key of the object branch: added, removed, or the diff of the two values. */
  function KeyChanges(pf: seq<Field>, nf: seq<Field>, k: string, path: string): (r: seq<Change>)
    decreases pf, 0
    ensures k !in Keys(pf) ==> r == [Added(ChildPath(path, k), if k in Keys(nf) then nf[KeyIndex(nf, k)].value else JUndefined)]
    ensures k in Keys(pf) && k !in Keys(nf) ==> r == [Removed(ChildPath(path, k), pf[KeyIndex(pf, k)].value)]
  {
    if k !in Keys(pf) then [Added(ChildPath(path, k), if k in Keys(nf) then nf[KeyIndex(nf, k)].value else JUndefined)]
    else if k !in Keys(nf) then [Removed(ChildPath(path, k), pf[KeyIndex(pf, k)].value)]
    else Diff(pf[KeyIndex(pf, k)].value, nf[KeyIndex(nf, k)].value, ChildPath(path, k))
  }

  /** Comparing a value with itself finds no change, at any depth. */
  lemma {:induction false} DiffSelf(v: Json, path: string)
    decreases v, 2
    ensures Diff(v, v, path) == []
  {
    if v.JObj? {
      DiffKeysSelf(v.fields, AllKeys(v.fields, v.fields), path);
    }
  }

  lemma {:induction false} DiffKeysSelf(fields: seq<Field>, keys: seq<string>, path: string)
    requires forall k :: k in keys ==> k in Keys(fields)
    decreases fields, 1, |keys|
    ensures DiffKeys(fields, fields, keys, path) == []
  {
    if keys != [] {
      var k := keys[|keys| - 1];
      DiffKeysSelf(fields, keys[..|keys| - 1], path);
      DiffSelf(fields[KeyIndex(fields, k)].value, ChildPath(path, k));
    }
  }

  /** The diff of two objects has at least one change per key that only one side has. */
  lemma {:induction false} OneSidedKeysReported(pf: seq<Field>, nf: seq<Field>, keys: seq<string>, path: string, k: string)
    requires k in keys && (k in Keys(pf) <==> k !in Keys(nf))
    ensures exists c :: c in DiffKeys(pf, nf, keys, path) && c.path == ChildPath(path, k) && (c.Added? <==> k in Keys(nf))
  {
    var last := keys[|keys| - 1];
    var init := keys[..|keys| - 1];
    assert keys == init + [last];
    if last == k {
      var c := KeyChanges(pf, nf, k, path)[0];
      assert c in DiffKeys(pf, nf, keys, path);
    } else {
      OneSidedKeysReported(pf, nf, init, path, k);
      var c :| c in DiffKeys(pf, nf, init, path) && c.path == ChildPath(path, k) && (c.Added? <==> k in Keys(nf));
      assert c in DiffKeys(pf, nf, keys, path);
    }
  }

  /**
   * `computeDiff(prev, next, path)`: the object branch walks the keys and
   * appends each key's changes to the list.
   */
  method ComputeDiff(prev: Json, next: Json, path: string) returns (changes: seq<Change>)
    decreases prev, 2
    ensures changes == Diff(prev, next, path)
  {
    changes := [];
    if IsNullish(prev) {
      if !IsNullish(next) {
        changes := changes + [Added(path, next)];
      }
      return;
    }
    if IsNullish(next) {
      changes := changes + [Removed(path, prev)];
      return;
    }
    if IsPrimitive(prev) || IsPrimitive(next) {
      if prev != next {
        changes := changes + [Changed(path, prev, next)];
      }
      return;
    }
    if prev.JArr? || next.JArr? {
      if Canon(prev) != Canon(next) {
        changes := changes + [Changed(path, prev, next)];
      }
      return;
    }
    changes := DiffObject(prev.fields, next.fields, path);
  }

  /** The object branch: the loop over the keys of both objects, appending each key's changes. */
  method DiffObject(pf: seq<Field>, nf: seq<Field>, path: string) returns (changes: seq<Change>)
    decreases pf, 1
    ensures changes == DiffKeys(pf, nf, AllKeys(pf, nf), path)
  {
    changes := [];
    var keys := AllKeys(pf, nf);
    var i := 0;
    while i < |keys|
      invariant 0 <= i <= |keys|
      invariant changes == DiffKeys(pf, nf, keys[..i], path)
    {
      assert keys[..i + 1][..i] == keys[..i];
      var more := DiffKey(pf, nf, keys[i], path);
      changes := changes + more;
      i := i + 1;
    }
    assert keys[..|keys|] == keys;
  }

  /** One key of the object branch: added, removed, or compared recursively. */
  method DiffKey(pf: seq<Field>, nf: seq<Field>, key: string, path: string) returns (changes: seq<Change>)
    decreases pf, 0
    ensures changes == KeyChanges(pf, nf, key, path)
  {
    var currentPath := ChildPath(path, key);
    if key !in Keys(pf) {
      var nextValue := if key in Keys(nf) then nf[KeyIndex(nf, key)].value else JUndefined;
      changes := [Added(currentPath, nextValue)];
    } else if key !in Keys(nf) {
      changes := [Removed(currentPath, pf[KeyIndex(pf, key)].value)];
    } else {
      changes := ComputeDiff(pf[KeyIndex(pf, key)].value, nf[KeyIndex(nf, key)].value, currentPath);
    }
  }

  /** How many changes are additions, removals and changes. */
  function CountAdded(cs: seq<Change>): (n: nat)
    ensures n <= |cs|
  {
    if cs == [] then 0 else CountAdded(cs[..|cs| - 1]) + (if cs[|cs| - 1].Added? then 1 else 0)
  }

  function CountRemoved(cs: seq<Change>): (n: nat)
    ensures n <= |cs|
  {
    if cs == [] then 0 else CountRemoved(cs[..|cs| - 1]) + (if cs[|cs| - 1].Removed? then 1 else 0)
  }

  function CountChanged(cs: seq<Change>): (n: nat)
    ensures n <= |cs|
  {
    if cs == [] then 0 else CountChanged(cs[..|cs| - 1]) + (if cs[|cs| - 1].Changed? then 1 else 0)
  }

  /** The summary badges: the three counts add up to the number of changes. */
  function SummaryOf(cs: seq<Change>): (s: Summary)
    ensures s.added + s.removed + s.changed == |cs|
    ensures s.added == CountAdded(cs) && s.removed == CountRemoved(cs) && s.changed == CountChanged(cs)
  {
    SummaryPartition(cs);
    Summary(CountAdded(cs), CountRemoved(cs), CountChanged(cs))
  }

  lemma {:induction false} SummaryPartition(cs: seq<Change>)
    ensures CountAdded(cs) + CountRemoved(cs) + CountChanged(cs) == |cs|
  {
    if cs != [] {
      SummaryPartition(cs[..|cs| - 1]);
    }
  }

  /** The first 100 code units of `s` (cut at a character boundary), then `tail`. */
  function CutWithTail(s: string, tail: string): (r: string)
    ensures |r| == |JsPrefix(s, 100)| + |tail|
    ensures r[..|r| - |tail|] == JsPrefix(s, 100) && r[|r| - |tail|..] == tail
  {
    var cut := JsPrefix(s, 100);
    assert (cut + tail)[..|cut|] == cut && (cut + tail)[|cut|..] == tail;
    cut + tail
  }

  /**
   * `formatValue(value)`; `pretty` and `compact` are `JSON.stringify` with and
   * without indentation. Lengths and the `substring(0, 100)` cuts count UTF-16
   * code units.
   */
  function FormatValue(v: Json, pretty: Json -> string, compact: Json -> string): (r: string)
    ensures v.JStr? && JsLength(v.s) > 100 ==>
      |r| >= 3 && r[|r| - 3..] == "..." && IsPrefix(r[..|r| - 3], v.s)
      && |r| - 3 < |v.s|
      && (JsLength(r[..|r| - 3]) == 100 || (JsLength(r[..|r| - 3]) == 99 && IsAstral(v.s[|r| - 3])))
    ensures v.JStr? && JsLength(v.s) <= 100 ==> r == "\"" + v.s + "\""
    ensures (v.JArr? || v.JObj?) ==>
      var k := if JsLength(compact(v)) > 100 then |r| - 3 else |r|;
      0 <= k <= |r| && IsPrefix(r[..k], pretty(v)) && JsLength(r[..k]) <= 100
      && (JsLength(pretty(v)) <= 100 ==> r[..k] == pretty(v))
      && (JsLength(pretty(v)) > 100 ==>
            k < |pretty(v)| && (JsLength(r[..k]) == 100 || (JsLength(r[..k]) == 99 && IsAstral(pretty(v)[k]))))
      && r[k..] == (if JsLength(compact(v)) > 100 then "..." else "")
  {
    match v
    case JNull => "null"
    case JUndefined => "undefined"
    case JStr(s) =>
      if JsLength(s) > 100 then
        CutWithTail(s, "...")
      else "\"" + s + "\""
    case JBool(b) => if b then "true" else "false"
    case JNum(n) => IntToString(n)
    case _ =>
      CutWithTail(pretty(v), if JsLength(compact(v)) > 100 then "..." else "")
  }
}
