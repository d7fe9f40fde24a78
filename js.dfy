/**
 * The few JavaScript value rules the client's stores rely on: truthiness of
 * optional strings, `a || b`, object spread over possibly-missing
 * properties, and the array methods `filter`, `findIndex`, `flat` and `join`.
 */
module Js {
  import opened Wrappers

  /** Truthiness of a `string | null | undefined`: present and non-empty. */
  predicate Truthy(s: Option<string>) {
    s.Some? && s.value != ""
  }

  /** `a || b` where `a` is a string. */
  function Or(a: string, b: string): string {
    if a != "" then a else b
  }

  /** `a || b` where `a` may be null or undefined. */
  function OrOpt(a: Option<string>, b: string): string {
    if Truthy(a) then a.value else b
  }

  /** `a || null`: keeps a truthy string, turns every falsy one into null. */
  function Nullish(a: Option<string>): (r: Option<string>)
    ensures r.Some? <==> Truthy(a)
    ensures r.Some? ==> r == a
  {
    if Truthy(a) then a else None
  }

  /** A property of a JSON object, which may be missing from the object. */
  datatype Prop<+T> = Missing | Has(value: T)

  /** One property of `{ ...base, ...patch }`: the patch wins when it has the key. */
  function Spread<T>(base: Prop<T>, patch: Prop<T>): Prop<T> {
    if patch.Has? then patch else base
  }

  /** As Spread, for a property the base object always carries. */
  function Over<T>(base: T, patch: Prop<T>): T {
    if patch.Has? then patch.value else base
  }

  /** The value read from an optional property: missing reads as undefined, i.e. nullish. */
  function Read<T>(p: Prop<Option<T>>): Option<T> {
    if p.Has? then p.value else None
  }

  /** `Array.prototype.filter`. */
  function Filter<T(!new)>(s: seq<T>, keep: T -> bool): (r: seq<T>)
    ensures |r| <= |s|
    ensures forall x :: x in r <==> x in s && keep(x)
  {
    if s == [] then []
    else
      assert s == [s[0]] + s[1..];
      (if keep(s[0]) then [s[0]] else []) + Filter(s[1..], keep)
  }

  /** Filtering keeps every copy of a survivor and no copy of anything else. */
  lemma {:induction false} FilterCount<T(!new)>(s: seq<T>, keep: T -> bool, x: T)
    ensures multiset(Filter(s, keep))[x] == if keep(x) then multiset(s)[x] else 0
  {
    if s != [] {
      assert s == [s[0]] + s[1..];
      FilterCount(s[1..], keep, x);
    }
  }

  /** Filtering keeps the survivors in their original order. */
  lemma {:induction false} FilterAppend<T(!new)>(a: seq<T>, b: seq<T>, keep: T -> bool)
    ensures Filter(a + b, keep) == Filter(a, keep) + Filter(b, keep)
  {
    if a == [] {
      assert a + b == b;
    } else {
      assert (a + b)[0] == a[0];
      assert (a + b)[1..] == a[1..] + b;
      FilterAppend(a[1..], b, keep);
    }
  }

  /** Filtering with a test every element passes changes nothing. */
  lemma {:induction false} FilterAll<T(!new)>(s: seq<T>, keep: T -> bool)
    requires forall x :: x in s ==> keep(x)
    ensures Filter(s, keep) == s
  {
    if s != [] {
      assert s == [s[0]] + s[1..];
      FilterAll(s[1..], keep);
    }
  }

  /** `Array.prototype.findIndex`: the first index whose element passes, or -1. */
  function FirstIndex<T>(s: seq<T>, test: T -> bool): (i: int)
    ensures -1 <= i < |s|
    ensures i == -1 <==> forall k :: 0 <= k < |s| ==> !test(s[k])
    ensures 0 <= i ==> test(s[i]) && forall k :: 0 <= k < i ==> !test(s[k])
  {
    if s == [] then -1
    else if test(s[0]) then 0
    else
      var j := FirstIndex(s[1..], test);
      if j == -1 then -1 else j + 1
  }

  /** `Array.prototype.flat()` on an array of string arrays. */
  function Flatten(xss: seq<seq<string>>): (r: seq<string>)
    ensures forall x :: x in r <==> exists xs :: xs in xss && x in xs
  {
    if xss == [] then []
    else
      var r := xss[0] + Flatten(xss[1..]);
      assert forall xs :: xs in xss <==> xs == xss[0] || xs in xss[1..];
      r
  }

  /** `Array.prototype.join(sep)` on an array of strings. */
  function Join(parts: seq<string>, sep: string): (r: string)
    ensures parts == [] ==> r == ""
    ensures |parts| == 1 ==> r == parts[0]
  {
    if parts == [] then ""
    else if |parts| == 1 then parts[0]
    else parts[0] + sep + Join(parts[1..], sep)
  }
}
