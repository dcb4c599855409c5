/**
 * The few JavaScript value semantics the app relies on: the `||` fallback on
 * identifiers and strings, string truthiness, `toLowerCase`, `includes`, and
 * the `Alert.alert(title, message)` record shown to the diner.
 *
 * Encoding: identifiers are naturals and 0 stands for every falsy identifier
 * (`null`, `undefined`, `0`); a string whose only use is its truthiness uses ""
 * for "absent"; a string that is compared with `===` is an `Option<string>`.
 */
module Js {
  import opened Wrappers

  /** `a || b` on identifiers. */
  function OrNat(a: nat, b: nat): (r: nat)
    ensures a != 0 ==> r == a
    ensures a == 0 ==> r == b
  {
    if a != 0 then a else b
  }

  /** `a || b` on strings: the empty string is falsy. */
  function OrStr(a: string, b: string): (r: string)
    ensures a != "" ==> r == a
    ensures a == "" ==> r == b
  {
    if a != "" then a else b
  }

  /** Truthiness of an optional string: present and not empty. */
  predicate Truthy(o: Option<string>)
  {
    o.Some? && o.value != ""
  }

  /** `s.toLowerCase()` restricted to the ASCII letters. */
  function LowerChar(c: char): (r: char)
  {
    if 'A' <= c <= 'Z' then (c as int + 32) as char else c
  }

  function Lower(s: string): (r: string)
    ensures |r| == |s|
    ensures forall i :: 0 <= i < |s| ==> r[i] == LowerChar(s[i])
  {
    seq(|s|, i requires 0 <= i < |s| => LowerChar(s[i]))
  }

  /** The UTF-16 code units a character takes: two outside the Basic Multilingual Plane. */
  function CodeUnits(c: char): (n: nat)
    ensures n == 1 || n == 2
  {
    if c as int >= 0x1_0000 then 2 else 1
  }

  /**
   * `s.length`, which counts UTF-16 code units: it equals the number of
   * characters exactly when none lies outside the Basic Multilingual Plane.
   */
  function Utf16Length(s: string): (n: nat)
    ensures |s| <= n <= 2 * |s|
    ensures n == |s| <==> forall i :: 0 <= i < |s| ==> s[i] as int < 0x1_0000
  {
    if s == [] then 0
    else
      assert forall i :: 0 <= i < |s[1..]| ==> s[1..][i] == s[i + 1];
      CodeUnits(s[0]) + Utf16Length(s[1..])
  }

  /** `s.includes(q)`: q occurs in s at some position. */
  predicate Includes(s: string, q: string)
    decreases |s|
  {
    q <= s || (s != [] && Includes(s[1..], q))
  }

  /** q is the slice of s that starts at index i. */
  predicate OccursAt(s: string, q: string, i: int)
  {
    0 <= i <= |s| - |q| && s[i..i + |q|] == q
  }

  /** Includes agrees with its reference definition: q occurs in s at some index. */
  lemma {:induction false} IncludesIsSubstring(s: string, q: string)
    ensures Includes(s, q) <==> exists i :: OccursAt(s, q, i)
    decreases |s|
  {
    if q <= s {
      assert OccursAt(s, q, 0);
    }
    if s != [] {
      IncludesIsSubstring(s[1..], q);
      if exists i :: OccursAt(s[1..], q, i) {
        var i :| OccursAt(s[1..], q, i);
        OccursShifted(s, q, i + 1);
      }
      if exists i :: OccursAt(s, q, i) {
        var i :| OccursAt(s, q, i);
        if i > 0 {
          OccursShifted(s, q, i);
        }
      }
    }
  }

  /** An occurrence at i > 0 in s is an occurrence at i - 1 in the tail, and back. */
  lemma OccursShifted(s: string, q: string, i: int)
    requires s != [] && i > 0
    ensures OccursAt(s, q, i) <==> OccursAt(s[1..], q, i - 1)
  {
    if 0 <= i - 1 <= |s[1..]| - |q| {
      assert s[1..][i - 1..i - 1 + |q|] == s[i..i + |q|];
    }
  }

  /** A dialog shown with `Alert.alert(title, message)`. */
  datatype Alert = Alert(title: string, message: string)

  /**
   * The error dialog shown when the server refuses a request:
   * `Alert.alert('Error', data.message || fallback)`.
   */
  function ServerErrorAlert(message: string, fallback: string): (a: Alert)
    ensures a.title == "Error"
    ensures message != "" ==> a.message == message
    ensures message == "" ==> a.message == fallback
  {
    Alert("Error", OrStr(message, fallback))
  }
}
