/** Shared wrappers: an optional value and a success-or-error outcome. */
module Common {

  datatype Option<+T> = None | Some(value: T)

  /** The outcome of an operation that can throw: the error carries the reason. */
  datatype Result<+T> = Ok(value: T) | Err(reason: string)

  function Min(a: int, b: int): int { if a <= b then a else b }
}

/** The few string operations of the JavaScript runtime that the model needs, on ASCII text. */
module Strings {
  import opened Common

  predicate EndsWith(s: string, suffix: string) {
    |suffix| <= |s| && s[|s| - |suffix|..] == suffix
  }

  predicate OccursAt(s: string, pattern: string, i: nat) {
    i + |pattern| <= |s| && s[i..i + |pattern|] == pattern
  }

  /** The index of the first occurrence of `pattern` at or after `from` (`indexOf`). */
  function IndexFrom(s: string, pattern: string, from: nat): Option<nat>
    decreases |s| - from
  {
    if from + |pattern| > |s| then None
    else if s[from..from + |pattern|] == pattern then Some(from)
    else IndexFrom(s, pattern, from + 1)
  }

  /** The search finds the first occurrence at or after `from`, and finds nothing only when there is none. */
  lemma {:induction false} IndexFromSpec(s: string, pattern: string, from: nat)
    ensures var r := IndexFrom(s, pattern, from);
            && (r.Some? ==> from <= r.value && OccursAt(s, pattern, r.value))
            && (r.Some? ==> forall j :: from <= j < r.value ==> !OccursAt(s, pattern, j))
            && (r.None? ==> forall j :: from <= j ==> !OccursAt(s, pattern, j))
    decreases |s| - from
  {
    if from + |pattern| <= |s| && s[from..from + |pattern|] != pattern {
      IndexFromSpec(s, pattern, from + 1);
    }
  }

  function IndexOf(s: string, pattern: string): Option<nat> {
    IndexFrom(s, pattern, 0)
  }

  /** `s.replace(pattern, replacement)` with a string pattern: only the first occurrence is replaced. */
  function ReplaceFirst(s: string, pattern: string, replacement: string): string {
    IndexFromSpec(s, pattern, 0);
    match IndexOf(s, pattern)
    case None => s
    case Some(i) => s[..i] + replacement + s[i + |pattern|..]
  }

  /** Where the first occurrence is at `i`, that occurrence and nothing else is replaced. */
  lemma ReplaceFirstAt(s: string, pattern: string, replacement: string, i: nat)
    requires OccursAt(s, pattern, i)
    requires forall j :: 0 <= j < i ==> !OccursAt(s, pattern, j)
    ensures ReplaceFirst(s, pattern, replacement) == s[..i] + replacement + s[i + |pattern|..]
  {
    IndexFromSpec(s, pattern, 0);
  }

  /** A text in which the pattern does not occur is left alone. */
  lemma ReplaceFirstAbsent(s: string, pattern: string, replacement: string)
    requires forall j :: 0 <= j ==> !OccursAt(s, pattern, j)
    ensures ReplaceFirst(s, pattern, replacement) == s
  {
    IndexFromSpec(s, pattern, 0);
  }

  /** Removing the first occurrence of a pattern that occurs only as a suffix strips that suffix. */
  lemma RemoveSuffix(stem: string, suffix: string)
    requires forall j: nat :: j < |stem| ==> !OccursAt(stem + suffix, suffix, j)
    ensures ReplaceFirst(stem + suffix, suffix, "") == stem
  {
    var s := stem + suffix;
    assert OccursAt(s, suffix, |stem|) by { assert s[|stem|..|stem| + |suffix|] == suffix; }
    ReplaceFirstAt(s, suffix, "", |stem|);
    assert s[..|stem|] == stem;
    assert s[|stem| + |suffix|..] == [];
  }

  /** `xs.join(sep)`. */
  function Join(xs: seq<string>, sep: string): string {
    if xs == [] then ""
    else if |xs| == 1 then xs[0]
    else xs[0] + sep + Join(xs[1..], sep)
  }

  predicate IsUpper(c: char) { 'A' <= c <= 'Z' }
  predicate IsLower(c: char) { 'a' <= c <= 'z' }

  function LowerChar(c: char): char {
    if IsUpper(c) then (c as int + 32) as char else c
  }

  function UpperChar(c: char): char {
    if IsLower(c) then (c as int - 32) as char else c
  }

  /** `toLowerCase`, restricted to ASCII letters. */
  function ToLower(s: string): (r: string)
    ensures |r| == |s|
    ensures forall i :: 0 <= i < |s| ==> r[i] == LowerChar(s[i])
  {
    seq(|s|, i requires 0 <= i < |s| => LowerChar(s[i]))
  }

  /** `toUpperCase`, restricted to ASCII letters. */
  function ToUpper(s: string): (r: string)
    ensures |r| == |s|
    ensures forall i :: 0 <= i < |s| ==> r[i] == UpperChar(s[i])
  {
    seq(|s|, i requires 0 <= i < |s| => UpperChar(s[i]))
  }

  predicate NoUpper(s: string) {
    forall i :: 0 <= i < |s| ==> !IsUpper(s[i])
  }

  /** Lower-casing leaves no upper-case letter behind and is idempotent. */
  lemma ToLowerNormalises(s: string)
    ensures NoUpper(ToLower(s))
    ensures ToLower(ToLower(s)) == ToLower(s)
  {
  }

  function DigitChar(d: nat): char
    requires d < 10
  {
    ('0' as int + d) as char
  }

  /** The decimal text of a natural number, as template literals render it. */
  function NatToString(n: nat): (r: string)
    ensures |r| >= 1
    ensures forall i :: 0 <= i < |r| ==> '0' <= r[i] <= '9'
  {
    if n < 10 then [DigitChar(n)] else NatToString(n / 10) + [DigitChar(n % 10)]
  }
}
