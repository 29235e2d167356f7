/** The optional value used wherever the source has `undefined`, `null` or a missing key. */
module Wrappers {
  datatype Option<+T> = None | Some(value: T)
}

/**
 * The JavaScript string operations the pages rely on: `trim`, `toLowerCase`,
 * `toUpperCase`, `includes`, `startsWith` and `split`, on `string` = `seq<char>`.
 * Case mapping is restricted to ASCII letters; whitespace is the set that
 * `String.prototype.trim` and the regular-expression class `\s` share.
 */
module Text {
  import opened Wrappers

  /** JavaScript WhiteSpace and LineTerminator characters. */
  predicate IsSpace(c: char) {
    || c == ' ' || c == '\t' || c == '\n' || c == '\r' || c == '\U{000B}' || c == '\U{000C}'
    || c == '\U{00A0}' || c == '\U{1680}' || ('\U{2000}' <= c <= '\U{200A}')
    || c == '\U{2028}' || c == '\U{2029}' || c == '\U{202F}' || c == '\U{205F}'
    || c == '\U{3000}' || c == '\U{FEFF}'
  }

  predicate AllSpace(s: string) {
    forall i :: 0 <= i < |s| ==> IsSpace(s[i])
  }

  predicate NoSpace(s: string) {
    forall i :: 0 <= i < |s| ==> !IsSpace(s[i])
  }

  function LowerChar(c: char): char {
    if 'A' <= c <= 'Z' then (c as int + 32) as char else c
  }

  function UpperChar(c: char): char {
    if 'a' <= c <= 'z' then (c as int - 32) as char else c
  }

  /** `s.toLowerCase()`, ASCII letters only. */
  function ToLower(s: string): string {
    seq(|s|, i requires 0 <= i < |s| => LowerChar(s[i]))
  }

  /** `s.toUpperCase()`, ASCII letters only. */
  function ToUpper(s: string): string {
    seq(|s|, i requires 0 <= i < |s| => UpperChar(s[i]))
  }

  /** Two strings equal up to ASCII case. */
  predicate EqualsIgnoringCase(a: string, b: string) {
    |a| == |b| && forall i :: 0 <= i < |a| ==> LowerChar(a[i]) == LowerChar(b[i])
  }

  /** Lower-casing identifies exactly the strings that agree up to case. */
  lemma ToLowerEqualIff(a: string, b: string)
    ensures ToLower(a) == ToLower(b) <==> EqualsIgnoringCase(a, b)
  {
    if EqualsIgnoringCase(a, b) {
      forall i | 0 <= i < |a| ensures ToLower(a)[i] == ToLower(b)[i] { }
    }
    if ToLower(a) == ToLower(b) {
      forall i | 0 <= i < |a| ensures LowerChar(a[i]) == LowerChar(b[i]) {
        assert ToLower(a)[i] == ToLower(b)[i];
      }
    }
  }

  /** The index of the first non-whitespace character at or after `i`, or `|s|`. */
  function SkipSpaces(s: string, i: nat): (k: nat)
    requires i <= |s|
    ensures i <= k <= |s|
    ensures forall j :: i <= j < k ==> IsSpace(s[j])
    ensures k == |s| || !IsSpace(s[k])
    decreases |s| - i
  {
    if i < |s| && IsSpace(s[i]) then SkipSpaces(s, i + 1) else i
  }

  /** The index just past the last non-whitespace character before `j`, or 0. */
  function BackSpaces(s: string, j: nat): (k: nat)
    requires j <= |s|
    ensures k <= j
    ensures forall m :: k <= m < j ==> IsSpace(s[m])
    ensures k == 0 || !IsSpace(s[k - 1])
  {
    if j > 0 && IsSpace(s[j - 1]) then BackSpaces(s, j - 1) else j
  }

  ghost predicate OccursAt(hay: string, needle: string, i: int) {
    0 <= i && i + |needle| <= |hay| && hay[i..i + |needle|] == needle
  }

  /** `s.trim()`: the slice of `s` that starts where its leading whitespace ends
      and after which only whitespace follows; it has neither leading nor trailing
      whitespace and is empty exactly when `s` is whitespace only. */
  function Trim(s: string): (r: string)
    ensures OccursAt(s, r, SkipSpaces(s, 0))
    ensures r == [] || (!IsSpace(r[0]) && !IsSpace(r[|r| - 1]))
    ensures r == [] <==> AllSpace(s)
    ensures forall j :: SkipSpaces(s, 0) + |r| <= j < |s| ==> IsSpace(s[j])
  {
    var start := SkipSpaces(s, 0);
    if start == |s| then []
    else
      var end := BackSpaces(s, |s|);
      assert !IsSpace(s[start]);
      s[start..end]
  }

  /** `hay.includes(needle)`, written as the search the runtime performs. */
  function Contains(hay: string, needle: string): bool
    decreases |hay|
  {
    if |needle| > |hay| then false
    else hay[..|needle|] == needle || Contains(hay[1..], needle)
  }

  /** The search agrees with the definition of a substring occurrence. */
  lemma {:induction false} ContainsIff(hay: string, needle: string)
    ensures Contains(hay, needle) <==> exists i :: OccursAt(hay, needle, i)
    decreases |hay|
  {
    if |needle| > |hay| {
    } else if hay[..|needle|] == needle {
      assert OccursAt(hay, needle, 0);
    } else {
      ContainsIff(hay[1..], needle);
      if Contains(hay[1..], needle) {
        var i :| OccursAt(hay[1..], needle, i);
        assert hay[1..][i..i + |needle|] == hay[i + 1..i + 1 + |needle|];
        assert OccursAt(hay, needle, i + 1);
      }
      if exists i :: OccursAt(hay, needle, i) {
        var i :| OccursAt(hay, needle, i);
        assert i != 0;
        assert hay[1..][i - 1..i - 1 + |needle|] == hay[i..i + |needle|];
        assert OccursAt(hay[1..], needle, i - 1);
      }
    }
  }

  /** `s.startsWith(prefix)`. */
  predicate StartsWith(s: string, prefix: string) {
    |prefix| <= |s| && s[..|prefix|] == prefix
  }

  /** The first index of `c` in `s`, as `s.indexOf(c)` with -1 read as None. */
  function IndexOf(s: string, c: char): (r: Option<nat>)
    ensures r.None? <==> c !in s
    ensures r.Some? ==> r.value < |s| && s[r.value] == c && c !in s[..r.value]
  {
    if s == [] then None
    else if s[0] == c then Some(0)
    else match IndexOf(s[1..], c)
      case None => None
      case Some(i) => Some(i + 1)
  }

  /** `s.split(sep)` for a one-character separator. */
  function Split(s: string, sep: char): (parts: seq<string>)
    ensures |parts| >= 1
    ensures forall k :: 0 <= k < |parts| ==> sep !in parts[k]
    decreases |s|
  {
    match IndexOf(s, sep)
    case None => [s]
    case Some(i) => [s[..i]] + Split(s[i + 1..], sep)
  }

  /** The first separator of `p + [sep] + rest` is the one right after a separator-free `p`. */
  lemma {:induction false} IndexOfAfter(p: string, sep: char, rest: string)
    requires sep !in p
    ensures IndexOf(p + [sep] + rest, sep) == Some(|p|)
  {
    var s := p + [sep] + rest;
    assert s[|p|] == sep;
    assert s[..|p|] == p;
  }
}
