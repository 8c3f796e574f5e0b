/** The small part of Kotlin's String API the analyzer and the app list rely on,
    over `string` = `seq<char>`. */
module Strings {

  /** `s.startsWith(prefix)` */
  predicate StartsWith(s: string, prefix: string) {
    prefix <= s
  }

  /** `s.endsWith(suffix)` */
  predicate EndsWith(s: string, suffix: string) {
    |suffix| <= |s| && forall i :: 0 <= i < |suffix| ==> s[|s| - |suffix| + i] == suffix[i]
  }

  /** `s.contains(part)`: `part` occurs in `s` at some position (the empty string occurs everywhere). */
  predicate Contains(s: string, part: string) {
    exists i :: 0 <= i <= |s| && OccursAt(s, part, i)
  }

  /** `part` occurs in `s` starting at position `i`. */
  predicate OccursAt(s: string, part: string, i: nat) {
    i + |part| <= |s| && s[i..i + |part|] == part
  }

  /** The position of the last `c` in `s`, or -1 when there is none (`lastIndexOf`). */
  function LastIndexOf(s: string, c: char): (k: int)
    ensures -1 <= k < |s|
    ensures k >= 0 ==> s[k] == c
    ensures forall i :: k < i < |s| ==> s[i] != c
  {
    if s == [] then -1
    else if s[|s| - 1] == c then |s| - 1
    else LastIndexOf(s[..|s| - 1], c)
  }

  /** `s.substringAfterLast(delim)`: everything after the last `delim`, or all of `s` when `delim`
      does not occur (`SubstringAfterLastSuffix` states which suffix it is). */
  function SubstringAfterLast(s: string, delim: char): (r: string)
    ensures |r| <= |s|
    ensures delim !in r
  {
    var k := LastIndexOf(s, delim);
    if k < 0 then s else s[k + 1..]
  }

  /** The result of `substringAfterLast` is the longest suffix of `s` free of `delim`. */
  lemma SubstringAfterLastSuffix(s: string, delim: char)
    ensures var r := SubstringAfterLast(s, delim);
      && (forall i :: 0 <= i < |r| ==> r[i] == s[|s| - |r| + i])
      && (|r| < |s| ==> s[|s| - |r| - 1] == delim)
  {
  }

  /** `s.substringBeforeLast(delim)`: everything before the last `delim`, or all of `s` when `delim`
      does not occur (`SubstringBeforeLastPrefix` states which prefix it is). */
  function SubstringBeforeLast(s: string, delim: char): (r: string)
    ensures |r| <= |s|
  {
    var k := LastIndexOf(s, delim);
    if k < 0 then s else s[..k]
  }

  /** The result of `substringBeforeLast` is `s` cut just before its last `delim`. */
  lemma SubstringBeforeLastPrefix(s: string, delim: char)
    ensures var r := SubstringBeforeLast(s, delim);
      && (forall i :: 0 <= i < |r| ==> r[i] == s[i])
      && (|r| < |s| ==> s[|r|] == delim && forall i :: |r| < i < |s| ==> s[i] != delim)
      && (|r| == |s| ==> delim !in s)
  {
  }

  /** `s.replace(from, to)` for one-character arguments. */
  function ReplaceChar(s: string, from: char, to: char): (r: string)
    ensures |r| == |s|
    ensures from != to ==> from !in r
  {
    seq(|s|, i requires 0 <= i < |s| => if s[i] == from then to else s[i])
  }

  /** `replace` works position by position: each `from` becomes `to` and every other character stays
      where it was. */
  lemma ReplaceCharPositions(s: string, from: char, to: char)
    ensures forall i :: 0 <= i < |s| && s[i] != from ==> ReplaceChar(s, from, to)[i] == s[i]
    ensures forall i :: 0 <= i < |s| && s[i] == from ==> ReplaceChar(s, from, to)[i] == to
  {
  }

  /** Replacement works piece by piece. */
  lemma ReplaceCharConcat(s: string, t: string, from: char, to: char)
    ensures ReplaceChar(s + t, from, to) == ReplaceChar(s, from, to) + ReplaceChar(t, from, to)
  {
  }

  /** Replacing `from` by a character `to` that `s` does not hold can be undone, so `replace` keeps every
      other character in place and turns each `from` into `to`. */
  lemma ReplaceCharRoundTrip(s: string, from: char, to: char)
    requires to !in s
    ensures ReplaceChar(ReplaceChar(s, from, to), to, from) == s
  {
  }

  /** `s.replace(c.toString(), "")`: `s` with every `c` removed. */
  function RemoveChar(s: string, c: char): (r: string)
    ensures c !in r
    ensures forall x {:trigger x in r} :: x in r <==> x in s && x != c
  {
    if s == [] then []
    else (if s[0] == c then [] else [s[0]]) + RemoveChar(s[1..], c)
  }

  /** Removing a character that does not occur changes nothing. */
  lemma {:induction false} RemoveCharAbsent(s: string, c: char)
    requires c !in s
    ensures RemoveChar(s, c) == s
  {
    if s != [] {
      RemoveCharAbsent(s[1..], c);
    }
  }

  /** Removal works piece by piece, so the remaining characters keep their order and multiplicity. */
  lemma {:induction false} RemoveCharConcat(s: string, t: string, c: char)
    ensures RemoveChar(s + t, c) == RemoveChar(s, c) + RemoveChar(t, c)
  {
    if s == [] {
      assert s + t == t;
    } else {
      assert (s + t)[1..] == s[1..] + t;
      RemoveCharConcat(s[1..], t, c);
    }
  }

  /** ASCII case folding of one character (Kotlin's `lowercase()` restricted to 'A'..'Z'). */
  function LowerChar(c: char): char {
    if 'A' <= c <= 'Z' then (c as int - 'A' as int + 'a' as int) as char else c
  }

  /** `s.lowercase()`, character by character. */
  function Lowercase(s: string): string {
    seq(|s|, i requires 0 <= i < |s| => LowerChar(s[i]))
  }

  /** The characters Java's `Character.isWhitespace` accepts below U+0080. */
  predicate IsWhitespace(c: char) {
    c == ' ' || '\t' <= c <= '\r' || '\U{1C}' <= c <= '\U{1F}'
  }

  /** `s.isBlank()`: empty or made only of whitespace. */
  predicate IsBlank(s: string) {
    forall i :: 0 <= i < |s| ==> IsWhitespace(s[i])
  }

  /** `a.compareTo(b) <= 0`: lexicographic order over characters, a proper prefix first. */
  predicate LexLe(a: string, b: string) {
    a == [] || (b != [] && (a[0] < b[0] || (a[0] == b[0] && LexLe(a[1..], b[1..]))))
  }

  lemma {:induction false} LexLeTotal(a: string, b: string)
    ensures LexLe(a, b) || LexLe(b, a)
  {
    if a != [] && b != [] && a[0] == b[0] {
      LexLeTotal(a[1..], b[1..]);
    }
  }

  lemma {:induction false} LexLeTransitive(a: string, b: string, c: string)
    requires LexLe(a, b) && LexLe(b, c)
    ensures LexLe(a, c)
  {
    if a != [] && a[0] == b[0] && b[0] == c[0] {
      LexLeTransitive(a[1..], b[1..], c[1..]);
    }
  }
}
