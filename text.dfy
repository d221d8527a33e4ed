/**
 * The Kotlin string operations the view models use (`isBlank`, `trim`,
 * `lowercase`, `contains`, `equals(ignoreCase = true)`, `split(",").first`,
 * `joinToString`, `startsWith`, `replace`, `compareTo`), as functions on
 * `seq<char>`.
 */
module Text {

  /**
   * Kotlin's `Char.isWhitespace()`: Java's `Character.isWhitespace` or
   * `Character.isSpaceChar`, that is the controls U+0009..U+000D and
   * U+001C..U+001F plus the Unicode space, line and paragraph separators.
   */
  predicate IsWhitespace(c: char) {
    || ('\t' <= c <= '\r')
    || ('\U{1C}' <= c <= ' ')
    || c == '\U{A0}'
    || c == '\U{1680}'
    || ('\U{2000}' <= c <= '\U{200A}')
    || c == '\U{2028}'
    || c == '\U{2029}'
    || c == '\U{202F}'
    || c == '\U{205F}'
    || c == '\U{3000}'
  }

  /** Kotlin's `CharSequence.isBlank()`: empty or whitespace only. */
  predicate IsBlank(s: string) {
    forall i :: 0 <= i < |s| ==> IsWhitespace(s[i])
  }

  /**
   * Kotlin's `String.trim()`: leading and trailing whitespace dropped, one
   * character at a time from either end. The result neither starts nor ends
   * with whitespace, and it is empty exactly when `s` is blank.
   */
  function Trim(s: string): (r: string)
    ensures |r| <= |s|
    ensures r == [] <==> IsBlank(s)
    decreases |s|
  {
    if s == [] then []
    else if IsWhitespace(s[0]) then
      assert IsBlank(s) <==> IsBlank(s[1..]) by {
        assert forall i :: 1 <= i < |s| ==> s[i] == s[1..][i - 1];
      }
      Trim(s[1..])
    else if IsWhitespace(s[|s| - 1]) then
      assert IsBlank(s) <==> IsBlank(s[..|s| - 1]) by {
        assert forall i :: 0 <= i < |s| - 1 ==> s[i] == s[..|s| - 1][i];
      }
      Trim(s[..|s| - 1])
    else
      s
  }

  /** What `Trim` returns neither starts nor ends with whitespace. */
  lemma {:induction false} TrimEnds(s: string)
    ensures Trim(s) == [] || (!IsWhitespace(Trim(s)[0]) && !IsWhitespace(Trim(s)[|Trim(s)| - 1]))
    decreases |s|
  {
    if s != [] && IsWhitespace(s[0]) {
      TrimEnds(s[1..]);
    } else if s != [] && IsWhitespace(s[|s| - 1]) {
      TrimEnds(s[..|s| - 1]);
    }
  }

  /** A slice of a slice is a slice. */
  lemma SliceOfSlice(s: string, lo: nat, hi: nat, k: nat, n: nat)
    requires lo <= hi <= |s| && k + n <= hi - lo
    ensures s[lo..hi][k..k + n] == s[lo + k..lo + k + n]
  {
    var t := s[lo..hi][k..k + n];
    assert forall i :: 0 <= i < n ==> t[i] == s[lo + k + i];
  }

  /** Leading whitespace: the piece found in `s[1..]` at `j` lies in `s` at `j + 1`. */
  lemma TrimInfixFront(s: string, j: nat)
    requires s != [] && IsWhitespace(s[0])
    requires j + |Trim(s[1..])| <= |s| - 1 && Trim(s[1..]) == s[1..][j..j + |Trim(s[1..])|]
    ensures j + 1 + |Trim(s)| <= |s| && Trim(s) == s[j + 1..j + 1 + |Trim(s)|]
  {
    var t := Trim(s);
    assert t == Trim(s[1..]);
    SliceOfSlice(s, 1, |s|, j, |t|);
  }

  /** Trailing whitespace: the piece found in `s[..|s| - 1]` at `k` lies in `s` at `k`. */
  lemma TrimInfixBack(s: string, k: nat)
    requires s != [] && !IsWhitespace(s[0]) && IsWhitespace(s[|s| - 1])
    requires k + |Trim(s[..|s| - 1])| <= |s| - 1 && Trim(s[..|s| - 1]) == s[..|s| - 1][k..k + |Trim(s[..|s| - 1])|]
    ensures k + |Trim(s)| <= |s| && Trim(s) == s[k..k + |Trim(s)|]
  {
    var t := Trim(s);
    assert t == Trim(s[..|s| - 1]);
    SliceOfSlice(s, 0, |s| - 1, k, |t|);
  }

  /** `Trim` returns a contiguous piece of its input. */
  lemma {:induction false} TrimInfix(s: string) returns (k: nat)
    ensures k + |Trim(s)| <= |s| && Trim(s) == s[k..k + |Trim(s)|]
    decreases |s|
  {
    if s == [] {
      k := 0;
    } else if IsWhitespace(s[0]) {
      var j := TrimInfix(s[1..]);
      TrimInfixFront(s, j);
      k := j + 1;
    } else if IsWhitespace(s[|s| - 1]) {
      k := TrimInfix(s[..|s| - 1]);
      TrimInfixBack(s, k);
    } else {
      assert Trim(s) == s;
      k := 0;
    }
  }

  /** `Trim` of something already trimmed changes nothing. */
  lemma TrimIdempotent(s: string)
    ensures Trim(Trim(s)) == Trim(s)
  {
    TrimEnds(s);
  }

  /** Kotlin's `Char.lowercaseChar()`, on the ASCII letters. */
  function LowerChar(c: char): (d: char)
    ensures 'A' <= c <= 'Z' ==> 'a' <= d <= 'z'
    ensures !('A' <= c <= 'Z') ==> d == c
  {
    if 'A' <= c <= 'Z' then (c as int + 32) as char else c
  }

  /** Kotlin's `String.lowercase()`, on the ASCII letters. */
  function Lower(s: string): (r: string)
    ensures |r| == |s|
    ensures forall i :: 0 <= i < |s| ==> r[i] == LowerChar(s[i])
  {
    seq(|s|, i requires 0 <= i < |s| => LowerChar(s[i]))
  }

  /** Lower-casing twice is lower-casing once. */
  lemma LowerIdempotent(s: string)
    ensures Lower(Lower(s)) == Lower(s)
  {
  }

  /** Kotlin's `String.startsWith(prefix)`. */
  predicate StartsWith(s: string, prefix: string) {
    |prefix| <= |s| && s[..|prefix|] == prefix
  }

  /** Kotlin's `CharSequence.contains(other)`: `other` occurs at some index (the empty string everywhere). */
  predicate Contains(s: string, part: string) {
    exists i :: 0 <= i <= |s| && StartsWith(s[i..], part)
  }

  /** Kotlin's `String.equals(other, ignoreCase = true)`, on the ASCII letters. */
  predicate EqualsIgnoreCase(a: string, b: string) {
    Lower(a) == Lower(b)
  }

  /** `equals(ignoreCase = true)` is an equivalence that includes plain equality. */
  lemma EqualsIgnoreCaseIsEquivalence(a: string, b: string, c: string)
    ensures EqualsIgnoreCase(a, a)
    ensures EqualsIgnoreCase(a, b) ==> EqualsIgnoreCase(b, a)
    ensures EqualsIgnoreCase(a, b) && EqualsIgnoreCase(b, c) ==> EqualsIgnoreCase(a, c)
  {
  }

  /** `s.split(sep).first()`: everything before the first `sep`, or all of `s`. */
  function BeforeFirst(s: string, sep: char): (r: string)
    ensures |r| <= |s| && r == s[..|r|]
    ensures sep !in r
    ensures |r| < |s| ==> s[|r|] == sep
  {
    if s == [] || s[0] == sep then [] else [s[0]] + BeforeFirst(s[1..], sep)
  }

  /** Kotlin's `replace(old, "")` for a one-character `old`: every `c` removed. */
  function Remove(s: string, c: char): (r: string)
    ensures |r| <= |s|
    ensures c !in r
    ensures forall d :: d != c ==> multiset(r)[d] == multiset(s)[d]
  {
    if s == [] then []
    else
      assert s == [s[0]] + s[1..];
      (if s[0] == c then [] else [s[0]]) + Remove(s[1..], c)
  }

  /** Kotlin's `joinToString(sep)`. */
  function Join(parts: seq<string>, sep: string): string {
    if parts == [] then []
    else if |parts| == 1 then parts[0]
    else parts[0] + sep + Join(parts[1..], sep)
  }

  /** Joining non-empty parts gives the empty string only when there are no parts. */
  lemma {:induction false} JoinEmpty(parts: seq<string>, sep: string)
    requires forall i :: 0 <= i < |parts| ==> parts[i] != []
    ensures Join(parts, sep) == [] <==> parts == []
  {
    if |parts| > 1 {
      assert |Join(parts, sep)| >= |parts[0]| > 0;
    }
  }

  /** Kotlin's `String.compareTo(other) <= 0`: lexicographic by character, a prefix first. */
  predicate LexLe(a: string, b: string) {
    a == [] || (b != [] && (a[0] < b[0] || (a[0] == b[0] && LexLe(a[1..], b[1..]))))
  }

  lemma {:induction false} LexLeTotal(a: string, b: string)
    ensures LexLe(a, b) || LexLe(b, a)
  {
    if a != [] && b != [] && a[0] == b[0] {
      LexLeTotal(a[1..], b[1..]);
    }
  }

  lemma {:induction false} LexLeTransitive(a: string, b: string, c: string)
    requires LexLe(a, b) && LexLe(b, c)
    ensures LexLe(a, c)
  {
    if a != [] && a[0] == b[0] && b[0] == c[0] {
      LexLeTransitive(a[1..], b[1..], c[1..]);
    }
  }

  lemma {:induction false} LexLeAntisymmetric(a: string, b: string)
    requires LexLe(a, b) && LexLe(b, a)
    ensures a == b
  {
    if a != [] && b != [] {
      LexLeAntisymmetric(a[1..], b[1..]);
      assert a == [a[0]] + a[1..];
      assert b == [b[0]] + b[1..];
    }
  }
}
