/**
 * Character classes of JavaScript regular expressions and `String.prototype.trim`.
 * `\w` is `[A-Za-z0-9_]`; `\s` and `trim` both use the ECMAScript WhiteSpace and
 * LineTerminator code points.
 */
module Chars {

  predicate IsWordChar(c: char) {
    ('a' <= c <= 'z') || ('A' <= c <= 'Z') || ('0' <= c <= '9') || c == '_'
  }

  predicate IsJsWhitespace(c: char) {
    c == '\t' || c == '\n' || c == '\U{000B}' || c == '\U{000C}' || c == '\r' || c == ' '
    || c == '\U{00A0}' || c == '\U{1680}' || ('\U{2000}' <= c <= '\U{200A}')
    || c == '\U{2028}' || c == '\U{2029}' || c == '\U{202F}' || c == '\U{205F}'
    || c == '\U{3000}' || c == '\U{FEFF}'
  }

  /** How many UTF-16 code units JavaScript spends on a code point: two above U+FFFF, otherwise one. */
  function Utf16Units(c: char): nat {
    if c as int > 0xFFFF then 2 else 1
  }

  /** JavaScript's `s.length`: the number of UTF-16 code units, between one and two per code point. */
  function Utf16Length(s: string): (n: nat)
    ensures |s| <= n <= 2 * |s|
    ensures n == 0 <==> s == []
  {
    if s == [] then 0 else Utf16Units(s[0]) + Utf16Length(s[1..])
  }

  lemma {:induction false} Utf16LengthAppend(a: string, b: string)
    ensures Utf16Length(a + b) == Utf16Length(a) + Utf16Length(b)
  {
    if a == [] {
      assert a + b == b;
    } else {
      assert (a + b)[0] == a[0] && (a + b)[1..] == a[1..] + b;
      Utf16LengthAppend(a[1..], b);
    }
  }

  /** A string of code points above U+FFFF is twice as long in JavaScript as it has code points. */
  lemma {:induction false} Utf16LengthAstral(s: string)
    requires forall k :: 0 <= k < |s| ==> s[k] as int > 0xFFFF
    ensures Utf16Length(s) == 2 * |s|
  {
    if s != [] {
      assert s[0] as int > 0xFFFF;
      Utf16LengthAstral(s[1..]);
    }
  }

  /** `s.trim()` is non-empty: some character is not whitespace. */
  predicate NonBlank(s: string) {
    exists i :: 0 <= i < |s| && !IsJsWhitespace(s[i])
  }

  /** The index of the first non-whitespace character at or after `from`, or `|s|`. */
  function FirstNonBlankFrom(s: string, from: nat): (i: nat)
    requires from <= |s|
    ensures from <= i <= |s|
    ensures forall k :: from <= k < i ==> IsJsWhitespace(s[k])
    ensures i == |s| || !IsJsWhitespace(s[i])
    decreases |s| - from
  {
    if from == |s| || !IsJsWhitespace(s[from]) then from else FirstNonBlankFrom(s, from + 1)
  }

  /** The end of the last non-whitespace character before `hi` and not before `lo`, or `lo`. */
  function LastNonBlankBefore(s: string, lo: nat, hi: nat): (j: nat)
    requires lo <= hi <= |s|
    ensures lo <= j <= hi
    ensures forall k :: j <= k < hi ==> IsJsWhitespace(s[k])
    ensures j == lo || !IsJsWhitespace(s[j - 1])
    decreases hi
  {
    if hi == lo || !IsJsWhitespace(s[hi - 1]) then hi else LastNonBlankBefore(s, lo, hi - 1)
  }

  /**
   * `trim`: what is kept is a contiguous middle of the string starting at its first
   * non-whitespace character, everything dropped is whitespace, and the result
   * neither starts nor ends with whitespace.
   */
  function Trim(s: string): (r: string)
    ensures var i := FirstNonBlankFrom(s, 0);
            && i + |r| <= |s| && r == s[i..i + |r|]
            && (forall k :: 0 <= k < i ==> IsJsWhitespace(s[k]))
            && (forall k :: i + |r| <= k < |s| ==> IsJsWhitespace(s[k]))
    ensures r == [] || (!IsJsWhitespace(r[0]) && !IsJsWhitespace(r[|r| - 1]))
  {
    var i := FirstNonBlankFrom(s, 0);
    s[i..LastNonBlankBefore(s, i, |s|)]
  }

  /** Trimming keeps exactly the non-blank strings non-empty, and trimming twice is trimming once. */
  lemma TrimProperties(s: string)
    ensures Trim(s) != [] <==> NonBlank(s)
    ensures Trim(Trim(s)) == Trim(s)
  {
    var r := Trim(s);
    var i := FirstNonBlankFrom(s, 0);
    if r != [] {
      assert s[i] == r[0];
      assert FirstNonBlankFrom(r, 0) == 0;
      assert LastNonBlankBefore(r, 0, |r|) == |r|;
    }
  }
}
