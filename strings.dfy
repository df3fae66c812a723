/**
 * Character classes and the two string rewrites the form script relies on:
 * `String.prototype.trim` and `value.replace(/[\s-]/g, '')`.
 */
module Strings {

  /**
   * ECMAScript's `\s` class, which is also the set `trim()` removes:
   * TAB, LF, VT, FF, CR, SPACE, NO-BREAK SPACE, the Unicode space separators
   * (category Zs), LINE SEPARATOR, PARAGRAPH SEPARATOR and the byte order mark.
   */
  predicate IsWhitespace(c: char) {
    var n := c as int;
    (0x09 <= n <= 0x0D) || n == 0x20 || n == 0xA0 || n == 0x1680 ||
    (0x2000 <= n <= 0x200A) || n == 0x2028 || n == 0x2029 || n == 0x202F ||
    n == 0x205F || n == 0x3000 || n == 0xFEFF
  }

  /** ECMAScript's `\d` class: only the ASCII digits. */
  predicate IsDigit(c: char) {
    '0' <= c <= '9'
  }

  predicate AllWhitespace(s: string) {
    forall i :: 0 <= i < |s| ==> IsWhitespace(s[i])
  }

  predicate NoWhitespace(s: string) {
    forall i :: 0 <= i < |s| ==> !IsWhitespace(s[i])
  }

  predicate AllDigits(s: string) {
    forall i :: 0 <= i < |s| ==> IsDigit(s[i])
  }

  /** A string whose first and last characters (if any) are not whitespace. */
  predicate IsTrimmed(s: string) {
    s == [] || (!IsWhitespace(s[0]) && !IsWhitespace(s[|s| - 1]))
  }

  /** Drops leading whitespace: the result is the suffix of `s` after an all-whitespace prefix. */
  function TrimStart(s: string): (r: string)
    ensures |r| <= |s| && r == s[|s| - |r|..]
    ensures AllWhitespace(s[..|s| - |r|])
    ensures r == [] || !IsWhitespace(r[0])
  {
    if s != [] && IsWhitespace(s[0]) then
      var r := TrimStart(s[1..]);
      assert s[1..][..|s| - 1 - |r|] == s[1..|s| - |r|];
      r
    else
      s
  }

  /** Drops trailing whitespace: the result is the prefix of `s` before an all-whitespace suffix. */
  function TrimEnd(s: string): (r: string)
    ensures |r| <= |s| && r == s[..|r|]
    ensures AllWhitespace(s[|r|..])
    ensures r == [] || !IsWhitespace(r[|r| - 1])
  {
    if s != [] && IsWhitespace(s[|s| - 1]) then
      var r := TrimEnd(s[..|s| - 1]);
      assert s[..|s| - 1][|r|..] + [s[|s| - 1]] == s[|r|..];
      r
    else
      s
  }

  /** `String.prototype.trim`. */
  function Trim(s: string): string {
    TrimEnd(TrimStart(s))
  }

  /** `t` is what is left of `s` after cutting `s[..i]` and `s[j..]`, both whitespace, and `t` is trimmed. */
  ghost predicate TrimsTo(s: string, i: int, j: int, t: string) {
    0 <= i <= j <= |s| && t == s[i..j] &&
    AllWhitespace(s[..i]) && AllWhitespace(s[j..]) && IsTrimmed(t)
  }

  /** The declarative reading of trimming: the largest infix without surrounding whitespace. */
  ghost predicate TrimOf(s: string, t: string) {
    exists i, j :: TrimsTo(s, i, j, t)
  }

  lemma {:induction false} TrimStartAt(s: string, i: nat)
    requires i <= |s| && AllWhitespace(s[..i])
    requires i < |s| ==> !IsWhitespace(s[i])
    ensures TrimStart(s) == s[i..]
    decreases i
  {
    if i > 0 {
      assert s[1..][..i - 1] == s[1..i];
      TrimStartAt(s[1..], i - 1);
      assert s[1..][i - 1..] == s[i..];
    }
  }

  lemma {:induction false} TrimEndAt(s: string, j: nat)
    requires j <= |s| && AllWhitespace(s[j..])
    requires 0 < j ==> !IsWhitespace(s[j - 1])
    ensures TrimEnd(s) == s[..j]
    decreases |s| - j
  {
    if j < |s| {
      var p := s[..|s| - 1];
      assert p[j..] == s[j..|s| - 1];
      TrimEndAt(p, j);
      assert p[..j] == s[..j];
    }
  }

  /** `Trim(s)` is a declarative trim of `s`. */
  lemma TrimIsTrimOf(s: string)
    ensures TrimOf(s, Trim(s))
  {
    var a := TrimStart(s);
    var i := |s| - |a|;
    var r := TrimEnd(a);
    assert a[..|r|] == s[i..i + |r|];
    assert a[|r|..] == s[i + |r|..];
    if r == [] {
      assert s[i..] == a;
      assert TrimsTo(s, i, i, r);
    } else {
      assert TrimsTo(s, i, i + |r|, r);
    }
  }

  /** Any declarative trim of `s` is `Trim(s)`. */
  lemma TrimOfUnique(s: string, t: string)
    requires TrimOf(s, t)
    ensures t == Trim(s)
  {
    var i, j :| TrimsTo(s, i, j, t);
    if t == [] {
      BlankTrimsToEmpty(s, i, j);
    } else {
      TrimmedInfix(s, i, j, t);
    }
  }

  lemma BlankTrimsToEmpty(s: string, i: int, j: int)
    requires TrimsTo(s, i, j, [])
    ensures Trim(s) == []
  {
    assert AllWhitespace(s[..|s|]) by {
      forall k | 0 <= k < |s| ensures IsWhitespace(s[k]) {
        if k < i { assert s[..i][k] == s[k]; } else { assert s[j..][k - j] == s[k]; }
      }
    }
    TrimStartAt(s, |s|);
  }

  lemma TrimmedInfix(s: string, i: int, j: int, t: string)
    requires TrimsTo(s, i, j, t) && t != []
    ensures Trim(s) == t
  {
    assert s[i] == t[0];
    TrimStartAt(s, i);
    var a := TrimStart(s);
    var n := j - i;
    assert a[..n] == t;
    assert a[n..] == s[j..];
    assert a[n - 1] == t[|t| - 1];
    TrimEndAt(a, n);
  }

  /** `Trim` computes exactly the declarative trim, and nothing else does. */
  lemma TrimCharacterised(s: string, t: string)
    ensures TrimOf(s, t) <==> t == Trim(s)
  {
    TrimIsTrimOf(s);
    if TrimOf(s, t) {
      TrimOfUnique(s, t);
    }
  }

  /** Trimming twice is trimming once. */
  lemma TrimIdempotent(s: string)
    ensures Trim(Trim(s)) == Trim(s)
  {
    var t := Trim(s);
    TrimCharacterised(s, t);
    assert IsTrimmed(t) by { var i, j :| TrimsTo(s, i, j, t); }
    if t == [] {
    } else {
      assert t[..0] == [] && t[|t|..] == [];
      assert TrimsTo(t, 0, |t|, t);
      TrimCharacterised(t, t);
    }
  }

  /** Trimming leaves something exactly when the string has a non-whitespace character. */
  lemma TrimEmptyIff(s: string)
    ensures Trim(s) == [] <==> AllWhitespace(s)
  {
    var a := TrimStart(s);
    var i := |s| - |a|;
    if AllWhitespace(s) {
      assert AllWhitespace(s[..|s|]) by { assert s[..|s|] == s; }
      TrimStartAt(s, |s|);
    }
    if Trim(s) == [] {
      assert a == [];
      forall k | 0 <= k < |s| ensures IsWhitespace(s[k]) {
        assert s[..i][k] == s[k];
      }
    }
  }

  /** The characters `replace(/[\s-]/g, '')` deletes. */
  predicate Separator(c: char) {
    IsWhitespace(c) || c == '-'
  }

  predicate NoSeparators(s: string) {
    forall k :: 0 <= k < |s| ==> !Separator(s[k])
  }

  /** `value.replace(/[\s-]/g, '')`: every whitespace character and every hyphen deleted. */
  function Strip(s: string): (r: string)
    ensures |r| <= |s|
    ensures NoSeparators(r)
  {
    if s == [] then [] else (if Separator(s[0]) then [] else [s[0]]) + Strip(s[1..])
  }

  /** Stripping goes character by character, so it distributes over concatenation. */
  lemma {:induction false} StripAppend(a: string, b: string)
    ensures Strip(a + b) == Strip(a) + Strip(b)
    decreases |a|
  {
    if a != [] {
      assert (a + b)[1..] == a[1..] + b;
      StripAppend(a[1..], b);
    } else {
      assert a + b == b;
    }
  }

  /** A string without separators is left as it is; in particular stripping is idempotent. */
  lemma {:induction false} StripNoSeparators(s: string)
    requires NoSeparators(s)
    ensures Strip(s) == s
    decreases |s|
  {
    if s != [] {
      StripNoSeparators(s[1..]);
    }
  }

  /** Every character that survives stripping was a character of the input. */
  lemma {:induction false} StripFrom(s: string, k: nat)
    requires k < |Strip(s)|
    ensures exists i :: 0 <= i < |s| && s[i] == Strip(s)[k]
    decreases |s|
  {
    if Separator(s[0]) {
      StripFrom(s[1..], k);
      var i :| 0 <= i < |s[1..]| && s[1..][i] == Strip(s[1..])[k];
      assert s[i + 1] == Strip(s)[k];
    } else if k == 0 {
      assert s[0] == Strip(s)[0];
    } else {
      StripFrom(s[1..], k - 1);
      var i :| 0 <= i < |s[1..]| && s[1..][i] == Strip(s[1..])[k - 1];
      assert s[i + 1] == Strip(s)[k];
    }
  }
}
