/** The two blankness tests of java.lang.String that the Todo stores use.
    `s.trim().isEmpty()` (transaction script, clean entity) and `s.isBlank()`
    (DDD value objects) are different predicates: the first drops every
    character up to U+0020, the second every character that
    `Character.isWhitespace` accepts. */
module JavaString {

  /** A character that `String.trim()` removes from either end. */
  predicate IsTrimmable(c: char) {
    c <= ' '
  }

  /** `Character.isWhitespace`: the Unicode space, line and paragraph
      separators other than the no-break spaces U+00A0, U+2007 and U+202F,
      plus U+0009..U+000D and U+001C..U+001F. */
  predicate IsWhitespace(c: char) {
    || ('\t' <= c <= '\r')
    || ('\U{1C}' <= c <= ' ')
    || c == '\U{1680}'
    || ('\U{2000}' <= c <= '\U{2006}')
    || ('\U{2008}' <= c <= '\U{200A}')
    || c == '\U{2028}' || c == '\U{2029}'
    || c == '\U{205F}' || c == '\U{3000}'
  }

  /** Every character of `s` is one that trim() removes. */
  predicate AllTrimmable(s: string) {
    forall i :: 0 <= i < |s| ==> IsTrimmable(s[i])
  }

  /** `String.isBlank()`: empty, or whitespace only. */
  predicate IsBlank(s: string) {
    |s| == 0 || (IsWhitespace(s[0]) && IsBlank(s[1..]))
  }

  /** IsBlank holds exactly when every character is whitespace. */
  lemma {:induction false} IsBlankEveryChar(s: string)
    ensures IsBlank(s) <==> forall i :: 0 <= i < |s| ==> IsWhitespace(s[i])
  {
    if |s| > 0 {
      IsBlankEveryChar(s[1..]);
      assert forall i :: 0 < i < |s| ==> s[i] == s[1..][i - 1];
    }
  }

  /** The UTF-16 code units a character takes in a Java string: a surrogate
      pair for a character beyond U+FFFF, one unit otherwise. */
  function Utf16Units(c: char): nat {
    if c > '\U{FFFF}' then 2 else 1
  }

  /** `String.length()`: the number of UTF-16 code units, so at least one
      and at most two per character. */
  function Utf16Length(s: string): (n: nat)
    ensures |s| <= n <= 2 * |s|
  {
    if |s| == 0 then 0 else Utf16Units(s[0]) + Utf16Length(s[1..])
  }

  /** Text within the Basic Multilingual Plane has one code unit per character. */
  lemma {:induction false} Utf16LengthBmp(s: string)
    requires forall i :: 0 <= i < |s| ==> s[i] <= '\U{FFFF}'
    ensures Utf16Length(s) == |s|
  {
    if |s| > 0 {
      assert forall i :: 0 <= i < |s| - 1 ==> s[1..][i] == s[i + 1];
      Utf16LengthBmp(s[1..]);
    }
  }

  /** Text made only of characters beyond U+FFFF has two code units per character. */
  lemma {:induction false} Utf16LengthSupplementary(s: string)
    requires forall i :: 0 <= i < |s| ==> s[i] > '\U{FFFF}'
    ensures Utf16Length(s) == 2 * |s|
  {
    if |s| > 0 {
      assert forall i :: 0 <= i < |s| - 1 ==> s[1..][i] == s[i + 1];
      Utf16LengthSupplementary(s[1..]);
    }
  }

  function TrimStart(s: string): (r: string)
    ensures |r| <= |s| && r == s[|s| - |r|..]
    ensures r == [] || !IsTrimmable(r[0])
  {
    if |s| > 0 && IsTrimmable(s[0]) then TrimStart(s[1..]) else s
  }

  function TrimEnd(s: string): (r: string)
    ensures |r| <= |s| && r == s[..|r|]
    ensures r == [] || !IsTrimmable(r[|r| - 1])
  {
    if |s| > 0 && IsTrimmable(s[|s| - 1]) then TrimEnd(s[..|s| - 1]) else s
  }

  /** `String.trim()`: `s` without its leading and trailing characters up to U+0020. */
  function Trim(s: string): (r: string)
    ensures |r| <= |s|
    ensures r == [] || (!IsTrimmable(r[0]) && !IsTrimmable(r[|r| - 1]))
  {
    TrimEnd(TrimStart(s))
  }

  lemma {:induction false} TrimStartEmpty(s: string)
    ensures TrimStart(s) == [] <==> AllTrimmable(s)
  {
    if |s| == 0 {
    } else if IsTrimmable(s[0]) {
      var rest := s[1..];
      TrimStartEmpty(rest);
      assert TrimStart(s) == TrimStart(rest);
      if AllTrimmable(rest) {
        forall i | 0 <= i < |s| ensures IsTrimmable(s[i]) {
          if i > 0 { assert s[i] == rest[i - 1]; }
        }
      } else {
        var j :| 0 <= j < |rest| && !IsTrimmable(rest[j]);
        assert s[j + 1] == rest[j];
      }
    } else {
      assert TrimStart(s) == s;
    }
  }

  lemma {:induction false} TrimEndKeepsFirst(s: string)
    requires |s| > 0 && !IsTrimmable(s[0])
    ensures TrimEnd(s) != []
  {
    if |s| > 1 && IsTrimmable(s[|s| - 1]) {
      TrimEndKeepsFirst(s[..|s| - 1]);
    }
  }

  /** `s.trim().isEmpty()` holds exactly when every character of `s` is at most U+0020. */
  lemma TrimEmptyIff(s: string)
    ensures Trim(s) == [] <==> AllTrimmable(s)
  {
    TrimStartEmpty(s);
    if TrimStart(s) != [] {
      TrimEndKeepsFirst(TrimStart(s));
    }
  }

  /** The two tests disagree in both directions: U+0001 is removed by trim()
      but is no whitespace, U+3000 (ideographic space) is whitespace but is
      kept by trim(). */
  lemma TrimAndBlankDiffer()
    ensures AllTrimmable("\U{1}") && !IsBlank("\U{1}")
    ensures IsBlank("\U{3000}") && !AllTrimmable("\U{3000}")
  {
    assert "\U{1}"[0] == '\U{1}';
    assert "\U{3000}"[0] == '\U{3000}';
  }
}
