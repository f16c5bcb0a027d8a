/**
 * String helpers the program relies on: Python's substring test `t in s`
 * and `str.strip()` with no argument.
 */
module Text {

  /** `t` occurs in `s` starting at index `i`. */
  predicate OccursAt(s: string, t: string, i: int) {
    0 <= i && i + |t| <= |s| && s[i..i + |t|] == t
  }

  /** Python's `t in s` on strings: `t` occurs somewhere in `s` as a contiguous block. */
  predicate Contains(s: string, t: string) {
    exists i :: 0 <= i <= |s| - |t| && OccursAt(s, t, i)
  }

  /** Checking an occurrence character by character. */
  lemma ContainsAtEach(s: string, t: string, i: nat)
    requires i + |t| <= |s| && forall j :: 0 <= j < |t| ==> s[i + j] == t[j]
    ensures Contains(s, t)
  {
    assert OccursAt(s, t, i);
  }

  /** Every character of `t` occurs in any string that contains `t`. */
  lemma ContainsHasChar(s: string, t: string, k: nat)
    requires k < |t|
    ensures Contains(s, t) ==> t[k] in s
  {
    if Contains(s, t) {
      var i :| 0 <= i <= |s| - |t| && OccursAt(s, t, i);
      assert s[i + k] == s[i..i + |t|][k];
    }
  }

  /** A string missing one of `t`'s characters does not contain `t`. */
  lemma LacksChar(s: string, t: string, k: nat)
    requires k < |t| && t[k] !in s
    ensures !Contains(s, t)
  {
    ContainsHasChar(s, t, k);
  }

  /** Python's `str.isspace()` for one character (the Unicode White_Space characters Python strips). */
  predicate IsSpace(c: char) {
    c in Whitespace
  }

  /** The characters `str.isspace()` accepts: tab to carriage return, the four
      information separators, space, next line, no-break space, the Ogham space
      mark, the spaces from en quad to hair space, the line and paragraph
      separators, narrow no-break space, medium mathematical space and
      ideographic space. */
  const Whitespace: set<char> := {
    '\t', '\n', '\U{b}', '\U{c}', '\r', '\U{1c}', '\U{1d}', '\U{1e}', '\U{1f}', ' ',
    '\U{85}', '\U{a0}', '\U{1680}',
    '\U{2000}', '\U{2001}', '\U{2002}', '\U{2003}', '\U{2004}', '\U{2005}',
    '\U{2006}', '\U{2007}', '\U{2008}', '\U{2009}', '\U{200a}',
    '\U{2028}', '\U{2029}', '\U{202f}', '\U{205f}', '\U{3000}'
  }

  /** `s.lstrip()`: drop leading whitespace. */
  function StripLeading(s: string): string {
    if |s| > 0 && IsSpace(s[0]) then StripLeading(s[1..]) else s
  }

  /** What `lstrip` removes is a whitespace prefix, and what it keeps is the rest,
      starting with a character that is not whitespace. */
  lemma {:induction false} StripLeadingSpec(s: string)
    ensures var r := StripLeading(s);
      |r| <= |s| && r == s[|s| - |r|..] &&
      (r == [] || !IsSpace(r[0])) &&
      forall i :: 0 <= i < |s| - |r| ==> IsSpace(s[i])
  {
    if |s| > 0 && IsSpace(s[0]) {
      var t := s[1..];
      StripLeadingSpec(t);
      var r := StripLeading(t);
      assert s[|s| - |r|..] == t[|t| - |r|..];
      assert forall i :: 1 <= i < |s| ==> s[i] == t[i - 1];
    }
  }

  /** `s.rstrip()`: drop trailing whitespace. */
  function StripTrailing(s: string): string {
    if |s| > 0 && IsSpace(s[|s| - 1]) then StripTrailing(s[..|s| - 1]) else s
  }

  /** What `rstrip` removes is a whitespace suffix, and what it keeps is the rest,
      ending with a character that is not whitespace. */
  lemma {:induction false} StripTrailingSpec(s: string)
    ensures var r := StripTrailing(s);
      |r| <= |s| && r == s[..|r|] &&
      (r == [] || !IsSpace(r[|r| - 1])) &&
      forall i :: |r| <= i < |s| ==> IsSpace(s[i])
  {
    if |s| > 0 && IsSpace(s[|s| - 1]) {
      var t := s[..|s| - 1];
      StripTrailingSpec(t);
      var r := StripTrailing(t);
      assert s[..|r|] == t[..|r|];
      assert forall i :: 0 <= i < |t| ==> s[i] == t[i];
    }
  }

  /** `s.strip()`: drop whitespace at both ends. */
  function Strip(s: string): string {
    StripTrailing(StripLeading(s))
  }

  /** A string strips to nothing exactly when every character is whitespace. */
  lemma StripEmptyIffBlank(s: string)
    ensures Strip(s) == [] <==> forall i :: 0 <= i < |s| ==> IsSpace(s[i])
  {
    var l := StripLeading(s);
    StripLeadingSpec(s);
    StripTrailingSpec(l);
    if Strip(s) == [] {
      assert l == [];
    } else {
      var k := |s| - |l|;
      assert !IsSpace(s[k]) by {
        assert l != [];
        assert s[k] == l[0];
      }
    }
  }
}
