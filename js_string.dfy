/**
 * `String.prototype.trim` as the chat widget uses it: strip leading and
 * trailing white space and line terminators, as the ECMAScript Language
 * Specification defines them (sections 12.2 and 12.3, with the Unicode
 * category Zs as of Unicode 15).
 *
 * The stripping is defined for any test `space` on characters and proved
 * once for all of them; `Trim` instantiates it with the ECMAScript set.
 */
module JsString {

  /** The characters `trim` removes: white space and line terminators. */
  const Whitespace: set<char> :=
    {'\t', '\n', '\U{000B}', '\U{000C}', '\r', ' ', '\U{00A0}', '\U{1680}',
     '\U{2000}', '\U{2001}', '\U{2002}', '\U{2003}', '\U{2004}', '\U{2005}',
     '\U{2006}', '\U{2007}', '\U{2008}', '\U{2009}', '\U{200A}',
     '\U{2028}', '\U{2029}', '\U{202F}', '\U{205F}', '\U{3000}', '\U{FEFF}'}

  predicate IsSpace(c: char) {
    c in Whitespace
  }

  /** `s` without its leading `space` characters: the longest suffix that does not start with one. */
  function StripStart(space: char -> bool, s: string): (r: string)
    ensures |r| <= |s| && r == s[|s| - |r|..]
    ensures r == [] || !space(r[0])
  {
    if |s| > 0 && space(s[0]) then StripStart(space, s[1..]) else s
  }

  /** `s` without its trailing `space` characters: the longest prefix that does not end with one. */
  function StripEnd(space: char -> bool, s: string): (r: string)
    ensures |r| <= |s| && r == s[..|r|]
    ensures r == [] || !space(r[|r| - 1])
  {
    if |s| > 0 && space(s[|s| - 1]) then StripEnd(space, s[..|s| - 1]) else s
  }

  /** `s` without `space` characters at either end. */
  function Strip(space: char -> bool, s: string): (r: string)
    ensures |r| <= |s|
    ensures r == [] || (!space(r[0]) && !space(r[|r| - 1]))
  {
    StripEnd(space, StripStart(space, s))
  }

  /** Everything `StripStart` removes is a `space` character. */
  lemma {:induction false} StripStartRemovesOnlySpace(space: char -> bool, s: string)
    ensures forall i :: 0 <= i < |s| - |StripStart(space, s)| ==> space(s[i])
  {
    if |s| > 0 && space(s[0]) {
      StripStartRemovesOnlySpace(space, s[1..]);
      forall i | 1 <= i < |s| - |StripStart(space, s)| ensures space(s[i]) {
        assert s[i] == s[1..][i - 1];
      }
    }
  }

  /** Everything `StripEnd` removes is a `space` character. */
  lemma {:induction false} StripEndRemovesOnlySpace(space: char -> bool, s: string)
    ensures forall i :: |StripEnd(space, s)| <= i < |s| ==> space(s[i])
  {
    if |s| > 0 && space(s[|s| - 1]) {
      StripEndRemovesOnlySpace(space, s[..|s| - 1]);
      forall i | |StripEnd(space, s)| <= i < |s| - 1 ensures space(s[i]) {
        assert s[i] == s[..|s| - 1][i];
      }
    }
  }

  /** `s.trim()`: neither end of the result is white space. */
  function Trim(s: string): (r: string)
    ensures |r| <= |s|
    ensures r == [] || (!IsSpace(r[0]) && !IsSpace(r[|r| - 1]))
  {
    Strip(IsSpace, s)
  }

  /** Stripping keeps a contiguous part of `s`: what follows its leading `space` characters. */
  lemma StripKeepsInfix(space: char -> bool, s: string)
    ensures var i, r := |s| - |StripStart(space, s)|, Strip(space, s);
            i + |r| <= |s| && r == s[i..i + |r|]
  {
    var t := StripStart(space, s);
    var r := StripEnd(space, t);
    var i := |s| - |t|;
    calc {
      r;
      t[..|r|];
      s[i..][..|r|];
      s[i..i + |r|];
    }
  }

  /** Stripping removes only `space` characters: everything around the kept part is one. */
  lemma StripRemovesOnlySpace(space: char -> bool, s: string)
    ensures var i, r := |s| - |StripStart(space, s)|, Strip(space, s);
            (forall k :: 0 <= k < i ==> space(s[k]))
            && (forall k :: i + |r| <= k < |s| ==> space(s[k]))
  {
    var t := StripStart(space, s);
    var r := StripEnd(space, t);
    var i := |s| - |t|;
    StripStartRemovesOnlySpace(space, s);
    StripEndRemovesOnlySpace(space, t);
    assert t == s[i..];
    forall k | i + |r| <= k < |s| ensures space(s[k]) {
      assert s[k] == t[k - i];
    }
  }

  /** A string strips to nothing exactly when all its characters are `space` characters. */
  lemma StripEmptyIffBlank(space: char -> bool, s: string)
    ensures Strip(space, s) == [] <==> forall k :: 0 <= k < |s| ==> space(s[k])
  {
    StripRemovesOnlySpace(space, s);
    var t := StripStart(space, s);
    if t != [] {
      assert t[0] == s[|s| - |t|];
    }
  }

  /** Stripping a stripped string changes nothing. */
  lemma StripIdempotent(space: char -> bool, s: string)
    ensures Strip(space, Strip(space, s)) == Strip(space, s)
  {
  }
}
