/** Whitespace as Python's `str.strip` and `str.split` see it. */
module Whitespace {

  /** The characters for which `str.isspace` holds. */
  predicate IsWhite(c: char) {
    var n := c as int;
    || 9 <= n <= 13 || 28 <= n <= 32 || n == 0x85 || n == 0xA0 || n == 0x1680
    || 0x2000 <= n <= 0x200A || n == 0x2028 || n == 0x2029 || n == 0x202F || n == 0x205F || n == 0x3000
  }

  /** These are 29 characters: tab to carriage return, the four separators, the blank, next line,
      and the spaces of the general punctuation block among the others. */
  lemma WhiteIs(c: char)
    ensures IsWhite(c) <==>
              || c in "\t\n\U{0B}\U{0C}\r\U{1C}\U{1D}\U{1E}\U{1F} \U{85}\U{A0}\U{1680}"
              || c in "\U{2000}\U{2001}\U{2002}\U{2003}\U{2004}\U{2005}\U{2006}\U{2007}\U{2008}\U{2009}\U{200A}"
              || c in "\U{2028}\U{2029}\U{202F}\U{205F}\U{3000}"
  {
  }

  function Spaces(n: nat): (r: string)
    ensures |r| == n
  {
    seq(n, _ => ' ')
  }

  function StripLeft(s: string): string {
    if s != [] && IsWhite(s[0]) then StripLeft(s[1..]) else s
  }

  function StripRight(s: string): string {
    if s != [] && IsWhite(s[|s| - 1]) then StripRight(s[..|s| - 1]) else s
  }

  function Strip(s: string): string { StripRight(StripLeft(s)) }

  /** No whitespace at either end. */
  predicate Trimmed(s: string) {
    s == [] || (!IsWhite(s[0]) && !IsWhite(s[|s| - 1]))
  }

  lemma {:induction false} StripPadding(s: string, n: nat)
    ensures StripRight(s + Spaces(n)) == StripRight(s)
  {
    if n == 0 {
      assert s + Spaces(0) == s;
    } else {
      assert (s + Spaces(n))[..|s| + n - 1] == s + Spaces(n - 1);
      StripPadding(s, n - 1);
    }
  }

  lemma {:induction false} StripLeftPadded(s: string, n: nat)
    ensures StripLeft(s + Spaces(n)) == (if StripLeft(s) == [] then [] else StripLeft(s) + Spaces(n))
    decreases |s| + n
  {
    if s == [] {
      assert s + Spaces(n) == Spaces(n);
      if n > 0 {
        assert Spaces(n)[1..] == Spaces(n - 1) == [] + Spaces(n - 1);
        StripLeftPadded([], n - 1);
      }
    } else if IsWhite(s[0]) {
      assert (s + Spaces(n))[1..] == s[1..] + Spaces(n);
      StripLeftPadded(s[1..], n);
    }
  }

  lemma {:induction false} StripLeftShape(s: string)
    ensures |StripLeft(s)| <= |s| && (|StripLeft(s)| == |s| ==> StripLeft(s) == s)
            && (StripLeft(s) != [] ==> !IsWhite(StripLeft(s)[0]))
    ensures StripLeft(s) == s <==> s == [] || !IsWhite(s[0])
  {
    if s != [] && IsWhite(s[0]) { StripLeftShape(s[1..]); }
  }

  lemma {:induction false} StripRightShape(s: string)
    ensures |StripRight(s)| <= |s|
    ensures StripRight(s) == s <==> s == [] || !IsWhite(s[|s| - 1])
  {
    if s != [] && IsWhite(s[|s| - 1]) { StripRightShape(s[..|s| - 1]); }
  }

  lemma TrimmedIsFixed(s: string)
    ensures Strip(s) == s <==> Trimmed(s)
  {
    StripLeftShape(s);
    StripRightShape(s);
    StripRightShape(StripLeft(s));
  }

  /** Padding on the right is invisible to a strip. */
  lemma StripPadded(s: string, n: nat)
    ensures Strip(s + Spaces(n)) == Strip(s)
  {
    StripLeftPadded(s, n);
    if StripLeft(s) != [] {
      StripPadding(StripLeft(s), n);
    }
  }

  /** Strip character by character. */
  lemma StripStep(s: string)
    ensures s != "" && IsWhite(s[0]) ==> Strip(s) == Strip(s[1..])
    ensures s != "" && !IsWhite(s[0]) && IsWhite(s[|s| - 1]) ==> Strip(s) == Strip(s[..|s| - 1])
    ensures s != "" && !IsWhite(s[0]) && !IsWhite(s[|s| - 1]) ==> Strip(s) == s
  {
  }

  lemma {:induction false} StripShrinks(s: string)
    ensures |Strip(s)| <= |s|
    decreases |s|
  {
    hide Strip, IsWhite;
    StripStep(s);
    if s == "" {
      TrimmedIsFixed(s);
    } else if IsWhite(s[0]) {
      StripShrinks(s[1..]);
    } else if IsWhite(s[|s| - 1]) {
      StripShrinks(s[..|s| - 1]);
    }
  }

  /** What a strip leaves runs from the first to the last character that is no whitespace. */
  ghost predicate TrimOf(s: string, l: nat, r: nat) {
    && l <= r <= |s| && (l < r ==> !IsWhite(s[l]) && !IsWhite(s[r - 1]))
    && (forall i :: 0 <= i < l ==> IsWhite(s[i])) && (forall i :: r <= i < |s| ==> IsWhite(s[i]))
  }

  lemma {:induction false} StripLeftAt(s: string) returns (l: nat)
    ensures l <= |s| && StripLeft(s) == s[l..] && (l < |s| ==> !IsWhite(s[l]))
    ensures forall i :: 0 <= i < l ==> IsWhite(s[i])
  {
    hide IsWhite;
    if s != [] && IsWhite(s[0]) {
      var m := StripLeftAt(s[1..]);
      l := m + 1;
      forall i | 0 <= i < l ensures IsWhite(s[i]) { assert i > 0 ==> s[i] == s[1..][i - 1]; }
    } else {
      l := 0;
    }
  }

  lemma {:induction false} StripRightAt(s: string) returns (r: nat)
    ensures r <= |s| && StripRight(s) == s[..r] && (0 < r ==> !IsWhite(s[r - 1]))
    ensures forall i :: r <= i < |s| ==> IsWhite(s[i])
  {
    hide IsWhite;
    if s != [] && IsWhite(s[|s| - 1]) {
      r := StripRightAt(s[..|s| - 1]);
      forall i | r <= i < |s| ensures IsWhite(s[i]) { assert i < |s| - 1 ==> s[i] == s[..|s| - 1][i]; }
    } else {
      r := |s|;
    }
  }

  lemma StripAt(s: string) returns (l: nat, r: nat)
    ensures TrimOf(s, l, r) && Strip(s) == s[l..r]
  {
    hide IsWhite;
    l := StripLeftAt(s);
    var k := StripRightAt(s[l..]);
    r := l + k;
    forall i | r <= i < |s| ensures IsWhite(s[i]) { assert s[i] == s[l..][i - l]; }
  }

  /** Stripping takes the whitespace at both ends and nothing else. */
  lemma StripTrims(s: string, l: nat, r: nat)
    requires TrimOf(s, l, r)
    ensures Strip(s) == s[l..r]
  {
    hide IsWhite;
    var a, b := StripAt(s);
  }
}
