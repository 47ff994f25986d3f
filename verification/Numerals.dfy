/** Integers as text: `str(n)`, `f"{n:x}"` and `int(s, base)`. */
module Numerals {
  import opened Options
  import opened Whitespace

  predicate IsDigit(c: char, base: nat) {
    DigitValue(c) < base
  }

  /** 99 for a character that is no digit in any base used here. */
  function DigitValue(c: char): nat {
    if '0' <= c <= '9' then c as int - '0' as int
    else if 'a' <= c <= 'f' then c as int - 'a' as int + 10
    else if 'A' <= c <= 'F' then c as int - 'A' as int + 10
    else 99
  }

  function DigitChar(d: nat): (c: char)
    requires d < 16
    ensures DigitValue(c) == d
  {
    if d < 10 then (d + '0' as int) as char else (d - 10 + 'a' as int) as char
  }

  predicate BaseOk(base: nat) { base == 10 || base == 16 }

  /** `str.isdigit`, for ASCII. */
  predicate IsDigits(s: string) {
    s != [] && forall i :: 0 <= i < |s| ==> '0' <= s[i] <= '9'
  }

  // ----- printing -----

  function Digits(n: nat, base: nat): (s: string)
    requires BaseOk(base)
    ensures s != [] && forall i :: 0 <= i < |s| ==> IsDigit(s[i], base)
  {
    (if n < base then [] else Digits(n / base, base)) + [DigitChar(n % base)]
  }

  function Show(n: int, base: nat): (s: string)
    requires BaseOk(base)
  {
    if n < 0 then "-" + Digits(-n, base) else Digits(n, base)
  }

  // ----- parsing -----

  /** Digits, single underscores allowed between them. */
  predicate Numeral(s: string, base: nat) {
    && s != [] && s[0] != '_' && s[|s| - 1] != '_'
    && (forall i :: 0 <= i < |s| ==> IsDigit(s[i], base) || s[i] == '_')
    && (forall i :: 0 <= i < |s| - 1 ==> s[i] != '_' || s[i + 1] != '_')
  }

  function Value(s: string, base: nat): nat {
    if s == [] then 0
    else
      var n := |s| - 1;
      if s[n] == '_' then Value(s[..n], base) else Value(s[..n], base) * base + DigitValue(s[n])
  }

  function Unprefixed(s: string, base: nat): string {
    if base == 16 && |s| >= 2 && s[0] == '0' && (s[1] == 'x' || s[1] == 'X') then
      (if |s| >= 3 && s[2] == '_' then s[3..] else s[2..])
    else s
  }

  function ParseNat(s: string, base: nat): Option<nat> {
    var t := Unprefixed(s, base);
    if Numeral(t, base) then Some(Value(t, base)) else None
  }

  /** `int(s, base)`; None is the ValueError. */
  function ParseInt(s: string, base: nat): Option<int> {
    var t := Strip(s);
    if t == [] then None
    else if t[0] == '-' then
      var r := ParseNat(t[1..], base);
      if r.None? then None else Some(0 - r.value as int)
    else if t[0] == '+' then ParseNat(t[1..], base)
    else ParseNat(t, base)
  }

  // ----- parsing inverts printing -----

  lemma ValueOfLast(s: string, base: nat, c: char)
    requires c != '_'
    ensures Value(s + [c], base) == Value(s, base) * base + DigitValue(c)
    ensures Value([], base) == 0
  {
    hide DigitValue;
    assert (s + [c])[..|s|] == s;
  }

  lemma DivMod(n: nat, base: nat)
    requires BaseOk(base)
    ensures n == n / base * base + n % base
  {
    if base == 10 { assert n == n / 10 * 10 + n % 10; } else { assert n == n / 16 * 16 + n % 16; }
  }

  lemma {:induction false} DigitsValue(n: nat, base: nat)
    requires BaseOk(base)
    ensures Value(Digits(n, base), base) == n
    decreases n
  {
    hide Value;
    var c := DigitChar(n % base);
    assert c != '_' by { assert DigitValue(c) == n % base; }
    hide DigitValue;
    DivMod(n, base);
    if n < base {
      ValueOfLast([], base, c);
    } else {
      DigitsValue(n / base, base);
      ValueOfLast(Digits(n / base, base), base, c);
    }
  }

  lemma DigitsParse(n: nat, base: nat)
    requires BaseOk(base)
    ensures ParseNat(Digits(n, base), base) == Some(n)
  {
    var s := Digits(n, base);
    assert forall i :: 0 <= i < |s| ==> s[i] != '_' && s[i] != 'x' && s[i] != 'X';
    assert Unprefixed(s, base) == s;
    DigitsValue(n, base);
  }

  predicate Solid(s: string) {
    s != [] && forall i :: 0 <= i < |s| ==> !IsWhite(s[i])
  }

  lemma ShownIsSolid(n: int, base: nat)
    requires BaseOk(base)
    ensures Solid(Show(n, base)) && Strip(Show(n, base)) == Show(n, base)
  {
    TrimmedIsFixed(Show(n, base));
  }

  lemma DigitsStart(n: nat, base: nat)
    requires BaseOk(base)
    ensures Digits(n, base)[0] != '-' && Digits(n, base)[0] != '+'
  {
    assert IsDigit(Digits(n, base)[0], base);
  }

  /** `int(str(n))` and `int(f"{n:x}", 16)` give n back, negative numbers included. */
  lemma ShowParse(n: int, base: nat)
    requires BaseOk(base)
    ensures ParseInt(Show(n, base), base) == Some(n)
  {
    hide Digits, ParseNat, Strip, IsDigit, Solid;
    ShownIsSolid(n, base);
    var s := Show(n, base);
    if n < 0 {
      assert s[1..] == Digits(-n, base);
      DigitsParse(-n, base);
    } else {
      DigitsStart(n, base);
      DigitsParse(n, base);
    }
  }

  // ----- which texts are integers -----

  /** Sixteen digits, in either case, and no others. */
  lemma DigitTable(c: char)
    ensures forall k :: 0 <= k < 16 ==>
              DigitValue("0123456789abcdef"[k]) == k && DigitValue("0123456789ABCDEF"[k]) == k
              && DigitChar(k) == "0123456789abcdef"[k]
    ensures c !in "0123456789abcdefABCDEF" ==> DigitValue(c) >= 16
  {
    var lower, upper, all := "0123456789abcdef", "0123456789ABCDEF", "0123456789abcdefABCDEF";
    if DigitValue(c) < 10 {
      assert all[DigitValue(c)] == c;
    } else if DigitValue(c) < 16 {
      assert all[DigitValue(c)] == c || all[DigitValue(c) + 6] == c;
    }
  }

  /** Only zero is printed with a leading zero, and only as one. */
  lemma {:induction false} NoLeadingZero(n: nat, base: nat)
    requires BaseOk(base)
    ensures n > 0 ==> Digits(n, base)[0] != '0'
    ensures Digits(0, base) == "0"
    decreases n
  {
    if n >= base { NoLeadingZero(n / base, base); }
  }

  /** Positional notation; an underscore counts for nothing. */
  lemma PositionalValue(s: string, c: char, base: nat)
    ensures Value("", base) == 0 && Value(s + "_", base) == Value(s, base)
    ensures c != '_' ==> Value(s + [c], base) == Value(s, base) * base + DigitValue(c)
  {
    hide DigitValue;
    assert (s + "_")[..|s|] == s && (s + [c])[..|s|] == s;
  }

  /** Digits with single underscores between them, in base 16 also behind `0x` and perhaps
      one more underscore. */
  predicate SpellsNat(t: string, base: nat, n: int) {
    || (Numeral(t, base) && n == Value(t, base))
    || (base == 16 && Hex(t) && Numeral(t[2..], 16) && n == Value(t[2..], 16))
    || (base == 16 && Hex(t) && t[2] == '_' && Numeral(t[3..], 16) && n == Value(t[3..], 16))
  }

  predicate Hex(t: string) {
    |t| > 2 && t[0] == '0' && t[1] in "xX"
  }

  predicate SpellsInt(t: string, base: nat, n: int) {
    || SpellsNat(t, base, n)
    || (t != "" && t[0] == '+' && SpellsNat(t[1..], base, n))
    || (t != "" && t[0] == '-' && SpellsNat(t[1..], base, -n))
  }

  ghost predicate IsText(s: string, base: nat, n: int) {
    exists l: nat, r: nat :: TrimOf(s, l, r) && SpellsInt(s[l..r], base, n)
  }

  lemma ParseNatIff(t: string, base: nat, n: int)
    requires BaseOk(base)
    ensures (ParseNat(t, base).Some? && ParseNat(t, base).value == n) <==> SpellsNat(t, base, n)
    ensures SpellsNat(t, base, n) ==> t != "" && t[0] != '+' && t[0] != '-'
  {
    hide Value;
    DigitTable('_');
    DigitTable('x');
    DigitTable('X');
  }

  /** `int(s, base)` is n exactly for the texts of n: whitespace outside, a sign or none, and
      digits as above. Everything else is refused. */
  lemma ParseIntIff(s: string, base: nat, n: int)
    requires BaseOk(base)
    ensures ParseInt(s, base) == Some(n) <==> IsText(s, base, n)
  {
    hide ParseNat, SpellsNat, Strip;
    var l, r := StripAt(s);
    var t := s[l..r];
    forall a: nat, b: nat | TrimOf(s, a, b) ensures b <= |s| && s[a..b] == t { StripTrims(s, a, b); }
    assert SpellsInt(t, base, n) ==> IsText(s, base, n);
    ParseNatIff(t, base, n);
    if t != "" {
      ParseNatIff(t[1..], base, n);
      ParseNatIff(t[1..], base, -n);
    }
  }
}
