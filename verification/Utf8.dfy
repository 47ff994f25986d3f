/** UTF-8 as Python's `str.encode` and strict `bytes.decode` have it. A `char` is a Unicode
    scalar value, so everything can be encoded. */
module Utf8 {
  import opened Options
  import opened Bytes

  // ----- one character -----

  function Tail(n: nat): Byte {
    (0x80 + n % 64) as Byte
  }

  function EncodeChar(c: char): (r: seq<Byte>)
    ensures 1 <= |r| <= 4
  {
    var n := c as int;
    if n < 0x80 then [n as Byte]
    else if n < 0x800 then [(0xC0 + n / 64) as Byte, Tail(n)]
    else if n < 0x1_0000 then [(0xE0 + n / 0x1000) as Byte, Tail(n / 64), Tail(n)]
    else [(0xF0 + n / 0x4_0000) as Byte, Tail(n / 0x1000), Tail(n / 64), Tail(n)]
  }

  /** The payload of k continuation bytes from `at` on; None if one of them is none. */
  function Payload(b: seq<Byte>, at: nat, k: nat): Option<nat> {
    if k == 0 then Some(0)
    else if at + k > |b| || !(0x80 <= b[at + k - 1] < 0xC0) then None
    else
      var front := Payload(b, at, k - 1);
      if front.None? then None else Some(front.value * 64 + (b[at + k - 1] as int - 0x80))
  }

  /** The scalar value with this leading part and k continuation bytes, unless it is too small
      for its length or no scalar value. */
  function Scalar(lead: nat, b: seq<Byte>, k: nat): (r: Option<char>) {
    var low := Payload(b, 1, k);
    var unit := if k == 1 then 64 else if k == 2 then 0x1000 else 0x4_0000;
    var least := if k == 1 then 0x80 else if k == 2 then 0x800 else 0x1_0000;
    if low.None? then None
    else
      var n := lead * unit + low.value;
      if n < least || 0xD800 <= n < 0xE000 || n >= 0x11_0000 then None else Some(n as char)
  }

  /** The first character of the bytes, and how many it takes; None where decoding raises. */
  function DecodeChar(b: seq<Byte>): (r: Option<(char, nat)>)
    requires b != []
    ensures r.Some? ==> 1 <= r.value.1
  {
    var n := b[0] as int;
    if n < 0x80 then Some((n as char, 1))
    else if n < 0xC0 || n >= 0xF8 then None
    else
      var k := if n < 0xE0 then 1 else if n < 0xF0 then 2 else 3;
      var c := Scalar(n - (if k == 1 then 0xC0 else if k == 2 then 0xE0 else 0xF0), b, k);
      if c.None? then None else Some((c.value, k + 1))
  }

  lemma Payloads(b: seq<Byte>)
    ensures Payload(b, 1, 1) == if |b| >= 2 && 0x80 <= b[1] < 0xC0 then Some(b[1] as int - 0x80) else None
    ensures Payload(b, 1, 2) ==
              if |b| >= 3 && 0x80 <= b[1] < 0xC0 && 0x80 <= b[2] < 0xC0
              then Some((b[1] as int - 0x80) * 64 + (b[2] as int - 0x80)) else None
    ensures Payload(b, 1, 3) ==
              if |b| >= 4 && 0x80 <= b[1] < 0xC0 && 0x80 <= b[2] < 0xC0 && 0x80 <= b[3] < 0xC0
              then Some((b[1] as int - 0x80) * 0x1000 + (b[2] as int - 0x80) * 64 + (b[3] as int - 0x80)) else None
  {
    assert Payload(b, 1, 0) == Some(0);
  }

  /** Base-64 digits of a scalar value. */
  lemma Digits64(n: nat)
    ensures n == n / 64 * 64 + n % 64
    ensures n == n / 0x1000 * 0x1000 + n / 64 % 64 * 64 + n % 64
    ensures n == n / 0x4_0000 * 0x4_0000 + n / 0x1000 % 64 * 0x1000 + n / 64 % 64 * 64 + n % 64
  {
    assert n / 0x1000 == n / 64 / 64 && n / 0x4_0000 == n / 0x1000 / 64;
  }

  lemma CharRoundTrip(c: char, rest: seq<Byte>)
    ensures DecodeChar(EncodeChar(c) + rest) == Some((c, |EncodeChar(c)|))
  {
    var n, b := c as int, EncodeChar(c) + rest;
    Payloads(b);
    Digits64(n);
    hide Payload;
  }

  lemma Quotients(lead: nat, x: nat, y: nat, z: nat)
    requires x < 64 && y < 64 && z < 64
    ensures var n := lead * 64 + x; n / 64 == lead && n % 64 == x
    ensures var n := lead * 0x1000 + (x * 64 + y); n / 0x1000 == lead && n / 64 % 64 == x && n % 64 == y
    ensures var n := lead * 0x4_0000 + (x * 0x1000 + y * 64 + z);
            n / 0x4_0000 == lead && n / 0x1000 % 64 == x && n / 64 % 64 == y && n % 64 == z
  {
    var two := lead * 0x1000 + (x * 64 + y);
    assert two / 64 == lead * 64 + x;
    var three := lead * 0x4_0000 + (x * 0x1000 + y * 64 + z);
    assert three / 0x1000 == lead * 64 + x;
  }

  lemma TwoBytes(c: char, lead: nat, x: nat)
    requires c as int == lead * 64 + x && x < 64 && 0x80 <= c as int < 0x800
    ensures lead < 32 && EncodeChar(c) == [(0xC0 + lead) as Byte, (0x80 + x) as Byte]
  {
    Quotients(lead, x, 0, 0);
  }

  lemma ThreeBytes(c: char, lead: nat, x: nat, y: nat)
    requires c as int == lead * 0x1000 + (x * 64 + y) && x < 64 && y < 64 && 0x800 <= c as int < 0x1_0000
    ensures lead < 16 && EncodeChar(c) == [(0xE0 + lead) as Byte, (0x80 + x) as Byte, (0x80 + y) as Byte]
  {
    Quotients(lead, x, y, 0);
  }

  lemma FourBytes(c: char, lead: nat, x: nat, y: nat, z: nat)
    requires c as int == lead * 0x4_0000 + (x * 0x1000 + y * 64 + z) && x < 64 && y < 64 && z < 64
            && 0x1_0000 <= c as int
    ensures lead < 8 && EncodeChar(c)
            == [(0xF0 + lead) as Byte, (0x80 + x) as Byte, (0x80 + y) as Byte, (0x80 + z) as Byte]
  {
    Quotients(lead, x, y, z);
  }

  /** Strictness: only the shortest form of a character is accepted. */
  lemma CharIsEncoded(b: seq<Byte>)
    requires b != [] && DecodeChar(b).Some?
    ensures var (c, k) := DecodeChar(b).value; k <= |b| && b[..k] == EncodeChar(c)
  {
    var (c, k) := DecodeChar(b).value;
    var lead := b[0] as int;
    Payloads(b);
    hide Payload;
    if lead >= 0x80 {
      hide EncodeChar;
      if k == 2 {
        TwoBytes(c, lead - 0xC0, b[1] as int - 0x80);
      } else if k == 3 {
        ThreeBytes(c, lead - 0xE0, b[1] as int - 0x80, b[2] as int - 0x80);
      } else {
        FourBytes(c, lead - 0xF0, b[1] as int - 0x80, b[2] as int - 0x80, b[3] as int - 0x80);
      }
    }
  }

  // ----- strings -----

  function Encode(s: string): (r: seq<Byte>)
    ensures |r| >= |s|
  {
    if s == [] then [] else EncodeChar(s[0]) + Encode(s[1..])
  }

  /** None stands for the UnicodeDecodeError. */
  function Decode(b: seq<Byte>): (r: Option<string>)
    decreases |b|
  {
    if b == [] then Some([])
    else
      var head := DecodeChar(b);
      if head.None? || head.value.1 > |b| then None
      else
        var rest := Decode(b[head.value.1..]);
        if rest.None? then None else Some([head.value.0] + rest.value)
  }

  lemma {:induction false} EncodeConcat(s: string, t: string)
    ensures Encode(s + t) == Encode(s) + Encode(t)
    decreases |s|
  {
    hide EncodeChar;
    if s == [] {
      assert s + t == t;
    } else {
      assert (s + t)[1..] == s[1..] + t;
      EncodeConcat(s[1..], t);
    }
  }

  /** Decoding inverts encoding. */
  lemma {:induction false} DecodeEncode(s: string)
    ensures Decode(Encode(s)) == Some(s)
    decreases |s|
  {
    hide EncodeChar, DecodeChar;
    if s != [] {
      var head, tail := EncodeChar(s[0]), Encode(s[1..]);
      var b := Encode(s);
      assert b == head + tail && b[|head|..] == tail;
      CharRoundTrip(s[0], tail);
      DecodeEncode(s[1..]);
      assert s == [s[0]] + s[1..];
    }
  }

  /** Only encodings decode. */
  lemma {:induction false} EncodeDecode(b: seq<Byte>)
    requires Decode(b).Some?
    ensures Encode(Decode(b).value) == b
    decreases |b|
  {
    hide EncodeChar, DecodeChar;
    if b != [] {
      CharIsEncoded(b);
      var (c, k) := DecodeChar(b).value;
      EncodeDecode(b[k..]);
      assert Decode(b).value[1..] == Decode(b[k..]).value;
    }
  }

  /** A text whose encoding begins another's begins that text. */
  lemma {:induction false} PrefixDecodes(s: string, t: string)
    requires Encode(s) <= Encode(t)
    ensures s <= t
    decreases |s|
  {
    hide EncodeChar, DecodeChar;
    if s != [] {
      var head, rest := EncodeChar(s[0]), Encode(s[1..]);
      var more := Encode(t)[|Encode(s)|..];
      assert Encode(t) == head + (rest + more);
      CharRoundTrip(s[0], rest + more);
      CharRoundTrip(t[0], Encode(t[1..]));
      assert Encode(t) == head + Encode(t[1..]);
      assert Encode(t[1..]) == Encode(t)[|head|..] == rest + more;
      PrefixDecodes(s[1..], t[1..]);
      assert s == [s[0]] + s[1..] && t == [t[0]] + t[1..];
    }
  }
}
