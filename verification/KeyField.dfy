/** The key of a request in its fixed number of bytes. */
module KeyField {
  import opened Options
  import opened Whitespace
  import opened Bytes
  import opened Utf8

  const MAX_KEY_LENGTH: nat := 150

  function Blanks(n: nat): (r: seq<Byte>)
    ensures |r| == n
  {
    seq(n, _ => 0x20)
  }

  /** `key.encode().ljust(150)` packed as 150 bytes, which cuts off what is too long. The
      callers assert that the key has at most 150 characters. */
  function PadKey(s: string): (r: seq<Byte>)
    ensures |r| == MAX_KEY_LENGTH
  {
    var e := Encode(s);
    if |e| <= MAX_KEY_LENGTH then e + Blanks(MAX_KEY_LENGTH - |e|) else e[..MAX_KEY_LENGTH]
  }

  /** `key.decode().strip()` */
  function ReadKey(b: seq<Byte>): Option<string> {
    var text := Decode(b);
    if text.None? then None else Some(Strip(text.value))
  }

  predicate Encodable(s: string) {
    |Encode(s)| <= MAX_KEY_LENGTH
  }

  lemma {:induction false} EncodedSpaces(n: nat)
    ensures Encode(Spaces(n)) == Blanks(n)
  {
    if n > 0 {
      EncodedSpaces(n - 1);
      assert Spaces(n)[1..] == Spaces(n - 1) && EncodeChar(' ') == [0x20];
      assert Blanks(n) == [0x20] + Blanks(n - 1);
    }
  }

  lemma PaddedKeyStrips(s: string)
    requires Encodable(s)
    ensures ReadKey(PadKey(s)) == Some(Strip(s))
  {
    hide Strip, Decode, Encode;
    var n := MAX_KEY_LENGTH - |Encode(s)|;
    EncodedSpaces(n);
    EncodeConcat(s, Spaces(n));
    DecodeEncode(s + Spaces(n));
    StripPadded(s, n);
  }

  /** What is read from a key that was cut off is the stripped beginning of it. */
  lemma CutKeyIsPrefix(s: string) returns (t: string)
    requires !Encodable(s) && ReadKey(PadKey(s)).Some?
    ensures t < s && ReadKey(PadKey(s)) == Some(Strip(t))
  {
    hide Strip, Encode, Decode;
    t := Decode(PadKey(s)).value;
    EncodeDecode(PadKey(s));
    PrefixDecodes(t, s);
    assert |Encode(t)| < |Encode(s)|;
    assert t == s[..|t|];
    assert s[..|s|] == s;
  }

  /** A key is cut to a beginning of it that just fits. */
  lemma CutKey(t: string, s: string)
    requires t < s && |Encode(t)| == MAX_KEY_LENGTH
    ensures ReadKey(PadKey(s)) == Some(Strip(t))
  {
    hide Encode, Decode, Strip;
    assert s == t + s[|t|..];
    EncodeConcat(t, s[|t|..]);
    assert PadKey(s) == Encode(t);
    DecodeEncode(t);
  }

  /** The key field survives the wire exactly when the key has no whitespace at its ends and
      its UTF-8 form fits. */
  lemma KeyFieldRoundTripIff(s: string)
    ensures ReadKey(PadKey(s)) == Some(s) <==> Encodable(s) && Trimmed(s)
  {
    hide PadKey, ReadKey, Strip, Encodable;
    if Encodable(s) {
      PaddedKeyStrips(s);
      TrimmedIsFixed(s);
    } else if ReadKey(PadKey(s)).Some? {
      var t := CutKeyIsPrefix(s);
      StripShrinks(t);
    }
  }

  /** The bytes of a text that strips to the key. */
  ghost predicate KeyBytes(b: seq<Byte>, key: string) {
    exists text :: Encode(text) == b && Strip(text) == key
  }

  lemma KeyReadIff(b: seq<Byte>, key: string)
    ensures ReadKey(b) == Some(key) <==> KeyBytes(b, key)
  {
    hide Encode, Decode, Strip;
    if Decode(b).Some? { EncodeDecode(b); }
    forall text | Encode(text) == b ensures Decode(b) == Some(text) { DecodeEncode(text); }
  }
}
