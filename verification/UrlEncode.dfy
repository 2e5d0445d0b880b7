/** Keys in an encoding-type=url listing. */
module UrlEncode {
  import opened Basics

  const PERCENT: Byte := 37
  const PLUS: Byte := 43
  const SLASH: Byte := 47
  const SPACE: Byte := 32

  predicate Unreserved(b: Byte) {
    48 <= b <= 57 || 65 <= b <= 90 || 97 <= b <= 122 || b == 45 || b == 46 || b == 95 || b == 126
  }

  function UpperHex(n: int): (b: Byte)
    requires 0 <= n < 16
  {
    if n < 10 then (48 + n) as Byte else (55 + n) as Byte
  }

  function EscapeByte(b: Byte): Bytes {
    if Unreserved(b) then [b]
    else if b == SPACE then [PLUS]
    else [PERCENT, UpperHex(b as int / 16), UpperHex(b as int % 16)]
  }

  /** url.QueryEscape. */
  function QueryEscape(s: Bytes): Bytes {
    if s == [] then [] else EscapeByte(s[0]) + QueryEscape(s[1..])
  }

  /** strings.ReplaceAll: leftmost occurrences, none overlapping. */
  function ReplaceAll(s: Bytes, find: Bytes, with: Bytes): Bytes
    requires find != []
  {
    if s == [] then []
    else if find <= s then with + ReplaceAll(s[|find|..], find, with)
    else [s[0]] + ReplaceAll(s[1..], find, with)
  }

  const ESCAPED_SLASH: Bytes := [PERCENT, 50, 70]

  function S3UrlEncode(s: Bytes): Bytes {
    ReplaceAll(QueryEscape(s), ESCAPED_SLASH, [SLASH])
  }

  /** url.QueryUnescape; a percent sign without two hex digits is an error. */
  function QueryUnescape(s: Bytes): Option<Bytes> {
    if s == [] then Some([])
    else if s[0] == PERCENT then
      if |s| < 3 || !IsHex(s[1]) || !IsHex(s[2]) then None else
        var rest := QueryUnescape(s[3..]);
        if rest.None? then None else Some([(16 * HexDigit(s[1]) + HexDigit(s[2])) as Byte] + rest.value)
    else
      var rest := QueryUnescape(s[1..]);
      if rest.None? then None else Some([if s[0] == PLUS then SPACE else s[0]] + rest.value)
  }

  /** One byte at a time, with the slash kept as it is. */
  function EncodeByte(b: Byte): Bytes {
    if b == SLASH then [SLASH] else EscapeByte(b)
  }

  function EncodeEach(s: Bytes): Bytes {
    if s == [] then [] else EncodeByte(s[0]) + EncodeEach(s[1..])
  }

  lemma SkipByte(b: Byte, s: Bytes)
    requires b != PERCENT
    ensures ReplaceAll([b] + s, ESCAPED_SLASH, [SLASH]) == [b] + ReplaceAll(s, ESCAPED_SLASH, [SLASH])
  {
    assert ([b] + s)[0] == b && ([b] + s)[1..] == s;
    assert !(ESCAPED_SLASH <= [b] + s) by {
      assert ESCAPED_SLASH[0] == PERCENT;
    }
  }

  lemma SkipEscape(h1: Byte, h2: Byte, s: Bytes)
    requires h1 != PERCENT && h2 != PERCENT && !(h1 == 50 && h2 == 70)
    ensures ReplaceAll([PERCENT, h1, h2] + s, ESCAPED_SLASH, [SLASH])
         == [PERCENT, h1, h2] + ReplaceAll(s, ESCAPED_SLASH, [SLASH])
  {
    var e := [PERCENT, h1, h2] + s;
    assert e[0] == PERCENT && e[1] == h1 && e[2] == h2;
    assert e[1..] == [h1] + ([h2] + s);
    SkipByte(h1, [h2] + s);
    SkipByte(h2, s);
  }

  /** "%2F" occurs only as the aligned escape of a slash, never across the escapes of two bytes. */
  lemma ReplaceAligned(b: Byte, s: Bytes)
    ensures ReplaceAll(EscapeByte(b) + s, ESCAPED_SLASH, [SLASH]) == EncodeByte(b) + ReplaceAll(s, ESCAPED_SLASH, [SLASH])
  {
    if Unreserved(b) || b == SPACE {
      SkipByte(EscapeByte(b)[0], s);
    } else if b == SLASH {
      assert EscapeByte(b) == ESCAPED_SLASH && (ESCAPED_SLASH + s)[3..] == s;
    } else {
      EscapeDigits(b);
      SkipEscape(UpperHex(b as int / 16), UpperHex(b as int % 16), s);
    }
  }

  lemma EscapeDigits(b: Byte)
    requires !Unreserved(b) && b != SPACE
    ensures UpperHex(b as int / 16) == 50 && UpperHex(b as int % 16) == 70 <==> b == SLASH
  {
  }

  lemma {:induction false} EncodesEach(s: Bytes)
    ensures S3UrlEncode(s) == EncodeEach(s)
  {
    if s != [] {
      ReplaceAligned(s[0], QueryEscape(s[1..]));
      EncodesEach(s[1..]);
    }
  }

  lemma UnescapeEscape(h1: Byte, h2: Byte, s: Bytes)
    requires IsHex(h1) && IsHex(h2) && QueryUnescape(s).Some?
    ensures QueryUnescape([PERCENT, h1, h2] + s)
         == Some([(16 * HexDigit(h1) + HexDigit(h2)) as Byte] + QueryUnescape(s).value)
  {
    var e := [PERCENT, h1, h2] + s;
    assert e[0] == PERCENT && e[1] == h1 && e[2] == h2 && e[3..] == s;
  }

  lemma UnescapeByte(b: Byte, s: Bytes)
    requires QueryUnescape(s).Some?
    ensures QueryUnescape(EncodeByte(b) + s) == Some([b] + QueryUnescape(s).value)
  {
    if b == SLASH || Unreserved(b) || b == SPACE {
      var e := EncodeByte(b) + s;
      assert e[0] == EncodeByte(b)[0] && e[1..] == s;
    } else {
      UnescapeEscape(UpperHex(b as int / 16), UpperHex(b as int % 16), s);
    }
  }

  lemma {:induction false} UnescapeEach(s: Bytes)
    ensures QueryUnescape(EncodeEach(s)) == Some(s)
  {
    if s != [] {
      UnescapeEach(s[1..]);
      UnescapeByte(s[0], EncodeEach(s[1..]));
      assert s == [s[0]] + s[1..];
    }
  }

  /** Every byte string comes back from query-unescaping its listing form. */
  lemma EncodingRoundTrip(s: Bytes)
    ensures QueryUnescape(S3UrlEncode(s)) == Some(s)
  {
    EncodesEach(s);
    UnescapeEach(s);
  }

  /** Nothing that XML cannot carry is left: letters, digits and a few marks. */
  lemma {:induction false} EncodingIsPlain(s: Bytes)
    ensures forall i :: 0 <= i < |S3UrlEncode(s)| ==>
      Unreserved(S3UrlEncode(s)[i]) || S3UrlEncode(s)[i] in {PERCENT, PLUS, SLASH}
  {
    EncodesEach(s);
    if s != [] {
      EncodingIsPlain(s[1..]);
      EncodesEach(s[1..]);
    }
  }
}
