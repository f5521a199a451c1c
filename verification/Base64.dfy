/** The base64 encoding of section 4 of RFC 4648, with padding. */
module Base64 {
  import opened Wrappers

  type Byte = x: int | 0 <= x < 256
  type Sextet = x: int | 0 <= x < 64

  function Letter(i: Sextet): char {
    if i < 26 then 'A' + i as char
    else if i < 52 then 'a' + (i - 26) as char
    else if i < 62 then '0' + (i - 52) as char
    else if i == 62 then '+'
    else '/'
  }

  function Value(c: char): Option<Sextet> {
    if 'A' <= c <= 'Z' then Some(c as int - 'A' as int)
    else if 'a' <= c <= 'z' then Some(c as int - 'a' as int + 26)
    else if '0' <= c <= '9' then Some(c as int - '0' as int + 52)
    else if c == '+' then Some(62)
    else if c == '/' then Some(63)
    else None
  }

  lemma ValueOfLetter(i: Sextet)
    ensures Value(Letter(i)) == Some(i) && Letter(i) != '=' && Letter(i) != '\n' && Letter(i) != ' '
  {
  }

  // Table 1 of RFC 4648.
  const UPPER := "ABCDEFGHIJKLMNOPQRSTUVWXYZ"
  const LOWER := "abcdefghijklmnopqrstuvwxyz"
  const DIGITS := "0123456789"
  const ALPHABET := UPPER + LOWER + DIGITS + ['+', '/']

  lemma UpperIs(i: nat)
    ensures |UPPER| == 26 && (i < 26 ==> UPPER[i] == 'A' + i as char)
  {
  }

  lemma LowerIs(i: nat)
    ensures |LOWER| == 26 && (i < 26 ==> LOWER[i] == 'a' + i as char)
  {
  }

  lemma DigitsAre(i: nat)
    ensures |DIGITS| == 10 && (i < 10 ==> DIGITS[i] == '0' + i as char)
  {
  }

  /** The i-th letter of the alphabet. */
  lemma LetterIs(i: Sextet)
    ensures |ALPHABET| == 64 && Letter(i) == ALPHABET[i]
  {
    UpperIs(i);
    LowerIs(if i >= 26 then i - 26 else 0);
    DigitsAre(if i >= 52 then i - 52 else 0);
    hide UPPER, LOWER, DIGITS;
  }

  function Encode(b: seq<Byte>): string {
    if |b| == 0 then []
    else if |b| == 1 then
      [Letter(b[0] / 4), Letter(b[0] % 4 * 16), '=', '=']
    else if |b| == 2 then
      [Letter(b[0] / 4), Letter(b[0] % 4 * 16 + b[1] / 16), Letter(b[1] % 16 * 4), '=']
    else
      [Letter(b[0] / 4), Letter(b[0] % 4 * 16 + b[1] / 16), Letter(b[1] % 16 * 4 + b[2] / 64), Letter(b[2] % 64)]
      + Encode(b[3..])
  }

  /** A strict decoder: whole groups of four, padding only at the very end, unused bits zero. */
  function Decode(s: string): Option<seq<Byte>> {
    if s == [] then Some([])
    else
      var _ :- Require(|s| >= 4);
      var v0 :- Value(s[0]);
      var v1 :- Value(s[1]);
      if s[2] == '=' then
        var _ :- Require(s[3] == '=' && |s| == 4 && v1 % 16 == 0);
        Some([v0 * 4 + v1 / 16])
      else
        var v2 :- Value(s[2]);
        if s[3] == '=' then
          var _ :- Require(|s| == 4 && v2 % 4 == 0);
          Some([v0 * 4 + v1 / 16, v1 % 16 * 16 + v2 / 4])
        else
          var v3 :- Value(s[3]);
          var rest :- Decode(s[4..]);
          Some([v0 * 4 + v1 / 16, v1 % 16 * 16 + v2 / 4, v2 % 4 * 64 + v3] + rest)
  }

  lemma SplitBytes(a: Byte, b: Byte, c: Byte)
    ensures var v0, v1, v2, v3 := a / 4, a % 4 * 16 + b / 16, b % 16 * 4 + c / 64, c % 64;
            && v0 * 4 + v1 / 16 == a
            && v1 % 16 * 16 + v2 / 4 == b
            && v2 % 4 * 64 + v3 == c
  {
  }

  lemma DecodeOneByte(a: Byte)
    ensures Decode(Encode([a])) == Some([a])
  {
    ValueOfLetter(a / 4);
    ValueOfLetter(a % 4 * 16);
    SplitBytes(a, 0, 0);
  }

  lemma DecodeTwoBytes(a: Byte, b: Byte)
    ensures Decode(Encode([a, b])) == Some([a, b])
  {
    ValueOfLetter(a / 4);
    ValueOfLetter(a % 4 * 16 + b / 16);
    ValueOfLetter(b % 16 * 4);
    SplitBytes(a, b, 0);
    assert b % 16 * 4 % 4 == 0;
  }

  lemma DecodeGroup(s: string, v0: Sextet, v1: Sextet, v2: Sextet, v3: Sextet)
    requires |s| >= 4 && s[2] != '=' && s[3] != '=' && Decode(s[4..]).Some?
    requires Value(s[0]) == Some(v0) && Value(s[1]) == Some(v1) && Value(s[2]) == Some(v2) && Value(s[3]) == Some(v3)
    ensures Decode(s)
         == Some([v0 * 4 + v1 / 16, v1 % 16 * 16 + v2 / 4, v2 % 4 * 64 + v3] + Decode(s[4..]).value)
  {
    hide Value;
  }

  lemma DecodeThreeBytes(a: Byte, b: Byte, c: Byte, rest: string)
    requires Decode(rest).Some?
    ensures Decode([Letter(a / 4), Letter(a % 4 * 16 + b / 16), Letter(b % 16 * 4 + c / 64), Letter(c % 64)] + rest)
         == Some([a, b, c] + Decode(rest).value)
  {
    var v0, v1, v2, v3 := a / 4, a % 4 * 16 + b / 16, b % 16 * 4 + c / 64, c % 64;
    hide Decode, Value, Letter;
    ValueOfLetter(v0);
    ValueOfLetter(v1);
    ValueOfLetter(v2);
    ValueOfLetter(v3);
    SplitBytes(a, b, c);
    var s := [Letter(v0), Letter(v1), Letter(v2), Letter(v3)] + rest;
    assert s[4..] == rest;
    DecodeGroup(s, v0, v1, v2, v3);
  }

  /** Decoding gives back every byte sequence that was encoded. */
  lemma {:induction false} DecodeOfEncode(b: seq<Byte>)
    ensures Decode(Encode(b)) == Some(b)
  {
    if |b| == 1 {
      DecodeOneByte(b[0]);
      assert b == [b[0]];
    } else if |b| == 2 {
      DecodeTwoBytes(b[0], b[1]);
      assert b == [b[0], b[1]];
    } else if |b| >= 3 {
      DecodeOfEncode(b[3..]);
      DecodeThreeBytes(b[0], b[1], b[2], Encode(b[3..]));
      assert [b[0], b[1], b[2]] + b[3..] == b;
    }
  }

  /** Encoded text holds neither line breaks nor spaces, so it may be wrapped and put into a line of fields. */
  lemma {:induction false} EncodedCharacters(b: seq<Byte>)
    ensures '\n' !in Encode(b) && ' ' !in Encode(b)
  {
    if |b| == 1 {
      ValueOfLetter(b[0] / 4);
      ValueOfLetter(b[0] % 4 * 16);
    } else if |b| == 2 {
      ValueOfLetter(b[0] / 4);
      ValueOfLetter(b[0] % 4 * 16 + b[1] / 16);
      ValueOfLetter(b[1] % 16 * 4);
    } else if |b| >= 3 {
      ValueOfLetter(b[0] / 4);
      ValueOfLetter(b[0] % 4 * 16 + b[1] / 16);
      ValueOfLetter(b[1] % 16 * 4 + b[2] / 64);
      ValueOfLetter(b[2] % 64);
      EncodedCharacters(b[3..]);
    }
  }
}
