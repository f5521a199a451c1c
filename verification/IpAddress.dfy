/** Recognising IPv4 addresses with a regular expression. */
module IpAddress {
  import opened Text

  // ---------- Regular expressions ----------

  datatype Regex =
    | Range(lo: char, hi: char)
    | Cat(first: Regex, second: Regex)
    | Alt(left: Regex, right: Regex)
    | Opt(inner: Regex)

  /** The whole of s matches re. */
  predicate Matches(re: Regex, s: string)
    decreases re, |s|
  {
    match re
    case Range(lo, hi) => |s| == 1 && lo <= s[0] <= hi
    case Cat(a, b) => exists i :: 0 <= i <= |s| && Matches(a, s[..i]) && Matches(b, s[i..])
    case Alt(a, b) => Matches(a, s) || Matches(b, s)
    case Opt(a) => s == [] || Matches(a, s)
  }

  function Chr(c: char): Regex {
    Range(c, c)
  }

  const DIGIT := Range('0', '9')

  // 25[0-5] | 2[0-4]\d | 1\d\d | [1-9]?\d
  const FROM_250 := Cat(Chr('2'), Cat(Chr('5'), Range('0', '5')))
  const FROM_200 := Cat(Chr('2'), Cat(Range('0', '4'), DIGIT))
  const FROM_100 := Cat(Chr('1'), Cat(DIGIT, DIGIT))
  const FROM_0 := Cat(Opt(Range('1', '9')), DIGIT)
  const BELOW_200 := Alt(FROM_100, FROM_0)
  const BELOW_250 := Alt(FROM_200, BELOW_200)
  const OCTET := Alt(FROM_250, BELOW_250)

  const DOT_OCTET := Cat(Chr('.'), OCTET)

  // An octet, then three times a dot and an octet.
  const TWO_DOT_OCTETS := Cat(DOT_OCTET, DOT_OCTET)
  const THREE_DOT_OCTETS := Cat(DOT_OCTET, TWO_DOT_OCTETS)
  const IPV4 := Cat(OCTET, THREE_DOT_OCTETS)

  /** The loose shape check for IPv6: hexadecimal digits and colons. */
  predicate IsIpv6Shaped(s: string) {
    s != [] && forall c :: c in s ==> '0' <= c <= '9' || 'a' <= c <= 'f' || 'A' <= c <= 'F' || c == ':'
  }

  predicate IsPlausibleIpAddress(value: string) {
    var trimmed := Trim(value);
    if trimmed == [] then false
    else if '.' in trimmed then Matches(IPV4, trimmed)
    else ':' in trimmed && IsIpv6Shaped(trimmed)
  }

  // ---------- What an address is ----------

  function Digit(d: nat): char
    requires d < 10
  {
    '0' + d as char
  }

  /** Decimal printing, which never writes a leading zero. */
  function Decimal(n: nat): (s: string)
    ensures s != []
  {
    if n < 10 then [Digit(n)] else Decimal(n / 10) + [Digit(n % 10)]
  }

  predicate IsByte(n: nat) {
    n < 256
  }

  function Dotted(a: nat, b: nat, c: nat, d: nat): string {
    Decimal(a) + ("." + Decimal(b) + ("." + Decimal(c) + ("." + Decimal(d))))
  }

  ghost predicate IsIpv4(s: string) {
    exists a: nat, b: nat, c: nat, d: nat :: IsByte(a) && IsByte(b) && IsByte(c) && IsByte(d) && s == Dotted(a, b, c, d)
  }

  ghost predicate IsPrintedByte(s: string) {
    exists n: nat :: IsByte(n) && s == Decimal(n)
  }

  // ---------- The expression is exactly that ----------

  lemma CatSplit(a: Regex, b: Regex, s: string, i: nat)
    requires i <= |s| && Matches(a, s[..i]) && Matches(b, s[i..])
    ensures Matches(Cat(a, b), s)
  {
  }

  lemma ThreeCharacters(l0: char, h0: char, l1: char, h1: char, l2: char, h2: char, s: string)
    ensures Matches(Cat(Range(l0, h0), Cat(Range(l1, h1), Range(l2, h2))), s)
       <==> |s| == 3 && l0 <= s[0] <= h0 && l1 <= s[1] <= h1 && l2 <= s[2] <= h2
  {
    var inner := Cat(Range(l1, h1), Range(l2, h2));
    if Matches(Cat(Range(l0, h0), inner), s) {
      var i :| 0 <= i <= |s| && Matches(Range(l0, h0), s[..i]) && Matches(inner, s[i..]);
      var t := s[i..];
      var j :| 0 <= j <= |t| && Matches(Range(l1, h1), t[..j]) && Matches(Range(l2, h2), t[j..]);
      assert t[..j][0] == s[1] && t[j..][0] == s[2] && s[..i][0] == s[0];
    }
    if |s| == 3 && l0 <= s[0] <= h0 && l1 <= s[1] <= h1 && l2 <= s[2] <= h2 {
      var t := s[1..];
      CatSplit(Range(l1, h1), Range(l2, h2), t, 1);
      CatSplit(Range(l0, h0), inner, s, 1);
    }
  }

  lemma OneOrTwoDigits(s: string)
    ensures Matches(FROM_0, s)
       <==> (|s| == 1 && '0' <= s[0] <= '9') || (|s| == 2 && '1' <= s[0] <= '9' && '0' <= s[1] <= '9')
  {
    var tens := Opt(Range('1', '9'));
    if Matches(Cat(tens, DIGIT), s) {
      var i :| 0 <= i <= |s| && Matches(tens, s[..i]) && Matches(DIGIT, s[i..]);
      assert s[..i] == [] || Matches(Range('1', '9'), s[..i]);
      assert |s[i..]| == 1 && s[i..][0] == s[i];
      assert i == 1 ==> s[..i][0] == s[0];
    }
    if |s| == 1 && '0' <= s[0] <= '9' {
      CatSplit(tens, DIGIT, s, 0);
    }
    if |s| == 2 && '1' <= s[0] <= '9' && '0' <= s[1] <= '9' {
      assert s[..1] == [s[0]] && s[1..] == [s[1]];
      assert Matches(Range('1', '9'), s[..1]);
      assert Matches(tens, s[..1]);
      CatSplit(tens, DIGIT, s, 1);
    }
  }

  function DigitValue(c: char): int {
    c as int - '0' as int
  }

  lemma DigitOfValue(c: char)
    requires '0' <= c <= '9'
    ensures 0 <= DigitValue(c) < 10 && Digit(DigitValue(c)) == c
  {
  }

  lemma TwoDigitPrinting(c0: char, c1: char)
    requires '1' <= c0 <= '9' && '0' <= c1 <= '9'
    ensures Decimal(10 * DigitValue(c0) + DigitValue(c1)) == [c0, c1]
  {
    var n := 10 * DigitValue(c0) + DigitValue(c1);
    assert n / 10 == DigitValue(c0) && n % 10 == DigitValue(c1);
    DigitOfValue(c0);
    DigitOfValue(c1);
    assert Decimal(n / 10) == [c0];
  }

  lemma ThreeDigitPrinting(c0: char, c1: char, c2: char)
    requires '1' <= c0 <= '9' && '0' <= c1 <= '9' && '0' <= c2 <= '9'
    ensures Decimal(100 * DigitValue(c0) + 10 * DigitValue(c1) + DigitValue(c2)) == [c0, c1, c2]
  {
    var n := 100 * DigitValue(c0) + 10 * DigitValue(c1) + DigitValue(c2);
    assert n / 10 == 10 * DigitValue(c0) + DigitValue(c1) && n % 10 == DigitValue(c2);
    TwoDigitPrinting(c0, c1);
    DigitOfValue(c2);
    assert Decimal(n) == Decimal(n / 10) + [Digit(n % 10)];
  }

  /** What the four alternatives of an octet accept, character by character. */
  predicate IsOctetText(s: string) {
    || (|s| == 3 && s[0] == '2' && s[1] == '5' && '0' <= s[2] <= '5')
    || (|s| == 3 && s[0] == '2' && '0' <= s[1] <= '4' && '0' <= s[2] <= '9')
    || (|s| == 3 && s[0] == '1' && '0' <= s[1] <= '9' && '0' <= s[2] <= '9')
    || (|s| == 1 && '0' <= s[0] <= '9')
    || (|s| == 2 && '1' <= s[0] <= '9' && '0' <= s[1] <= '9')
  }

  lemma OctetByCharacters(s: string)
    ensures Matches(OCTET, s) <==> IsOctetText(s)
  {
    ThreeCharacters('2', '2', '5', '5', '0', '5', s);
    ThreeCharacters('2', '2', '0', '4', '0', '9', s);
    ThreeCharacters('1', '1', '0', '9', '0', '9', s);
    OneOrTwoDigits(s);
    assert Matches(BELOW_200, s) == (Matches(FROM_100, s) || Matches(FROM_0, s));
    assert Matches(BELOW_250, s) == (Matches(FROM_200, s) || Matches(BELOW_200, s));
  }

  lemma OctetTextIsPrinted(s: string)
    requires IsOctetText(s)
    ensures IsPrintedByte(s)
  {
    if |s| == 1 {
      DigitOfValue(s[0]);
      assert s == Decimal(DigitValue(s[0])) && IsByte(DigitValue(s[0]));
    } else if |s| == 2 {
      TwoDigitPrinting(s[0], s[1]);
      assert IsByte(10 * DigitValue(s[0]) + DigitValue(s[1])) && s == [s[0], s[1]];
    } else {
      ThreeDigitPrinting(s[0], s[1], s[2]);
      assert IsByte(100 * DigitValue(s[0]) + 10 * DigitValue(s[1]) + DigitValue(s[2])) && s == [s[0], s[1], s[2]];
    }
  }

  lemma PrintedIsOctetText(n: nat)
    requires IsByte(n)
    ensures IsOctetText(Decimal(n))
  {
    if n < 10 {
    } else if n < 100 {
      assert Decimal(n / 10) == [Digit(n / 10)];
      assert Decimal(n) == [Digit(n / 10), Digit(n % 10)];
    } else {
      var m := n / 10;
      assert Decimal(m / 10) == [Digit(m / 10)];
      assert Decimal(m) == [Digit(m / 10), Digit(m % 10)];
      assert Decimal(n) == [Digit(m / 10), Digit(m % 10), Digit(n % 10)];
    }
  }

  /** One octet of the expression accepts exactly the decimal printings of 0 to 255. */
  lemma OctetIsPrintedByte(s: string)
    ensures Matches(OCTET, s) <==> IsPrintedByte(s)
  {
    OctetByCharacters(s);
    if IsOctetText(s) {
      OctetTextIsPrinted(s);
    }
    if IsPrintedByte(s) {
      var n: nat :| IsByte(n) && s == Decimal(n);
      PrintedIsOctetText(n);
    }
  }

  lemma DotOctet(s: string)
    ensures Matches(DOT_OCTET, s) <==> exists n: nat :: IsByte(n) && s == "." + Decimal(n)
  {
    if Matches(DOT_OCTET, s) {
      var i :| 0 <= i <= |s| && Matches(Chr('.'), s[..i]) && Matches(OCTET, s[i..]);
      OctetIsPrintedByte(s[i..]);
      var n: nat :| IsByte(n) && s[i..] == Decimal(n);
      assert s == s[..i] + s[i..];
    }
    if exists n: nat :: IsByte(n) && s == "." + Decimal(n) {
      var n: nat :| IsByte(n) && s == "." + Decimal(n);
      OctetIsPrintedByte(Decimal(n));
      assert s[1..] == Decimal(n);
      CatSplit(Chr('.'), OCTET, s, 1);
    }
  }

  lemma CatParts(a: Regex, b: Regex, s: string) returns (x: string, y: string)
    requires Matches(Cat(a, b), s)
    ensures s == x + y && Matches(a, x) && Matches(b, y)
  {
    var i :| 0 <= i <= |s| && Matches(a, s[..i]) && Matches(b, s[i..]);
    x, y := s[..i], s[i..];
  }

  lemma MatchedIsIpv4(s: string)
    requires Matches(IPV4, s)
    ensures IsIpv4(s)
  {
    var w, t := CatParts(OCTET, THREE_DOT_OCTETS, s);
    var x, u := CatParts(DOT_OCTET, TWO_DOT_OCTETS, t);
    var y, z := CatParts(DOT_OCTET, DOT_OCTET, u);
    OctetIsPrintedByte(w);
    DotOctet(x);
    DotOctet(y);
    DotOctet(z);
    var a: nat :| IsByte(a) && w == Decimal(a);
    var b: nat :| IsByte(b) && x == "." + Decimal(b);
    var c: nat :| IsByte(c) && y == "." + Decimal(c);
    var d: nat :| IsByte(d) && z == "." + Decimal(d);
    assert s == Dotted(a, b, c, d);
  }

  lemma CatConcat(a: Regex, b: Regex, x: string, y: string)
    requires Matches(a, x) && Matches(b, y)
    ensures Matches(Cat(a, b), x + y)
  {
    assert (x + y)[..|x|] == x && (x + y)[|x|..] == y;
  }

  lemma DottedMatches(a: nat, b: nat, c: nat, d: nat)
    requires IsByte(a) && IsByte(b) && IsByte(c) && IsByte(d)
    ensures Matches(IPV4, Dotted(a, b, c, d))
  {
    OctetIsPrintedByte(Decimal(a));
    DotOctet("." + Decimal(b));
    DotOctet("." + Decimal(c));
    DotOctet("." + Decimal(d));
    CatConcat(DOT_OCTET, DOT_OCTET, "." + Decimal(c), "." + Decimal(d));
    CatConcat(DOT_OCTET, TWO_DOT_OCTETS, "." + Decimal(b), "." + Decimal(c) + ("." + Decimal(d)));
    CatConcat(OCTET, THREE_DOT_OCTETS, Decimal(a), "." + Decimal(b) + ("." + Decimal(c) + ("." + Decimal(d))));
  }

  /** The IPv4 expression accepts exactly four bytes in decimal, without leading zeros, joined by dots. */
  lemma Ipv4PatternIsExact(s: string)
    ensures Matches(IPV4, s) <==> IsIpv4(s)
  {
    if Matches(IPV4, s) {
      MatchedIsIpv4(s);
    }
    if IsIpv4(s) {
      var a: nat, b: nat, c: nat, d: nat :| IsByte(a) && IsByte(b) && IsByte(c) && IsByte(d) && s == Dotted(a, b, c, d);
      DottedMatches(a, b, c, d);
    }
  }

  /** With a dot in it, a value is accepted exactly when it trims to an IPv4 address. */
  lemma AcceptsExactlyIpv4(value: string)
    requires '.' in Trim(value)
    ensures IsPlausibleIpAddress(value) <==> IsIpv4(Trim(value))
  {
    Ipv4PatternIsExact(Trim(value));
  }

  const HEX_DIGITS_AND_COLON := "0123456789abcdefABCDEF:"

  lemma HexCharacter(c: char)
    ensures c in HEX_DIGITS_AND_COLON
       <==> '0' <= c <= '9' || 'a' <= c <= 'f' || 'A' <= c <= 'F' || c == ':'
  {
  }

  /** Without a dot, it is accepted exactly when it trims to hexadecimal digits and colons with a colon among them. */
  lemma AcceptsColonsIff(value: string)
    requires '.' !in Trim(value)
    ensures IsPlausibleIpAddress(value)
       <==> ':' in Trim(value) && forall c :: c in Trim(value) ==> c in HEX_DIGITS_AND_COLON
  {
    hide Trim, HEX_DIGITS_AND_COLON;
    forall c | c in Trim(value)
      ensures c in HEX_DIGITS_AND_COLON
         <==> '0' <= c <= '9' || 'a' <= c <= 'f' || 'A' <= c <= 'F' || c == ':'
    {
      HexCharacter(c);
    }
  }

  // ---------- An accepted text names one address ----------

  function Number(s: string): int {
    if s == [] then 0 else 10 * Number(s[..|s| - 1]) + DigitValue(s[|s| - 1])
  }

  lemma {:induction false} NumberOfDecimal(n: nat)
    ensures Number(Decimal(n)) == n && '.' !in Decimal(n)
  {
    if n < 10 {
      assert Number([Digit(n)][..0]) == 0;
    } else {
      NumberOfDecimal(n / 10);
      var s := Decimal(n);
      assert s[..|s| - 1] == Decimal(n / 10);
    }
  }

  lemma {:induction false} FirstDotSplits(a: string, x: string, b: string, y: string)
    requires '.' !in a && '.' !in b && a + ("." + x) == b + ("." + y)
    ensures a == b && x == y
  {
    var s, t := a + ("." + x), b + ("." + y);
    if a == [] || b == [] {
      assert s[0] == t[0];
      assert a == [] ==> s[1..] == x;
      assert b == [] ==> t[1..] == y;
    } else {
      assert s[0] == t[0] && s[1..] == t[1..];
      assert s[1..] == a[1..] + ("." + x) && t[1..] == b[1..] + ("." + y);
      FirstDotSplits(a[1..], x, b[1..], y);
      assert a == [a[0]] + a[1..] && b == [b[0]] + b[1..];
    }
  }

  lemma DottedIsUnambiguous(a: nat, b: nat, c: nat, d: nat, a': nat, b': nat, c': nat, d': nat)
    requires Dotted(a, b, c, d) == Dotted(a', b', c', d')
    ensures a == a' && b == b' && c == c' && d == d'
  {
    var u, u' := Decimal(c) + ("." + Decimal(d)), Decimal(c') + ("." + Decimal(d'));
    var t, t' := Decimal(b) + ("." + u), Decimal(b') + ("." + u');
    assert "." + Decimal(b) + ("." + Decimal(c) + ("." + Decimal(d))) == "." + t;
    assert "." + Decimal(b') + ("." + Decimal(c') + ("." + Decimal(d'))) == "." + t';
    NumberOfDecimal(a); NumberOfDecimal(a');
    NumberOfDecimal(b); NumberOfDecimal(b');
    NumberOfDecimal(c); NumberOfDecimal(c');
    NumberOfDecimal(d); NumberOfDecimal(d');
    FirstDotSplits(Decimal(a), t, Decimal(a'), t');
    FirstDotSplits(Decimal(b), u, Decimal(b'), u');
    FirstDotSplits(Decimal(c), Decimal(d), Decimal(c'), Decimal(d'));
  }
}
