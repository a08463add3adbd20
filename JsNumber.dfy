/** The global `parseInt` called without a radix (section 19.2.5 of
    ECMA-262), and the decimal numerals of integers it reads back. */
module JsNumber {
  import opened Wrappers
  import opened JsText

  /** The value of a character read as a digit, in any radix up to 36
      ('0'-'9', then 'a'-'z' or 'A'-'Z'); 36 for every other character. */
  function DigitValue(c: char): nat {
    if '0' <= c <= '9' then c as int - '0' as int
    else if 'a' <= c <= 'z' then c as int - 'a' as int + 10
    else if 'A' <= c <= 'Z' then c as int - 'A' as int + 10
    else 36
  }

  /** The length of the longest prefix of `s` made of digits of `radix`. */
  function DigitRun(s: string, radix: nat): (n: nat)
    ensures n <= |s|
    ensures forall i :: 0 <= i < n ==> DigitValue(s[i]) < radix
    ensures n == |s| || DigitValue(s[n]) >= radix
  {
    if |s| > 0 && DigitValue(s[0]) < radix then 1 + DigitRun(s[1..], radix) else 0
  }

  /** The number that the digits `s` denote positionally in `radix`. */
  function ValueOf(s: string, radix: nat): nat {
    if s == [] then 0 else ValueOf(s[..|s| - 1], radix) * radix + DigitValue(s[|s| - 1])
  }

  /** What `parseInt` has found once it has skipped the leading
      whitespace, taken the sign and looked for a hex prefix: whether the
      number is negative, its radix, and the text where its digits start. */
  datatype Numeral = Numeral(negative: bool, radix: nat, digits: string)

  function Scan(s: string): (r: Numeral)
    ensures r.radix == 10 || r.radix == 16
  {
    var t := TrimStart(s);
    var negative := |t| > 0 && t[0] == '-';
    var u := if |t| > 0 && (t[0] == '+' || t[0] == '-') then t[1..] else t;
    if |u| >= 2 && u[0] == '0' && (u[1] == 'x' || u[1] == 'X') then Numeral(negative, 16, u[2..])
    else Numeral(negative, 10, u)
  }

  /** Reads the longest run of digits of a scanned numeral; `None` (NaN)
      when there is none. */
  function ReadDigits(m: Numeral): (r: Option<int>)
    ensures r.None? <==> DigitRun(m.digits, m.radix) == 0
  {
    var n := DigitRun(m.digits, m.radix);
    if n == 0 then None
    else
      var v := ValueOf(m.digits[..n], m.radix);
      Some(if m.negative then -(v as int) else v)
  }

  /** `parseInt(s)`: skip leading whitespace, take one optional sign, a
      "0x"/"0X" prefix switches to radix 16, then read the longest run of
      digits; NaN (here `None`) when that run is empty. Both +0 and -0
      become 0. */
  function ParseInt(s: string): Option<int> {
    ReadDigits(Scan(s))
  }

  function DecimalDigit(d: nat): (c: char)
    requires d < 10
    ensures '0' <= c <= '9' && DigitValue(c) == d
  {
    (d + '0' as int) as char
  }

  /** The decimal numeral of a natural number, as `String(n)` writes it. */
  function NatToDecimal(n: nat): string
    decreases n
  {
    if n < 10 then [DecimalDigit(n)] else NatToDecimal(n / 10) + [DecimalDigit(n % 10)]
  }

  /** The decimal numeral of an integer, with a leading '-' when negative. */
  function IntToDecimal(n: int): string {
    if n < 0 then "-" + NatToDecimal(-n) else NatToDecimal(n)
  }

  /** A decimal numeral is a non-empty run of decimal digits that denotes
      its number, and is at least two digits long from 10 on. */
  lemma {:induction false} NatToDecimalFacts(n: nat)
    ensures var s := NatToDecimal(n);
            && |s| > 0
            && (n >= 10 ==> |s| >= 2)
            && (forall i :: 0 <= i < |s| ==> '0' <= s[i] <= '9' && DigitValue(s[i]) < 10)
            && ValueOf(s, 10) == n
            && (s[0] == '0' ==> n == 0)
    decreases n
  {
    if n >= 10 {
      NatToDecimalFacts(n / 10);
      var s := NatToDecimal(n);
      assert s[..|s| - 1] == NatToDecimal(n / 10);
      assert s[0] == NatToDecimal(n / 10)[0];
    }
  }

  /** A run of digits followed by anything: the run is the prefix plus
      whatever run follows. */
  lemma {:induction false} DigitRunAppend(a: string, b: string, radix: nat)
    requires forall i :: 0 <= i < |a| ==> DigitValue(a[i]) < radix
    ensures DigitRun(a + b, radix) == |a| + DigitRun(b, radix)
  {
    if a != [] {
      assert (a + b)[1..] == a[1..] + b;
      DigitRunAppend(a[1..], b, radix);
    } else {
      assert a + b == b;
    }
  }

  /** Text starting with a digit and no hex prefix is scanned as a
      positive radix-10 numeral, from its first character. */
  lemma ScanPlain(s: string)
    requires |s| > 0 && '0' <= s[0] <= '9'
    requires !(|s| >= 2 && s[0] == '0' && (s[1] == 'x' || s[1] == 'X'))
    ensures Scan(s) == Numeral(false, 10, s)
  {
    assert !IsWhitespace(s[0]);
    assert LeadingSpace(s) == 0;
    assert TrimStart(s) == s;
  }

  /** A decimal numeral followed by text is scanned as radix 10 from its
      first character, unless it is a lone "0" that the text turns into a
      hex prefix. */
  lemma ScanDecimal(n: nat, rest: string)
    requires rest == [] || n != 0 || (rest[0] != 'x' && rest[0] != 'X')
    ensures Scan(NatToDecimal(n) + rest) == Numeral(false, 10, NatToDecimal(n) + rest)
  {
    var d := NatToDecimal(n);
    var s := d + rest;
    NatToDecimalFacts(n);
    assert s[0] == d[0];
    if |s| >= 2 && s[0] == '0' {
      assert n == 0 && |d| == 1 && s[1] == rest[0];
    }
    ScanPlain(s);
  }

  /** The digits of a decimal numeral followed by a non-digit read back as
      its number. */
  lemma ReadDecimal(negative: bool, n: nat, rest: string)
    requires rest == [] || DigitValue(rest[0]) >= 10
    ensures ReadDigits(Numeral(negative, 10, NatToDecimal(n) + rest))
            == Some(if negative then -(n as int) else n as int)
  {
    var d := NatToDecimal(n);
    NatToDecimalFacts(n);
    DigitRunAppend(d, rest, 10);
    assert DigitRun(rest, 10) == 0;
    assert (d + rest)[..|d|] == d;
  }

  /** `parseInt` reads back the decimal numeral of a natural number even
      when other text that is not a digit follows it, as in "12.5", "3e2"
      or "12x". Only an 'x' right after a lone "0" starts a hex prefix. */
  lemma ParseIntStopsAtNonDigit(n: nat, rest: string)
    requires rest == [] || (DigitValue(rest[0]) >= 10 && (n != 0 || (rest[0] != 'x' && rest[0] != 'X')))
    ensures ParseInt(NatToDecimal(n) + rest) == Some(n)
  {
    ScanDecimal(n, rest);
    ReadDecimal(false, n, rest);
  }

  /** A minus sign before the numeral of a positive number is scanned as
      a negative radix-10 numeral. */
  lemma ScanNegative(m: nat)
    requires m > 0
    ensures Scan("-" + NatToDecimal(m)) == Numeral(true, 10, NatToDecimal(m))
  {
    var d := NatToDecimal(m);
    var s := "-" + d;
    NatToDecimalFacts(m);
    assert s[0] == '-';
    assert LeadingSpace(s) == 0;
    assert TrimStart(s) == s;
    assert s[1..] == d;
    assert d[0] != '0';
  }

  /** `parseInt` inverts the decimal numeral of every integer. */
  lemma ParseIntDecimalRoundTrip(n: int)
    ensures ParseInt(IntToDecimal(n)) == Some(n)
  {
    if n >= 0 {
      assert IntToDecimal(n) == NatToDecimal(n) + "";
      ParseIntStopsAtNonDigit(n, "");
    } else {
      var d := NatToDecimal(-n);
      ScanNegative(-n);
      assert d + "" == d;
      ReadDecimal(true, -n, "");
    }
  }

  lemma {:induction false} LeadingSpaceAfterWhitespace(ws: string, s: string)
    requires forall i :: 0 <= i < |ws| ==> IsWhitespace(ws[i])
    ensures LeadingSpace(ws + s) == |ws| + LeadingSpace(s)
  {
    if ws == [] {
      assert ws + s == s;
    } else {
      assert (ws + s)[0] == ws[0];
      assert (ws + s)[1..] == ws[1..] + s;
      LeadingSpaceAfterWhitespace(ws[1..], s);
    }
  }

  /** Whitespace in front of the number does not change what `parseInt`
      reads. */
  lemma ParseIntSkipsLeadingWhitespace(ws: string, s: string)
    requires forall i :: 0 <= i < |ws| ==> IsWhitespace(ws[i])
    ensures ParseInt(ws + s) == ParseInt(s)
  {
    LeadingSpaceAfterWhitespace(ws, s);
    assert (ws + s)[|ws|..] == s;
    assert TrimStart(ws + s) == TrimStart(s);
  }

  /** Text without a digit after the sign and prefix is NaN. */
  lemma ParseIntNaNExamples()
    ensures ParseInt("") == None
    ensures ParseInt("abc") == None
    ensures ParseInt("-") == None
  {
    assert LeadingSpace("") == 0;
    assert TrimStart("") == "";
    assert Scan("") == Numeral(false, 10, "");
    assert LeadingSpace("abc") == 0;
    assert TrimStart("abc") == "abc";
    assert Scan("abc") == Numeral(false, 10, "abc");
    assert DigitValue('a') == 10;
    assert DigitRun("abc", 10) == 0;
    assert LeadingSpace("-") == 0;
    assert TrimStart("-") == "-";
    assert "-"[1..] == "";
    assert Scan("-") == Numeral(true, 10, "");
  }

  /** Text with a digit is read up to the first character that is not
      one: a unit after the number is ignored... */
  lemma ParseIntIgnoresUnit()
    ensures ParseInt(" 42px") == Some(42)
  {
    assert LeadingSpace("42px") == 0;
    assert " 42px"[1..] == "42px";
    assert LeadingSpace(" 42px") == 1;
    assert TrimStart(" 42px") == "42px";
    assert Scan(" 42px") == Numeral(false, 10, "42px");
    assert "42px"[1..] == "2px";
    assert "2px"[1..] == "px";
    assert DigitValue('p') == 25;
    assert DigitRun("px", 10) == 0;
    assert DigitRun("2px", 10) == 1;
    assert DigitRun("42px", 10) == 2;
    assert "42px"[..2] == "42";
    assert "42"[..1] == "4";
    assert "4"[..0] == "";
    assert ValueOf("4", 10) == 4;
    assert ValueOf("42", 10) == 42;
  }

  /** ...and so is a fraction. */
  lemma ParseIntTruncatesFraction()
    ensures ParseInt("1.9") == Some(1)
  {
    assert LeadingSpace("1.9") == 0;
    assert TrimStart("1.9") == "1.9";
    assert "1.9"[1..] == ".9";
    assert Scan("1.9") == Numeral(false, 10, "1.9");
    assert DigitValue('.') == 36;
    assert DigitRun(".9", 10) == 0;
    assert DigitRun("1.9", 10) == 1;
    assert "1.9"[..1] == "1";
    assert "1"[..0] == "";
    assert ValueOf("1", 10) == 1;
  }

  /** A "0x" prefix after the sign switches to radix 16. */
  lemma ParseIntHexExample()
    ensures ParseInt("-0x1A") == Some(-26)
  {
    assert LeadingSpace("-0x1A") == 0;
    assert TrimStart("-0x1A") == "-0x1A";
    assert "-0x1A"[1..] == "0x1A";
    assert "0x1A"[2..] == "1A";
    assert Scan("-0x1A") == Numeral(true, 16, "1A");
    assert "1A"[1..] == "A";
    assert "A"[1..] == "";
    assert DigitValue('A') == 10;
    assert DigitRun("A", 16) == 1;
    assert DigitRun("1A", 16) == 2;
    assert "1A"[..2] == "1A";
    assert "1A"[..1] == "1";
    assert "1"[..0] == "";
    assert ValueOf("1", 16) == 1;
    assert ValueOf("1A", 16) == 26;
  }
}
