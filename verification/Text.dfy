/** The string conversions the client relies on: decimal and hexadecimal numerals, and splitting
    at a separator. */
module Text {
  import opened Wrappers
  import opened MachineInts

  predicate IsDigit(c: char) {
    '0' <= c <= '9'
  }

  function DigitValue(c: char): nat
    requires IsDigit(c)
  {
    c as int - '0' as int
  }

  function DigitChar(d: nat): (c: char)
    requires d < 10
    ensures IsDigit(c) && DigitValue(c) == d
  {
    '0' + d as char
  }

  predicate AllDigits(s: string) {
    forall i :: 0 <= i < |s| ==> IsDigit(s[i])
  }

  function DigitsValue(s: string): nat
    requires AllDigits(s)
  {
    if s == [] then 0
    else DigitsValue(s[..|s| - 1]) * 10 + DigitValue(s[|s| - 1])
  }

  /** Printing with `{}`: no sign, no leading zeros. */
  function PrintNat(n: nat): string {
    if n < 10 then [DigitChar(n)] else PrintNat(n / 10) + [DigitChar(n % 10)]
  }

  /** Parsing an unsigned integer type whose largest value is `max`: one optional plus sign,
      then at least one decimal digit; leading zeros are accepted, overflow is not. */
  function ParseUnsigned(s: string, max: nat): Option<nat> {
    var digits := if s != [] && s[0] == '+' then s[1..] else s;
    if digits == [] || !AllDigits(digits) || DigitsValue(digits) > max then None
    else Some(DigitsValue(digits))
  }

  lemma {:induction false} PrintNatDigits(n: nat)
    ensures PrintNat(n) != [] && AllDigits(PrintNat(n)) && DigitsValue(PrintNat(n)) == n
  {
    if n < 10 {
      assert PrintNat(n)[..0] == [];
    } else {
      PrintNatDigits(n / 10);
      assert PrintNat(n)[..|PrintNat(n)| - 1] == PrintNat(n / 10);
    }
  }

  lemma ParsePrinted(n: nat, max: nat)
    ensures ParseUnsigned(PrintNat(n), max) == if n <= max then Some(n) else None
  {
    PrintNatDigits(n);
  }

  /** The text is this number in decimal, with a plus sign or not, and with any number of leading zeros. */
  ghost predicate IsNumeral(s: string, n: nat) {
    exists digits: string ::
      AllDigits(digits) && digits != "" && (s == digits || s == "+" + digits) && DigitsValue(digits) == n
  }

  /** Parsing gives a number exactly when the text is a numeral for it that fits. */
  lemma ParseUnsignedMeans(s: string, max: nat, n: nat)
    ensures ParseUnsigned(s, max) == Some(n) <==> n <= max && IsNumeral(s, n)
  {
    if n <= max && IsNumeral(s, n) {
      var digits: string :|
        AllDigits(digits) && digits != "" && (s == digits || s == "+" + digits) && DigitsValue(digits) == n;
      assert IsDigit(digits[0]);
      assert s == "+" + digits ==> s[1..] == digits;
    }
    if ParseUnsigned(s, max) == Some(n) {
      var digits := if s[0] == '+' then s[1..] else s;
      assert AllDigits(digits) && (s == digits || s == "+" + digits) && DigitsValue(digits) == n;
    }
  }

  /** `str::split` at every occurrence of a character. */
  function Split(s: string, sep: char): (parts: seq<string>)
    ensures |parts| > 0
  {
    if s == [] then [[]]
    else
      var rest := Split(s[1..], sep);
      if s[0] == sep then [[]] + rest else [[s[0]] + rest[0]] + rest[1..]
  }

  function Join(parts: seq<string>, sep: char): string
    requires |parts| > 0
  {
    if |parts| == 1 then parts[0] else parts[0] + [sep] + Join(parts[1..], sep)
  }

  lemma {:induction false} SplitHead(a: string, b: string, sep: char)
    requires sep !in a
    ensures Split(a, sep) == [a]
    ensures Split(a + [sep] + b, sep) == [a] + Split(b, sep)
  {
    if a == [] {
      assert a + [sep] + b == [sep] + b;
      assert ([sep] + b)[1..] == b;
    } else {
      SplitHead(a[1..], b, sep);
      assert (a + [sep] + b)[1..] == a[1..] + [sep] + b;
      assert [a[0]] + a[1..] == a;
    }
  }

  lemma {:induction false} SplitJoin(parts: seq<string>, sep: char)
    requires |parts| > 0
    requires forall i :: 0 <= i < |parts| ==> sep !in parts[i]
    ensures Split(Join(parts, sep), sep) == parts
  {
    if |parts| == 1 {
      SplitHead(parts[0], [], sep);
    } else {
      SplitJoin(parts[1..], sep);
      SplitHead(parts[0], Join(parts[1..], sep), sep);
    }
  }

  /** `str::split_once`: the text before and after the first separator. */
  function SplitOnce(s: string, sep: char): Option<(string, string)> {
    if s == [] then None
    else if s[0] == sep then Some(([], s[1..]))
    else
      match SplitOnce(s[1..], sep)
      case None => None
      case Some((a, b)) => Some(([s[0]] + a, b))
  }

  lemma {:induction false} SplitOnceFinds(a: string, b: string, sep: char)
    requires sep !in a
    ensures SplitOnce(a, sep) == None
    ensures SplitOnce(a + [sep] + b, sep) == Some((a, b))
  {
    if a == [] {
      assert a + [sep] + b == [sep] + b;
    } else {
      SplitOnceFinds(a[1..], b, sep);
      assert (a + [sep] + b)[1..] == a[1..] + [sep] + b;
      assert [a[0]] + a[1..] == a;
    }
  }

  /** Whatever the text, the first separator is where it is cut, and nothing is lost. */
  lemma {:induction false} SplitOnceCuts(s: string, sep: char)
    ensures SplitOnce(s, sep).None? <==> sep !in s
    ensures SplitOnce(s, sep).Some? ==>
              var (a, b) := SplitOnce(s, sep).value;
              sep !in a && s == a + [sep] + b
  {
    if s != [] && s[0] != sep {
      SplitOnceCuts(s[1..], sep);
      assert s == [s[0]] + s[1..];
    }
  }

  function HexChar(d: nat): char
    requires d < 16
  {
    if d < 10 then '0' + d as char else 'a' + (d - 10) as char
  }

  /** Upper and lower case are both accepted. */
  function HexValue(c: char): Option<nat> {
    if IsDigit(c) then Some(DigitValue(c))
    else if 'a' <= c <= 'f' then Some(c as int - 'a' as int + 10)
    else if 'A' <= c <= 'F' then Some(c as int - 'A' as int + 10)
    else None
  }

  function HexEncode(bytes: seq<byte>): string {
    if bytes == [] then []
    else [HexChar(bytes[0] / 16), HexChar(bytes[0] % 16)] + HexEncode(bytes[1..])
  }

  function HexDecode(s: string): Option<seq<byte>> {
    if s == [] then Some([])
    else if |s| == 1 then None
    else
      match (HexValue(s[0]), HexValue(s[1]), HexDecode(s[2..]))
      case (Some(h), Some(l), Some(rest)) =>
        if h < 16 && l < 16 then Some([h * 16 + l] + rest) else None
      case _ => None
  }

  predicate IsHexText(s: string) {
    forall i :: 0 <= i < |s| ==> IsDigit(s[i]) || 'a' <= s[i] <= 'f'
  }

  lemma HexDigitRoundTrip(d: nat)
    requires d < 16
    ensures HexValue(HexChar(d)) == Some(d)
    ensures IsDigit(HexChar(d)) || 'a' <= HexChar(d) <= 'f'
  {
  }

  lemma {:induction false} HexIsLower(bytes: seq<byte>)
    ensures IsHexText(HexEncode(bytes)) && |HexEncode(bytes)| == 2 * |bytes|
  {
    hide HexChar, HexValue;
    if bytes != [] {
      HexIsLower(bytes[1..]);
      HexDigitRoundTrip(bytes[0] / 16);
      HexDigitRoundTrip(bytes[0] % 16);
    }
  }

  lemma {:induction false} HexRoundTrip(bytes: seq<byte>)
    ensures HexDecode(HexEncode(bytes)) == Some(bytes)
    ensures IsHexText(HexEncode(bytes)) && |HexEncode(bytes)| == 2 * |bytes|
  {
    hide HexChar, HexValue, IsHexText;
    HexIsLower(bytes);
    if bytes != [] {
      HexRoundTrip(bytes[1..]);
      var s := HexEncode(bytes);
      assert s[2..] == HexEncode(bytes[1..]);
      HexDigitRoundTrip(bytes[0] / 16);
      HexDigitRoundTrip(bytes[0] % 16);
      assert [bytes[0]] + bytes[1..] == bytes;
    }
  }

  predicate IsHexDigit(c: char) {
    '0' <= c <= '9' || 'a' <= c <= 'f' || 'A' <= c <= 'F'
  }

  /** Small and capital letters count alike. */
  function HexDigitValue(c: char): nat
    requires IsHexDigit(c)
  {
    if c <= '9' then c as int - '0' as int
    else if c <= 'F' then 10 + (c as int - 'A' as int)
    else 10 + (c as int - 'a' as int)
  }

  /** Decoding succeeds exactly on an even number of hexadecimal digits, and each two of them are a byte. */
  lemma {:induction false} HexDecodesExactly(s: string)
    ensures HexDecode(s).Some? <==> |s| % 2 == 0 && forall k :: 0 <= k < |s| ==> IsHexDigit(s[k])
    ensures HexDecode(s).Some? ==>
              && |HexDecode(s).value| == |s| / 2
              && forall k :: 0 <= k < |s| / 2 ==>
                   HexDecode(s).value[k] == 16 * HexDigitValue(s[2 * k]) + HexDigitValue(s[2 * k + 1])
  {
    if |s| >= 2 {
      HexDecodesExactly(s[2..]);
      assert forall k :: 2 <= k < |s| ==> s[k] == s[2..][k - 2];
      HexValueMeans(s[0]);
      HexValueMeans(s[1]);
      if HexDecode(s).Some? {
        HexDecodeStep(s);
      }
    }
  }

  lemma HexValueMeans(c: char)
    ensures HexValue(c) == if IsHexDigit(c) then Some(HexDigitValue(c)) else None
  {
  }

  lemma HexDecodeStep(s: string)
    requires |s| >= 2 && HexDecode(s).Some?
    ensures HexDecode(s[2..]).Some? && HexValue(s[0]).Some? && HexValue(s[1]).Some?
    ensures var bytes := HexDecode(s).value;
            && |bytes| > 0 && bytes[0] == HexValue(s[0]).value * 16 + HexValue(s[1]).value
            && bytes[1..] == HexDecode(s[2..]).value
  {
    hide HexValue;
  }
}
