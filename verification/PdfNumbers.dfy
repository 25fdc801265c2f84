/** Numbers as they are printed and scanned: what `%d`, `%010d`, `%04X` write, and what `fmt.Sscanf` reads back. */
module PdfNumbers {
  import opened Common

  predicate IsDigit(c: char) {
    '0' <= c <= '9'
  }

  function Digit(d: nat): (c: char)
    requires d < 10
    ensures IsDigit(c)
  {
    "0123456789"[d]
  }

  function Decimal(n: nat): (s: string)
    ensures s != "" && forall i :: 0 <= i < |s| ==> IsDigit(s[i])
    decreases n
  {
    if n < 10 then [Digit(n)] else Decimal(n / 10) + [Digit(n % 10)]
  }

  function Zeros(k: nat): (s: string)
    ensures |s| == k && forall i :: 0 <= i < k ==> s[i] == '0'
  {
    seq(k, i => '0')
  }

  /** `%0` with a width. */
  function Padded(n: nat, width: nat): (s: string)
    ensures s != "" && forall i :: 0 <= i < |s| ==> IsDigit(s[i])
  {
    var digits := Decimal(n);
    if |digits| >= width then digits else Zeros(width - |digits|) + digits
  }

  function DigitValue(c: char): nat
    requires IsDigit(c)
  {
    c as nat - '0' as nat
  }

  function Value(s: string): nat
    requires forall i :: 0 <= i < |s| ==> IsDigit(s[i])
    decreases |s|
  {
    if s == "" then 0 else 10 * Value(s[..|s| - 1]) + DigitValue(s[|s| - 1])
  }

  lemma {:induction false} DecimalValue(n: nat)
    ensures Value(Decimal(n)) == n
    decreases n
  {
    if n >= 10 {
      DecimalValue(n / 10);
      assert Decimal(n)[..|Decimal(n)| - 1] == Decimal(n / 10);
    } else {
      assert Value([Digit(n)]) == 10 * Value("") + DigitValue(Digit(n));
    }
  }

  lemma {:induction false} LeadingZero(k: nat, s: string)
    requires forall i :: 0 <= i < |s| ==> IsDigit(s[i])
    ensures Value(Zeros(k) + s) == Value(s)
    decreases |s|, k
  {
    var t := Zeros(k) + s;
    if s != "" {
      LeadingZero(k, s[..|s| - 1]);
      assert t[..|t| - 1] == Zeros(k) + s[..|s| - 1];
    } else if k > 0 {
      LeadingZero(k - 1, "");
      assert t[..|t| - 1] == Zeros(k - 1) + "";
    }
  }

  lemma PaddedValue(n: nat, width: nat)
    ensures Value(Padded(n, width)) == n
  {
    DecimalValue(n);
    var digits := Decimal(n);
    if |digits| < width {
      LeadingZero(width - |digits|, digits);
    }
  }

  function Power(k: nat): nat {
    if k == 0 then 1 else 10 * Power(k - 1)
  }

  lemma {:induction false} DecimalLength(n: nat, k: nat)
    requires k >= 1
    ensures |Decimal(n)| <= k <==> n < Power(k)
    decreases k
  {
    if k == 1 {
      assert Power(1) == 10 * Power(0);
    } else if n >= 10 {
      DecimalLength(n / 10, k - 1);
    } else {
      PowerGrows(k);
    }
  }

  lemma {:induction false} PowerGrows(k: nat)
    requires k >= 1
    ensures Power(k) >= 10
    decreases k
  {
    if k > 1 {
      PowerGrows(k - 1);
    } else {
      assert Power(1) == 10 * Power(0);
    }
  }

  /** A padded number has its width exactly when it is small enough. */
  lemma PaddedWidth(n: nat, width: nat)
    requires width >= 1
    ensures |Padded(n, width)| == width <==> n < Power(width)
  {
    DecimalLength(n, width);
  }

  // ---------------------------------------------------------------- scanning

  predicate IsBlank(c: char) {
    c == ' ' || c == '\t' || c == '\r'
  }

  function SkipBlanks(s: string): (t: string)
    ensures |t| <= |s|
    decreases |s|
  {
    if s != "" && IsBlank(s[0]) then SkipBlanks(s[1..]) else s
  }

  function DigitRun(s: string): (n: nat)
    ensures n <= |s| && forall i :: 0 <= i < n ==> IsDigit(s[i])
    decreases |s|
  {
    if s != "" && IsDigit(s[0]) then 1 + DigitRun(s[1..]) else 0
  }

  /** A value, and what is left to scan. */
  datatype Scan<+T> = Scanned(value: T, rest: string) | Mismatch

  /** `%d` */
  function ScanNumber(input: string): Scan<int> {
    var s := SkipBlanks(input);
    var signed := s != "" && (s[0] == '-' || s[0] == '+');
    var t := if signed then s[1..] else s;
    var n := DigitRun(t);
    if n == 0 then Mismatch
    else Scanned(if signed && s[0] == '-' then -(Value(t[..n]) as int) else Value(t[..n]), t[n..])
  }

  function WordRun(s: string): (n: nat)
    ensures n <= |s|
    decreases |s|
  {
    if s != "" && !IsBlank(s[0]) && s[0] != '\n' then 1 + WordRun(s[1..]) else 0
  }

  /** `%s` */
  function ScanWord(input: string): Scan<string> {
    var s := SkipBlanks(input);
    var n := WordRun(s);
    if n == 0 then Mismatch else Scanned(s[..n], s[n..])
  }

  /** A space in a format takes at least one, unless nothing is left. */
  function ScanSpace(s: string): Scan<()> {
    if s == "" || IsBlank(s[0]) then Scanned((), SkipBlanks(s)) else Mismatch
  }

  /** A run of digits is scanned whole. */
  lemma {:induction false} DigitRunWhole(digits: string, rest: string)
    requires forall i :: 0 <= i < |digits| ==> IsDigit(digits[i])
    requires rest != "" ==> !IsDigit(rest[0])
    ensures DigitRun(digits + rest) == |digits|
    decreases |digits|
  {
    if digits == "" {
      assert digits + rest == rest;
    } else {
      assert (digits + rest)[1..] == digits[1..] + rest;
      DigitRunWhole(digits[1..], rest);
    }
  }

  lemma ScanDigits(digits: string, rest: string)
    requires digits != "" && (forall i :: 0 <= i < |digits| ==> IsDigit(digits[i])) && (rest != "" ==> !IsDigit(rest[0]))
    ensures ScanNumber(digits + rest) == Scanned(Value(digits), rest)
  {
    var s := digits + rest;
    assert s[0] == digits[0] && SkipBlanks(s) == s;
    DigitRunWhole(digits, rest);
    assert s[..|digits|] == digits && s[|digits|..] == rest;
  }

  /** A number printed before something else than a digit is scanned back. */
  lemma ScanDecimal(n: nat, rest: string)
    requires rest != "" ==> !IsDigit(rest[0])
    ensures ScanNumber(Decimal(n) + rest) == Scanned(n, rest)
  {
    DecimalValue(n);
    ScanDigits(Decimal(n), rest);
  }

  lemma ScanPadded(n: nat, width: nat, rest: string)
    requires rest != "" ==> !IsDigit(rest[0])
    ensures ScanNumber(Padded(n, width) + rest) == Scanned(n, rest)
  {
    PaddedValue(n, width);
    ScanDigits(Padded(n, width), rest);
  }
}
