/**
 * Decimal text as the Python 2 runtime produces and consumes it:
 * `str(n)` for integers, the `"{0:03d}"` format used for device-node paths,
 * and `int(f.readline())` used to read the kernel's bus and device numbers.
 */
module Decimal {
  import opened Options

  predicate IsDigit(c: char) { '0' <= c <= '9' }

  predicate IsDigits(s: string) {
    forall i :: 0 <= i < |s| ==> IsDigit(s[i])
  }

  function DigitValue(c: char): nat
    requires IsDigit(c)
  {
    c as int - '0' as int
  }

  function DigitChar(d: nat): (c: char)
    requires d < 10
    ensures IsDigit(c) && DigitValue(c) == d
  {
    ('0' as int + d) as char
  }

  /** The number a (possibly zero-prefixed) string of decimal digits denotes. */
  function DigitsValue(s: string): nat
    requires IsDigits(s)
  {
    if s == [] then 0 else DigitsValue(s[..|s| - 1]) * 10 + DigitValue(s[|s| - 1])
  }

  /** `str(n)` for a non-negative integer: shortest decimal text, read back as `n`. */
  function NatToString(n: nat): (s: string)
    ensures |s| > 0 && IsDigits(s)
    ensures DigitsValue(s) == n
    ensures (s == "0") == (n == 0)
    ensures |s| > 1 ==> s[0] != '0'
    decreases n
  {
    if n < 10 then [DigitChar(n)]
    else
      var prefix := NatToString(n / 10);
      var s := prefix + [DigitChar(n % 10)];
      assert s[..|s| - 1] == prefix;
      s
  }

  lemma NatToStringInjective(m: nat, n: nat)
    requires NatToString(m) == NatToString(n)
    ensures m == n
  {
  }

  /** `str(n)` for any integer. */
  function IntToString(n: int): (s: string)
    ensures |s| > 0
    ensures n >= 0 <==> IsDigits(s)
    ensures n < 0 <==> s[0] == '-'
  {
    if n < 0 then
      var s := "-" + NatToString(-n);
      assert !IsDigit(s[0]);
      s
    else NatToString(n)
  }

  lemma {:induction false} IntToStringInjective(m: int, n: int)
    requires IntToString(m) == IntToString(n)
    ensures m == n
  {
    if m < 0 {
      assert IntToString(m)[1..] == NatToString(-m);
      assert IntToString(n)[1..] == NatToString(-n);
      NatToStringInjective(-m, -n);
    } else {
      NatToStringInjective(m, n);
    }
  }

  function Zeros(k: nat): (z: string)
    ensures |z| == k && forall i :: 0 <= i < k ==> z[i] == '0'
  {
    seq(k, _ => '0')
  }

  /** Left-pads `s` with zeros to at least `width` characters; never truncates. */
  function ZeroPad(s: string, width: nat): string {
    if |s| >= width then s else Zeros(width - |s|) + s
  }

  /**
   * Python's `"{0:03d}".format(n)`: width 3, zero fill; for a negative number
   * the sign counts towards the width and the zeros go after it.
   */
  function Format03d(n: int): string {
    if n < 0 then "-" + ZeroPad(NatToString(-n), 2) else ZeroPad(NatToString(n), 3)
  }

  lemma {:induction false} LeadingZerosValue(k: nat, s: string)
    requires IsDigits(s)
    ensures IsDigits(Zeros(k) + s)
    ensures DigitsValue(Zeros(k) + s) == DigitsValue(s)
    decreases |s|, k
  {
    var t := Zeros(k) + s;
    if s == [] {
      assert t == Zeros(k);
      if k > 0 {
        assert t[..|t| - 1] == Zeros(k - 1) + [];
        LeadingZerosValue(k - 1, []);
      }
    } else {
      var init := s[..|s| - 1];
      assert t[..|t| - 1] == Zeros(k) + init;
      LeadingZerosValue(k, init);
    }
  }

  /**
   * For a non-negative number the padded text is all digits, has exactly
   * max(3, digits of n) characters, ends with `str(n)` after zeros only, and
   * denotes `n` again.
   */
  lemma Format03dReadsBack(n: nat)
    ensures IsDigits(Format03d(n))
    ensures |Format03d(n)| == if |NatToString(n)| >= 3 then |NatToString(n)| else 3
    ensures Format03d(n) == Zeros(|Format03d(n)| - |NatToString(n)|) + NatToString(n)
    ensures DigitsValue(Format03d(n)) == n
  {
    var s := NatToString(n);
    assert Format03d(n) == ZeroPad(s, 3);
    if |s| >= 3 {
      assert Zeros(0) == [];
      assert Zeros(0) + s == s;
    } else {
      LeadingZerosValue(3 - |s|, s);
    }
  }

  /**
   * For a negative number the sign counts towards the width: '-', then
   * `str(-n)` zero-padded to two characters, denoting `-n` again.
   */
  lemma Format03dNegative(n: int)
    requires n < 0
    ensures var f := Format03d(n);
      && |f| == (if |NatToString(-n)| >= 2 then 1 + |NatToString(-n)| else 3)
      && f[0] == '-' && IsDigits(f[1..]) && DigitsValue(f[1..]) == -n
  {
    var s := NatToString(-n);
    var f := Format03d(n);
    assert f[1..] == ZeroPad(s, 2);
    if |s| >= 2 {
      assert ZeroPad(s, 2) == s;
    } else {
      LeadingZerosValue(2 - |s|, s);
    }
  }

  lemma {:induction false} ExampleFormat03d()
    ensures Format03d(7) == "007" && Format03d(1234) == "1234"
    ensures Format03d(-5) == "-05" && Format03d(-123) == "-123"
  {
    assert NatToString(7) == "7";
    assert NatToString(5) == "5";
    assert NatToString(123) == "123" by {
      assert NatToString(12) == "12";
    }
    assert NatToString(1234) == "1234";
    assert Zeros(2) == "00";
    assert Zeros(1) == "0";
  }

  /** Python 2's whitespace set for `str.strip` and `int()`. */
  predicate IsSpace(c: char) {
    c == ' ' || c == '\t' || c == '\n' || c == '\r' || c as int == 11 || c as int == 12
  }

  function TrimLeft(s: string): string {
    if |s| > 0 && IsSpace(s[0]) then TrimLeft(s[1..]) else s
  }

  function TrimRight(s: string): string {
    if |s| > 0 && IsSpace(s[|s| - 1]) then TrimRight(s[..|s| - 1]) else s
  }

  predicate Blanks(s: string) {
    forall k :: 0 <= k < |s| ==> IsSpace(s[k])
  }

  /** Trimming on the left drops blanks `a` only, and stops at a non-blank. */
  lemma {:induction false} TrimLeftSplit(s: string) returns (a: string)
    ensures s == a + TrimLeft(s) && Blanks(a)
    ensures TrimLeft(s) == [] || !IsSpace(TrimLeft(s)[0])
    decreases |s|
  {
    if |s| > 0 && IsSpace(s[0]) {
      var rest := TrimLeftSplit(s[1..]);
      a := [s[0]] + rest;
      assert s == [s[0]] + s[1..];
    } else {
      a := [];
    }
  }

  /** Trimming on the right drops blanks `c` only, and stops at a non-blank. */
  lemma {:induction false} TrimRightSplit(s: string) returns (c: string)
    ensures s == TrimRight(s) + c && Blanks(c)
    ensures TrimRight(s) == [] || !IsSpace(TrimRight(s)[|TrimRight(s)| - 1])
    decreases |s|
  {
    if |s| > 0 && IsSpace(s[|s| - 1]) {
      var rest := TrimRightSplit(s[..|s| - 1]);
      c := rest + [s[|s| - 1]];
      assert s == s[..|s| - 1] + [s[|s| - 1]];
    } else {
      c := [];
    }
  }

  /** Trimming on the left keeps a suffix. */
  lemma {:induction false} TrimLeftSuffix(s: string)
    ensures |TrimLeft(s)| <= |s| && TrimLeft(s) == s[|s| - |TrimLeft(s)|..]
    decreases |s|
  {
    if |s| > 0 && IsSpace(s[0]) {
      TrimLeftSuffix(s[1..]);
    }
  }

  /** Trimming on the right keeps a prefix. */
  lemma {:induction false} TrimRightPrefix(s: string)
    ensures |TrimRight(s)| <= |s| && TrimRight(s) == s[..|TrimRight(s)|]
    decreases |s|
  {
    if |s| > 0 && IsSpace(s[|s| - 1]) {
      TrimRightPrefix(s[..|s| - 1]);
    }
  }

  /** `f.readline()`: everything up to and including the first newline, or all of `s` when it has none. */
  function FirstLine(s: string): (line: string)
    ensures |line| <= |s| && line == s[..|line|]
    ensures '\n' !in s ==> line == s
    ensures '\n' in s ==> |line| > 0 && line[|line| - 1] == '\n' && '\n' !in line[..|line| - 1]
  {
    if s == [] then []
    else if s[0] == '\n' then "\n"
    else [s[0]] + FirstLine(s[1..])
  }

  /**
   * `int(line)` in base 10 as Python 2 reads it: surrounding whitespace, an
   * optional sign, more whitespace after the sign, and at least one digit;
   * anything else is a `ValueError` (None).
   */
  function ParseInt(line: string): (r: Option<int>)
    ensures (forall k :: 0 <= k < |line| ==> !IsDigit(line[k])) ==> r.None?
    ensures r.Some? && r.value < 0 ==> '-' in line
  {
    var l := TrimLeft(line);
    var t := TrimRight(l);
    TrimLeftSuffix(line);
    TrimRightPrefix(l);
    assert forall k :: 0 <= k < |t| ==> t[k] == line[|line| - |l| + k];
    ParseNumber(t)
  }

  /** The trimmed text: an optional sign, blanks after the sign, then digits only. */
  function ParseNumber(t: string): (r: Option<int>)
    ensures (forall k :: 0 <= k < |t| ==> !IsDigit(t[k])) ==> r.None?
    ensures r.Some? && r.value < 0 ==> |t| > 0 && t[0] == '-'
  {
    if |t| > 0 && (t[0] == '-' || t[0] == '+') then
      var u := TrimLeft(t[1..]);
      TrimLeftSuffix(t[1..]);
      if |u| > 0 && IsDigits(u) then
        assert u[0] == t[|t| - |u|];
        Some(if t[0] == '-' then -(DigitsValue(u) as int) else DigitsValue(u))
      else None
    else if |t| > 0 && IsDigits(t) then Some(DigitsValue(t))
    else None
  }

  /**
   * A line `int()` accepts, split into its parts: blanks `a`, an optional
   * sign, blanks `b` (only after a sign), the digits `d`, and blanks `c`.
   */
  predicate IntLiteral(a: string, sign: string, b: string, d: string, c: string) {
    && Blanks(a) && (sign == "" || sign == "+" || sign == "-") && Blanks(b) && (sign == "" ==> b == "")
    && |d| > 0 && IsDigits(d) && Blanks(c)
  }

  function LiteralValue(sign: string, d: string): int
    requires IsDigits(d)
  {
    if sign == "-" then -(DigitsValue(d) as int) else DigitsValue(d)
  }

  lemma {:induction false} TrimLeftBlanks(x: string, y: string)
    requires Blanks(x) && (y == [] || !IsSpace(y[0]))
    ensures TrimLeft(x + y) == y
    decreases |x|
  {
    if x == [] {
      assert x + y == y;
    } else {
      assert (x + y)[1..] == x[1..] + y;
      TrimLeftBlanks(x[1..], y);
    }
  }

  lemma {:induction false} TrimRightBlanks(x: string, y: string)
    requires Blanks(y) && (x == [] || !IsSpace(x[|x| - 1]))
    ensures TrimRight(x + y) == x
    decreases |y|
  {
    if y == [] {
      assert x + y == x;
    } else {
      assert (x + y)[..|x + y| - 1] == x + y[..|y| - 1];
      TrimRightBlanks(x, y[..|y| - 1]);
    }
  }

  /** Every literal in that shape is accepted, with its signed value. */
  lemma ParseIntAccepts(a: string, sign: string, b: string, d: string, c: string)
    requires IntLiteral(a, sign, b, d, c)
    ensures ParseInt(a + sign + b + d + c) == Some(LiteralValue(sign, d))
  {
    var tail := sign + (b + d);
    Regroup(a, sign, b, d, c);
    if sign != "" {
      HeadOf(tail, sign, b + d);
    } else {
      assert tail == d;
    }
    assert (tail + c)[0] == tail[0];
    TrimLeftBlanks(a, tail + c);
    assert tail[|tail| - 1] == d[|d| - 1];
    TrimRightBlanks(tail, c);
    assert ParseInt(a + sign + b + d + c) == ParseNumber(tail);
    if sign != "" {
      TrimLeftBlanks(b, d);
    }
  }

  lemma Regroup<T>(a: seq<T>, sign: seq<T>, b: seq<T>, d: seq<T>, c: seq<T>)
    ensures a + sign + b + d + c == a + ((sign + (b + d)) + c)
  {
  }

  lemma Join<T>(line: seq<T>, a: seq<T>, l: seq<T>, t: seq<T>, c: seq<T>, sign: seq<T>, b: seq<T>, d: seq<T>)
    requires line == a + l && l == t + c && t == sign + b + d
    ensures line == a + sign + b + d + c
  {
  }

  lemma HeadOf<T>(t: seq<T>, x: seq<T>, y: seq<T>)
    requires |x| == 1 && t == x + y
    ensures t[0] == x[0] && t[1..] == y
  {
  }

  /** Every accepted line is a literal in that shape, and its value is the literal's. */
  lemma ParseIntSound(line: string) returns (a: string, sign: string, b: string, d: string, c: string)
    requires ParseInt(line).Some?
    ensures line == a + sign + b + d + c && IntLiteral(a, sign, b, d, c)
    ensures ParseInt(line) == Some(LiteralValue(sign, d))
  {
    var l := TrimLeft(line);
    var t := TrimRight(l);
    a := TrimLeftSplit(line);
    c := TrimRightSplit(l);
    sign, b, d := SplitSigned(t);
    Join(line, a, l, t, c, sign, b, d);
    ParseIntAccepts(a, sign, b, d, c);
  }

  /** The trimmed text of an accepted line: an optional sign, blanks after it, then digits. */
  lemma SplitSigned(t: string) returns (sign: string, b: string, d: string)
    requires ParseNumber(t).Some?
    ensures t == sign + b + d
    ensures (sign == "" || sign == "+" || sign == "-") && Blanks(b) && (sign == "" ==> b == "")
    ensures |d| > 0 && IsDigits(d)
  {
    if |t| > 0 && (t[0] == '-' || t[0] == '+') {
      var x := t[1..];
      var u := TrimLeft(x);
      assert |u| > 0 && IsDigits(u);
      b := TrimLeftSplit(x);
      sign, d := t[..1], u;
      HeadSplit(t, x, b, u);
    } else {
      assert |t| > 0 && IsDigits(t);
      sign, b, d := "", "", t;
      assert t == sign + b + d;
    }
  }

  lemma HeadSplit<T>(t: seq<T>, x: seq<T>, b: seq<T>, u: seq<T>)
    requires |t| > 0 && x == t[1..] && x == b + u
    ensures t == t[..1] + b + u
  {
    assert t == t[..1] + t[1..];
  }

  lemma {:induction false} FirstLineStopsAtNewline(x: string, rest: string)
    requires '\n' !in x
    ensures FirstLine(x + "\n" + rest) == x + "\n"
    decreases |x|
  {
    if x != [] {
      assert (x + "\n" + rest)[1..] == x[1..] + "\n" + rest;
      FirstLineStopsAtNewline(x[1..], rest);
    }
  }

  /** The characters of `str(n)`: digits and, for a negative number, a leading sign. */
  lemma IntToStringAlphabet(n: int)
    ensures IsDigit(IntToString(n)[|IntToString(n)| - 1])
    ensures forall i :: 0 <= i < |IntToString(n)| ==> IntToString(n)[i] == '-' || IsDigit(IntToString(n)[i])
  {
    if n < 0 {
      var x := IntToString(n);
      assert forall i :: 1 <= i < |x| ==> x[i] == NatToString(-n)[i - 1];
    }
  }

  lemma TrimNumberLine(x: string)
    requires |x| > 0 && IsDigit(x[|x| - 1])
    requires x[0] == '-' || IsDigit(x[0])
    ensures TrimRight(TrimLeft(x + "\n")) == x
  {
    var line := x + "\n";
    assert TrimLeft(line) == line;
    assert line[..|line| - 1] == x;
  }

  /**
   * A file whose first line is `str(n)` followed by a newline, the way the
   * kernel writes `busnum` and `devnum`, reads back as `n`.
   */
  lemma IntReadsBack(n: int, rest: string)
    ensures ParseInt(FirstLine(IntToString(n) + "\n" + rest)) == Some(n)
  {
    var x := IntToString(n);
    IntToStringAlphabet(n);
    assert '\n' !in x;
    FirstLineStopsAtNewline(x, rest);
    ParseNumberLine(n);
  }

  /** `int(str(n) + "\n")` is `n`. */
  lemma ParseNumberLine(n: int)
    ensures ParseInt(IntToString(n) + "\n") == Some(n)
  {
    var x := IntToString(n);
    IntToStringAlphabet(n);
    TrimNumberLine(x);
    if n < 0 {
      assert x[1..] == NatToString(-n);
      assert TrimLeft(x[1..]) == x[1..];
    }
  }

  /** Python 2 accepts whitespace between the sign and the digits; a line with no digits is a ValueError. */
  lemma {:induction false} ExampleParse()
    ensures ParseInt(" 12\n") == Some(12) && ParseInt("- 5\n") == Some(-5)
    ensures ParseInt("\n") == None && ParseInt("-\n") == None && ParseInt("1 2\n") == None
  {
    assert TrimLeft(" 12\n") == "12\n";
    assert TrimRight("12\n") == "12";
    assert DigitsValue("12") == 12 by {
      assert "12"[..1] == "1";
    }
    assert TrimRight(TrimLeft("- 5\n")) == "- 5";
    assert TrimLeft(" 5") == "5";
    assert TrimRight(TrimLeft("1 2\n")) == "1 2";
  }
}
