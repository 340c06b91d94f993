/**
 * Python's `int(s)` on a string, in base 10: surrounding whitespace is
 * stripped, an optional sign may lead, and the digits may be grouped by
 * single underscores.  `None` stands for the `ValueError` that `int` raises,
 * which includes a spelling with more digits than the interpreter's default
 * limit on integer string conversion (4300).
 *
 * The view parses `qty` with `int(qty)`, and Django's integer id field
 * converts a `by_serverid` lookup value with the same `int`, so both query
 * parameters go through `ParseInt`.
 */
module PyInt {
  import opened Wrappers

  /**
   * The characters `int` strips around its digits: the ASCII whitespace
   * `\t`, `\n`, `\v`, `\f`, `\r` and space, and the non-ASCII characters
   * `str.isspace` accepts.  The ASCII separators U+001C to U+001F satisfy
   * `str.isspace` but are not stripped: `int` keeps every ASCII character as
   * it is and then skips only ASCII whitespace.
   */
  predicate IsSpace(c: char) {
    var n := c as int;
    (0x09 <= n <= 0x0D) || n == 0x20 || n == 0x85 || n == 0xA0 ||
    n == 0x1680 || (0x2000 <= n <= 0x200A) || n == 0x2028 || n == 0x2029 ||
    n == 0x202F || n == 0x205F || n == 0x3000
  }

  predicate IsDigit(c: char) {
    '0' <= c <= '9'
  }

  function DigitValue(c: char): (d: nat)
    requires IsDigit(c)
    ensures d < 10
  {
    c as int - '0' as int
  }

  function DigitChar(d: nat): (c: char)
    requires d < 10
    ensures IsDigit(c) && DigitValue(c) == d
  {
    ('0' as int + d) as char
  }

  /** Drops leading whitespace. */
  function TrimLeft(s: string): string {
    if s != [] && IsSpace(s[0]) then TrimLeft(s[1..]) else s
  }

  /** Drops trailing whitespace. */
  function TrimRight(s: string): string {
    if s != [] && IsSpace(s[|s| - 1]) then TrimRight(s[..|s| - 1]) else s
  }

  function Strip(s: string): string {
    TrimRight(TrimLeft(s))
  }

  /**
   * A run of decimal digits in which every underscore sits between two
   * digits: Python's grammar for the digits of a base-10 integer.
   */
  predicate IsDigitGroups(t: string)
    decreases |t|
  {
    |t| > 0 && IsDigit(t[0]) &&
    (|t| == 1 || if t[1] == '_' then |t| > 2 && IsDigitGroups(t[2..]) else IsDigitGroups(t[1..]))
  }

  /** The number the digits of `t` spell, underscores skipped. */
  function DigitsValue(t: string): nat {
    if t == [] then 0
    else if IsDigit(t[|t| - 1]) then 10 * DigitsValue(t[..|t| - 1]) + DigitValue(t[|t| - 1])
    else DigitsValue(t[..|t| - 1])
  }

  /** The default of `sys.get_int_max_str_digits()`: `int` rejects longer spellings. */
  const MaxStrDigits: nat := 4300

  /** The number of digits in `t`, underscores and signs not counted. */
  function DigitCount(t: string): nat {
    if t == [] then 0 else (if IsDigit(t[0]) then 1 else 0) + DigitCount(t[1..])
  }

  /** `int(s)`, or `None` where `int(s)` raises `ValueError`. */
  function ParseInt(s: string): Option<int> {
    ParseStripped(Strip(s))
  }

  /**
   * `int` once the surrounding whitespace is gone: an optional sign, then
   * digit groups of at most `MaxStrDigits` digits.
   */
  function ParseStripped(t: string): Option<int> {
    if |t| > 0 && (t[0] == '+' || t[0] == '-') then
      if IsDigitGroups(t[1..]) && DigitCount(t[1..]) <= MaxStrDigits then
        var v: int := DigitsValue(t[1..]);
        Some(if t[0] == '-' then -v else v)
      else None
    else if IsDigitGroups(t) && DigitCount(t) <= MaxStrDigits then Some(DigitsValue(t))
    else None
  }

  /** The decimal spelling of a natural number, without leading zeros. */
  function NatDecimal(n: nat): string {
    if n < 10 then [DigitChar(n)] else NatDecimal(n / 10) + [DigitChar(n % 10)]
  }

  /** `str(n)` for an integer: the partner of `ParseInt`. */
  function Decimal(n: int): string {
    if n < 0 then "-" + NatDecimal(-n) else NatDecimal(n)
  }

  predicate AllDigits(t: string) {
    forall i :: 0 <= i < |t| ==> IsDigit(t[i])
  }

  predicate NoDigit(t: string) {
    forall i :: 0 <= i < |t| ==> !IsDigit(t[i])
  }

  /** The decimal spelling is a non-empty run of plain digits. */
  lemma {:induction false} NatDecimalDigits(n: nat)
    ensures |NatDecimal(n)| > 0 && AllDigits(NatDecimal(n))
  {
    if n >= 10 {
      NatDecimalDigits(n / 10);
    }
  }

  /** A non-empty run of plain digits is one digit group. */
  lemma {:induction false} AllDigitsAreGroups(t: string)
    requires |t| > 0 && AllDigits(t)
    ensures IsDigitGroups(t)
  {
    if |t| > 1 {
      assert AllDigits(t[1..]);
      AllDigitsAreGroups(t[1..]);
    }
  }

  /** The digits of `str(n)` spell `n`. */
  lemma {:induction false} DigitsValueOfNatDecimal(n: nat)
    ensures DigitsValue(NatDecimal(n)) == n
  {
    if n >= 10 {
      var init := NatDecimal(n / 10);
      var s := init + [DigitChar(n % 10)];
      assert s[..|s| - 1] == init;
      DigitsValueOfNatDecimal(n / 10);
    }
  }

  /** Every character of a run of plain digits is counted. */
  lemma {:induction false} AllDigitsCount(t: string)
    requires AllDigits(t)
    ensures DigitCount(t) == |t|
  {
    if t != [] {
      assert AllDigits(t[1..]);
      AllDigitsCount(t[1..]);
    }
  }

  /** What the round trip needs of the spelling, as ground facts. */
  lemma NatDecimalFacts(m: nat)
    ensures var d := NatDecimal(m);
      |d| > 0 && IsDigitGroups(d) && DigitsValue(d) == m && DigitCount(d) == |d|
  {
    NatDecimalDigits(m);
    AllDigitsAreGroups(NatDecimal(m));
    DigitsValueOfNatDecimal(m);
    AllDigitsCount(NatDecimal(m));
  }

  /** The number of digits in the decimal spelling of `n`. */
  function DecimalLength(n: int): nat {
    |NatDecimal(if n < 0 then -n else n)|
  }

  /**
   * `int(str(n)) == n` for every integer `n` of at most `MaxStrDigits`
   * digits; a longer spelling is rejected.
   */
  lemma ParseIntOfDecimal(n: int)
    ensures DecimalLength(n) <= MaxStrDigits ==> ParseInt(Decimal(n)) == Some(n)
    ensures DecimalLength(n) > MaxStrDigits ==> ParseInt(Decimal(n)) == None
  {
    var m: nat := if n < 0 then -n else n;
    var d := NatDecimal(m);
    NatDecimalFacts(m);
    if n < 0 {
      ParseIntOfSignedGroups('-', d);
      assert Decimal(n) == ['-'] + d;
    } else {
      ParseIntOfDigitGroups(d);
      assert Decimal(n) == d;
    }
  }

  /** Unsigned digit groups parse to their value, unless they hold too many digits. */
  lemma ParseIntOfDigitGroups(t: string)
    requires IsDigitGroups(t)
    ensures ParseInt(t) == if DigitCount(t) <= MaxStrDigits then Some(DigitsValue(t)) else None
  {
    GroupsEndInDigit(t);
    DigitIsNotSpace(t[0]);
    DigitIsNotSpace(t[|t| - 1]);
    StripUnchanged(t);
  }

  /**
   * A sign before digit groups: `+` keeps their value and `-` negates it,
   * unless the groups hold too many digits.
   */
  lemma ParseIntOfSignedGroups(sign: char, t: string)
    requires sign == '+' || sign == '-'
    requires IsDigitGroups(t)
    ensures ParseInt([sign] + t) ==
      if DigitCount(t) <= MaxStrDigits then Some(if sign == '-' then -(DigitsValue(t) as int) else DigitsValue(t))
      else None
  {
    var s := [sign] + t;
    GroupsEndInDigit(t);
    DigitIsNotSpace(t[|t| - 1]);
    assert s[|s| - 1] == t[|t| - 1];
    StripUnchanged(s);
    assert s[1..] == t;
  }

  /** A run of more than `MaxStrDigits` plain digits is rejected. */
  lemma LongDigitRunsRejected(t: string)
    requires AllDigits(t) && |t| > MaxStrDigits
    ensures ParseInt(t) == None
  {
    AllDigitsAreGroups(t);
    AllDigitsCount(t);
    ParseIntOfDigitGroups(t);
  }

  /** Digit groups end in a digit. */
  lemma {:induction false} GroupsEndInDigit(t: string)
    requires IsDigitGroups(t)
    ensures IsDigit(t[|t| - 1])
    decreases |t|
  {
    if |t| > 1 {
      var rest := if t[1] == '_' then t[2..] else t[1..];
      GroupsEndInDigit(rest);
      assert t[|t| - 1] == rest[|rest| - 1];
    }
  }

  lemma DigitIsNotSpace(c: char)
    requires IsDigit(c)
    ensures !IsSpace(c)
  {
  }

  lemma StripUnchanged(s: string)
    requires s != [] && !IsSpace(s[0]) && !IsSpace(s[|s| - 1])
    ensures Strip(s) == s
  {
    assert TrimLeft(s) == s;
  }

  /** Whitespace `int` strips, around any string, is ignored. */
  lemma ParseIntIgnoresSurroundingSpace(pre: string, s: string, post: string)
    requires forall i :: 0 <= i < |pre| ==> IsSpace(pre[i])
    requires forall i :: 0 <= i < |post| ==> IsSpace(post[i])
    ensures ParseInt(pre + s + post) == ParseInt(s)
  {
    StripPadded(pre, s, post);
    ParseIntDependsOnStrip(pre + s + post, s);
  }

  lemma ParseIntDependsOnStrip(a: string, b: string)
    requires Strip(a) == Strip(b)
    ensures ParseInt(a) == ParseInt(b)
  {
  }

  /** Padding a string with whitespace on both sides does not change its stripped form. */
  lemma StripPadded(pre: string, s: string, post: string)
    requires forall i :: 0 <= i < |pre| ==> IsSpace(pre[i])
    requires forall i :: 0 <= i < |post| ==> IsSpace(post[i])
    ensures Strip(pre + s + post) == Strip(s)
  {
    assert pre + s + post == pre + (s + post);
    TrimLeftSkipsSpace(pre, s + post);
    StripIgnoresTrailingSpace(s, post);
  }

  /** Leading whitespace is dropped whatever follows it. */
  lemma {:induction false} TrimLeftSkipsSpace(pre: string, rest: string)
    requires forall i :: 0 <= i < |pre| ==> IsSpace(pre[i])
    ensures TrimLeft(pre + rest) == TrimLeft(rest)
  {
    if pre != [] {
      assert (pre + rest)[1..] == pre[1..] + rest;
      TrimLeftSkipsSpace(pre[1..], rest);
    } else {
      assert pre + rest == rest;
    }
  }

  /** Trailing whitespace is dropped whatever precedes it. */
  lemma {:induction false} TrimRightSkipsSpace(rest: string, post: string)
    requires forall i :: 0 <= i < |post| ==> IsSpace(post[i])
    ensures TrimRight(rest + post) == TrimRight(rest)
  {
    if post != [] {
      var s := rest + post;
      assert s[..|s| - 1] == rest + post[..|post| - 1];
      TrimRightSkipsSpace(rest, post[..|post| - 1]);
    } else {
      assert rest + post == rest;
    }
  }

  /** Trailing whitespace does not change the stripped form, even of a blank string. */
  lemma {:induction false} StripIgnoresTrailingSpace(s: string, post: string)
    requires forall i :: 0 <= i < |post| ==> IsSpace(post[i])
    ensures TrimRight(TrimLeft(s + post)) == TrimRight(TrimLeft(s))
  {
    if s == [] {
      assert s + post == post;
      TrimLeftSkipsSpace(post, []);
      assert post + [] == post;
    } else if IsSpace(s[0]) {
      assert (s + post)[1..] == s[1..] + post;
      StripIgnoresTrailingSpace(s[1..], post);
    } else {
      assert (s + post)[0] == s[0];
      TrimRightSkipsSpace(s, post);
    }
  }

  /** A string with no decimal digit in it never parses. */
  lemma ParseIntNeedsADigit(s: string)
    requires NoDigit(s)
    ensures ParseInt(s) == None
  {
    TrimLeftKeepsNoDigit(s);
    TrimRightKeepsNoDigit(TrimLeft(s));
    NoDigitNoParse(Strip(s));
  }

  lemma {:induction false} TrimLeftKeepsNoDigit(s: string)
    requires NoDigit(s)
    ensures NoDigit(TrimLeft(s))
  {
    if s != [] && IsSpace(s[0]) {
      assert NoDigit(s[1..]);
      TrimLeftKeepsNoDigit(s[1..]);
    }
  }

  lemma {:induction false} TrimRightKeepsNoDigit(s: string)
    requires NoDigit(s)
    ensures NoDigit(TrimRight(s))
  {
    if s != [] && IsSpace(s[|s| - 1]) {
      assert NoDigit(s[..|s| - 1]);
      TrimRightKeepsNoDigit(s[..|s| - 1]);
    }
  }

  lemma NoDigitNoParse(t: string)
    requires NoDigit(t)
    ensures ParseStripped(t) == None
  {
    if |t| > 1 {
      assert !IsDigit(t[1..][0]);
    }
  }

  /** Surrounding whitespace and a sign are accepted, as `int` does. */
  lemma AcceptedSpellings()
    ensures ParseInt(" 42\n") == Some(42)
    ensures ParseInt("+7") == Some(7)
    ensures ParseInt("1_0") == Some(10)
  {
    assert IsDigitGroups("42") && DigitsValue("42") == 42;
    ParseIntOfDigitGroups("42");
    assert forall i :: 0 <= i < |" "| ==> IsSpace(" "[i]);
    assert forall i :: 0 <= i < |"\n"| ==> IsSpace("\n"[i]);
    ParseIntIgnoresSurroundingSpace(" ", "42", "\n");
    assert " 42\n" == " " + "42" + "\n";
    assert IsDigitGroups("7") && DigitsValue("7") == 7;
    ParseIntOfSignedGroups('+', "7");
    assert "+7" == ['+'] + "7";
    assert "1_0"[2..] == "0";
    assert IsDigitGroups("1_0");
    assert "1_0"[..2] == "1_" && "1_"[..1] == "1";
    assert DigitsValue("1_0") == 10;
    ParseIntOfDigitGroups("1_0");
  }

  /** A doubled, leading or trailing underscore, a lone sign and the empty string are rejected. */
  lemma RejectedSpellings()
    ensures ParseInt("1__0") == None && ParseInt("_1") == None && ParseInt("1_") == None
    ensures ParseInt("") == None && ParseInt("-") == None && ParseInt(" ") == None
  {
  }

  /** The ASCII separators U+001C to U+001F are not stripped, so padding with them is rejected. */
  lemma SeparatorsNotStripped()
    ensures ParseInt("\U{1C}5") == None && ParseInt("5\U{1F}") == None
  {
    StripUnchanged("\U{1C}5");
    StripUnchanged("5\U{1F}");
    assert !IsDigitGroups("5\U{1F}"[1..]);
  }
}
