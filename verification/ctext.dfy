/** The pieces of the C and C++ runtime the engine leans on for text:
    character classes of the "C" locale, truncating integer division,
    narrowing to `char`, decimal printing (`operator<<` on an `int`),
    `std::stoi`, and whitespace-separated extraction (`operator>>` into a
    `std::string`). */
module CText {
  import opened Wrappers

  const IntMin: int := -0x8000_0000
  const IntMax: int := 0x7FFF_FFFF

  predicate IsDigit(ch: char) { '0' <= ch <= '9' }

  predicate IsUpper(ch: char) { 'A' <= ch <= 'Z' }

  predicate IsLower(ch: char) { 'a' <= ch <= 'z' }

  /** `isspace` in the "C" locale: space, \t, \n, \v, \f, \r. */
  predicate IsSpace(ch: char) { ch == ' ' || 9 <= ch as int <= 13 }

  function ToLower(ch: char): (r: char)
    ensures IsUpper(ch) ==> IsLower(r) && r as int == ch as int + 32
    ensures !IsUpper(ch) ==> r == ch
  {
    if IsUpper(ch) then (ch as int + 32) as char else ch
  }

  function ToUpper(ch: char): (r: char)
    ensures IsLower(ch) ==> IsUpper(r) && ToLower(r) == ch
    ensures !IsLower(ch) ==> r == ch
  {
    if IsLower(ch) then (ch as int - 32) as char else ch
  }

  function DigitValue(ch: char): int { ch as int - '0' as int }

  function DigitChar(d: int): (ch: char)
    requires 0 <= d < 10
    ensures IsDigit(ch) && DigitValue(ch) == d
  {
    ('0' as int + d) as char
  }

  /** C++ `/` on `int`: the quotient truncated toward zero. */
  function CppDiv(a: int, b: int): (q: int)
    requires b > 0
    ensures a >= 0 ==> q == a / b
  {
    if a >= 0 then a / b else -((-a) / b)
  }

  /** C++ `%` on `int`: the remainder takes the sign of the dividend. */
  function CppRem(a: int, b: int): (m: int)
    requires b > 0
    ensures a == CppDiv(a, b) * b + m
    ensures a >= 0 ==> m == a % b
    ensures -b < m < b
  {
    a - CppDiv(a, b) * b
  }

  /** A `(char)` cast: only the low eight bits of the value survive. */
  function ByteChar(n: int): (ch: char)
    ensures 0 <= n < 256 ==> ch as int == n
  {
    (n % 256) as char
  }

  /** The character a `std::string` yields at `i`, where reading at or
      past the end is taken to yield NUL. */
  function CharCodeAt(s: string, i: nat): int {
    if i < |s| then s[i] as int else 0
  }

  // ---------------------------------------------------------------------
  // Decimal printing and std::stoi
  // ---------------------------------------------------------------------

  predicate AllDigits(s: string) {
    forall i :: 0 <= i < |s| ==> IsDigit(s[i])
  }

  /** The digits `operator<<` prints for a non-negative `int`. */
  function NatToString(n: nat): (s: string)
    ensures |s| > 0 && AllDigits(s)
    ensures |s| > 1 ==> s[0] != '0'
  {
    if n < 10 then [DigitChar(n)] else NatToString(n / 10) + [DigitChar(n % 10)]
  }

  /** What `operator<<` prints for any `int`. */
  function IntToString(n: int): (s: string)
    ensures |s| > 0
  {
    if n < 0 then "-" + NatToString(-n) else NatToString(n)
  }

  /** The value of a run of decimal digits, most significant first. */
  function DigitsValue(s: string): (v: nat)
    requires AllDigits(s)
  {
    if |s| == 0 then 0 else DigitsValue(s[..|s| - 1]) * 10 + DigitValue(s[|s| - 1])
  }

  /** The longest prefix of `s` made of decimal digits. */
  function LeadingDigits(s: string): (d: string)
    ensures AllDigits(d) && d <= s
    ensures |d| < |s| ==> !IsDigit(s[|d|])
  {
    if |s| > 0 && IsDigit(s[0]) then [s[0]] + LeadingDigits(s[1..]) else ""
  }

  /** `s` with its leading `isspace` characters removed. */
  function SkipSpaces(s: string): (t: string)
    ensures |t| <= |s|
    ensures |t| > 0 ==> !IsSpace(t[0])
  {
    if |s| > 0 && IsSpace(s[0]) then SkipSpaces(s[1..]) else s
  }

  /** `std::stoi(s)` in base 10: leading white space, an optional sign,
      then as many digits as follow; anything after them is ignored.
      `None` stands for the exception it throws when no digit follows
      the sign (`std::invalid_argument`) or the value does not fit an
      `int` (`std::out_of_range`). */
  function Stoi(s: string): (r: Option<int>)
    ensures r.Some? ==> IntMin <= r.value <= IntMax
    ensures r.Some? <==>
      |LeadingDigits(Unsigned(SkipSpaces(s)))| > 0 && IntMin <= SignedValue(s) <= IntMax
    ensures r.Some? ==> r.value == SignedValue(s)
  {
    var t := SkipSpaces(s);
    var neg := |t| > 0 && t[0] == '-';
    var ds := LeadingDigits(Unsigned(t));
    if |ds| == 0 then None
    else
      var magnitude: int := DigitsValue(ds);
      var v := if neg then -magnitude else magnitude;
      if IntMin <= v <= IntMax then Some(v) else None
  }

  /** The value the digits after the optional sign spell, negated after a
      '-'; 0 when there are no digits. */
  function SignedValue(s: string): int {
    var t := SkipSpaces(s);
    var magnitude: int := DigitsValue(LeadingDigits(Unsigned(t)));
    if |t| > 0 && t[0] == '-' then -magnitude else magnitude
  }

  /** `t` without its sign character, if it starts with one. */
  function Unsigned(t: string): string {
    if |t| > 0 && (t[0] == '-' || t[0] == '+') then t[1..] else t
  }

  lemma {:induction false} DigitsValueOfNatToString(n: nat)
    ensures DigitsValue(NatToString(n)) == n
    decreases n
  {
    if n >= 10 {
      var s := NatToString(n);
      var prefix := NatToString(n / 10);
      assert s == prefix + [DigitChar(n % 10)];
      assert s[..|s| - 1] == prefix;
      DigitsValueOfNatToString(n / 10);
    }
  }

  lemma {:induction false} LeadingDigitsOfDigits(s: string)
    requires AllDigits(s)
    ensures LeadingDigits(s) == s
    decreases |s|
  {
    if |s| > 0 {
      LeadingDigitsOfDigits(s[1..]);
    }
  }

  /** Printing any `int` and reading it back with `std::stoi` gives the
      value again, a '-' included. */
  lemma StoiOfIntToString(n: int)
    requires IntMin <= n <= IntMax
    ensures Stoi(IntToString(n)) == Some(n)
  {
    var m: nat := if n < 0 then -n else n;
    var digits := NatToString(m);
    var s := IntToString(n);
    assert s == (if n < 0 then "-" else "") + digits;
    assert IsDigit(digits[0]);
    assert SkipSpaces(s) == s by {
      assert s[0] == '-' || s[0] == digits[0];
    }
    assert Unsigned(s) == digits by {
      if n < 0 {
        assert s[0] == '-' && s[1..] == digits;
      } else {
        assert s == digits && s[0] != '-' && s[0] != '+';
      }
    }
    LeadingDigitsOfDigits(digits);
    DigitsValueOfNatToString(m);
    assert (|s| > 0 && s[0] == '-') <==> n < 0;
    assert SignedValue(s) == n;
  }

  // ---------------------------------------------------------------------
  // Whitespace-separated extraction
  // ---------------------------------------------------------------------

  predicate NoSpace(s: string) {
    forall i :: 0 <= i < |s| ==> !IsSpace(s[i])
  }

  /** The run of non-space characters at the head of `s`. */
  function Word(s: string): (w: string)
    ensures w <= s && NoSpace(w)
    ensures |w| < |s| ==> IsSpace(s[|w|])
    ensures |s| > 0 && !IsSpace(s[0]) ==> |w| > 0
  {
    if |s| == 0 || IsSpace(s[0]) then "" else [s[0]] + Word(s[1..])
  }

  /** The strings successive `operator>>` extractions read from `s`. */
  function Tokens(s: string): (ts: seq<string>)
    ensures forall i :: 0 <= i < |ts| ==> |ts[i]| > 0 && NoSpace(ts[i])
    decreases |s|
  {
    var t := SkipSpaces(s);
    if |t| == 0 then []
    else
      var w := Word(t);
      [w] + Tokens(t[|w|..])
  }

  /** The `i`-th extracted string; an extraction past the last token
      leaves its (fresh) target empty. */
  function Field(s: string, i: nat): string {
    var ts := Tokens(s);
    if i < |ts| then ts[i] else ""
  }

  lemma {:induction false} WordOfSeparated(a: string, rest: string)
    requires NoSpace(a)
    requires |rest| > 0 && IsSpace(rest[0])
    ensures Word(a + rest) == a
    decreases |a|
  {
    if |a| > 0 {
      assert (a + rest)[1..] == a[1..] + rest;
      WordOfSeparated(a[1..], rest);
    } else {
      assert a + rest == rest;
    }
  }

  /** A non-empty space-free word followed by one space and more text is
      extracted as that word, then the tokens of the rest. */
  lemma TokensOfSeparated(a: string, b: string)
    requires |a| > 0 && NoSpace(a)
    ensures Tokens(a + " " + b) == [a] + Tokens(b)
  {
    var s := a + " " + b;
    assert s == a + (" " + b);
    assert SkipSpaces(s) == s;
    WordOfSeparated(a, " " + b);
    assert s[|a|..] == " " + b;
    assert SkipSpaces(" " + b) == SkipSpaces(b) by {
      assert (" " + b)[1..] == b;
    }
  }

  lemma TokensOfWord(a: string)
    requires |a| > 0 && NoSpace(a)
    ensures Tokens(a) == [a]
  {
    assert SkipSpaces(a) == a;
    WordOfWord(a);
    assert a[|a|..] == "";
  }

  lemma {:induction false} WordOfWord(a: string)
    requires NoSpace(a)
    ensures Word(a) == a
    decreases |a|
  {
    if |a| > 0 {
      WordOfWord(a[1..]);
    }
  }
}
