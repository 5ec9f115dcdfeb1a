/** The few Ruby values and core-library behaviours the console helper relies on:
    `nil`, strings, raised exceptions, `String#strip`, `String#chomp`, `String#to_i`,
    `Integer#to_s` and `Array#join`. */
module Ruby {

  datatype Option<+T> = None | Some(value: T)

  /** A value a tenant constant or a context attribute can hold: `nil` or a string. */
  datatype Val = Nil | Str(s: string)

  /** `Object#to_s`: `nil.to_s` is the empty string. */
  function ToS(v: Val): string {
    match v
    case Nil => ""
    case Str(s) => s
  }

  /** The exception classes the helper distinguishes (`rescue NoMethodError` versus
      `rescue StandardError`). */
  datatype ErrorClass = NoMethodError | NameError | RuntimeError | OtherError(name: string)

  /** A raised exception: its class, its message and the backtrace Ruby attaches on `raise`. */
  datatype RubyError = RubyError(cls: ErrorClass, message: string, backtrace: seq<string>)

  /** The escape character that opens an ANSI colour code. */
  const ESC: char := '\U{1B}'

  predicate NoEscape(s: string) {
    forall i :: 0 <= i < |s| ==> s[i] != ESC
  }

  lemma NoEscapeConcat(a: string, b: string)
    ensures NoEscape(a + b) <==> NoEscape(a) && NoEscape(b)
  {
    if NoEscape(a) && NoEscape(b) {
      forall i | 0 <= i < |a + b| ensures (a + b)[i] != ESC {
        if i >= |a| { assert (a + b)[i] == b[i - |a|]; }
      }
    }
    if NoEscape(a + b) {
      forall i | 0 <= i < |a| ensures a[i] != ESC {
        assert (a + b)[i] == a[i];
      }
      forall i | 0 <= i < |b| ensures b[i] != ESC {
        assert (a + b)[|a| + i] == b[i];
      }
    }
  }

  // ---------------------------------------------------------------------------
  // String#strip and String#chomp

  /** The characters `String#strip` removes: NUL, tab, line feed, vertical tab, form feed,
      carriage return and space. */
  predicate IsStripSpace(c: char) {
    c == '\0' || c == '\t' || c == '\n' || c == '\U{0B}' || c == '\U{0C}' || c == '\r' || c == ' '
  }

  predicate AllStripSpace(s: string) {
    forall i :: 0 <= i < |s| ==> IsStripSpace(s[i])
  }

  /** `String#lstrip`: the longest suffix of `s` that does not start with whitespace. */
  function LStrip(s: string): (r: string)
    ensures |r| <= |s| && r == s[|s| - |r|..]
    ensures AllStripSpace(s[..|s| - |r|])
    ensures r == [] || !IsStripSpace(r[0])
  {
    if s != [] && IsStripSpace(s[0]) then LStrip(s[1..]) else s
  }

  /** `String#rstrip`: the longest prefix of `s` that does not end with whitespace. */
  function RStrip(s: string): (r: string)
    ensures |r| <= |s| && r == s[..|r|]
    ensures AllStripSpace(s[|r|..])
    ensures r == [] || !IsStripSpace(r[|r| - 1])
  {
    if s != [] && IsStripSpace(s[|s| - 1]) then RStrip(s[..|s| - 1]) else s
  }

  /** `String#strip`: neither end of the result is whitespace. */
  function Strip(s: string): (r: string)
    ensures |r| <= |s|
    ensures r == [] || (!IsStripSpace(r[0]) && !IsStripSpace(r[|r| - 1]))
  {
    RStrip(LStrip(s))
  }

  /** `strip` removes exactly the whitespace at both ends: the result is the slice of `s`
      starting at `a`, with only whitespace before and after it. With the ends of the result
      not being whitespace, this determines it. */
  lemma StripRemovesEndSpace(s: string) returns (a: nat)
    ensures a + |Strip(s)| <= |s| && Strip(s) == s[a..a + |Strip(s)|]
    ensures AllStripSpace(s[..a]) && AllStripSpace(s[a + |Strip(s)|..])
  {
    var l := LStrip(s);
    var r := RStrip(l);
    a := |s| - |l|;
    SuffixSlices(s, a, |r|);
    assert Strip(s) == r;
  }

  /** Slices of the suffix `s[a..]` are slices of `s` shifted by `a`. */
  lemma SuffixSlices(s: string, a: nat, k: nat)
    requires a + k <= |s|
    ensures s[a..][..k] == s[a..a + k] && s[a..][k..] == s[a + k..]
  {
  }

  /** Text with no whitespace at either end. */
  predicate Trimmed(w: string) {
    w != [] && !IsStripSpace(w[0]) && !IsStripSpace(w[|w| - 1])
  }

  /** Stripping text that has no whitespace at either end leaves it as it is. */
  lemma StripTrimmed(w: string)
    requires Trimmed(w)
    ensures Strip(w) == w
  {
    assert LStrip(w) == w;
    assert RStrip(w) == w;
  }

  /** A line strips to nothing exactly when it consists of whitespace only. */
  lemma StripEmptyIff(s: string)
    ensures Strip(s) == [] <==> AllStripSpace(s)
  {
    var l := LStrip(s);
    if Strip(s) == [] {
      assert AllStripSpace(l[0..]);
      assert l == [];
      forall i | 0 <= i < |s| ensures IsStripSpace(s[i]) {
        assert s[i] == s[..|s| - |l|][i];
      }
    }
  }

  /** `String#chomp` without an argument: drops one trailing "\r\n", "\n" or "\r". */
  function Chomp(s: string): (r: string)
    ensures |r| <= |s| && r == s[..|r|]
    ensures AllStripSpace(s[|r|..])
  {
    if |s| >= 2 && s[|s| - 2] == '\r' && s[|s| - 1] == '\n' then s[..|s| - 2]
    else if |s| >= 1 && (s[|s| - 1] == '\n' || s[|s| - 1] == '\r') then s[..|s| - 1]
    else s
  }

  /** What `chomp` drops is one line ending or nothing; a trailing "\r\n" goes whole, and a
      trailing "\n" or "\r" always goes. Together these determine the result. */
  lemma ChompDropsLineEnding(s: string)
    ensures s[|Chomp(s)|..] in {"", "\n", "\r", "\r\n"}
    ensures |s| >= 2 && s[|s| - 2..] == "\r\n" ==> |Chomp(s)| == |s| - 2
    ensures s != [] && (s[|s| - 1] == '\n' || s[|s| - 1] == '\r') ==> |Chomp(s)| < |s|
  {
    if |s| >= 2 && s[|s| - 2] == '\r' && s[|s| - 1] == '\n' {
      assert s[|s| - 2..] == "\r\n";
    } else if |s| >= 1 && (s[|s| - 1] == '\n' || s[|s| - 1] == '\r') {
      assert s[|s| - 1..] == [s[|s| - 1]];
    } else {
      assert s[|s|..] == "";
    }
  }

  /** `gets&.chomp&.strip` on a line that was read: empty exactly for a blank line. */
  lemma ChompStripEmptyIff(s: string)
    ensures Strip(Chomp(s)) == [] <==> AllStripSpace(s)
  {
    var c := Chomp(s);
    StripEmptyIff(c);
    if AllStripSpace(c) {
      forall i | 0 <= i < |s| ensures IsStripSpace(s[i]) {
        if i >= |c| { assert s[i] == s[|c|..][i - |c|]; }
      }
    }
  }

  // ---------------------------------------------------------------------------
  // Decimal digits

  predicate IsDigit(c: char) {
    '0' <= c <= '9'
  }

  predicate AllDigits(s: string) {
    forall i :: 0 <= i < |s| ==> IsDigit(s[i])
  }

  /** The number a string of decimal digits denotes (0 for the empty string). */
  function DigitsValue(s: string): nat
    requires AllDigits(s)
  {
    if s == [] then 0 else DigitsValue(s[..|s| - 1]) * 10 + (s[|s| - 1] as int - '0' as int)
  }

  function DigitChar(d: nat): (c: char)
    requires d < 10
    ensures IsDigit(c) && c as int - '0' as int == d
  {
    (d + '0' as int) as char
  }

  /** `Integer#to_s` for a non-negative integer. */
  function NatToString(n: nat): (s: string)
    ensures |s| >= 1 && AllDigits(s)
  {
    if n < 10 then [DigitChar(n)] else NatToString(n / 10) + [DigitChar(n % 10)]
  }

  /** Reading back a printed number gives the number. */
  lemma {:induction false} NatToStringRoundTrip(n: nat)
    ensures DigitsValue(NatToString(n)) == n
  {
    var s := NatToString(n);
    if n >= 10 {
      NatToStringRoundTrip(n / 10);
      assert s[..|s| - 1] == NatToString(n / 10);
    } else {
      assert s[..|s| - 1] == [];
    }
  }

  // ---------------------------------------------------------------------------
  // String#to_i (base 10)

  /** The characters `String#to_i` skips before the number: space, \t, \n, \v, \f and \r. */
  predicate IsLeadingSpace(c: char) {
    c == ' ' || c == '\t' || c == '\n' || c == '\U{0B}' || c == '\U{0C}' || c == '\r'
  }

  function SkipLeadingSpace(s: string): (r: string)
    ensures |r| <= |s|
  {
    if s != [] && IsLeadingSpace(s[0]) then SkipLeadingSpace(s[1..]) else s
  }

  /** The digits of the longest prefix of `t` of the form d(_?d)*: single underscores
      between digits are separators and dropped. */
  function DigitPrefix(t: string): (d: string)
    ensures AllDigits(d) && |d| <= |t|
  {
    if t == [] || !IsDigit(t[0]) then []
    else if |t| >= 3 && t[1] == '_' && IsDigit(t[2]) then [t[0]] + DigitPrefix(t[2..])
    else [t[0]] + DigitPrefix(t[1..])
  }

  /** The digit prefix of digits followed by text that cannot continue the number (no digit,
      no underscore) is those digits. */
  lemma {:induction false} DigitPrefixStops(d: string, rest: string)
    requires AllDigits(d)
    requires rest == [] || (!IsDigit(rest[0]) && rest[0] != '_')
    ensures DigitPrefix(d + rest) == d
  {
    if d == [] {
      assert d + rest == rest;
    } else {
      DigitPrefixStops(d[1..], rest);
      assert (d + rest)[1..] == d[1..] + rest;
      assert |d + rest| >= 2 ==> (d + rest)[1] != '_' by {
        if |d| >= 2 { assert (d + rest)[1] == d[1]; } else if |d + rest| >= 2 { assert (d + rest)[1] == rest[0]; }
      }
    }
  }

  lemma DigitPrefixOfDigits(t: string)
    requires AllDigits(t)
    ensures DigitPrefix(t) == t
  {
    DigitPrefixStops(t, []);
    assert t + [] == t;
  }

  /** `String#to_i`: leading whitespace, an optional sign, an optional "0d" radix prefix,
      then the decimal digit prefix; anything else yields 0. */
  function ToI(s: string): (n: int)
    ensures SkipLeadingSpace(s) == [] || SkipLeadingSpace(s)[0] != '-' ==> n >= 0
  {
    var t := SkipLeadingSpace(s);
    var negative := t != [] && t[0] == '-';
    var unsigned := if t != [] && (t[0] == '-' || t[0] == '+') then t[1..] else t;
    var body := if |unsigned| >= 2 && unsigned[0] == '0' && (unsigned[1] == 'd' || unsigned[1] == 'D')
                then unsigned[2..] else unsigned;
    var n: int := DigitsValue(DigitPrefix(body));
    if negative then -n else n
  }

  /** On a plain non-empty digit string `to_i` is the decimal value. */
  lemma ToIOfDigits(s: string)
    requires s != [] && AllDigits(s)
    ensures ToI(s) == DigitsValue(s)
  {
    assert SkipLeadingSpace(s) == s;
    DigitPrefixOfDigits(s);
  }

  /** An optional sign, decimal digits, then text that cannot continue the number reads as
      the digits' value, negated after "-": `"2abc".to_i` is 2, `"-3".to_i` is -3. (A lone
      "0" followed by "d" would open a "0d" radix prefix instead.) */
  lemma ToIOfNumber(sign: string, d: string, rest: string)
    requires sign == "" || sign == "+" || sign == "-"
    requires d != [] && AllDigits(d)
    requires rest == [] || (!IsDigit(rest[0]) && rest[0] != '_')
    requires !(d == "0" && rest != [] && (rest[0] == 'd' || rest[0] == 'D'))
    ensures ToI(sign + d + rest) == if sign == "-" then -(DigitsValue(d) as int) else DigitsValue(d)
  {
    var u := d + rest;
    assert sign + d + rest == sign + u;
    assert u[0] == d[0];
    ToISign(sign, u);
    ToIOfUnsigned(d, rest);
  }

  /** Digits then text that cannot continue them read as the digits' value. */
  lemma ToIOfUnsigned(d: string, rest: string)
    requires d != [] && AllDigits(d)
    requires rest == [] || (!IsDigit(rest[0]) && rest[0] != '_')
    requires !(d == "0" && rest != [] && (rest[0] == 'd' || rest[0] == 'D'))
    ensures ToI(d + rest) == DigitsValue(d)
  {
    var u := d + rest;
    assert u[0] == d[0];
    assert SkipLeadingSpace(u) == u;
    NoRadixPrefix(d, rest);
    DigitPrefixStops(d, rest);
  }

  /** A sign in front of text starting with a digit negates (or keeps) its `to_i`. */
  lemma ToISign(sign: string, u: string)
    requires sign == "" || sign == "+" || sign == "-"
    requires u != [] && IsDigit(u[0])
    ensures ToI(sign + u) == if sign == "-" then -ToI(u) else ToI(u)
  {
    var s := sign + u;
    if sign == "" {
      assert s == u;
    } else {
      assert s[0] == sign[0] && s[1..] == u;
      assert SkipLeadingSpace(s) == s;
      assert SkipLeadingSpace(u) == u;
    }
  }

  /** Digits then text that cannot continue them never open a "0d" prefix, unless the
      digits are a lone "0" and the text starts with "d". */
  lemma NoRadixPrefix(d: string, rest: string)
    requires d != [] && AllDigits(d)
    requires !(d == "0" && rest != [] && (rest[0] == 'd' || rest[0] == 'D'))
    ensures var u := d + rest; !(|u| >= 2 && u[0] == '0' && (u[1] == 'd' || u[1] == 'D'))
  {
    var u := d + rest;
    if |d| >= 2 {
      assert u[1] == d[1];
    } else if |u| >= 2 {
      assert u[0] == d[0] && u[1] == rest[0];
      assert d == [d[0]];
    }
  }

  /** Text that starts with neither whitespace, a sign nor a digit reads as 0. */
  lemma ToIOfNonNumber(s: string)
    requires s != [] && !IsLeadingSpace(s[0]) && !IsDigit(s[0]) && s[0] != '-' && s[0] != '+'
    ensures ToI(s) == 0
  {
    assert SkipLeadingSpace(s) == s;
    assert DigitPrefix(s) == [];
  }

  /** `Array#join(sep)` on strings. */
  function Join(parts: seq<string>, sep: string): string {
    if parts == [] then ""
    else if |parts| == 1 then parts[0]
    else parts[0] + sep + Join(parts[1..], sep)
  }
}
