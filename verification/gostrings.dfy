/**
  The parts of Go's `strings` and `strconv` packages that the server's core
  relies on, stated over Dafny strings (sequences of Unicode scalar values).
 */
module GoStrings {
  import opened Results

  /** `unicode.IsSpace`: the Latin-1 spaces plus the Unicode White_Space runes. */
  predicate IsSpace(c: char) {
    || c == ' ' || c == '\t' || c == '\n' || c == '\r'
    || c == '\U{000B}' || c == '\U{000C}' || c == '\U{0085}' || c == '\U{00A0}'
    || c == '\U{1680}' || ('\U{2000}' <= c <= '\U{200A}')
    || c == '\U{2028}' || c == '\U{2029}' || c == '\U{202F}' || c == '\U{205F}'
    || c == '\U{3000}'
  }

  /** The first position at or after `i` that is not white space, or `|s|`. */
  function LeadingEnd(s: string, i: nat): (r: nat)
    requires i <= |s|
    ensures i <= r <= |s|
    ensures r < |s| ==> !IsSpace(s[r])
    ensures forall k :: i <= k < r ==> IsSpace(s[k])
    decreases |s| - i
  {
    if i < |s| && IsSpace(s[i]) then LeadingEnd(s, i + 1) else i
  }

  /** Where the white space that ends `s[lo..j]` begins. */
  function TrailingStart(s: string, lo: nat, j: nat): (r: nat)
    requires lo <= j <= |s|
    ensures lo <= r <= j
    ensures r > lo ==> !IsSpace(s[r - 1])
    ensures forall k :: r <= k < j ==> IsSpace(s[k])
    decreases j - lo
  {
    if j > lo && IsSpace(s[j - 1]) then TrailingStart(s, lo, j - 1) else j
  }

  /** `strings.TrimSpace`: `s` without its leading and trailing white space. */
  function TrimSpace(s: string): (r: string)
    ensures |r| <= |s|
    ensures var a := LeadingEnd(s, 0);
      && a + |r| <= |s| && r == s[a..a + |r|]
      && forall i :: 0 <= i < |s| && (i < a || a + |r| <= i) ==> IsSpace(s[i])
    ensures |r| > 0 ==> !IsSpace(r[0]) && !IsSpace(r[|r| - 1])
  {
    var a := LeadingEnd(s, 0);
    var b := TrailingStart(s, a, |s|);
    s[a..b]
  }

  /** Text that TrimSpace leaves alone: no white space at either end. */
  predicate IsTrimmed(s: string) {
    |s| == 0 || (!IsSpace(s[0]) && !IsSpace(s[|s| - 1]))
  }

  lemma TrimSpaceOfTrimmed(s: string)
    requires IsTrimmed(s)
    ensures TrimSpace(s) == s
  {
  }

  /** Text made only of white space. */
  predicate AllSpace(p: string) {
    forall i :: 0 <= i < |p| ==> IsSpace(p[i])
  }

  /** TrimSpace removes exactly the white space padding a trimmed, non-empty text. */
  lemma TrimSpaceOfPadded(p: string, t: string, q: string)
    requires AllSpace(p) && AllSpace(q) && IsTrimmed(t) && |t| > 0
    ensures TrimSpace(p + t + q) == t
  {
    var s := p + t + q;
    var r := TrimSpace(s);
    var a := LeadingEnd(s, 0);
    assert s[|p|] == t[0];
    assert a == |p|;
    assert s[|p| + |t| - 1] == t[|t| - 1];
    assert |r| == |t|;
    assert r == s[|p|..|p| + |t|];
  }

  /** `strings.TrimSpace` is idempotent. */
  lemma TrimSpaceIdempotent(s: string)
    ensures TrimSpace(TrimSpace(s)) == TrimSpace(s)
  {
    TrimSpaceOfTrimmed(TrimSpace(s));
  }

  /**
    `unicode.ToLower` on the runes that matter here: the ASCII capitals, and the
    two non-ASCII capitals Go lowers into ASCII (U+0130, dotted capital I, to
    'i' and U+212A, the Kelvin sign, to 'k'). Every other rune is left alone,
    which changes no comparison against an ASCII word.
   */
  function LowerChar(c: char): char {
    if 'A' <= c <= 'Z' then (c as int + 32) as char
    else if c == '\U{0130}' then 'i'
    else if c == '\U{212A}' then 'k'
    else c
  }

  function UpperChar(c: char): char {
    if 'a' <= c <= 'z' then (c as int - 32) as char else c
  }

  /** `strings.ToLower`, rune by rune. */
  function ToLower(s: string): (r: string)
    ensures |r| == |s|
    ensures forall i :: 0 <= i < |s| ==> r[i] == LowerChar(s[i])
  {
    seq(|s|, i requires 0 <= i < |s| => LowerChar(s[i]))
  }

  /** `strings.ToUpper` restricted to the ASCII letters. */
  function ToUpper(s: string): (r: string)
    ensures |r| == |s|
    ensures forall i :: 0 <= i < |s| ==> r[i] == UpperChar(s[i])
  {
    seq(|s|, i requires 0 <= i < |s| => UpperChar(s[i]))
  }

  /** Lower-case ASCII text is its own lower case. */
  lemma LowerOfLowercase(s: string)
    requires forall i :: 0 <= i < |s| ==> 'a' <= s[i] <= 'z'
    ensures ToLower(s) == s
  {
  }

  /** Lower-casing forgets whether the input had been upper-cased first. */
  lemma LowerOfUpper(s: string)
    ensures ToLower(ToUpper(s)) == ToLower(s)
  {
    var a, b := ToLower(ToUpper(s)), ToLower(s);
    forall i | 0 <= i < |s|
      ensures a[i] == b[i]
    {
      var c := s[i];
      if 'a' <= c <= 'z' {
        assert UpperChar(c) as int == c as int - 32;
      }
    }
  }

  /** `strings.Index(s, string(c))`, as an Option instead of -1. */
  function IndexOf(s: string, c: char): (r: Option<nat>)
    ensures r.None? <==> c !in s
    ensures r.Some? ==> r.value < |s| && s[r.value] == c && c !in s[..r.value]
  {
    if |s| == 0 then None
    else if s[0] == c then Some(0)
    else
      match IndexOf(s[1..], c)
      case None => None
      case Some(i) =>
        assert s[..i + 1] == [s[0]] + s[1..][..i];
        Some(i + 1)
  }

  /** `strings.LastIndex(s, string(c))`, as an Option instead of -1. */
  function LastIndexOf(s: string, c: char): (r: Option<nat>)
    ensures r.None? <==> c !in s
    ensures r.Some? ==> r.value < |s| && s[r.value] == c && c !in s[r.value + 1..]
  {
    if |s| == 0 then None
    else if s[|s| - 1] == c then Some(|s| - 1)
    else
      match LastIndexOf(s[..|s| - 1], c)
      case None =>
        assert s == s[..|s| - 1] + [s[|s| - 1]];
        None
      case Some(i) =>
        assert s[i + 1..] == s[..|s| - 1][i + 1..] + [s[|s| - 1]];
        Some(i)
  }

  // ---------------------------------------------------------------------
  // strconv.Atoi and its inverse strconv.Itoa, for Go's 64-bit `int`.
  // ---------------------------------------------------------------------

  const MinInt64: int := -0x8000_0000_0000_0000
  const MaxInt64: int := 0x7FFF_FFFF_FFFF_FFFF

  predicate IsDigit(c: char) {
    '0' <= c <= '9'
  }

  predicate AllDigits(s: string) {
    forall i :: 0 <= i < |s| ==> IsDigit(s[i])
  }

  /** The decimal value of a run of ASCII digits, most significant first. */
  function DigitsValue(s: string): nat
    requires AllDigits(s)
  {
    if |s| == 0 then 0
    else DigitsValue(s[..|s| - 1]) * 10 + (s[|s| - 1] as int - '0' as int)
  }

  /** `[+-]?[0-9]+`: the shape of text `strconv.Atoi` accepts, before its range check. */
  predicate IsIntText(s: string) {
    |s| > 0 && if s[0] == '+' || s[0] == '-' then |s| > 1 && AllDigits(s[1..]) else AllDigits(s)
  }

  /** The signed value an integer text denotes, unbounded. */
  function IntTextValue(s: string): int
    requires IsIntText(s)
  {
    if s[0] == '-' then -(DigitsValue(s[1..]) as int)
    else if s[0] == '+' then DigitsValue(s[1..])
    else DigitsValue(s)
  }

  /** The two ways `strconv.Atoi` fails. */
  datatype NumError = ErrSyntax | ErrRange

  const MaxUint64: int := 0xFFFF_FFFF_FFFF_FFFF

  /** The end of the run of ASCII digits that starts at `i`. */
  function DigitRun(s: string, i: nat): (j: nat)
    requires i <= |s|
    ensures i <= j <= |s|
    ensures forall k :: i <= k < j ==> IsDigit(s[k])
    ensures j < |s| ==> !IsDigit(s[j])
    decreases |s| - i
  {
    if i < |s| && IsDigit(s[i]) then DigitRun(s, i + 1) else i
  }

  /** The value of the digits a text starts with (0 when it starts with none). */
  function LeadingValue(s: string): nat {
    var j := DigitRun(s, 0);
    assert AllDigits(s[..j]);
    DigitsValue(s[..j])
  }

  /** A text without its optional leading `+` or `-`. */
  function Unsigned(s: string): string
    requires |s| > 0
  {
    if s[0] == '+' || s[0] == '-' then s[1..] else s
  }

  /** Appending a digit: the value of `s[..i + 1]` from that of `s[..i]`. */
  lemma DigitsValueStep(s: string, i: nat)
    requires i < |s| && AllDigits(s[..i + 1])
    ensures AllDigits(s[..i]) && DigitsValue(s[..i + 1]) == DigitsValue(s[..i]) * 10 + (s[i] as int - '0' as int)
  {
    assert s[..i + 1][..i] == s[..i];
  }

  /** A longer run of digits never has a smaller value. */
  lemma {:induction false} DigitsValuePrefix(s: string, a: nat, b: nat)
    requires a <= b <= |s| && AllDigits(s[..b])
    ensures AllDigits(s[..a]) && DigitsValue(s[..a]) <= DigitsValue(s[..b])
    decreases b - a
  {
    if a < b {
      DigitsValueStep(s, b - 1);
      DigitsValuePrefix(s, a, b - 1);
    }
  }

  /**
    The digit loop of `strconv.ParseUint` in base 10, from position `i` with
    the value `n` of the digits before it. A non-digit is a syntax error, and a
    digit that takes the value past 2^64 - 1 is a range error on the spot,
    before any later character is looked at. So the outcome is decided by the
    leading run of digits: a range error when its value overflows, otherwise a
    syntax error when something follows it, otherwise its value.
   */
  function ScanUint(s: string, i: nat, n: nat): (r: Result<nat, NumError>)
    requires i <= |s| && AllDigits(s[..i]) && n == DigitsValue(s[..i]) <= MaxUint64
    ensures var j := DigitRun(s, i);
      assert AllDigits(s[..j]);
      r == if DigitsValue(s[..j]) > MaxUint64 then Failure(ErrRange)
           else if j < |s| then Failure(ErrSyntax)
           else Success(DigitsValue(s[..j]))
    decreases |s| - i
  {
    if i == |s| then Success(n)
    else if !IsDigit(s[i]) then Failure(ErrSyntax)
    else
      var n' := n * 10 + (s[i] as int - '0' as int);
      DigitsValueStep(s, i);
      if n' > MaxUint64 then
        DigitsValuePrefix(s, i + 1, DigitRun(s, i));
        Failure(ErrRange)
      else ScanUint(s, i + 1, n')
  }

  /**
    `strconv.Atoi` for Go's 64-bit `int`. Texts under 19 bytes take a fast
    path that cannot overflow; longer ones go through `ParseInt`, which strips
    one sign, runs the digit loop of `ParseUint` and then checks the signed
    range. Both paths agree with the definition here (`AtoiShortText` for the
    fast one). It succeeds exactly on an optional sign and at least one ASCII
    digit whose value fits; no white space, underscores or base prefix.
   */
  function Atoi(s: string): (r: Result<int, NumError>)
    ensures r.Success? <==> IsIntText(s) && MinInt64 <= IntTextValue(s) <= MaxInt64
    ensures r.Success? ==> r.value == IntTextValue(s)
    ensures IsIntText(s) && r.Failure? ==> r.error == ErrRange
    ensures r == Failure(ErrRange) <==>
      |s| > 0 && |Unsigned(s)| > 0
      && (LeadingValue(Unsigned(s)) > MaxUint64 || (IsIntText(s) && !(MinInt64 <= IntTextValue(s) <= MaxInt64)))
    ensures r.Success? ==> MinInt64 <= r.value <= MaxInt64
    ensures r.Success? && s[0] == '-' ==> r.value <= 0
    ensures r.Success? && s[0] != '-' ==> r.value >= 0
  {
    if |s| == 0 then Failure(ErrSyntax)
    else
      var body := Unsigned(s);
      if |body| == 0 then Failure(ErrSyntax)
      else
        assert body[..0] == [];
        assert body[..|body|] == body;
        match ScanUint(body, 0, 0)
        case Failure(e) => Failure(e)
        case Success(n) =>
          if s[0] == '-' then (if n > MaxInt64 + 1 then Failure(ErrRange) else Success(-(n as int)))
          else if n > MaxInt64 then Failure(ErrRange) else Success(n)
  }

  function Pow10(k: nat): (r: nat)
    ensures r >= 1
  {
    if k == 0 then 1 else 10 * Pow10(k - 1)
  }

  lemma {:induction false} DigitsValueBound(s: string)
    requires AllDigits(s)
    ensures DigitsValue(s) < Pow10(|s|)
  {
    if |s| > 0 {
      DigitsValueBound(s[..|s| - 1]);
    }
  }

  /**
    On texts shorter than 19 bytes (Go's fast path) nothing can overflow: the
    result is a value or a syntax error, and a syntax error exactly when the
    text is not `[+-]?[0-9]+`.
   */
  lemma AtoiShortText(s: string)
    requires |s| < 19
    ensures Atoi(s).Failure? ==> Atoi(s).error == ErrSyntax
    ensures Atoi(s) == Failure(ErrSyntax) <==> !IsIntText(s)
  {
    if |s| > 0 && |Unsigned(s)| > 0 {
      var b := Unsigned(s);
      var j := DigitRun(b, 0);
      DigitsValueBound(b[..j]);
      Pow10Monotone(j, 18);
      Pow10Of18();
      if IsIntText(s) {
        assert b[..|b|] == b;
        assert j == |b|;
      }
    }
  }

  lemma Pow10Of18()
    ensures Pow10(18) == 1_000_000_000_000_000_000
  {
    assert Pow10(6) == 1_000_000;
    assert Pow10(12) == 1_000_000_000_000;
  }

  lemma {:induction false} Pow10Monotone(a: nat, b: nat)
    requires a <= b
    ensures Pow10(a) <= Pow10(b)
  {
    if a < b {
      Pow10Monotone(a, b - 1);
    }
  }

  function DigitChar(d: nat): (c: char)
    requires d < 10
    ensures IsDigit(c) && c as int - '0' as int == d
  {
    ('0' as int + d) as char
  }

  /** The decimal digits of `n`, without leading zeros. */
  function FormatNat(n: nat): (r: string)
    ensures |r| > 0 && AllDigits(r)
    ensures r[0] == '0' ==> n == 0
  {
    if n < 10 then [DigitChar(n)] else FormatNat(n / 10) + [DigitChar(n % 10)]
  }

  /** `strconv.Itoa`. */
  function Itoa(i: int): (r: string)
    ensures |r| > 0
  {
    if i < 0 then "-" + FormatNat(-i) else FormatNat(i)
  }

  lemma {:induction false} DigitsOfFormatNat(n: nat)
    ensures DigitsValue(FormatNat(n)) == n
  {
    if n >= 10 {
      var s := FormatNat(n);
      assert s[..|s| - 1] == FormatNat(n / 10);
      DigitsOfFormatNat(n / 10);
    }
  }

  /** `strconv.Atoi` inverts `strconv.Itoa` on the whole `int` range. */
  lemma AtoiOfItoa(i: int)
    requires MinInt64 <= i <= MaxInt64
    ensures Atoi(Itoa(i)) == Success(i)
  {
    var s := Itoa(i);
    if i < 0 {
      assert s[0] == '-' && s[1..] == FormatNat(-i);
      DigitsOfFormatNat(-i);
      assert IsIntText(s) && IntTextValue(s) == i;
    } else {
      assert s == FormatNat(i) && IsDigit(s[0]);
      DigitsOfFormatNat(i);
      assert IsIntText(s) && IntTextValue(s) == i;
    }
  }


  /**
    Leading zeros and a `+` sign are accepted; surrounding white space, an
    underscore, a bare sign and the empty text are syntax errors; the decimal
    text of 2^63 is out of range.
   */
  lemma AtoiExamples()
    ensures Atoi("0080") == Success(80)
    ensures Atoi("+9000") == Success(9000)
    ensures Atoi("-1") == Success(-1)
    ensures Atoi(" 80") == Failure(ErrSyntax)
    ensures Atoi("8_0") == Failure(ErrSyntax)
    ensures Atoi("-") == Failure(ErrSyntax)
    ensures Atoi("") == Failure(ErrSyntax)
    ensures Atoi(Itoa(MaxInt64 + 1)) == Failure(ErrRange)
  {
    AtoiAcceptedExamples();
    AtoiSyntaxExamples();
    DigitsOfFormatNat(MaxInt64 + 1);
  }

  /** The accepted texts of `AtoiExamples`. */
  lemma AtoiAcceptedExamples()
    ensures Atoi("0080") == Success(80)
    ensures Atoi("+9000") == Success(9000)
    ensures Atoi("-1") == Success(-1)
  {
    assert AllDigits("0080") && DigitsValue("0080") == 80 by {
      assert "0080"[..3] == "008" && "008"[..2] == "00" && "00"[..1] == "0" && "0"[..0] == "";
    }
    assert "+9000"[1..] == "9000";
    assert AllDigits("9000") && DigitsValue("9000") == 9000 by {
      assert "9000"[..3] == "900" && "900"[..2] == "90" && "90"[..1] == "9" && "9"[..0] == "";
    }
    assert "-1"[1..] == "1" && "1"[..0] == "";
  }

  /** The rejected short texts of `AtoiExamples`. */
  lemma AtoiSyntaxExamples()
    ensures Atoi(" 80") == Failure(ErrSyntax)
    ensures Atoi("8_0") == Failure(ErrSyntax)
    ensures Atoi("-") == Failure(ErrSyntax)
    ensures Atoi("") == Failure(ErrSyntax)
  {
    assert " 80"[0] == ' ' && !IsDigit(' ');
    assert "8_0"[1] == '_' && !IsDigit('_');
    AtoiShortText(" 80");
    AtoiShortText("8_0");
    AtoiShortText("-");
    AtoiShortText("");
  }


  /** Texts of 19 bytes or more: once the leading digits exceed 2^64 - 1 the
      result is a range error whatever follows them; with smaller leading
      digits a trailing non-digit is a syntax error. */
  lemma AtoiLongTextExamples()
    ensures Atoi(Itoa(MaxUint64 + 1) + "x") == Failure(ErrRange)
    ensures Atoi(Itoa(MaxInt64 + 1) + "x") == Failure(ErrSyntax)
  {
    DigitsOfFormatNat(MaxUint64 + 1);
    DigitsThenOther(Itoa(MaxUint64 + 1), "x");
    DigitsOfFormatNat(MaxInt64 + 1);
    DigitsThenOther(Itoa(MaxInt64 + 1), "x");
  }

  /** Digits followed by a non-digit: the leading value is that of the digits, and the text is no integer. */
  lemma DigitsThenOther(t: string, rest: string)
    requires |t| > 0 && AllDigits(t) && |rest| > 0 && !IsDigit(rest[0])
    ensures Unsigned(t + rest) == t + rest
    ensures LeadingValue(t + rest) == DigitsValue(t)
    ensures !IsIntText(t + rest)
  {
    var s := t + rest;
    assert s[0] == t[0] && s[|t|] == rest[0];
    assert DigitRun(s, 0) == |t|;
    assert s[..|t|] == t;
  }
}
