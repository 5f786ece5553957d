/**
 * Python's `int(text, base)` for bases 10 and 16 on ASCII text: surrounding
 * whitespace, an optional sign, for base 16 an optional `0x` prefix, and
 * digits with single underscores between them. Anything else raises
 * `ValueError`, modelled as None.
 */
module PyInt {
  import opened Wrappers

  predicate IsSpace(c: char)
  {
    c == ' ' || ('\t' <= c <= '\r') || (28 as char <= c <= 31 as char)
  }

  function StripLeft(s: string): (r: string)
    ensures |r| <= |s|
  {
    if s != [] && IsSpace(s[0]) then StripLeft(s[1..]) else s
  }

  function StripRight(s: string): (r: string)
    ensures |r| <= |s|
  {
    if s != [] && IsSpace(s[|s| - 1]) then StripRight(s[..|s| - 1]) else s
  }

  /** Stripping on the left leaves a suffix that does not start with whitespace. */
  lemma {:induction false} StripLeftSuffix(s: string)
    ensures var r := StripLeft(s); r == s[|s| - |r|..] && (r != [] ==> !IsSpace(r[0]))
    decreases |s|
  {
    if s != [] && IsSpace(s[0]) {
      StripLeftSuffix(s[1..]);
    }
  }

  /** Stripping on the right leaves a prefix that does not end with whitespace. */
  lemma {:induction false} StripRightPrefix(s: string)
    ensures var r := StripRight(s); r == s[..|r|] && (r != [] ==> !IsSpace(r[|r| - 1]))
    decreases |s|
  {
    if s != [] && IsSpace(s[|s| - 1]) {
      StripRightPrefix(s[..|s| - 1]);
    }
  }

  function Strip(s: string): string
  {
    StripRight(StripLeft(s))
  }

  /** The value of a digit in the given base. */
  function DigitValue(c: char, base: nat): (r: Option<nat>)
    requires base == 10 || base == 16
    ensures r.Some? ==> r.value < base
  {
    if '0' <= c <= '9' then Some(c as nat - '0' as nat)
    else if base == 16 && 'a' <= c <= 'f' then Some(c as nat - 'a' as nat + 10)
    else if base == 16 && 'A' <= c <= 'F' then Some(c as nat - 'A' as nat + 10)
    else None
  }

  predicate IsDigit(c: char, base: nat)
    requires base == 10 || base == 16
  {
    DigitValue(c, base).Some?
  }

  /** Digits, with single underscores allowed only between two digits. */
  predicate ValidDigits(s: string, base: nat)
    requires base == 10 || base == 16
  {
    s != [] && IsDigit(s[0], base) && DigitsAfterFirst(s[1..], base)
  }

  /** What may follow the first digit: digits, each optionally preceded by one underscore. */
  predicate DigitsAfterFirst(t: string, base: nat)
    requires base == 10 || base == 16
    decreases |t|
  {
    || t == []
    || (IsDigit(t[0], base) && DigitsAfterFirst(t[1..], base))
    || (|t| >= 2 && t[0] == '_' && IsDigit(t[1], base) && DigitsAfterFirst(t[2..], base))
  }

  /** Valid digits end in a digit. */
  lemma {:induction false} DigitsAfterFirstEnd(t: string, base: nat)
    requires base == 10 || base == 16
    requires DigitsAfterFirst(t, base) && t != []
    ensures IsDigit(t[|t| - 1], base)
    decreases |t|
  {
    if IsDigit(t[0], base) && DigitsAfterFirst(t[1..], base) {
      if |t| > 1 {
        DigitsAfterFirstEnd(t[1..], base);
      }
    } else if |t| > 2 {
      DigitsAfterFirstEnd(t[2..], base);
    }
  }

  /** A run of digits alone, with no underscore, is valid after the first digit. */
  lemma {:induction false} AllDigitsAfterFirst(t: string, base: nat)
    requires base == 10 || base == 16
    requires forall i :: 0 <= i < |t| ==> IsDigit(t[i], base)
    ensures DigitsAfterFirst(t, base)
    decreases |t|
  {
    if t != [] {
      AllDigitsAfterFirst(t[1..], base);
    }
  }

  /** The number the digits spell, underscores skipped. */
  function DigitsValue(s: string, base: nat): nat
    requires base == 10 || base == 16
  {
    if s == [] then 0
    else
      var last := DigitValue(s[|s| - 1], base);
      if last.None? then DigitsValue(s[..|s| - 1], base)
      else DigitsValue(s[..|s| - 1], base) * base + last.value
  }

  /** The text with whitespace around it taken off starts with a minus sign. */
  predicate Negative(text: string)
  {
    var t := Strip(text);
    t != [] && t[0] == '-'
  }

  /** What is left of the text once whitespace, a sign and a base-16 `0x` prefix are taken off. */
  function DigitsPart(text: string, base: nat): (digits: string)
    requires base == 10 || base == 16
    ensures |digits| <= |text|
    ensures Negative(text) ==> |digits| < |text|
  {
    var t := Strip(text);
    var unsigned := if t != [] && (t[0] == '-' || t[0] == '+') then t[1..] else t;
    if base == 16 && |unsigned| >= 2 && unsigned[0] == '0' && (unsigned[1] == 'x' || unsigned[1] == 'X') then
      var afterPrefix := unsigned[2..];
      if afterPrefix != [] && afterPrefix[0] == '_' then afterPrefix[1..] else afterPrefix
    else unsigned
  }

  /** `int(text, base)`. */
  function ParseInt(text: string, base: nat): Option<int>
    requires base == 10 || base == 16
  {
    var digits := DigitsPart(text, base);
    if ValidDigits(digits, base) then
      Some(if Negative(text) then -(DigitsValue(digits, base) as int) else DigitsValue(digits, base) as int)
    else None
  }

  /** A minus sign is only read where the text holds one. */
  lemma NegativeHasMinus(text: string)
    requires Negative(text)
    ensures '-' in text
  {
    var left := StripLeft(text);
    StripLeftSuffix(text);
    StripRightPrefix(left);
    assert Strip(text) == left[..|Strip(text)|];
    assert text[|text| - |left|] == '-';
  }

  /** A digit is not whitespace, a sign, an underscore or the `x` of a prefix. */
  lemma DigitIsPlain(c: char, base: nat)
    requires base == 10 || base == 16
    requires IsDigit(c, base)
    ensures !IsSpace(c) && c != '-' && c != '+' && c != '_' && c != 'x' && c != 'X'
  {
  }

  /** Bare digits, with no whitespace, sign or prefix, read as the number they spell. */
  lemma ParsePlainDigits(s: string, base: nat)
    requires base == 10 || base == 16
    requires ValidDigits(s, base)
    ensures ParseInt(s, base) == Some(DigitsValue(s, base))
  {
    DigitIsPlain(s[0], base);
    if |s| > 1 {
      DigitsAfterFirstEnd(s[1..], base);
      assert s[1..][|s| - 2] == s[|s| - 1];
    }
    DigitIsPlain(s[|s| - 1], base);
    assert StripLeft(s) == s;
    assert StripRight(s) == s;
    assert !Negative(s);
    assert |s| >= 2 ==> s[1] != 'x' && s[1] != 'X' by {
      if |s| >= 2 {
        assert s[1..][0] == s[1];
      }
    }
    assert DigitsPart(s, base) == s;
  }

  /** The decimal spelling of a natural number (how Python formats an `int`). */
  function Decimal(n: nat): (r: string)
    ensures r != []
    ensures forall i :: 0 <= i < |r| ==> '0' <= r[i] <= '9'
  {
    if n < 10 then ["0123456789"[n]] else Decimal(n / 10) + ["0123456789"[n % 10]]
  }

  lemma {:induction false} DecimalValue(n: nat)
    ensures DigitsValue(Decimal(n), 10) == n
    decreases n
  {
    var s := Decimal(n);
    if n >= 10 {
      DecimalValue(n / 10);
      assert s[..|s| - 1] == Decimal(n / 10);
    }
  }

  /** What a route's `<int:...>` id spells parses back, with `int(text)`, to the id. */
  lemma DecimalParses(n: nat)
    ensures ParseInt(Decimal(n), 10) == Some(n)
  {
    var s := Decimal(n);
    AllDigitsAfterFirst(s[1..], 10);
    ParsePlainDigits(s, 10);
    DecimalValue(n);
  }
}
