/** Character strings: the `lowercase` helper of the command reader and the decimal rendering
    `std::to_string` that `GeneralPoly::name()` relies on. Strings are `seq<char>`; `tolower` is
    that of the "C" locale, which changes only the letters A to Z. */
module Text {

  predicate IsUpper(c: char) {
    'A' <= c <= 'Z'
  }

  predicate IsDigit(c: char) {
    '0' <= c <= '9'
  }

  /** `tolower` of the "C" locale: A..Z move 32 code points down to a..z, anything else is kept. */
  function ToLower(c: char): (d: char)
    ensures IsUpper(c) ==> d as int == c as int + 32 && 'a' <= d <= 'z'
    ensures !IsUpper(c) ==> d == c
    ensures !IsUpper(d)
  {
    if IsUpper(c) then (c as int + 32) as char else c
  }

  /** The string `lowercase` builds, one appended character per input character. */
  function Lowered(s: string): (r: string)
    ensures |r| == |s|
    ensures forall k | 0 <= k < |s| :: r[k] == ToLower(s[k])
  {
    if |s| == 0 then "" else Lowered(s[..|s| - 1]) + [ToLower(s[|s| - 1])]
  }

  /** `lowercase(str)`: appends `tolower(str.at(i))` for i = 0 .. size-1 to an empty string. */
  method Lowercase(str: string) returns (lower: string)
    ensures lower == Lowered(str)
  {
    lower := "";
    var i := 0;
    while i < |str|
      invariant 0 <= i <= |str|
      invariant lower == Lowered(str[..i])
    {
      assert str[..i + 1][..i] == str[..i];
      lower := lower + [ToLower(str[i])];
      i := i + 1;
    }
    assert str[..i] == str;
  }

  /** The result holds no upper-case letter, and every other character passes through. */
  lemma LoweredCases(s: string)
    ensures forall k | 0 <= k < |s| :: !IsUpper(Lowered(s)[k])
    ensures forall k | 0 <= k < |s| && !IsUpper(s[k]) :: Lowered(s)[k] == s[k]
  {
  }

  /** Lower-casing twice is lower-casing once. */
  lemma LoweredIdempotent(s: string)
    ensures Lowered(Lowered(s)) == Lowered(s)
  {
    var once := Lowered(s);
    assert forall k | 0 <= k < |once| :: Lowered(once)[k] == once[k];
  }

  /** The character of the decimal digit d. */
  function Digit(d: nat): (c: char)
    requires d < 10
    ensures IsDigit(c) && c as int - '0' as int == d
  {
    ('0' as int + d) as char
  }

  /** `std::to_string` of an unsigned value: its decimal digits, most significant first. */
  function Decimal(n: nat): (s: string)
    ensures |s| >= 1
    ensures forall k | 0 <= k < |s| :: IsDigit(s[k])
    ensures s[0] == '0' <==> n == 0
  {
    if n < 10 then [Digit(n)] else Decimal(n / 10) + [Digit(n % 10)]
  }

  /** The value of a string of decimal digits, read most significant first. */
  function DecimalValue(s: string): nat
    requires forall k | 0 <= k < |s| :: IsDigit(s[k])
  {
    if |s| == 0 then 0
    else
      assert IsDigit(s[|s| - 1]);
      10 * DecimalValue(s[..|s| - 1]) + (s[|s| - 1] as int - '0' as int)
  }

  /** Reading back the rendered digits gives the number. */
  lemma {:induction false} DecimalRoundTrip(n: nat)
    ensures DecimalValue(Decimal(n)) == n
  {
    if n >= 10 {
      DecimalRoundTrip(n / 10);
      var s := Decimal(n);
      assert s[..|s| - 1] == Decimal(n / 10);
    }
  }

  /** Distinct numbers render differently. */
  lemma DecimalInjective(m: nat, n: nat)
    requires Decimal(m) == Decimal(n)
    ensures m == n
  {
    DecimalRoundTrip(m);
    DecimalRoundTrip(n);
  }
}
