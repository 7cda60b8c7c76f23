/**
 * The parts of java.lang the mapping engine relies on: 64-bit longs with their decimal
 * text (Long.parseLong, Long.toString, String.valueOf), String.indexOf, and the two
 * exceptions a read can raise.
 */
module JavaLang {
  import opened Wrappers

  /** Exceptions raised while converting values. */
  datatype Exception =
    | NumberFormat(input: Option<string>)  // Long.parseLong on null or on text that is no 64-bit decimal
    | NoEnumConstant(name: string)         // Enum.valueOf on a name the enum does not declare

  const MinLong: int := -0x8000_0000_0000_0000
  const MaxLong: int := 0x7FFF_FFFF_FFFF_FFFF

  /** The values of a Java long (null, for a Long, is Option's None). */
  type Long = n: int | MinLong <= n <= MaxLong

  predicate IsDigit(c: char) {
    '0' <= c <= '9'
  }

  predicate AllDigits(s: string) {
    forall i | 0 <= i < |s| :: IsDigit(s[i])
  }

  function DigitValue(c: char): (d: nat)
    requires IsDigit(c)
    ensures d < 10
  {
    c as int - '0' as int
  }

  function DigitChar(d: nat): (c: char)
    requires d < 10
    ensures IsDigit(c) && DigitValue(c) == d
  {
    ('0' as int + d) as char
  }

  /** The number a string of decimal digits denotes, most significant digit first. */
  function DigitsValue(s: string): nat
    requires AllDigits(s)
  {
    if s == [] then 0 else DigitsValue(s[..|s| - 1]) * 10 + DigitValue(s[|s| - 1])
  }

  /** The decimal digits of n: never empty, no leading zero, and denoting n. */
  function NatToString(n: nat): (s: string)
    ensures |s| > 0 && AllDigits(s)
    ensures s[0] == '0' <==> s == "0"
    ensures s == "0" <==> n == 0
    ensures DigitsValue(s) == n
  {
    if n < 10 then [DigitChar(n)]
    else
      var init := NatToString(n / 10);
      var s := init + [DigitChar(n % 10)];
      assert s[..|s| - 1] == init;
      s
  }

  /** Long.toString(long): a minus sign exactly for negative values, then the digits of the magnitude. */
  function LongToString(n: Long): (s: string)
    ensures |s| > 0 && (s[0] == '-' <==> n < 0)
    ensures n < 0 ==> |s| > 1 && AllDigits(s[1..]) && s[1] != '0' && DigitsValue(s[1..]) == -(n as int)
    ensures n >= 0 ==> AllDigits(s) && (s[0] == '0' ==> s == "0") && DigitsValue(s) == n
    ensures IsDecimal(s) && DecimalValue(s) == n
  {
    if n < 0 then
      var magnitude: nat := -(n as int);
      var s := "-" + NatToString(magnitude);
      assert s[1..] == NatToString(magnitude);
      s
    else NatToString(n)
  }

  /** String.valueOf(Object) applied to a Long: "null" for null, Long.toString otherwise. */
  function ValueOf(value: Option<Long>): (s: string)
    ensures value.None? ==> s == "null"
    ensures value.Some? ==> s == LongToString(value.value)
  {
    match value
    case None => "null"
    case Some(n) => LongToString(n)
  }

  /** The text after its leading sign, if it has one. */
  function Unsigned(text: string): (digits: string)
    ensures |digits| <= |text| && digits == text[|text| - |digits|..]
  {
    if |text| > 0 && (text[0] == '-' || text[0] == '+') then text[1..] else text
  }

  /** Decimal text: an optional '-' or '+', then at least one decimal digit. */
  predicate IsDecimal(text: string) {
    |Unsigned(text)| > 0 && AllDigits(Unsigned(text))
  }

  /** The integer that decimal text denotes, negative exactly when it starts with '-'. */
  function DecimalValue(text: string): int
    requires IsDecimal(text)
  {
    if text[0] == '-' then -(DigitsValue(Unsigned(text)) as int) else DigitsValue(Unsigned(text))
  }

  /**
   * Long.parseLong(String) in radix 10: an optional '-' or '+', then at least one digit,
   * denoting a value within the range of long. Anything else, null included, throws
   * NumberFormatException.
   */
  function ParseLong(s: Option<string>): (r: Result<Long, Exception>)
    ensures r.Success? <==> s.Some? && IsDecimal(s.value) && MinLong <= DecimalValue(s.value) <= MaxLong
    ensures r.Success? ==> r.value == DecimalValue(s.value)
    ensures r.Failure? ==> r.error == NumberFormat(s)
  {
    if s.None? || |s.value| == 0 then Failure(NumberFormat(s))
    else
      var text := s.value;
      var digits := if text[0] == '-' || text[0] == '+' then text[1..] else text;
      if |digits| == 0 || !AllDigits(digits) then Failure(NumberFormat(s))
      else
        var magnitude: int := DigitsValue(digits);
        var value: int := if text[0] == '-' then -magnitude else magnitude;
        if MinLong <= value <= MaxLong then Success(value) else Failure(NumberFormat(s))
  }

  /** Reading back what Long.toString printed gives the same long, for every 64-bit value. */
  lemma ParseLongToString(n: Long)
    ensures ParseLong(Some(LongToString(n))) == Success(n)
  {
    var text := LongToString(n);
    if n < 0 {
      var magnitude: nat := -(n as int);
      assert text[1..] == NatToString(magnitude);
    } else {
      assert text[0] != '-' && text[0] != '+';
    }
  }

  /**
   * Long.parseLong rejects text holding a character that is not a decimal digit, except a
   * sign in front of at least one more character.
   */
  lemma ParseLongRejectsNonDigit(text: string, i: nat)
    requires i < |text| && !IsDigit(text[i])
    requires i == 0 ==> |text| == 1 || (text[0] != '-' && text[0] != '+')
    ensures ParseLong(Some(text)).Failure?
  {
    if i > 0 && (text[0] == '-' || text[0] == '+') {
      assert text[1..][i - 1] == text[i];
    }
  }

  /** Long.parseLong accepts leading zeros. */
  lemma ParseLongLeadingZeros()
    ensures ParseLong(Some("007")) == Success(7)
  {
    var t := "007";
    assert t[..2] == "00" && "00"[..1] == "0" && "0"[..0] == [];
    assert DigitsValue("0") == 0 && DigitsValue("00") == 0;
    assert DigitsValue(t) == 7;
    assert Unsigned(t) == t && IsDecimal(t);
  }

  /** Long.parseLong accepts a leading '+'. */
  lemma ParseLongPlusSign()
    ensures ParseLong(Some("+12")) == Success(12)
  {
    var t := "+12";
    assert Unsigned(t) == "12";
    assert "12"[..1] == "1" && "1"[..0] == [];
    assert DigitsValue("1") == 1 && DigitsValue("12") == 12;
    assert IsDecimal(t) && t[0] != '-';
  }

  /** Long.parseLong rejects empty text and a sign with no digit after it. */
  lemma ParseLongNoDigits()
    ensures ParseLong(Some("")) == Failure(NumberFormat(Some("")))
    ensures ParseLong(Some("-")) == Failure(NumberFormat(Some("-")))
    ensures ParseLong(Some("+")) == Failure(NumberFormat(Some("+")))
  {
    assert Unsigned("-") == [] && Unsigned("+") == [];
  }

  /** s[k..k + |p|] is p. */
  predicate OccursAt(s: string, p: string, k: int) {
    0 <= k && k + |p| <= |s| && s[k..k + |p|] == p
  }

  /** The lowest index at or after `from` where p occurs in s, or -1 when there is none. */
  function IndexFrom(s: string, p: string, from: nat): (r: int)
    decreases |s| - from
    ensures r == -1 || (from <= r && OccursAt(s, p, r))
    ensures forall k | from <= k && (r == -1 || k < r) :: !OccursAt(s, p, k)
  {
    if from + |p| > |s| then -1
    else if s[from..from + |p|] == p then from
    else IndexFrom(s, p, from + 1)
  }

  /** String.indexOf(String): the lowest index where p occurs in s, or -1 when p does not occur. */
  function IndexOf(s: string, p: string): (r: int)
    ensures r == -1 <==> forall k :: !OccursAt(s, p, k)
    ensures r != -1 ==> OccursAt(s, p, r) && forall k | 0 <= k < r :: !OccursAt(s, p, k)
  {
    IndexFrom(s, p, 0)
  }
}
