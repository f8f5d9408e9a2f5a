/**
 * Dimension strings of the form "<width>x<height>" as the config generator reads
 * them with `split('x')` and `parseInt`, restricted to well-formed decimal digits.
 */
module DimensionStrings {
  import opened Wrappers

  predicate IsDigit(c: char) {
    '0' <= c <= '9'
  }

  predicate IsDigits(s: string) {
    |s| > 0 && forall i :: 0 <= i < |s| ==> IsDigit(s[i])
  }

  /** The number a string of decimal digits denotes (what `parseInt` returns for it). */
  function DigitsValue(s: string): nat
    requires forall i :: 0 <= i < |s| ==> IsDigit(s[i])
    decreases |s|
  {
    if s == [] then 0
    else
      assert IsDigit(s[|s| - 1]);
      DigitsValue(s[..|s| - 1]) * 10 + (s[|s| - 1] as int - '0' as int)
  }

  function DigitChar(d: nat): char
    requires d < 10
  {
    (d + '0' as int) as char
  }

  /** The decimal numeral of `n`, without leading zeros. */
  function Digits(n: nat): string
    decreases n
  {
    if n < 10 then [DigitChar(n)] else Digits(n / 10) + [DigitChar(n % 10)]
  }

  /** Position of the first occurrence of `c`, as `split` finds it. */
  function IndexOf(s: string, c: char): (r: Option<nat>)
    ensures r.None? <==> c !in s
    ensures r.Some? ==> r.value < |s| && s[r.value] == c && c !in s[..r.value]
  {
    if s == [] then None
    else if s[0] == c then Some(0)
    else match IndexOf(s[1..], c)
      case None => None
      case Some(i) => assert s[..i + 1] == [s[0]] + s[1..][..i]; Some(i + 1)
  }

  /**
   * Reads "<digits>x<digits>" into (width, height). Any other string is not a
   * dimension string this model accepts.
   */
  function Parse(s: string): (r: Option<(nat, nat)>)
    ensures r.Some? ==> 'x' in s
  {
    match IndexOf(s, 'x')
    case None => None
    case Some(i) =>
      var width, height := s[..i], s[i + 1..];
      if IsDigits(width) && IsDigits(height) then Some((DigitsValue(width), DigitsValue(height)))
      else None
  }

  /** The dimension string a width and height are written as. */
  function Format(width: nat, height: nat): string {
    Digits(width) + "x" + Digits(height)
  }

  lemma {:induction false} DigitsRoundTrip(n: nat)
    ensures IsDigits(Digits(n)) && DigitsValue(Digits(n)) == n
    decreases n
  {
    var s := Digits(n);
    if n >= 10 {
      DigitsRoundTrip(n / 10);
      assert s[..|s| - 1] == Digits(n / 10);
    }
  }

  lemma FirstSeparator(a: string, b: string)
    requires forall i :: 0 <= i < |a| ==> IsDigit(a[i])
    ensures IndexOf(a + "x" + b, 'x') == Some(|a|)
  {
    var s := a + "x" + b;
    assert s[|a|] == 'x';
  }

  /** Every width and height survives being written out and read back. */
  lemma {:induction false} ParseFormat(width: nat, height: nat)
    ensures Parse(Format(width, height)) == Some((width, height))
  {
    DigitsRoundTrip(width);
    DigitsRoundTrip(height);
    var a, b := Digits(width), Digits(height);
    var s := Format(width, height);
    FirstSeparator(a, b);
    assert s[..|a|] == a;
    assert s[|a| + 1..] == b;
  }

  /** The strings this model reads as dimensions: decimal digits, an `x`, decimal digits. */
  ghost predicate IsDimensionString(s: string) {
    exists width, height :: IsDigits(width) && IsDigits(height) && s == width + "x" + height
  }

  /** Any two digit strings around an `x` read as their values, leading zeros included. */
  lemma ParseDigits(width: string, height: string)
    requires IsDigits(width) && IsDigits(height)
    ensures Parse(width + "x" + height) == Some((DigitsValue(width), DigitsValue(height)))
  {
    var s := width + "x" + height;
    FirstSeparator(width, height);
    assert s[..|width|] == width;
    assert s[|width| + 1..] == height;
  }

  /** `Parse` accepts exactly the dimension strings. */
  lemma ParseAcceptsExactly(s: string)
    ensures Parse(s).Some? <==> IsDimensionString(s)
  {
    if Parse(s).Some? {
      var i := IndexOf(s, 'x').value;
      assert s == s[..i] + "x" + s[i + 1..];
    }
    if IsDimensionString(s) {
      var width, height :| IsDigits(width) && IsDigits(height) && s == width + "x" + height;
      ParseDigits(width, height);
    }
  }

  /** The string "1280x720" reads as a 1280 by 720 frame. */
  lemma ParseExample()
    ensures Parse("1280x720") == Some((1280, 720))
  {
    assert Digits(1) == "1";
    assert Digits(12) == "12";
    assert Digits(128) == "128";
    assert Digits(1280) == "1280";
    assert Digits(7) == "7";
    assert Digits(72) == "72";
    assert Digits(720) == "720";
    assert Format(1280, 720) == "1280x720";
    ParseFormat(1280, 720);
  }
}
