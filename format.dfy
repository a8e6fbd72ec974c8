/**
 * The two number renderings the core uses: `str(n)` of a Python int and the
 * format specification `"{:,.2f}"` (two decimals, thousands separated by
 * commas). Both work on exact values; `"{:,.2f}"` rounds the exact value to the
 * nearest hundredth, ties to even, and writes a minus sign for every negative
 * value, also when it rounds to zero ("-0.00").
 */
module Format {

  import opened Values

  predicate IsDigit(c: char) {
    '0' <= c <= '9'
  }

  predicate AllDigits(s: string) {
    forall i :: 0 <= i < |s| ==> IsDigit(s[i])
  }

  function DigitChar(d: nat): (c: char)
    requires d < 10
    ensures IsDigit(c) && c as int - 48 == d
  {
    (48 + d) as char
  }

  function DigitValue(c: char): (d: nat)
    requires IsDigit(c)
    ensures d < 10 && DigitChar(d) == c
  {
    c as int - 48
  }

  /** The decimal digits of a natural number, without leading zeros. */
  function NatString(n: nat): (s: string)
    ensures |s| > 0 && AllDigits(s)
    ensures n < 10 <==> |s| == 1
  {
    if n < 10 then [DigitChar(n)] else NatString(n / 10) + [DigitChar(n % 10)]
  }

  /** The number a string of decimal digits denotes. */
  function ParseDigits(s: string): nat
    requires AllDigits(s)
  {
    if s == [] then 0 else ParseDigits(s[..|s| - 1]) * 10 + DigitValue(s[|s| - 1])
  }

  lemma {:induction false} ParseNatString(n: nat)
    ensures ParseDigits(NatString(n)) == n
  {
    if n >= 10 {
      var s := NatString(n);
      assert s[..|s| - 1] == NatString(n / 10);
      ParseNatString(n / 10);
    }
  }

  /** `str(i)` for a Python int. */
  function IntString(i: int): (s: string)
    ensures |s| > 0 && (s[0] == '-' <==> i < 0)
  {
    if i < 0 then "-" + NatString(-i) else NatString(i)
  }

  /** `str(n)` of a number: ints in decimal, floats through the supplied float printer. */
  function Show(n: Number, showFloat: real -> string): string {
    match n
    case PyInt(i) => IntString(i)
    case PyFloat(x) => showFloat(x)
  }

  /** `int(s)` for a string of an optional minus sign followed by digits. */
  function ParseInt(s: string): Option<int> {
    if |s| > 1 && s[0] == '-' && AllDigits(s[1..]) then Some(-(ParseDigits(s[1..]) as int))
    else if |s| > 0 && AllDigits(s) then Some(ParseDigits(s))
    else None
  }

  /** `str` and `int` are inverse on Python ints. */
  lemma IntStringRoundTrip(i: int)
    ensures ParseInt(IntString(i)) == Some(i)
  {
    var s := IntString(i);
    if i < 0 {
      var d := NatString(-i);
      assert s == "-" + d && s[1..] == d;
      ParseNatString(-i);
      assert ParseInt(s) == Some(-(ParseDigits(d) as int));
    } else {
      assert s == NatString(i) && s[0] != '-';
      ParseNatString(i);
    }
  }

  /**
   * Python's `round` of an exact value: the nearest integer, and of two equally
   * near integers the even one.
   */
  function RoundHalfEven(x: real): (r: int)
    ensures -0.5 <= x - r as real <= 0.5
    ensures x - r as real == 0.5 || r as real - x == 0.5 ==> r % 2 == 0
  {
    var f := x.Floor;
    var d := x - f as real;
    if d < 0.5 then f
    else if d > 0.5 then f + 1
    else if f % 2 == 0 then f
    else f + 1
  }

  /** Inserts a comma before every group of three digits counted from the right. */
  function Group(digits: string): (s: string)
    ensures |digits| > 0 ==> |s| > 0 && s[0] == digits[0]
    ensures forall i :: 0 <= i < |s| && s[i] != ',' ==> s[i] in digits
  {
    if |digits| <= 3 then digits
    else Group(digits[..|digits| - 3]) + "," + digits[|digits| - 3..]
  }

  /** Drops the thousands separators. */
  function Ungroup(s: string): string {
    if s == [] then []
    else if s[|s| - 1] == ',' then Ungroup(s[..|s| - 1])
    else Ungroup(s[..|s| - 1]) + [s[|s| - 1]]
  }

  lemma UngroupAppend(a: string, b: string)
    ensures Ungroup(a + b) == Ungroup(a) + Ungroup(b)
  {
    if b != [] {
      assert (a + b)[..|a + b| - 1] == a + b[..|b| - 1];
      UngroupAppend(a, b[..|b| - 1]);
    } else {
      assert a + b == a;
    }
  }

  lemma UngroupDigits(d: string)
    requires ',' !in d
    ensures Ungroup(d) == d
  {
    if d != [] {
      assert d[..|d| - 1] + [d[|d| - 1]] == d;
      UngroupDigits(d[..|d| - 1]);
    }
  }

  /** Removing the separators gives back the digits they were inserted into. */
  lemma {:induction false} UngroupGroup(d: string)
    requires ',' !in d
    ensures Ungroup(Group(d)) == d
  {
    if |d| <= 3 {
      UngroupDigits(d);
    } else {
      var head, tail := d[..|d| - 3], d[|d| - 3..];
      assert ',' !in head && ',' !in tail by {
        assert forall c :: c in head ==> c in d;
        assert forall c :: c in tail ==> c in d;
      }
      UngroupAppend(Group(head) + ",", tail);
      UngroupAppend(Group(head), ",");
      assert Ungroup(",") == [] by {
        assert ","[..0] == [];
      }
      UngroupGroup(head);
      UngroupDigits(tail);
      assert head + tail == d;
    }
  }

  function TwoDigits(c: nat): (s: string)
    requires c < 100
    ensures |s| == 2 && AllDigits(s)
  {
    [DigitChar(c / 10), DigitChar(c % 10)]
  }

  /** The number of hundredths `"{:,.2f}"` writes for |x|. */
  function Cents(x: real): (c: nat)
    ensures -0.5 <= (if x < 0.0 then -x else x) * 100.0 - c as real <= 0.5
  {
    RoundHalfEven(if x < 0.0 then -x * 100.0 else x * 100.0)
  }

  /** `"{:,.2f}".format(x)` */
  function Fmt2(x: real): (s: string)
    ensures |s| >= 4 && IsDigit(s[|s| - 1]) && IsDigit(s[|s| - 2])
    ensures s[0] == '-' <==> x < 0.0
    ensures ',' !in s[|s| - 3..] && s[|s| - 3] == '.'
  {
    Signed(x < 0.0, Cents(x))
  }

  lemma ParseTwoDigits(r: nat)
    requires r < 100
    ensures ParseDigits(TwoDigits(r)) == r
  {
    var hi, lo := DigitChar(r / 10), DigitChar(r % 10);
    var t := TwoDigits(r);
    assert t == [hi, lo];
    assert t[..|t| - 1] == [hi];
    assert [hi][..0] == [];
    assert ParseDigits([hi]) == r / 10;
    assert ParseDigits(t) == ParseDigits([hi]) * 10 + DigitValue(lo);
  }

  /** The unsigned text `"{:,.2f}"` writes for c hundredths. */
  function Unsigned(c: nat): string {
    Group(NatString(c / 100)) + "." + TwoDigits(c % 100)
  }

  /** The parts of the unsigned text, as ParseFixed2 cuts them. */
  lemma UnsignedParts(c: nat)
    ensures var body := Unsigned(c);
      && |body| >= 4 && body[0] != '-' && body[|body| - 3] == '.'
      && Ungroup(body[..|body| - 3]) == NatString(c / 100)
      && body[|body| - 2..] == TwoDigits(c % 100)
      && ParseDigits(NatString(c / 100)) * 100 + ParseDigits(TwoDigits(c % 100)) == c
  {
    var digits := NatString(c / 100);
    var whole := Group(digits);
    var frac := TwoDigits(c % 100);
    var body := Unsigned(c);
    assert body == whole + "." + frac;
    assert |whole| > 0 && IsDigit(whole[0]);
    assert body[..|body| - 3] == whole;
    assert body[|body| - 2..] == frac;
    assert ',' !in digits;
    UngroupGroup(digits);
    ParseNatString(c / 100);
    ParseTwoDigits(c % 100);
  }

  /** Reads a `"{:,.2f}"` string back as a signed number of hundredths. */
  function ParseFixed2(s: string): Option<int> {
    if |s| > 0 && s[0] == '-' then
      match ParseUnsigned(s[1..])
      case Some(c) => Some(-(c as int))
      case None => None
    else
      match ParseUnsigned(s)
      case Some(c) => Some(c as int)
      case None => None
  }

  /** Reads digits with separators, a point and two decimals as hundredths. */
  function ParseUnsigned(body: string): Option<nat> {
    if |body| < 4 || body[|body| - 3] != '.' then None
    else ParseParts(Ungroup(body[..|body| - 3]), body[|body| - 2..])
  }

  function ParseParts(whole: string, frac: string): Option<nat> {
    if whole == [] || !AllDigits(whole) || !AllDigits(frac) then None
    else Some(ParseDigits(whole) * 100 + ParseDigits(frac))
  }

  lemma ParseUnsignedText(c: nat)
    ensures ParseUnsigned(Unsigned(c)) == Some(c)
  {
    UnsignedParts(c);
  }

  /** A signed number of hundredths as `"{:,.2f}"` writes it. */
  function Signed(negative: bool, c: nat): string {
    (if negative then "-" else "") + Unsigned(c)
  }

  /** The unsigned text starts with a digit, so it is never read as negative. */
  lemma UnsignedStart(c: nat)
    ensures |Unsigned(c)| > 0 && IsDigit(Unsigned(c)[0])
  {
    var whole := Group(NatString(c / 100));
    assert Unsigned(c) == whole + "." + TwoDigits(c % 100);
    assert Unsigned(c)[0] == whole[0];
  }

  lemma ParseSigned(negative: bool, c: nat)
    ensures ParseFixed2(Signed(negative, c)) == Some(if negative then -(c as int) else c)
  {
    var u := Unsigned(c);
    var s := Signed(negative, c);
    ParseUnsignedText(c);
    if negative {
      assert s == "-" + u;
      assert s[0] == '-' && s[1..] == u;
    } else {
      assert s == u;
      UnsignedStart(c);
    }
  }

  /**
   * `"{:,.2f}"` writes x rounded to the nearest hundredth: reading the text back
   * gives the rounded number of hundredths, with the sign of x.
   */
  lemma Fmt2RoundTrip(x: real)
    ensures ParseFixed2(Fmt2(x)) == Some(SignedCents(x))
  {
    ParseSigned(x < 0.0, Cents(x));
  }

  /** The signed number of hundredths `"{:,.2f}"` writes for x: minus the rounded magnitude when x is negative. */
  function SignedCents(x: real): int {
    if x < 0.0 then -(Cents(x) as int) else Cents(x)
  }
}
