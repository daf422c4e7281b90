/** Text the sources print or compare: decimal numerals, the "%d:%02d"
    minutes-and-seconds layout, ASCII case folding, suffix tests and Python's
    substring test `a in b`. */
module Text {
  import opened Common

  predicate IsDigit(c: char) { '0' <= c <= '9' }

  predicate AllDigits(s: string) { forall i :: 0 <= i < |s| ==> IsDigit(s[i]) }

  function DigitChar(d: nat): (c: char)
    requires d < 10
    ensures IsDigit(c) && c as int == '0' as int + d
  {
    ('0' as int + d) as char
  }

  function DigitValue(c: char): (d: nat)
    requires IsDigit(c)
    ensures d < 10 && DigitChar(d) == c
  {
    c as int - '0' as int
  }

  /** The decimal numeral of `n` without leading zeros, as `%d` prints it. */
  function Decimal(n: nat): (s: string)
    ensures 1 <= |s|
    ensures AllDigits(s)
    ensures |s| > 1 ==> s[0] != '0'
    decreases n
  {
    if n < 10 then [DigitChar(n)] else Decimal(n / 10) + [DigitChar(n % 10)]
  }

  /** A number below 1000 prints in at most three characters, and one below 10 in one. */
  lemma DecimalShort(n: nat)
    requires n < 1000
    ensures |Decimal(n)| <= 3
    ensures n < 10 <==> |Decimal(n)| == 1
  {
    if n >= 10 {
      assert Decimal(n) == Decimal(n / 10) + [DigitChar(n % 10)];
      if n >= 100 {
        assert Decimal(n / 10) == Decimal(n / 100) + [DigitChar(n / 10 % 10)];
      }
    }
  }

  /** `n` copies of `c`, none when `n` is not positive. */
  function Repeat(c: char, n: int): (s: string)
    ensures |s| == (if n > 0 then n else 0)
    ensures forall i :: 0 <= i < |s| ==> s[i] == c
  {
    if n > 0 then seq(n, _ => c) else ""
  }

  /** `%-<width>s`: the text left-aligned and padded with spaces to the width. */
  function PadRight(s: string, width: int): (r: string)
    ensures |s| <= width ==> |r| == width
    ensures |r| >= |s| && r[..|s|] == s
  {
    s + Repeat(' ', width - |s|)
  }

  /** The value of a string of decimal digits (the empty string reads as 0). */
  function ParseDecimal(s: string): nat
    requires AllDigits(s)
  {
    if s == [] then 0 else ParseDecimal(s[..|s| - 1]) * 10 + DigitValue(s[|s| - 1])
  }

  /** Reading back a printed numeral gives the number. */
  lemma {:induction false} DecimalRoundTrip(n: nat)
    ensures ParseDecimal(Decimal(n)) == n
  {
    var s := Decimal(n);
    if n < 10 {
      assert s[..|s| - 1] == [];
    } else {
      DecimalRoundTrip(n / 10);
      assert s[..|s| - 1] == Decimal(n / 10);
    }
  }

  /** Distinct numbers print as distinct numerals. */
  lemma DecimalInjective(m: nat, n: nat)
    ensures Decimal(m) == Decimal(n) ==> m == n
  {
    DecimalRoundTrip(m);
    DecimalRoundTrip(n);
  }

  /** `%d` of any int: a minus sign before the numeral of a negative number. */
  function SignedDecimal(n: int): (s: string)
    ensures n >= 0 ==> s == Decimal(n)
    ensures n < 0 ==> |s| >= 2 && s[0] == '-' && s[1..] == Decimal(-n)
  {
    if n < 0 then "-" + Decimal(-n) else Decimal(n)
  }

  /** `%02d`: the numeral padded with zeros to at least two characters.
      A negative number already has two characters, so only 0..9 is padded. */
  function ZeroPad2(n: int): string
  {
    var t := SignedDecimal(n);
    if |t| < 2 then "0" + t else t
  }

  /** For 0..99, `%02d` gives exactly two digits that read back to the number. */
  lemma ZeroPad2TwoDigits(n: int)
    requires 0 <= n < 100
    ensures |ZeroPad2(n)| == 2 && AllDigits(ZeroPad2(n))
    ensures ParseDecimal(ZeroPad2(n)) == n
  {
    DecimalRoundTrip(n);
    var t := Decimal(n);
    if n < 10 {
      var p := "0" + t;
      assert p[..|p| - 1] == "0";
      assert ParseDecimal("0") == 0 by {
        assert "0"[..0] == [];
      }
    } else {
      assert Decimal(n / 10) == [DigitChar(n / 10)];
    }
  }

  /** `String.format("%d:%02d", minutes, seconds)`. */
  function MinSec(minutes: int, seconds: int): string
  {
    SignedDecimal(minutes) + ":" + ZeroPad2(seconds)
  }

  /** Reads "<digits>:<two digits>" back into its two numbers. */
  function ParseMinSec(t: string): Option<(nat, nat)>
  {
    if |t| >= 4 && t[|t| - 3] == ':' && AllDigits(t[..|t| - 3]) && AllDigits(t[|t| - 2..])
    then Some((ParseDecimal(t[..|t| - 3]), ParseDecimal(t[|t| - 2..])))
    else None
  }

  /** A "m:ss" text read back as a number of seconds. */
  function ReadSeconds(t: string): Option<nat>
  {
    match ParseMinSec(t)
    case Some((m, s)) => Some(m * 60 + s)
    case None => None
  }

  /** What `MinSec` prints for non-negative minutes and seconds below 100 reads
      back to the same two numbers, and the seconds field has exactly two digits. */
  lemma MinSecRoundTrip(minutes: nat, seconds: nat)
    requires seconds < 100
    ensures ParseMinSec(MinSec(minutes, seconds)) == Some((minutes, seconds))
  {
    var d := Decimal(minutes);
    var p := ZeroPad2(seconds);
    ZeroPad2TwoDigits(seconds);
    DecimalRoundTrip(minutes);
    var t := MinSec(minutes, seconds);
    assert t == d + ":" + p;
    assert t[..|t| - 3] == d;
    assert t[|t| - 2..] == p;
  }

  /** Lower-cases the ASCII letters A-Z and leaves every other character as it is. */
  function AsciiLowerChar(c: char): char
  {
    if 'A' <= c <= 'Z' then (c as int + 32) as char else c
  }

  function AsciiLower(s: string): (r: string)
    ensures |r| == |s|
    ensures forall i :: 0 <= i < |s| ==> r[i] == AsciiLowerChar(s[i])
  {
    seq(|s|, i requires 0 <= i < |s| => AsciiLowerChar(s[i]))
  }

  predicate EndsWith(s: string, suffix: string)
  {
    |suffix| <= |s| && s[|s| - |suffix|..] == suffix
  }

  predicate StartsWith(s: string, prefix: string)
  {
    |prefix| <= |s| && s[..|prefix|] == prefix
  }

  /** Python's `needle in hay` on strings, searched position by position. */
  predicate Contains(hay: string, needle: string)
    decreases |hay|
  {
    StartsWith(hay, needle) || (|hay| > 0 && Contains(hay[1..], needle))
  }

  /** `needle` stands in `hay` from position `i` on. */
  predicate OccursAt(hay: string, needle: string, i: int)
  {
    0 <= i && i + |needle| <= |hay| && hay[i..i + |needle|] == needle
  }

  /** `Contains` holds exactly when the needle occurs at some position of the hay. */
  lemma {:induction false} ContainsIffOccurs(hay: string, needle: string)
    ensures Contains(hay, needle) <==> exists i :: OccursAt(hay, needle, i)
    decreases |hay|
  {
    if StartsWith(hay, needle) {
      assert OccursAt(hay, needle, 0);
    }
    if |hay| > 0 {
      ContainsIffOccurs(hay[1..], needle);
      if Contains(hay[1..], needle) {
        var i :| OccursAt(hay[1..], needle, i);
        assert hay[i + 1..i + 1 + |needle|] == hay[1..][i..i + |needle|];
        assert OccursAt(hay, needle, i + 1);
      }
    }
    if exists i :: OccursAt(hay, needle, i) {
      var i :| OccursAt(hay, needle, i);
      if i > 0 {
        assert hay[1..][i - 1..i - 1 + |needle|] == hay[i..i + |needle|];
        assert OccursAt(hay[1..], needle, i - 1);
      } else {
        assert StartsWith(hay, needle);
      }
    }
  }
}
