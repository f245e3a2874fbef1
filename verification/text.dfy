/** The handful of Python text primitives the plan generator relies on:
    `str.split`, `int()` applied to a string, `str()` of an integer and the
    `:02d` format specifier. */
module Text {
  import opened Wrappers

  predicate IsDigit(c: char) {
    '0' <= c <= '9'
  }

  predicate AllDigits(s: string) {
    forall i :: 0 <= i < |s| ==> IsDigit(s[i])
  }

  function DigitValue(c: char): (d: nat)
    requires IsDigit(c)
    ensures d < 10
  {
    c as int - '0' as int
  }

  function DigitChar(d: int): (c: char)
    requires 0 <= d < 10
    ensures IsDigit(c) && DigitValue(c) == d
  {
    (d + '0' as int) as char
  }

  /** The number a run of decimal digits denotes; leading zeros are allowed,
      as they are for Python's `int()`. */
  function DigitsValue(s: string): nat
    requires AllDigits(s)
  {
    if |s| == 0 then 0 else DigitsValue(s[..|s| - 1]) * 10 + DigitValue(s[|s| - 1])
  }

  /** `str(n)` for a non-negative n: the shortest decimal numeral. */
  function NatToString(n: nat): (s: string)
    ensures |s| >= 1
  {
    if n < 10 then [DigitChar(n)] else NatToString(n / 10) + [DigitChar(n % 10)]
  }

  /** The numeral is all digits, denotes n, has no leading zero unless n is
      zero, and has one character below 10 and at most two below 100. */
  lemma {:induction false} NatToStringDigits(n: nat)
    ensures AllDigits(NatToString(n)) && DigitsValue(NatToString(n)) == n
    ensures NatToString(n)[0] == '0' ==> n == 0
    ensures n < 10 <==> |NatToString(n)| == 1
    ensures n < 100 ==> |NatToString(n)| <= 2
  {
    if n >= 10 {
      var prefix := NatToString(n / 10);
      NatToStringDigits(n / 10);
      var s := prefix + [DigitChar(n % 10)];
      assert s == NatToString(n);
      assert s[..|s| - 1] == prefix;
    }
  }

  /** `str(i)` for any integer: a minus sign in front of the numeral of |i|
      when i is negative. */
  function IntToString(i: int): (s: string)
  {
    if i < 0 then "-" + NatToString(-i) else NatToString(i)
  }

  /** Python's `int()` applied to a string: an optional sign followed by one
      or more decimal digits; None where Python raises ValueError. */
  function ParseInt(s: string): Option<int>
  {
    if |s| >= 1 && (s[0] == '+' || s[0] == '-') then
      var digits := s[1..];
      if |digits| >= 1 && AllDigits(digits) then
        var n: int := DigitsValue(digits);
        Some(if s[0] == '-' then -n else n)
      else None
    else if |s| >= 1 && AllDigits(s) then Some(DigitsValue(s))
    else None
  }

  /** `f"{n:02d}"` for a non-negative n: the numeral padded on the left with
      '0' to at least two characters. */
  function ZeroPad2(n: nat): (s: string)
    ensures |s| >= 2
  {
    NatToStringDigits(n);
    if n < 10 then "0" + NatToString(n) else NatToString(n)
  }

  /** The padded numeral is all digits, denotes n, and is exactly two
      characters long below 100. */
  lemma ZeroPad2Digits(n: nat)
    ensures AllDigits(ZeroPad2(n)) && DigitsValue(ZeroPad2(n)) == n
    ensures n < 100 ==> |ZeroPad2(n)| == 2
  {
    NatToStringDigits(n);
    var s := ZeroPad2(n);
    if n < 10 {
      assert s == "0" + NatToString(n);
      assert s[..|s| - 1] == "0";
    }
  }

  /** `s.split(sep)`: the pieces between the occurrences of sep, in order;
      never empty, and no piece contains sep. */
  function Split(s: string, sep: char): (parts: seq<string>)
    ensures |parts| >= 1
    decreases |s|
  {
    if |s| == 0 then [""]
    else
      var rest := Split(s[1..], sep);
      if s[0] == sep then [""] + rest
      else [[s[0]] + rest[0]] + rest[1..]
  }

  /** No piece of a split contains the separator. */
  lemma {:induction false} SplitPiecesHaveNoSep(s: string, sep: char)
    ensures forall i :: 0 <= i < |Split(s, sep)| ==> sep !in Split(s, sep)[i]
    decreases |s|
  {
    if |s| > 0 {
      var rest := Split(s[1..], sep);
      SplitPiecesHaveNoSep(s[1..], sep);
      if s[0] != sep {
        assert sep !in [s[0]] + rest[0];
      }
    }
  }

  /** `sep.join(parts)`, the inverse of Split. */
  function Join(parts: seq<string>, sep: char): string
  {
    if |parts| == 0 then ""
    else if |parts| == 1 then parts[0]
    else parts[0] + [sep] + Join(parts[1..], sep)
  }

  /** Splitting loses nothing: joining the pieces back gives the string. */
  lemma {:induction false} JoinSplit(s: string, sep: char)
    ensures Join(Split(s, sep), sep) == s
    decreases |s|
  {
    if |s| > 0 {
      var rest := Split(s[1..], sep);
      JoinSplit(s[1..], sep);
      if s[0] == sep {
        assert Split(s, sep) == [""] + rest;
      } else {
        var parts := [[s[0]] + rest[0]] + rest[1..];
        assert Split(s, sep) == parts;
        if |rest| == 1 {
          assert Join(parts, sep) == [s[0]] + rest[0];
        } else {
          assert parts[1..] == rest[1..];
          assert Join(rest, sep) == rest[0] + [sep] + Join(rest[1..], sep);
        }
      }
    }
  }

  /** A string with no separator in it is a single piece. */
  lemma {:induction false} SplitWithoutSep(s: string, sep: char)
    requires sep !in s
    ensures Split(s, sep) == [s]
    decreases |s|
  {
    if |s| > 0 {
      assert s[0] in s;
      assert forall c :: c in s[1..] ==> c in s;
      SplitWithoutSep(s[1..], sep);
      assert [s[0]] + s[1..] == s;
    }
  }

  /** The first separator ends the first piece. */
  lemma {:induction false} SplitAround(a: string, sep: char, b: string)
    requires sep !in a
    ensures Split(a + [sep] + b, sep) == [a] + Split(b, sep)
    decreases |a|
  {
    var s := a + [sep] + b;
    if |a| == 0 {
      assert s == [sep] + b;
      assert s[1..] == b;
    } else {
      assert a[0] in a;
      assert forall c :: c in a[1..] ==> c in a;
      SplitAround(a[1..], sep, b);
      assert s[1..] == a[1..] + [sep] + b;
      assert [a[0]] + a[1..] == a;
    }
  }

  /** `str()` and `int()` are inverse on integers. */
  lemma IntToStringRoundTrip(i: int)
    ensures ParseInt(IntToString(i)) == Some(i)
  {
    var s := IntToString(i);
    if i < 0 {
      NatToStringDigits(-i);
      assert s[1..] == NatToString(-i);
    } else {
      NatToStringDigits(i);
      assert IsDigit(s[0]);
    }
  }

  /** A rendered integer is only digits and perhaps a leading minus sign,
      so it never contains a ':' separator. */
  lemma IntToStringHasNoColon(i: int)
    ensures ':' !in IntToString(i)
  {
    var s := IntToString(i);
    if i < 0 {
      var digits := NatToString(-i);
      NatToStringDigits(-i);
      assert s == "-" + digits;
      assert forall k :: 1 <= k < |s| ==> s[k] == digits[k - 1];
    } else {
      NatToStringDigits(i);
    }
    assert forall k :: 0 <= k < |s| ==> s[k] != ':';
  }

  /** A zero-padded numeral parses back to the number through `int()`. */
  lemma ZeroPad2RoundTrip(n: nat)
    ensures ParseInt(ZeroPad2(n)) == Some(n)
    ensures ':' !in ZeroPad2(n)
  {
    var s := ZeroPad2(n);
    ZeroPad2Digits(n);
    assert IsDigit(s[0]);
    assert forall k :: 0 <= k < |s| ==> s[k] != ':';
  }

  /** Distinct integers render differently. */
  lemma IntToStringInjective(i: int, j: int)
    requires IntToString(i) == IntToString(j)
    ensures i == j
  {
    IntToStringRoundTrip(i);
    IntToStringRoundTrip(j);
  }
}
