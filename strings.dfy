/** The few Python string operations the bot relies on: `str.split(sep)`,
    `str.isdigit()`, `int(s)` and `str(n)` (the same conversion an f-string
    applies to an int).  Only ASCII digits are modelled. */
module Strings {
  import opened Wrappers

  predicate IsAsciiDigit(c: char) {
    '0' <= c <= '9'
  }

  predicate AllDigits(s: string) {
    forall i :: 0 <= i < |s| ==> IsAsciiDigit(s[i])
  }

  /** `s.isdigit()`: non-empty and every character a digit. */
  predicate IsDigits(s: string)
    ensures IsDigits(s) ==> |s| > 0 && s[0] != '-' && s[0] != '+' && s[0] != ' '
    ensures IsDigits(s) ==> IsAsciiDigit(s[0])
  {
    |s| > 0 && AllDigits(s)
  }

  function DigitChar(d: nat): (c: char)
    requires d < 10
    ensures IsAsciiDigit(c) && c as int - '0' as int == d
  {
    ('0' as int + d) as char
  }

  /** The number a string of decimal digits denotes (most significant first). */
  function DigitsValue(s: string): nat
    requires AllDigits(s)
  {
    if |s| == 0 then 0
    else DigitsValue(s[..|s| - 1]) * 10 + (s[|s| - 1] as int - '0' as int)
  }

  /** `str(n)` for a non-negative integer: no leading zeros, at least one digit. */
  function NatToString(n: nat): (s: string)
    ensures IsDigits(s)
    ensures |s| > 1 ==> s[0] != '0'
  {
    if n < 10 then [DigitChar(n)] else NatToString(n / 10) + [DigitChar(n % 10)]
  }

  /** `str(n)` for any integer. */
  function IntToString(n: int): (s: string)
    ensures |s| > 0
    ensures n >= 0 <==> IsDigits(s)
  {
    if n < 0 then
      var s := "-" + NatToString(-n);
      assert !IsAsciiDigit(s[0]);
      s
    else NatToString(n)
  }

  /** `int(s)`: an optional sign followed by one or more digits; anything else
      raises ValueError. */
  function ParseInt(s: string): (r: Result<int, Exception>)
    ensures r.Err? ==> r.error == ValueError
    ensures IsDigits(s) ==> r == Ok(DigitsValue(s))
    ensures |s| > 1 && s[0] == '-' && IsDigits(s[1..]) ==> r == Ok(-(DigitsValue(s[1..]) as int))
    ensures |s| > 1 && s[0] == '+' && IsDigits(s[1..]) ==> r == Ok(DigitsValue(s[1..]))
    ensures r.Ok? <==> IsDigits(s) || (|s| > 1 && (s[0] == '-' || s[0] == '+') && IsDigits(s[1..]))
  {
    if IsDigits(s) then Ok(DigitsValue(s))
    else if |s| > 1 && s[0] == '-' && IsDigits(s[1..]) then Ok(0 - DigitsValue(s[1..]) as int)
    else if |s| > 1 && s[0] == '+' && IsDigits(s[1..]) then Ok(DigitsValue(s[1..]))
    else Err(ValueError)
  }

  lemma {:induction false} NatRoundTrip(n: nat)
    ensures DigitsValue(NatToString(n)) == n
  {
    if n >= 10 {
      var s := NatToString(n / 10) + [DigitChar(n % 10)];
      assert s[..|s| - 1] == NatToString(n / 10);
      NatRoundTrip(n / 10);
    }
  }

  /** `int(str(n)) == n` for every integer. */
  lemma IntRoundTrip(n: int)
    ensures ParseInt(IntToString(n)) == Ok(n)
  {
    if n < 0 {
      var s := IntToString(n);
      assert s[1..] == NatToString(-n);
      assert !IsDigits(s) by { assert !IsAsciiDigit(s[0]); }
      NatRoundTrip(-n);
    } else {
      NatRoundTrip(n);
    }
  }

  /** `s.split(sep)`: the pieces between separators, always at least one. */
  function Split(s: string, sep: char): (parts: seq<string>)
    ensures |parts| >= 1
  {
    if |s| == 0 then [""]
    else if s[0] == sep then [""] + Split(s[1..], sep)
    else var rest := Split(s[1..], sep); [[s[0]] + rest[0]] + rest[1..]
  }

  /** One step of Split, on a string written as its first character and the rest. */
  lemma SplitCons(c: char, t: string, sep: char)
    ensures Split([c] + t, sep) ==
      if c == sep then [""] + Split(t, sep) else [[c] + Split(t, sep)[0]] + Split(t, sep)[1..]
  {
    assert ([c] + t)[0] == c && ([c] + t)[1..] == t;
  }

  /** `sep.join(parts)`, the inverse of Split. */
  function Join(parts: seq<string>, sep: char): string
    requires |parts| >= 1
  {
    if |parts| == 1 then parts[0] else parts[0] + [sep] + Join(parts[1..], sep)
  }

  /** Splitting and joining again gives the original string back. */
  lemma {:induction false} JoinSplit(s: string, sep: char)
    ensures Join(Split(s, sep), sep) == s
  {
    if |s| > 0 {
      JoinSplit(s[1..], sep);
      var rest := Split(s[1..], sep);
      if s[0] == sep {
        assert Split(s, sep)[1..] == rest;
      } else {
        var parts := Split(s, sep);
        assert parts[1..] == rest[1..];
        if |rest| > 1 {
          assert rest == [rest[0]] + rest[1..];
        }
      }
    }
  }

  /** No piece of a split contains the separator. */
  lemma {:induction false} SplitPiecesFree(s: string, sep: char)
    ensures forall i :: 0 <= i < |Split(s, sep)| ==> sep !in Split(s, sep)[i]
  {
    if |s| > 0 {
      SplitPiecesFree(s[1..], sep);
    }
  }

  /** Joining separator-free pieces and splitting again gives the pieces back. */
  lemma {:induction false} SplitJoin(parts: seq<string>, sep: char)
    requires |parts| >= 1
    requires forall i :: 0 <= i < |parts| ==> sep !in parts[i]
    ensures Split(Join(parts, sep), sep) == parts
  {
    if |parts| == 1 {
      SplitFree(parts[0], sep);
    } else {
      SplitJoin(parts[1..], sep);
      SplitAfterFree(parts[0], Join(parts[1..], sep), sep);
      assert parts == [parts[0]] + parts[1..];
    }
  }

  /** A string without the separator splits into itself. */
  lemma {:induction false} SplitFree(s: string, sep: char)
    requires sep !in s
    ensures Split(s, sep) == [s]
  {
    if |s| > 0 {
      SplitFree(s[1..], sep);
      assert [s[0]] + s[1..] == s;
    }
  }

  /** A separator-free prefix followed by the separator becomes the first piece. */
  lemma {:induction false} SplitAfterFree(a: string, b: string, sep: char)
    requires sep !in a
    ensures Split(a + [sep] + b, sep) == [a] + Split(b, sep)
  {
    if |a| > 0 {
      SplitAfterFree(a[1..], b, sep);
      var s := a + [sep] + b;
      assert s[0] == a[0] && s[1..] == a[1..] + [sep] + b;
      assert [a[0]] + a[1..] == a;
    } else {
      assert ([sep] + b)[1..] == b;
    }
  }

  /** Integer renderings contain no letters used as separators by the bot. */
  lemma IntToStringFree(n: int, sep: char)
    requires !IsAsciiDigit(sep) && sep != '-'
    ensures sep !in IntToString(n)
  {
    if n < 0 {
      assert IntToString(n) == "-" + NatToString(-n);
    }
  }
}
