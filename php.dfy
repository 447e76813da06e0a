/** The few PHP built-ins the filter parser relies on, stated over Dafny strings:
    `empty()` on a string, `explode` with a one-character delimiter, `implode`,
    `is_numeric` on integer strings and the decimal conversion of an integer. */
module Php {

  /** PHP `empty()` on a string value: true for "" and for "0". */
  predicate IsEmpty(s: string) {
    s == "" || s == "0"
  }

  /** A missing key reads as the empty string (an unset request parameter). */
  function Lookup(m: map<string, string>, key: string): string {
    if key in m then m[key] else ""
  }

  predicate IsDigit(c: char) {
    '0' <= c <= '9'
  }

  predicate AllDigits(s: string) {
    forall i :: 0 <= i < |s| ==> IsDigit(s[i])
  }

  /** PHP `is_numeric` restricted to decimal integers: an optional sign and at least one digit. */
  predicate IsNumericString(s: string) {
    var digits := if |s| > 0 && (s[0] == '+' || s[0] == '-') then s[1..] else s;
    |digits| > 0 && AllDigits(digits)
  }

  /** PHP `explode(sep, s)`: the pieces of `s` between occurrences of `sep`, none dropped. */
  function Explode(s: string, sep: char): (parts: seq<string>)
    ensures |parts| >= 1
    ensures forall i :: 0 <= i < |parts| ==> sep !in parts[i]
    decreases |s|
  {
    if s == [] then [""]
    else
      var rest := Explode(s[1..], sep);
      if s[0] == sep then [""] + rest
      else [[s[0]] + rest[0]] + rest[1..]
  }

  /** PHP `implode(glue, parts)`. */
  function Implode(parts: seq<string>, glue: string): string
    decreases |parts|
  {
    if |parts| == 0 then ""
    else if |parts| == 1 then parts[0]
    else parts[0] + glue + Implode(parts[1..], glue)
  }

  /** `implode` of the pieces of `explode` gives back the original text. */
  lemma {:induction false} ImplodeExplode(s: string, sep: char)
    ensures Implode(Explode(s, sep), [sep]) == s
    decreases |s|
  {
    if s != [] {
      var rest := Explode(s[1..], sep);
      ImplodeExplode(s[1..], sep);
      if s[0] == sep {
        assert Explode(s, sep) == [""] + rest;
        assert ([""] + rest)[1..] == rest;
      } else {
        var parts := Explode(s, sep);
        assert parts == [[s[0]] + rest[0]] + rest[1..];
        if |rest| == 1 {
          assert Implode(rest, [sep]) == rest[0];
        } else {
          assert Implode(rest, [sep]) == rest[0] + [sep] + Implode(rest[1..], [sep]);
          assert parts[1..] == rest[1..];
        }
      }
    }
  }

  /** Exploding a text that starts with a delimiter-free prefix extends the first piece. */
  lemma {:induction false} ExplodePrefix(a: string, t: string, sep: char)
    requires sep !in a
    ensures Explode(a + t, sep) == [a + Explode(t, sep)[0]] + Explode(t, sep)[1..]
    decreases |a|
  {
    if a != [] {
      assert (a + t)[0] == a[0];
      assert (a + t)[1..] == a[1..] + t;
      ExplodePrefix(a[1..], t, sep);
      assert [a[0]] + (a[1..] + Explode(t, sep)[0]) == a + Explode(t, sep)[0];
    } else {
      assert a + t == t;
      assert a + Explode(t, sep)[0] == Explode(t, sep)[0];
      assert Explode(t, sep) == [Explode(t, sep)[0]] + Explode(t, sep)[1..];
    }
  }

  /** `explode` of an `implode` gives back the pieces when none contains the delimiter. */
  lemma {:induction false} ExplodeImplode(parts: seq<string>, sep: char)
    requires |parts| >= 1
    requires forall i :: 0 <= i < |parts| ==> sep !in parts[i]
    ensures Explode(Implode(parts, [sep]), sep) == parts
    decreases |parts|
  {
    if |parts| == 1 {
      ExplodePrefix(parts[0], "", sep);
      assert parts[0] + "" == parts[0];
    } else {
      var tail := Implode(parts[1..], [sep]);
      ExplodeImplode(parts[1..], sep);
      assert Implode(parts, [sep]) == parts[0] + ([sep] + tail);
      ExplodePrefix(parts[0], [sep] + tail, sep);
      assert ([sep] + tail)[1..] == tail;
      assert Explode([sep] + tail, sep) == [""] + parts[1..];
      assert parts[0] + "" == parts[0];
    }
  }

  /** `explode` yields one piece more than there are delimiters. */
  lemma {:induction false} ExplodeCount(s: string, sep: char)
    ensures |Explode(s, sep)| == multiset(s)[sep] + 1
    decreases |s|
  {
    if s != [] {
      ExplodeCount(s[1..], sep);
      assert s == [s[0]] + s[1..];
      assert multiset(s) == multiset([s[0]]) + multiset(s[1..]);
    }
  }

  /** Appending one more piece to an `implode` adds the glue and the piece at the end. */
  lemma {:induction false} ImplodeSnoc(parts: seq<string>, last: string, glue: string)
    requires |parts| >= 1
    ensures Implode(parts + [last], glue) == Implode(parts, glue) + glue + last
    decreases |parts|
  {
    if |parts| == 1 {
      assert parts + [last] == [parts[0], last];
    } else {
      assert (parts + [last])[1..] == parts[1..] + [last];
      ImplodeSnoc(parts[1..], last, glue);
    }
  }

  /** The last |b| characters of `a + b` are `b`. */
  lemma SuffixOfConcat(a: string, b: string)
    ensures (a + b)[|a + b| - |b|..] == b
  {
  }

  function DigitChar(d: nat): char
    requires d < 10
  {
    "0123456789"[d]
  }

  /** Decimal digits of a natural number, without leading zeros. */
  function NatToString(n: nat): (s: string)
    ensures |s| > 0 && AllDigits(s)
    ensures s[0] == '0' ==> n == 0
  {
    if n < 10 then [DigitChar(n)] else NatToString(n / 10) + [DigitChar(n % 10)]
  }

  /** PHP's conversion of an integer to a string. */
  function IntToString(i: int): (s: string)
    ensures IsNumericString(s)
    ensures s[0] == '-' <==> i < 0
  {
    if i < 0 then "-" + NatToString(-i) else NatToString(i)
  }

  /** The value of a string of decimal digits; the reading-back partner of NatToString. */
  function DigitsValue(s: string): nat
    requires AllDigits(s)
  {
    if s == [] then 0 else 10 * DigitsValue(s[..|s| - 1]) + ((s[|s| - 1] as int) - ('0' as int))
  }

  /** The number an integer string denotes. */
  function StringToInt(s: string): int
    requires IsNumericString(s)
  {
    if s[0] == '-' then 0 - DigitsValue(s[1..]) as int
    else if s[0] == '+' then DigitsValue(s[1..])
    else DigitsValue(s)
  }

  lemma {:induction false} NatToStringValue(n: nat)
    ensures DigitsValue(NatToString(n)) == n
  {
    if n >= 10 {
      var s := NatToString(n);
      var prefix := NatToString(n / 10);
      assert s == prefix + [DigitChar(n % 10)];
      assert s[..|s| - 1] == prefix;
      NatToStringValue(n / 10);
    }
  }

  /** The decimal text of an integer reads back as that integer. */
  lemma {:induction false} IntToStringRoundTrip(i: int)
    ensures StringToInt(IntToString(i)) == i
  {
    if i < 0 {
      var digits := NatToString(-i);
      var s := "-" + digits;
      assert s[0] == '-' && s[1..] == digits;
      NatToStringValue(-i);
      assert StringToInt(s) == 0 - DigitsValue(digits) as int;
    } else {
      var s := NatToString(i);
      assert IsDigit(s[0]);
      NatToStringValue(i);
      assert StringToInt(s) == DigitsValue(s);
    }
  }
}
