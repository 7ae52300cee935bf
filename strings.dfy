/** The string operations of Python that the modelled code uses: `sep.join`,
    `str.split` on one character, `str.replace` of one character by another,
    slicing a prefix, `str.lower` on ASCII text and `str` of an integer. */
module Strings {

  /** `sep.join(parts)`. */
  function Join(sep: string, parts: seq<string>): string
  {
    if |parts| == 0 then ""
    else if |parts| == 1 then parts[0]
    else parts[0] + sep + Join(sep, parts[1..])
  }

  /** `s.split(c)` for a one-character separator: the maximal runs between
      occurrences of `c`, empty runs included. */
  function Split(s: string, c: char): (r: seq<string>)
    ensures |r| >= 1
    ensures forall k :: 0 <= k < |r| ==> c !in r[k]
  {
    if |s| == 0 then [""]
    else
      var rest := Split(s[1..], c);
      if s[0] == c then [""] + rest
      else [[s[0]] + rest[0]] + rest[1..]
  }

  /** `s.replace(a, b)` for one character `a` replaced by one character `b`. */
  function Replace(s: string, a: char, b: char): (r: string)
    ensures |r| == |s|
    ensures forall i :: 0 <= i < |s| ==> r[i] == if s[i] == a then b else s[i]
  {
    if |s| == 0 then "" else [if s[0] == a then b else s[0]] + Replace(s[1..], a, b)
  }

  /** `s[:n]`: Python clips the slice to the string. */
  function PrefixUpTo(s: string, n: nat): (r: string)
    ensures |r| == if n <= |s| then n else |s|
    ensures r <= s
  {
    if n <= |s| then s[..n] else s
  }

  predicate StartsWith(s: string, p: string)
  {
    |p| <= |s| && s[..|p|] == p
  }

  /** `c.lower()` for an ASCII character. */
  function LowerChar(c: char): char
  {
    if 'A' <= c <= 'Z' then (c as int + 32) as char else c
  }

  /** `s.lower()` restricted to ASCII letters (the only text it is applied to
      here is a class name). */
  function AsciiLower(s: string): (r: string)
    ensures |r| == |s|
    ensures forall i :: 0 <= i < |s| ==> r[i] == LowerChar(s[i])
  {
    seq(|s|, i requires 0 <= i < |s| => LowerChar(s[i]))
  }

  function DigitChar(d: nat): char
    requires d < 10
  {
    ('0' as int + d) as char
  }

  predicate IsDigits(s: string)
  {
    forall i :: 0 <= i < |s| ==> '0' <= s[i] <= '9'
  }

  /** `str(n)` for a natural number: decimal digits, no leading zero. */
  function NatToString(n: nat): (r: string)
    ensures |r| >= 1 && IsDigits(r)
    ensures r[0] == '0' ==> n == 0
  {
    if n < 10 then [DigitChar(n)] else NatToString(n / 10) + [DigitChar(n % 10)]
  }

  /** `str(i)` for any integer: a minus sign before the digits of a negative one. */
  function IntToString(i: int): (r: string)
    ensures |r| >= 1
    ensures forall k :: 0 <= k < |r| ==> r[k] == '-' || '0' <= r[k] <= '9'
  {
    if i < 0 then "-" + NatToString(-i) else NatToString(i)
  }

  /** The number a string of decimal digits denotes. */
  function DigitsValue(s: string): nat
    requires IsDigits(s)
  {
    if |s| == 0 then 0 else 10 * DigitsValue(s[..|s| - 1]) + (s[|s| - 1] as int - '0' as int)
  }

  /** Reading back the digits of `str(n)` gives `n`. */
  lemma {:induction false} NatToStringRoundTrip(n: nat)
    ensures DigitsValue(NatToString(n)) == n
  {
    var r := NatToString(n);
    if n >= 10 {
      NatToStringRoundTrip(n / 10);
      assert r[..|r| - 1] == NatToString(n / 10);
    }
  }

  /** A part without the separator splits to itself. */
  lemma {:induction false} SplitOfSeparatorFree(p: string, c: char)
    requires c !in p
    ensures Split(p, c) == [p]
  {
    if |p| > 0 {
      SplitOfSeparatorFree(p[1..], c);
      assert [p[0]] + p[1..] == p;
    }
  }

  /** Splitting `p + c + b`, where `p` has no separator, yields `p` and then the parts of `b`. */
  lemma {:induction false} SplitAfterPart(p: string, b: string, c: char)
    requires c !in p
    ensures Split(p + [c] + b, c) == [p] + Split(b, c)
  {
    if |p| == 0 {
      assert p + [c] + b == [c] + b;
      assert ([c] + b)[1..] == b;
    } else {
      SplitAfterPart(p[1..], b, c);
      assert (p + [c] + b)[1..] == p[1..] + [c] + b;
      assert [p[0]] + p[1..] == p;
    }
  }

  /** Splitting a join with the same one-character separator gives the parts
      back, provided there is at least one part and none holds the separator. */
  lemma {:induction false} SplitJoin(parts: seq<string>, c: char)
    requires |parts| >= 1
    requires forall k :: 0 <= k < |parts| ==> c !in parts[k]
    ensures Split(Join([c], parts), c) == parts
  {
    if |parts| == 1 {
      SplitOfSeparatorFree(parts[0], c);
    } else {
      SplitJoin(parts[1..], c);
      SplitAfterPart(parts[0], Join([c], parts[1..]), c);
      assert [parts[0]] + parts[1..] == parts;
    }
  }

  /** Joining the parts of a split with the separator gives the string back. */
  lemma {:induction false} JoinSplit(s: string, c: char)
    ensures Join([c], Split(s, c)) == s
  {
    if |s| > 0 {
      JoinSplit(s[1..], c);
      var rest := Split(s[1..], c);
      if s[0] == c {
        assert Join([c], [""] + rest) == "" + [c] + Join([c], rest);
      } else {
        var parts := [[s[0]] + rest[0]] + rest[1..];
        if |rest| == 1 {
          assert parts == [[s[0]] + rest[0]];
        } else {
          assert parts[1..] == rest[1..];
          assert Join([c], rest) == rest[0] + [c] + Join([c], rest[1..]);
        }
      }
    }
  }

  /** Every character of a join is a character of a part or of the separator. */
  lemma {:induction false} JoinChars(sep: string, parts: seq<string>, P: char -> bool)
    requires forall i :: 0 <= i < |sep| ==> P(sep[i])
    requires forall k, i :: 0 <= k < |parts| && 0 <= i < |parts[k]| ==> P(parts[k][i])
    ensures forall i :: 0 <= i < |Join(sep, parts)| ==> P(Join(sep, parts)[i])
  {
    if |parts| > 1 {
      JoinChars(sep, parts[1..], P);
      var j := Join(sep, parts[1..]);
      forall i | 0 <= i < |parts[0] + sep + j| ensures P((parts[0] + sep + j)[i]) {
        if i < |parts[0]| {
          assert (parts[0] + sep + j)[i] == parts[0][i];
        } else if i < |parts[0]| + |sep| {
          assert (parts[0] + sep + j)[i] == sep[i - |parts[0]|];
        } else {
          assert (parts[0] + sep + j)[i] == j[i - |parts[0]| - |sep|];
        }
      }
    }
  }

  /** Joining two non-empty lists of parts is joining each and putting the
      separator between them. */
  lemma {:induction false} JoinConcat(sep: string, xs: seq<string>, ys: seq<string>)
    requires |xs| >= 1 && |ys| >= 1
    ensures Join(sep, xs + ys) == Join(sep, xs) + sep + Join(sep, ys)
  {
    if |xs| > 1 {
      JoinConcat(sep, xs[1..], ys);
      assert (xs + ys)[1..] == xs[1..] + ys;
    } else {
      assert (xs + ys)[1..] == ys;
    }
  }
}
