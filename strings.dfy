/** Text primitives the pipeline's Python code relies on: str.split and
    str.join on one separator, character replacement, ASCII case mapping,
    substring search, and the decimal rendering of integers used by format
    specs of the form `0Nd` and by str.zfill. */
module Strings {

  // ---------------------------------------------------------------------------
  // Splitting, joining, replacing
  // ---------------------------------------------------------------------------

  /** `s.split(sep)` for a one-character separator: always at least one piece,
      and no piece contains the separator. */
  function Split(s: string, sep: char): (parts: seq<string>)
    ensures |parts| >= 1
    ensures forall i :: 0 <= i < |parts| ==> sep !in parts[i]
  {
    if s == [] then [""]
    else
      var rest := Split(s[1..], sep);
      if s[0] == sep then [""] + rest
      else [[s[0]] + rest[0]] + rest[1..]
  }

  /** `sep.join(parts)` for a one-character separator. */
  function Join(parts: seq<string>, sep: char): string
  {
    if |parts| == 0 then ""
    else if |parts| == 1 then parts[0]
    else parts[0] + [sep] + Join(parts[1..], sep)
  }

  /** `s.replace(from, to)` for single characters. */
  function Replace(s: string, from: char, to: char): (r: string)
    ensures |r| == |s|
    ensures forall i :: 0 <= i < |s| ==> r[i] == (if s[i] == from then to else s[i])
  {
    if s == [] then [] else [if s[0] == from then to else s[0]] + Replace(s[1..], from, to)
  }

  lemma {:induction false} JoinConsHead(c: char, parts: seq<string>, sep: char)
    requires |parts| >= 1
    ensures Join([[c] + parts[0]] + parts[1..], sep) == [c] + Join(parts, sep)
  {
    var ps := [[c] + parts[0]] + parts[1..];
    if |parts| > 1 {
      assert ps[1..] == parts[1..];
    }
  }

  /** Joining pieces free of a character with a different separator gives
      a text free of that character. */
  lemma {:induction false} JoinExcludes(parts: seq<string>, sep: char, c: char)
    requires c != sep
    requires forall i :: 0 <= i < |parts| ==> c !in parts[i]
    ensures c !in Join(parts, sep)
  {
    if |parts| > 1 {
      JoinExcludes(parts[1..], sep, c);
      assert c !in parts[0];
    }
  }

  /** Splitting on one character and joining on another is the same as
      replacing the one character by the other. */
  lemma {:induction false} JoinSplitIsReplace(s: string, from: char, to: char)
    ensures Join(Split(s, from), to) == Replace(s, from, to)
  {
    if s != [] {
      var rest := Split(s[1..], from);
      JoinSplitIsReplace(s[1..], from, to);
      if s[0] == from {
        assert ([""] + rest)[1..] == rest;
      } else {
        JoinConsHead(s[0], rest, to);
      }
    }
  }

  /** Joining the pieces of a split with the same separator gives back the
      original text. */
  lemma SplitJoinRoundTrip(s: string, sep: char)
    ensures Join(Split(s, sep), sep) == s
  {
    JoinSplitIsReplace(s, sep, sep);
    assert Replace(s, sep, sep) == s;
  }

  /** A text without the separator splits into itself alone. */
  lemma {:induction false} SplitWithoutSeparator(s: string, sep: char)
    requires sep !in s
    ensures Split(s, sep) == [s]
  {
    if s != [] {
      assert s[0] in s && sep !in s[1..];
      SplitWithoutSeparator(s[1..], sep);
      assert [s[0]] + s[1..] == s;
    }
  }

  /** `prefix + [sep] + s` splits into `prefix` followed by the pieces of `s`
      when `prefix` has no separator. */
  lemma {:induction false} SplitAfterSeparator(prefix: string, sep: char, s: string)
    requires sep !in prefix
    ensures Split(prefix + [sep] + s, sep) == [prefix] + Split(s, sep)
  {
    if prefix == [] {
      assert ([] + [sep] + s)[1..] == s;
    } else {
      var t := prefix + [sep] + s;
      assert t[0] == prefix[0] && prefix[0] in prefix;
      assert t[1..] == prefix[1..] + [sep] + s;
      assert sep !in prefix[1..];
      SplitAfterSeparator(prefix[1..], sep, s);
      var rest := Split(t[1..], sep);
      assert rest == [prefix[1..]] + Split(s, sep);
      assert [prefix[0]] + rest[0] == prefix;
      assert rest[1..] == Split(s, sep);
    }
  }

  // ---------------------------------------------------------------------------
  // ASCII case mapping and search
  // ---------------------------------------------------------------------------

  function UpperChar(c: char): char
  {
    if 'a' <= c <= 'z' then (c as int - 32) as char else c
  }

  function LowerChar(c: char): char
  {
    if 'A' <= c <= 'Z' then (c as int + 32) as char else c
  }

  /** `s.upper()`, restricted to ASCII letters. */
  function Upper(s: string): (r: string)
    ensures |r| == |s|
    ensures forall i :: 0 <= i < |s| ==> r[i] == UpperChar(s[i])
  {
    seq(|s|, i requires 0 <= i < |s| => UpperChar(s[i]))
  }

  /** `s.lower()`, restricted to ASCII letters. */
  function Lower(s: string): (r: string)
    ensures |r| == |s|
    ensures forall i :: 0 <= i < |s| ==> r[i] == LowerChar(s[i])
  {
    seq(|s|, i requires 0 <= i < |s| => LowerChar(s[i]))
  }

  /** Lower-casing twice is lower-casing once. */
  lemma LowerIdempotent(s: string)
    ensures Lower(Lower(s)) == Lower(s)
  {
    assert forall i :: 0 <= i < |s| ==> LowerChar(LowerChar(s[i])) == LowerChar(s[i]);
  }

  /** `sub in s`. The empty text is contained in every text. */
  function Contains(s: string, sub: string): bool
  {
    if sub <= s then true
    else if s == [] then false
    else Contains(s[1..], sub)
  }

  /** `sub` occurs in `s` starting at offset `k`. */
  predicate OccursAt(s: string, sub: string, k: int)
  {
    0 <= k <= |s| - |sub| && s[k..k + |sub|] == sub
  }

  /** A slice of `s` away from its head is the same slice of its tail, one
      position earlier. */
  lemma TailSlice(s: string, k: int, n: int)
    requires 1 <= k && 0 <= n && k + n <= |s|
    ensures s[k..k + n] == s[1..][k - 1..k - 1 + n]
  {
    var t := s[1..];
    var a := s[k..k + n];
    var b := t[k - 1..k - 1 + n];
    assert |a| == |b|;
    forall i | 0 <= i < |a|
      ensures a[i] == b[i]
    {
      assert a[i] == s[k + i] && b[i] == t[k - 1 + i];
    }
  }

  /** Contains finds exactly the occurrences at some offset. */
  lemma {:induction false} ContainsAt(s: string, sub: string)
    ensures Contains(s, sub) <==> exists k :: OccursAt(s, sub, k)
  {
    if sub <= s {
      assert OccursAt(s, sub, 0);
    } else if s == [] {
    } else {
      ContainsAt(s[1..], sub);
      if Contains(s[1..], sub) {
        var k :| OccursAt(s[1..], sub, k);
        TailSlice(s, k + 1, |sub|);
        assert OccursAt(s, sub, k + 1);
      } else {
        forall k | OccursAt(s, sub, k)
          ensures false
        {
          if k > 0 {
            TailSlice(s, k, |sub|);
            assert OccursAt(s[1..], sub, k - 1);
          }
        }
      }
    }
  }

  // ---------------------------------------------------------------------------
  // Decimal rendering of integers
  // ---------------------------------------------------------------------------

  predicate IsDigit(c: char)
  {
    '0' <= c <= '9'
  }

  predicate AllDigits(s: string)
  {
    forall i :: 0 <= i < |s| ==> IsDigit(s[i])
  }

  /** A text of digits holds no other character. */
  lemma DigitsExclude(s: string, c: char)
    requires AllDigits(s) && !IsDigit(c)
    ensures c !in s
  {
    forall i | 0 <= i < |s|
      ensures s[i] != c
    {
    }
  }

  function DigitChar(d: nat): (c: char)
    requires d < 10
    ensures IsDigit(c)
  {
    ('0' as int + d) as char
  }

  function DigitValue(c: char): nat
    requires IsDigit(c)
  {
    c as int - '0' as int
  }

  /** The canonical decimal digits of a natural number: never empty, and no
      leading zero except for zero itself. */
  function Digits(n: nat): (s: string)
    ensures |s| >= 1 && AllDigits(s)
    ensures s[0] == '0' ==> n == 0
  {
    if n < 10 then [DigitChar(n)] else Digits(n / 10) + [DigitChar(n % 10)]
  }

  /** The number a string of digits denotes. */
  function DecimalValue(s: string): nat
    requires AllDigits(s)
  {
    if s == [] then 0 else DecimalValue(s[..|s| - 1]) * 10 + DigitValue(s[|s| - 1])
  }

  /** `str(n)` for any integer: a minus sign before the digits of a negative. */
  function IntToString(n: int): string
  {
    if n >= 0 then Digits(n) else "-" + Digits(-n)
  }

  function Zeros(k: nat): (z: string)
    ensures |z| == k && AllDigits(z)
    ensures forall i :: 0 <= i < k ==> z[i] == '0'
  {
    seq(k, _ => '0')
  }

  /** `s.zfill(width)`: zeros are inserted after a leading sign, until the
      text is `width` long; a text already that long is returned unchanged. */
  function ZFill(s: string, width: int): string
  {
    if |s| >= width then s
    else if |s| > 0 && (s[0] == '-' || s[0] == '+') then [s[0]] + Zeros(width - |s|) + s[1..]
    else Zeros(width - |s|) + s
  }

  /** Python's `format(n, "0{width}d")`, which renders exactly as
      `str(n).zfill(width)`. */
  function ZeroPadded(n: int, width: int): string
  {
    ZFill(IntToString(n), width)
  }

  lemma {:induction false} DecimalOfDigits(n: nat)
    ensures DecimalValue(Digits(n)) == n
  {
    if n >= 10 {
      var s := Digits(n);
      DecimalOfDigits(n / 10);
      assert s[..|s| - 1] == Digits(n / 10);
    }
  }

  lemma {:induction false} DecimalLeadingZero(s: string)
    requires AllDigits(s)
    ensures AllDigits("0" + s) && DecimalValue("0" + s) == DecimalValue(s)
  {
    if s != [] {
      var t := "0" + s;
      assert t[..|t| - 1] == "0" + s[..|s| - 1];
      DecimalLeadingZero(s[..|s| - 1]);
    }
  }

  lemma {:induction false} DecimalLeadingZeros(k: nat, s: string)
    requires AllDigits(s)
    ensures AllDigits(Zeros(k) + s) && DecimalValue(Zeros(k) + s) == DecimalValue(s)
  {
    if k > 0 {
      DecimalLeadingZeros(k - 1, s);
      assert Zeros(k) == "0" + Zeros(k - 1);
      assert Zeros(k) + s == "0" + (Zeros(k - 1) + s);
      DecimalLeadingZero(Zeros(k - 1) + s);
    } else {
      assert Zeros(k) + s == s;
    }
  }

  /** Zero-padding a non-negative number to a width never truncates it: the
      result is at least `width` long, holds only digits, ends with the full
      digits of `n` and reads back as `n`. */
  lemma ZeroPaddedNatural(n: nat, width: int)
    ensures var r := ZeroPadded(n, width);
      AllDigits(r)
      && |r| == (if |Digits(n)| >= width then |Digits(n)| else width)
      && r[|r| - |Digits(n)|..] == Digits(n)
      && DecimalValue(r) == n
  {
    var d := Digits(n);
    assert IntToString(n) == d;
    DecimalOfDigits(n);
    if |d| < width {
      assert IsDigit(d[0]);
      var r := Zeros(width - |d|) + d;
      assert ZeroPadded(n, width) == r;
      DecimalLeadingZeros(width - |d|, d);
      assert r[|r| - |d|..] == d;
    } else {
      assert ZeroPadded(n, width) == d;
      assert d[|d| - |d|..] == d;
    }
  }

  /** Texts sharing a prefix and a suffix are equal when their middles
      are. */
  lemma SameAffixes(pre: string, x: string, y: string, post: string)
    requires pre + x + post == pre + y + post
    ensures x == y
  {
    assert |x| == |y|;
    assert x == (pre + x + post)[|pre|..|pre| + |x|];
    assert y == (pre + y + post)[|pre|..|pre| + |y|];
  }

  /** Distinct non-negative numbers render distinctly at any width. */
  lemma ZeroPaddedInjective(m: nat, n: nat, width: int)
    requires ZeroPadded(m, width) == ZeroPadded(n, width)
    ensures m == n
  {
    ZeroPaddedNatural(m, width);
    ZeroPaddedNatural(n, width);
  }
}
