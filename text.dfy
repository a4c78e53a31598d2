/** The handful of Python string operations the bot relies on: `str(n)` and
    `int(s)` on decimal integers, `sep.join(parts)`, `s.split(c)` and the
    substring test `sub in s`. */
module Text {
  import opened Wrappers

  predicate IsDigit(c: char) {
    '0' <= c <= '9'
  }

  predicate AllDigits(s: string) {
    forall i :: 0 <= i < |s| ==> IsDigit(s[i])
  }

  function DigitChar(d: nat): (c: char)
    requires d < 10
    ensures IsDigit(c) && c as int == '0' as int + d
  {
    (('0' as int) + d) as char
  }

  function DigitValue(c: char): (d: nat)
    requires IsDigit(c)
    ensures d < 10 && DigitChar(d) == c
  {
    assert '0' as int <= c as int;
    (c as int) - ('0' as int)
  }

  function Pow10(k: nat): (p: nat)
    ensures p >= 1
  {
    if k == 0 then 1 else 10 * Pow10(k - 1)
  }

  /** The decimal digits of `n`, most significant first, without leading zeros:
      Python's `str(n)` for `n >= 0`. */
  function Digits(n: nat): (s: string)
    ensures |s| >= 1 && AllDigits(s)
    decreases n
  {
    if n < 10 then [DigitChar(n)] else Digits(n / 10) + [DigitChar(n % 10)]
  }

  /** The number a string of digits denotes (leading zeros allowed). */
  function DigitsValue(s: string): nat
    requires AllDigits(s)
    decreases |s|
  {
    if s == [] then 0 else DigitsValue(s[..|s| - 1]) * 10 + DigitValue(s[|s| - 1])
  }

  /** The most significant decimal digit of `n`. */
  function Lead(n: nat): (d: nat)
    ensures d < 10
    ensures n > 0 ==> d > 0
  {
    if n < 10 then n else Lead(n / 10)
  }

  /** Python's `str(n)`. */
  function IntToString(n: int): (s: string)
    ensures |s| >= 1
    ensures s[0] == '-' <==> n < 0
    ensures n >= 0 ==> AllDigits(s)
  {
    if n < 0 then "-" + Digits(-n) else Digits(n)
  }

  /** Python's `int(s)` on a decimal literal: an optional sign followed by at
      least one digit; anything else raises, which is `None` here. */
  function ParseInt(s: string): (r: Option<int>)
    ensures s == [] ==> r.None?
    ensures AllDigits(s) && s != [] ==> r == Some(DigitsValue(s))
  {
    if |s| >= 2 && (s[0] == '-' || s[0] == '+') && AllDigits(s[1..]) then
      var v: int := DigitsValue(s[1..]);
      Some(if s[0] == '-' then -v else v)
    else if s != [] && AllDigits(s) then
      Some(DigitsValue(s))
    else
      None
  }

  lemma {:induction false} DigitsRoundTrip(n: nat)
    ensures DigitsValue(Digits(n)) == n
    decreases n
  {
    if n >= 10 {
      var s := Digits(n);
      assert s[..|s| - 1] == Digits(n / 10);
      DigitsRoundTrip(n / 10);
    }
  }

  /** `int(str(n)) == n` for every integer. */
  lemma ParseIntToString(n: int)
    ensures ParseInt(IntToString(n)) == Some(n)
  {
    if n < 0 {
      DigitsRoundTrip(-n);
      assert IntToString(n)[1..] == Digits(-n);
    } else {
      DigitsRoundTrip(n);
    }
  }

  lemma {:induction false} DigitsLead(n: nat)
    ensures Digits(n)[0] == DigitChar(Lead(n))
    decreases n
  {
    if n >= 10 {
      DigitsLead(n / 10);
    }
  }

  /** The leading digit and the length of `str(n)` place `n` between two
      consecutive multiples of a power of ten. */
  lemma {:induction false} LeadBounds(n: nat)
    ensures Lead(n) * Pow10(|Digits(n)| - 1) <= n < (Lead(n) + 1) * Pow10(|Digits(n)| - 1)
    decreases n
  {
    if n >= 10 {
      var m, d := n / 10, Lead(n / 10);
      var p := Pow10(|Digits(m)| - 1);
      LeadBounds(m);
      assert Lead(n) == d && |Digits(n)| - 1 == |Digits(m)|;
      assert Pow10(|Digits(n)| - 1) == 10 * p;
      ScaleBounds(d, p, m, n);
    }
  }

  lemma ScaleBounds(d: nat, p: nat, m: nat, n: nat)
    requires d * p <= m < (d + 1) * p && m == n / 10
    ensures d * (10 * p) <= n < (d + 1) * (10 * p)
  {
    var lo, hi := d * p, (d + 1) * p;
    assert 10 * lo <= 10 * m <= n < 10 * m + 10 <= 10 * hi;
    assert d * (10 * p) == 10 * lo;
    assert (d + 1) * (10 * p) == 10 * hi;
  }

  lemma {:induction false} Pow10Monotone(i: nat, j: nat)
    requires i <= j
    ensures Pow10(i) <= Pow10(j)
    decreases j
  {
    if i < j {
      Pow10Monotone(i, j - 1);
    }
  }

  /** `a * p <= b * p` for `a <= b`. */
  lemma MulMonotone(a: nat, b: nat, p: nat)
    requires a <= b
    ensures a * p <= b * p
  {
  }

  /** The arithmetic behind `NineDigitsLeading`: a number of `len` digits
      led by `l` lies in `[d * 10^8, (d + 1) * 10^8)` exactly when it has
      nine digits led by `d`. */
  lemma NineDigitsBounds(n: nat, d: nat, l: nat, len: nat)
    requires 1 <= d <= 9 && l < 10 && len >= 1 && (len > 1 ==> l >= 1)
    requires l * Pow10(len - 1) <= n < (l + 1) * Pow10(len - 1)
    ensures (len == 9 && l == d) <==> d * 100000000 <= n < (d + 1) * 100000000
  {
    var p := Pow10(len - 1);
    if len == 9 {
      assert Pow10(8) == 100000000;
    } else if len < 9 {
      Pow10Monotone(len, 8);
      MulMonotone(l + 1, 10, p);
      assert n < Pow10(8);
    } else {
      Pow10Monotone(9, len - 1);
      MulMonotone(1, l, p);
      assert n >= Pow10(9);
    }
  }

  /** `str(n)` has nine characters starting with the digit `d` exactly when
      `n` lies in `[d * 10^8, (d + 1) * 10^8)`. */
  lemma NineDigitsLeading(n: nat, d: nat)
    requires 1 <= d <= 9
    ensures (|Digits(n)| == 9 && Digits(n)[0] == DigitChar(d))
        <==> d * 100000000 <= n < (d + 1) * 100000000
  {
    DigitsLead(n);
    LeadBounds(n);
    assert |Digits(n)| > 1 ==> n >= 10;
    NineDigitsBounds(n, d, Lead(n), |Digits(n)|);
    assert DigitChar(Lead(n)) == DigitChar(d) <==> Lead(n) == d;
  }

  lemma AllDigitsAppend(a: string, b: string)
    requires AllDigits(a) && AllDigits(b)
    ensures AllDigits(a + b)
  {
    forall i | 0 <= i < |a + b| ensures IsDigit((a + b)[i]) {
      if i < |a| { assert (a + b)[i] == a[i]; } else { assert (a + b)[i] == b[i - |a|]; }
    }
  }

  /** The value of a concatenation of digit strings. */
  lemma {:induction false} DigitsValueAppend(a: string, b: string)
    requires AllDigits(a) && AllDigits(b)
    ensures AllDigits(a + b)
    ensures DigitsValue(a + b) == DigitsValue(a) * Pow10(|b|) + DigitsValue(b)
    decreases |b|
  {
    AllDigitsAppend(a, b);
    if b == [] {
      assert a + b == a;
    } else {
      var c, b' := a + b, b[..|b| - 1];
      assert c[..|c| - 1] == a + b';
      DigitsValueAppend(a, b');
      var x, p, y, d := DigitsValue(a), Pow10(|b'|), DigitsValue(b'), DigitValue(b[|b| - 1]);
      assert c[|c| - 1] == b[|b| - 1];
      assert DigitsValue(c) == DigitsValue(a + b') * 10 + d;
      assert DigitsValue(b) == y * 10 + d;
      assert Pow10(|b|) == 10 * p;
      Regroup(x, p, y, d);
    }
  }

  lemma Regroup(x: int, p: int, y: int, d: int)
    ensures (x * p + y) * 10 + d == x * (10 * p) + (y * 10 + d)
  {
  }

  /** `str(n).zfill(2)` and `%H`/`%M`: two digits, zero-padded. */
  function Pad2(n: int): (s: string)
    requires 0 <= n < 100
    ensures |s| == 2 && AllDigits(s) && DigitsValue(s) == n
  {
    var s := [DigitChar(n / 10), DigitChar(n % 10)];
    assert s[..1] == [DigitChar(n / 10)] && s[..1][..0] == [];
    assert DigitValue(s[0]) == n / 10 && DigitValue(s[1]) == n % 10;
    assert DigitsValue(s[..1]) == n / 10;
    s
  }

  /** Python's `sep.join(parts)`. */
  function Join(parts: seq<string>, sep: string): string
    decreases |parts|
  {
    if |parts| == 0 then ""
    else if |parts| == 1 then parts[0]
    else parts[0] + sep + Join(parts[1..], sep)
  }

  /** Python's `s.split(c)` for a one-character separator: the pieces between
      separators, empty pieces included, so there is always at least one. */
  function Split(s: string, c: char): (pieces: seq<string>)
    ensures |pieces| >= 1
    ensures forall i :: 0 <= i < |pieces| ==> c !in pieces[i]
    decreases |s|
  {
    if s == [] then [""]
    else
      var rest := Split(s[1..], c);
      if s[0] == c then [""] + rest
      else [[s[0]] + rest[0]] + rest[1..]
  }

  /** Splitting and joining back with the same separator gives the string back. */
  lemma {:induction false} JoinSplit(s: string, c: char)
    ensures Join(Split(s, c), [c]) == s
    decreases |s|
  {
    if s != [] {
      var rest := Split(s[1..], c);
      JoinSplit(s[1..], c);
      if s[0] == c {
        assert Split(s, c)[1..] == rest;
      } else {
        var pieces := Split(s, c);
        if |rest| == 1 {
          assert pieces == [[s[0]] + rest[0]];
        } else {
          assert pieces[1..] == rest[1..];
          assert Join(rest, [c]) == rest[0] + [c] + Join(rest[1..], [c]);
        }
      }
    }
  }

  predicate IsPrefix(p: string, s: string) {
    |p| <= |s| && s[..|p|] == p
  }

  /** `sub` occurs in `s` starting at index `i`. */
  predicate OccursAt(s: string, sub: string, i: int) {
    0 <= i && i + |sub| <= |s| && s[i..i + |sub|] == sub
  }

  /** Python's `sub in s`: `sub` occurs somewhere in `s`. */
  predicate Contains(s: string, sub: string) {
    exists i :: 0 <= i <= |s| && OccursAt(s, sub, i)
  }

  lemma ContainsAfter(p: string, t: string, sub: string)
    requires Contains(t, sub)
    ensures Contains(p + t, sub)
  {
    var i :| 0 <= i <= |t| && OccursAt(t, sub, i);
    assert (p + t)[|p| + i..|p| + i + |sub|] == t[i..i + |sub|];
    assert OccursAt(p + t, sub, |p| + i);
  }

  lemma ContainsBefore(s: string, t: string, sub: string)
    requires IsPrefix(sub, s)
    ensures Contains(s + t, sub)
  {
    assert (s + t)[0..0 + |sub|] == s[..|sub|];
    assert OccursAt(s + t, sub, 0);
  }

  /** No string contains a string longer than itself. */
  lemma NotContainsLonger(s: string, sub: string)
    requires |sub| > |s|
    ensures !Contains(s, sub)
  {
  }

  /** A string that contains `sub` contains every prefix of `sub`. */
  lemma ContainsPrefixOf(s: string, sub: string, pre: string)
    requires IsPrefix(pre, sub) && Contains(s, sub)
    ensures Contains(s, pre)
  {
    var i :| 0 <= i <= |s| && OccursAt(s, sub, i);
    assert s[i..i + |pre|] == sub[..|pre|];
    assert OccursAt(s, pre, i);
  }

  /** Every part occurs in the joined string. */
  lemma {:induction false} JoinContainsPart(parts: seq<string>, sep: string, k: nat)
    requires k < |parts|
    ensures Contains(Join(parts, sep), parts[k])
    decreases |parts|
  {
    if |parts| == 1 {
      assert parts[0][0..0 + |parts[0]|] == parts[0];
      assert OccursAt(parts[0], parts[0], 0);
    } else if k == 0 {
      assert IsPrefix(parts[0], parts[0]);
      ContainsBefore(parts[0], sep + Join(parts[1..], sep), parts[0]);
      assert parts[0] + sep + Join(parts[1..], sep) == parts[0] + (sep + Join(parts[1..], sep));
    } else {
      JoinContainsPart(parts[1..], sep, k - 1);
      ContainsAfter(parts[0] + sep, Join(parts[1..], sep), parts[k]);
    }
  }

  /** A string without '+' that neither starts nor ends with a space cannot
      straddle the separator " + ". */
  predicate InsidePart(sub: string) {
    |sub| > 0 && '+' !in sub && sub[0] != ' ' && sub[|sub| - 1] != ' '
  }

  /** An occurrence in `a + " + " + b` of such a string lies in `a` or in `b`. */
  lemma ContainsAcrossSeparator(a: string, b: string, sub: string)
    requires InsidePart(sub) && Contains(a + " + " + b, sub)
    ensures Contains(a, sub) || Contains(b, sub)
  {
    var s := a + " + " + b;
    var i :| 0 <= i <= |s| && OccursAt(s, sub, i);
    var n := |sub|;
    assert s[|a|] == ' ' && s[|a| + 1] == '+' && s[|a| + 2] == ' ';
    assert forall k :: 0 <= k < n ==> sub[k] == s[i + k];
    if i + n <= |a| {
      assert s[i..i + n] == a[i..i + n];
      assert OccursAt(a, sub, i);
    } else if i >= |a| + 3 {
      assert s[i..i + n] == b[i - |a| - 3..i - |a| - 3 + n];
      assert OccursAt(b, sub, i - |a| - 3);
    } else {
      // the occurrence would cover a character of the separator
      assert false;
    }
  }

  /** An occurrence in `parts` joined with " + " of such a string lies in
      one of the parts. */
  lemma {:induction false} JoinContainsOnlyParts(parts: seq<string>, sub: string)
    requires InsidePart(sub) && Contains(Join(parts, " + "), sub)
    ensures exists k :: 0 <= k < |parts| && Contains(parts[k], sub)
    decreases |parts|
  {
    if |parts| == 0 {
      assert false;
    } else if |parts| == 1 {
      assert Contains(parts[0], sub);
    } else {
      ContainsAcrossSeparator(parts[0], Join(parts[1..], " + "), sub);
      if !Contains(parts[0], sub) {
        JoinContainsOnlyParts(parts[1..], sub);
        var k :| 0 <= k < |parts[1..]| && Contains(parts[1..][k], sub);
        assert Contains(parts[k + 1], sub);
      }
    }
  }

  /** `sub` does not occur in `s` at or after `from` when its first
      character does not appear there. */
  lemma NotContainsFrom(s: string, sub: string, from: nat)
    requires |sub| > 0
    requires forall i :: 0 <= i < from ==> !OccursAt(s, sub, i)
    requires forall i :: from <= i <= |s| - |sub| ==> s[i] != sub[0]
    ensures !Contains(s, sub)
  {
    forall i | from <= i <= |s| - |sub|
      ensures !OccursAt(s, sub, i)
    {
      assert s[i..i + |sub|][0] == s[i];
    }
  }
}
