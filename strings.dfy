/**
 * The string surgery the record factory performs: JavaScript's `split` on a
 * one-character separator, the decimal text of a number inside a template
 * literal, and the `${field}_${n}` suffix that makes a synthesized field unique.
 */
module Strings {

  /** Index of the first occurrence of `c` in `s`. */
  function IndexOf(s: string, c: char): (i: nat)
    requires c in s
    ensures i < |s| && s[i] == c && c !in s[..i]
  {
    if s[0] == c then 0
    else
      var j := IndexOf(s[1..], c);
      assert s[..j + 1] == [s[0]] + s[1..][..j];
      j + 1
  }

  /**
   * `s.split(c)`: the pieces of `s` between the occurrences of `c`, in order.
   * The first piece is the longest prefix of `s` free of `c`.
   */
  function Split(s: string, c: char): (parts: seq<string>)
    ensures |parts| >= 1
    ensures c !in parts[0] && parts[0] <= s
    ensures |parts[0]| < |s| ==> s[|parts[0]|] == c
    decreases |s|
  {
    if c !in s then [s]
    else
      var i := IndexOf(s, c);
      [s[..i]] + Split(s[i + 1..], c)
  }

  /** `parts.join(c)`. */
  function Join(parts: seq<string>, c: char): string
    requires |parts| >= 1
  {
    if |parts| == 1 then parts[0] else parts[0] + [c] + Join(parts[1..], c)
  }

  /** Joining a piece in front of at least one more puts the separator between them. */
  lemma JoinCons(p: string, rest: seq<string>, c: char)
    requires |rest| >= 1
    ensures Join([p] + rest, c) == p + [c] + Join(rest, c)
  {
    var parts := [p] + rest;
    assert parts[0] == p && parts[1..] == rest;
  }

  /** Splitting loses nothing: joining the pieces back gives the string. */
  lemma {:induction false} JoinSplit(s: string, c: char)
    ensures Join(Split(s, c), c) == s
    decreases |s|
  {
    if c in s {
      var i := IndexOf(s, c);
      var pre, post := s[..i], s[i + 1..];
      var rest := Split(post, c);
      calc {
        Join(Split(s, c), c);
        == Join([pre] + rest, c);
        == { JoinCons(pre, rest, c); }
        pre + [c] + Join(rest, c);
        == { JoinSplit(post, c); }
        pre + [c] + post;
        == s;
      }
    }
  }

  /** No piece of a split contains the separator. */
  lemma {:induction false} SplitPiecesFree(s: string, c: char)
    ensures forall k :: 0 <= k < |Split(s, c)| ==> c !in Split(s, c)[k]
    decreases |s|
  {
    if c in s {
      var i := IndexOf(s, c);
      SplitPiecesFree(s[i + 1..], c);
      assert Split(s, c) == [s[..i]] + Split(s[i + 1..], c);
    }
  }

  /** `s.split(c)[0]`: the part of `s` before the first `c`, or all of `s`. */
  function Before(s: string, c: char): string
  {
    Split(s, c)[0]
  }

  /** `parts[k]` as a template literal prints it: "undefined" past the end. */
  function ElementOrUndefined(parts: seq<string>, k: nat): string
  {
    if k < |parts| then parts[k] else "undefined"
  }

  /** Cutting at the first `c` of `p + c + rest` keeps exactly `p`. */
  lemma BeforeFirst(p: string, c: char, rest: string)
    requires c !in p
    ensures Before(p + [c] + rest, c) == p
  {
    var s := p + [c] + rest;
    var b := Before(s, c);
    assert s[|p|] == c;
    assert forall k :: 0 <= k < |p| ==> s[k] == p[k];
    assert forall k :: 0 <= k < |b| ==> s[k] == b[k];
  }

  /** A string with exactly one separator splits into the two sides. */
  lemma SplitOneSeparator(l: string, c: char, d: string)
    requires c !in l && c !in d
    ensures Split(l + [c] + d, c) == [l, d]
  {
    var s := l + [c] + d;
    assert s[|l|] == c;
    var i := IndexOf(s, c);
    BeforeFirst(l, c, d);
    assert s[..i] == l;
    assert s[i + 1..] == d;
  }

  predicate IsDigit(ch: char)
  {
    '0' <= ch <= '9'
  }

  predicate AllDigits(s: string)
  {
    forall i :: 0 <= i < |s| ==> IsDigit(s[i])
  }

  function DigitChar(d: nat): (ch: char)
    requires d < 10
    ensures IsDigit(ch)
    ensures ch == '0' <==> d == 0
  {
    ('0' as int + d) as char
  }

  function DigitValue(ch: char): nat
  {
    if IsDigit(ch) then ch as int - '0' as int else 0
  }

  /** The decimal text of `n`, as `${n}` prints a non-negative integer. */
  function NatToString(n: nat): (s: string)
    ensures |s| > 0 && AllDigits(s)
  {
    if n < 10 then [DigitChar(n)] else NatToString(n / 10) + [DigitChar(n % 10)]
  }

  /** The text is canonical: it starts with `0` only when it is the single digit of `0`. */
  lemma {:induction false} NatToStringCanonical(n: nat)
    ensures |NatToString(n)| > 1 ==> NatToString(n)[0] != '0'
    ensures NatToString(n)[0] == '0' <==> n == 0
  {
    if n >= 10 {
      NatToStringCanonical(n / 10);
      assert NatToString(n)[0] == NatToString(n / 10)[0];
    }
  }

  /** Reads a string of decimal digits back as a number. */
  function ParseNat(s: string): nat
  {
    if s == [] then 0 else 10 * ParseNat(s[..|s| - 1]) + DigitValue(s[|s| - 1])
  }

  lemma {:induction false} ParseNatToString(n: nat)
    ensures ParseNat(NatToString(n)) == n
  {
    if n >= 10 {
      var s := NatToString(n);
      assert s[..|s| - 1] == NatToString(n / 10);
      ParseNatToString(n / 10);
    }
  }

  lemma NatToStringInjective(m: nat, n: nat)
    ensures NatToString(m) == NatToString(n) ==> m == n
  {
    ParseNatToString(m);
    ParseNatToString(n);
  }

  /** The longest suffix of `s` made of decimal digits. */
  function TrailingDigits(s: string): string
  {
    if s != [] && IsDigit(s[|s| - 1]) then TrailingDigits(s[..|s| - 1]) + [s[|s| - 1]] else []
  }

  lemma {:induction false} TrailingDigitsAfterUnderscore(a: string, d: string)
    requires AllDigits(d)
    ensures TrailingDigits(a + "_" + d) == d
    decreases |d|
  {
    var s := a + "_" + d;
    if d == [] {
      assert s[|s| - 1] == '_';
    } else {
      var d' := d[..|d| - 1];
      assert s[..|s| - 1] == a + "_" + d';
      TrailingDigitsAfterUnderscore(a, d');
      assert d == d' + [d[|d| - 1]];
    }
  }

  /** `${s}_${n}`: a field value carrying the uniqueness suffix `n`. */
  function Suffixed(s: string, n: nat): string
  {
    s + "_" + NatToString(n)
  }

  /**
   * A suffixed value determines both the field it came from and its suffix:
   * the suffix is the trailing run of digits, and there is an underscore
   * before it, so no two (field, n) pairs print the same text.
   */
  lemma SuffixedInjective(a: string, m: nat, b: string, n: nat)
    ensures Suffixed(a, m) == Suffixed(b, n) ==> a == b && m == n
  {
    if Suffixed(a, m) == Suffixed(b, n) {
      var x := Suffixed(a, m);
      TrailingDigitsAfterUnderscore(a, NatToString(m));
      TrailingDigitsAfterUnderscore(b, NatToString(n));
      NatToStringInjective(m, n);
      assert a == x[..|a|];
      assert b == x[..|b|];
    }
  }

  /** The number a suffixed value carries: its trailing digits, read as a number. */
  function SuffixNumber(s: string): nat
  {
    ParseNat(TrailingDigits(s))
  }

  /** The suffix `n` can be read back from `${s}_${n}`, whatever `s` ends with. */
  lemma SuffixNumberOfSuffixed(s: string, n: nat)
    ensures SuffixNumber(Suffixed(s, n)) == n
  {
    TrailingDigitsAfterUnderscore(s, NatToString(n));
    ParseNatToString(n);
  }

  /** A character that is neither a digit nor `_` is not added by the suffix. */
  lemma SuffixedAvoids(s: string, n: nat, c: char)
    requires c !in s && c != '_' && !IsDigit(c)
    ensures c !in Suffixed(s, n)
  {
    var d := NatToString(n);
    assert forall i :: 0 <= i < |d| ==> d[i] != c;
  }
}
