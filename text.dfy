/**
 * String operations the core relies on: ASCII lowercasing (`toLowerCase`), substring search
 * (`includes`), `split` on one separator character, `join`, and the decimal rendering of
 * integers that template literals perform.
 */
module Text {

  // ─── Lowercasing ───────────────────────────────────────────────────────────

  function LowerChar(c: char): char {
    if 'A' <= c <= 'Z' then (c as int + 32) as char else c
  }

  /** `toLowerCase`, restricted to ASCII letters. */
  function Lower(s: string): (r: string)
    ensures |r| == |s|
    ensures forall i :: 0 <= i < |s| ==> r[i] == LowerChar(s[i])
  {
    seq(|s|, i requires 0 <= i < |s| => LowerChar(s[i]))
  }

  lemma LowerAppend(a: string, b: string)
    ensures Lower(a + b) == Lower(a) + Lower(b)
  {
  }

  lemma LowerIdempotent(s: string)
    ensures Lower(Lower(s)) == Lower(s)
  {
  }

  // ─── Substring search ──────────────────────────────────────────────────────

  /** `s.includes(k)`: `k` occurs somewhere in `s` (the empty string occurs everywhere). */
  predicate Contains(s: string, k: string) {
    k <= s || (s != [] && Contains(s[1..], k))
  }

  /** `k` occurs in `s` starting at position `i`. */
  predicate OccursAt(s: string, k: string, i: int) {
    0 <= i && i + |k| <= |s| && s[i..i + |k|] == k
  }

  /** The recursive search agrees with the plain definition "k occurs at some position". */
  lemma {:induction false} ContainsIffOccurs(s: string, k: string)
    ensures Contains(s, k) <==> exists i :: OccursAt(s, k, i)
  {
    if k <= s {
      assert s[0..|k|] == k;
      assert OccursAt(s, k, 0);
    } else if s == [] {
      assert forall i :: !OccursAt(s, k, i);
    } else {
      ContainsIffOccurs(s[1..], k);
      if Contains(s[1..], k) {
        var i :| OccursAt(s[1..], k, i);
        assert s[1..][i..i + |k|] == s[i + 1..i + 1 + |k|];
        assert OccursAt(s, k, i + 1);
      } else {
        assert !OccursAt(s, k, 0);
        forall i | 0 < i && OccursAt(s, k, i) ensures OccursAt(s[1..], k, i - 1) {
          assert s[1..][i - 1..i - 1 + |k|] == s[i..i + |k|];
        }
      }
    }
  }

  /** Text that contains a keyword still contains it after more text is appended. */
  lemma {:induction false} ContainsAppendRight(a: string, b: string, k: string)
    requires Contains(a, k)
    ensures Contains(a + b, k)
  {
    if k <= a {
      assert k <= a + b by { assert (a + b)[..|k|] == a[..|k|]; }
    } else {
      assert a != [];
      ContainsAppendRight(a[1..], b, k);
      assert (a + b)[1..] == a[1..] + b;
    }
  }

  /** Text that contains a keyword still contains it after more text is prepended. */
  lemma {:induction false} ContainsAppendLeft(a: string, b: string, k: string)
    requires Contains(b, k)
    ensures Contains(a + b, k)
  {
    if a == [] {
      assert a + b == b;
    } else {
      ContainsAppendLeft(a[1..], b, k);
      assert (a + b)[1..] == a[1..] + b;
    }
  }

  /** A keyword whose first character does not occur in the text is not found in it. */
  lemma {:induction false} NotContainsFirstChar(s: string, k: string)
    requires k != [] && k[0] !in s
    ensures !Contains(s, k)
  {
    if s != [] {
      assert k[0] !in s[1..] by { assert forall i :: 0 <= i < |s[1..]| ==> s[1..][i] == s[i + 1]; }
      NotContainsFirstChar(s[1..], k);
    }
  }

  /** `keywords.some((kw) => s.includes(kw))`. */
  predicate ContainsAny(s: string, keywords: seq<string>) {
    exists i :: 0 <= i < |keywords| && Contains(s, keywords[i])
  }

  lemma ContainsAnyAppend(a: string, b: string, keywords: seq<string>)
    ensures ContainsAny(a, keywords) ==> ContainsAny(a + b, keywords)
    ensures ContainsAny(b, keywords) ==> ContainsAny(a + b, keywords)
  {
    if ContainsAny(a, keywords) {
      var i :| 0 <= i < |keywords| && Contains(a, keywords[i]);
      ContainsAppendRight(a, b, keywords[i]);
    }
    if ContainsAny(b, keywords) {
      var i :| 0 <= i < |keywords| && Contains(b, keywords[i]);
      ContainsAppendLeft(a, b, keywords[i]);
    }
  }

  // ─── Split and join ────────────────────────────────────────────────────────

  /** Number of occurrences of `c` in `s`. */
  function Count(s: string, c: char): nat {
    if s == [] then 0 else (if s[0] == c then 1 else 0) + Count(s[1..], c)
  }

  lemma {:induction false} CountZero(s: string, c: char)
    ensures Count(s, c) == 0 <==> c !in s
  {
    if s != [] {
      CountZero(s[1..], c);
      assert s == [s[0]] + s[1..];
    }
  }

  /** `s.split(c)`: the pieces between occurrences of `c`; `"".split(c)` is `[""]`. */
  function Split(s: string, c: char): (r: seq<string>)
    ensures |r| >= 1
  {
    if s == [] then [""]
    else
      var rest := Split(s[1..], c);
      if s[0] == c then [""] + rest else [[s[0]] + rest[0]] + rest[1..]
  }

  /** `parts.join(sep)`. */
  function Join(parts: seq<string>, sep: string): string {
    if parts == [] then "" else if |parts| == 1 then parts[0] else parts[0] + sep + Join(parts[1..], sep)
  }

  /** There is one more piece than there are separators. */
  lemma {:induction false} SplitCount(s: string, c: char)
    ensures |Split(s, c)| == Count(s, c) + 1
  {
    if s != [] { SplitCount(s[1..], c); }
  }

  /** No piece contains the separator. */
  lemma {:induction false} SplitPiecesFree(s: string, c: char)
    ensures forall i :: 0 <= i < |Split(s, c)| ==> c !in Split(s, c)[i]
  {
    if s != [] { SplitPiecesFree(s[1..], c); }
  }

  /** Joining the pieces with the separator gives back the original string. */
  lemma {:induction false} JoinSplit(s: string, c: char)
    ensures Join(Split(s, c), [c]) == s
  {
    if s != [] {
      var rest := Split(s[1..], c);
      JoinSplit(s[1..], c);
      if s[0] == c {
        assert Split(s, c) == [""] + rest;
        assert s == [c] + s[1..];
      } else {
        var r := [[s[0]] + rest[0]] + rest[1..];
        assert Split(s, c) == r;
        if |rest| == 1 {
          assert s == [s[0]] + rest[0];
        } else {
          assert Join(rest, [c]) == rest[0] + [c] + Join(rest[1..], [c]);
          assert r[1..] == rest[1..];
          assert s == [s[0]] + s[1..];
        }
      }
    }
  }

  /** A string without the separator splits into itself. */
  lemma {:induction false} SplitFree(a: string, c: char)
    requires c !in a
    ensures Split(a, c) == [a]
  {
    if a != [] {
      assert a[1..] == a[1..];
      assert c !in a[1..] by { assert forall i :: 0 <= i < |a[1..]| ==> a[1..][i] == a[i + 1]; }
      SplitFree(a[1..], c);
      assert a == [a[0]] + a[1..];
    }
  }

  /** A separator-free prefix followed by the separator is the first piece. */
  lemma {:induction false} SplitConcat(a: string, b: string, c: char)
    requires c !in a
    ensures Split(a + [c] + b, c) == [a] + Split(b, c)
  {
    if a == [] {
      assert a + [c] + b == [c] + b;
      assert ([c] + b)[1..] == b;
    } else {
      assert (a + [c] + b)[1..] == a[1..] + [c] + b;
      assert c !in a[1..] by { assert forall i :: 0 <= i < |a[1..]| ==> a[1..][i] == a[i + 1]; }
      SplitConcat(a[1..], b, c);
      assert [a[0]] + a[1..] == a;
    }
  }

  /** The first piece is the text before the first separator. */
  lemma {:induction false} SplitFirstPiece(s: string, c: char)
    requires c in s
    ensures Split(s, c)[0] + [c] <= s
    ensures c !in Split(s, c)[0]
  {
    SplitPiecesFree(s, c);
    if s[0] != c {
      assert c in s[1..] by {
        var i :| 0 <= i < |s| && s[i] == c;
        assert s[1..][i - 1] == c;
      }
      SplitFirstPiece(s[1..], c);
    }
  }

  // ─── Numbers as text ───────────────────────────────────────────────────────

  function DigitChar(d: nat): char
    requires d < 10
  {
    ('0' as int + d) as char
  }

  predicate IsDigit(c: char) {
    '0' <= c <= '9'
  }

  /** Decimal rendering of a natural number, as template literals print it. */
  function NatToString(n: nat): (r: string)
    ensures r != []
    ensures forall i :: 0 <= i < |r| ==> IsDigit(r[i])
    ensures (n < 10) == (|r| == 1)
  {
    if n < 10 then [DigitChar(n)] else NatToString(n / 10) + [DigitChar(n % 10)]
  }

  /** Decimal rendering of an integer, with a leading minus sign when negative. */
  function IntToString(n: int): (r: string)
    ensures r != []
  {
    if n < 0 then "-" + NatToString(-n) else NatToString(n)
  }

  /** Different numbers are printed differently. */
  lemma {:induction false} NatToStringDistinct(m: nat, n: nat)
    requires m != n
    ensures NatToString(m) != NatToString(n)
  {
    var sm, sn := NatToString(m), NatToString(n);
    if m < 10 && n < 10 {
      assert sm[0] == DigitChar(m) && sn[0] == DigitChar(n);
    } else if m >= 10 && n >= 10 {
      assert sm[..|sm| - 1] == NatToString(m / 10) && sm[|sm| - 1] == DigitChar(m % 10);
      assert sn[..|sn| - 1] == NatToString(n / 10) && sn[|sn| - 1] == DigitChar(n % 10);
      if m / 10 != n / 10 {
        NatToStringDistinct(m / 10, n / 10);
      } else {
        assert m % 10 != n % 10;
      }
    }
  }

  predicate AllDigits(s: string) {
    forall i :: 0 <= i < |s| ==> IsDigit(s[i])
  }

  /** Length of the leading run of digits. */
  function DigitRun(s: string): (n: nat)
    ensures n <= |s|
  {
    if s == [] || !IsDigit(s[0]) then 0 else 1 + DigitRun(s[1..])
  }

  /** A digit string followed by a non-digit: the digit run is exactly that string. */
  lemma {:induction false} DigitRunOf(x: string, rest: string)
    requires AllDigits(x) && rest != [] && !IsDigit(rest[0])
    ensures DigitRun(x + rest) == |x|
  {
    if x == [] {
      assert x + rest == rest;
    } else {
      assert (x + rest)[1..] == x[1..] + rest;
      assert AllDigits(x[1..]) by { assert forall i :: 0 <= i < |x[1..]| ==> x[1..][i] == x[i + 1]; }
      DigitRunOf(x[1..], rest);
    }
  }

  /**
   * Reading back a prefix, a number, a separator that is not a digit and a second number (ids
   * such as `evidence-3-1`): after the prefix, the digit run is the first number and what
   * follows the separator is the second.
   */
  lemma NumberPairParts(prefix: string, sep: char, a: nat, b: nat)
    requires !IsDigit(sep)
    ensures var t := (prefix + NatToString(a) + [sep] + NatToString(b))[|prefix|..];
      var k := DigitRun(t);
      k < |t| && t[..k] == NatToString(a) && t[k + 1..] == NatToString(b)
  {
    var sa, sb := NatToString(a), NatToString(b);
    var t := (prefix + sa + [sep] + sb)[|prefix|..];
    assert t == sa + ([sep] + sb);
    assert AllDigits(sa);
    DigitRunOf(sa, [sep] + sb);
    assert t[..|sa|] == sa && t[|sa| + 1..] == sb;
  }

  /** Such ids for different number pairs are different. */
  lemma NumberPairDistinct(prefix: string, sep: char, a: nat, b: nat, c: nat, d: nat)
    requires !IsDigit(sep) && (a != c || b != d)
    ensures prefix + NatToString(a) + [sep] + NatToString(b) != prefix + NatToString(c) + [sep] + NatToString(d)
  {
    NumberPairParts(prefix, sep, a, b);
    NumberPairParts(prefix, sep, c, d);
    if a != c {
      NatToStringDistinct(a, c);
    } else {
      NatToStringDistinct(b, d);
    }
  }

  /** A fixed prefix followed by different numbers gives different ids (ids such as `unknown-4`). */
  lemma NumberSuffixDistinct(prefix: string, a: nat, b: nat)
    requires a != b
    ensures prefix + NatToString(a) != prefix + NatToString(b)
  {
    NatToStringDistinct(a, b);
    assert (prefix + NatToString(a))[|prefix|..] == NatToString(a);
    assert (prefix + NatToString(b))[|prefix|..] == NatToString(b);
  }
}
