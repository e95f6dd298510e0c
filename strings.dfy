/** The few JavaScript string operations the core relies on, over `seq<char>`. */
module Strings {

  predicate IsDigit(c: char) {
    '0' <= c <= '9'
  }

  predicate AllDigits(s: string) {
    forall i :: 0 <= i < |s| ==> IsDigit(s[i])
  }

  /** `s.startsWith(p)` */
  predicate StartsWith(s: string, p: string) {
    |p| <= |s| && s[..|p|] == p
  }

  /** `s.includes(t)`: t occurs somewhere in s as a contiguous block. */
  predicate Contains(s: string, t: string)
    decreases |s|
  {
    StartsWith(s, t) || (s != [] && Contains(s[1..], t))
  }

  /** A block that occurs at position k is found by `includes`. */
  lemma {:induction false} ContainsAt(s: string, t: string, k: nat)
    requires k + |t| <= |s| && s[k..k + |t|] == t
    ensures Contains(s, t)
    decreases k
  {
    if k > 0 {
      assert s[1..][k - 1..k - 1 + |t|] == s[k..k + |t|];
      ContainsAt(s[1..], t, k - 1);
    } else {
      assert s[..|t|] == t;
    }
  }

  /** Nothing longer than s occurs in it. */
  lemma {:induction false} ContainsLonger(s: string, t: string)
    requires |t| > |s|
    ensures !Contains(s, t)
    decreases |s|
  {
    if s != [] {
      ContainsLonger(s[1..], t);
    }
  }

  /** Whatever contains `p + q` also contains its prefix `p`. */
  lemma {:induction false} ContainsPrefix(s: string, p: string, q: string)
    requires Contains(s, p + q)
    ensures Contains(s, p)
    decreases |s|
  {
    if StartsWith(s, p + q) {
      assert s[..|p|] == (p + q)[..|p|] == p;
    } else {
      ContainsPrefix(s[1..], p, q);
    }
  }

  /** `s.indexOf(c)`: the first position of c in s, or -1. */
  function IndexOf(s: string, c: char): (r: int)
    ensures -1 <= r < |s|
    ensures r == -1 <==> c !in s
    ensures r >= 0 ==> s[r] == c && c !in s[..r]
    decreases |s|
  {
    if s == [] then -1
    else if s[0] == c then 0
    else
      var k := IndexOf(s[1..], c);
      if k < 0 then -1 else k + 1
  }

  /** The index of the first c is determined by any position holding c with no c before it. */
  lemma IndexOfAt(s: string, c: char, k: nat)
    requires k < |s| && s[k] == c && c !in s[..k]
    ensures IndexOf(s, c) == k
  {
    assert s[k] == c;
  }

  /** `s.replace(/c/g, "")`: every occurrence of c removed. */
  function DropChar(s: string, c: char): string
    decreases |s|
  {
    if s == [] then []
    else (if s[0] == c then [] else [s[0]]) + DropChar(s[1..], c)
  }

  /** Nothing of c is left, and the text does not grow. */
  lemma {:induction false} DropCharRemoves(s: string, c: char)
    ensures c !in DropChar(s, c)
    ensures |DropChar(s, c)| <= |s|
    decreases |s|
  {
    if s != [] {
      DropCharRemoves(s[1..], c);
    }
  }

  lemma DropCharCons(x: char, t: string, c: char)
    ensures DropChar([x] + t, c) == (if x == c then [] else [x]) + DropChar(t, c)
  {
    assert ([x] + t)[1..] == t;
  }

  lemma {:induction false} DropCharAppend(a: string, b: string, c: char)
    ensures DropChar(a + b, c) == DropChar(a, c) + DropChar(b, c)
    decreases |a|
  {
    if a != [] {
      assert (a + b)[1..] == a[1..] + b;
      DropCharAppend(a[1..], b, c);
    } else {
      assert a + b == b;
    }
  }

  lemma {:induction false} DropAbsentChar(s: string, c: char)
    requires c !in s
    ensures DropChar(s, c) == s
    decreases |s|
  {
    if s != [] {
      DropAbsentChar(s[1..], c);
    }
  }

  /** `s.substring(0, n)` for n >= 0. */
  function Take(s: string, n: nat): (r: string)
    ensures |r| == if |s| <= n then |s| else n
    ensures r == s[..|r|]
  {
    if |s| <= n then s else s[..n]
  }

  /** `s.split(sep)`: the pieces between separators, at least one. */
  function Split(s: string, sep: char): (parts: seq<string>)
    ensures |parts| >= 1
    decreases |s|
  {
    var i := IndexOf(s, sep);
    if i < 0 then [s] else [s[..i]] + Split(s[i + 1..], sep)
  }

  /** `parts.join(sep)` */
  function Join(parts: seq<string>, sep: char): string
    requires |parts| >= 1
    decreases |parts|
  {
    if |parts| == 1 then parts[0] else parts[0] + [sep] + Join(parts[1..], sep)
  }

  lemma JoinCons(a: string, rest: seq<string>, sep: char)
    requires |rest| >= 1
    ensures Join([a] + rest, sep) == a + [sep] + Join(rest, sep)
  {
    assert ([a] + rest)[1..] == rest;
  }

  /** Splitting at the first separator. */
  lemma SplitAtFirst(s: string, sep: char, i: int)
    requires i == IndexOf(s, sep) && i >= 0
    ensures Split(s, sep) == [s[..i]] + Split(s[i + 1..], sep)
  {
    var p, r := s[..i], Split(s[i + 1..], sep);
    assert Split(s, sep) == [p] + r;
  }

  /** Splitting loses nothing: joining the pieces gives s back. */
  lemma {:induction false} SplitJoin(s: string, sep: char)
    ensures Join(Split(s, sep), sep) == s
    decreases |s|
  {
    var i := IndexOf(s, sep);
    if i >= 0 {
      var a, b := s[..i], s[i + 1..];
      var rest := Split(b, sep);
      SplitAtFirst(s, sep, i);
      SplitJoin(b, sep);
      JoinCons(a, rest, sep);
      assert Join(Split(s, sep), sep) == a + [sep] + b;
      assert a + [sep] + b == s;
    } else {
      assert Split(s, sep) == [s];
    }
  }

  /** No piece of a split holds the separator. */
  lemma {:induction false} SplitPiecesClean(s: string, sep: char)
    ensures forall k :: 0 <= k < |Split(s, sep)| ==> sep !in Split(s, sep)[k]
    decreases |s|
  {
    var i := IndexOf(s, sep);
    if i >= 0 {
      var rest := Split(s[i + 1..], sep);
      SplitAtFirst(s, sep, i);
      SplitPiecesClean(s[i + 1..], sep);
      var parts := Split(s, sep);
      forall k | 0 <= k < |parts| ensures sep !in parts[k] {
        if k > 0 {
          assert parts[k] == rest[k - 1];
        }
      }
    }
  }

  /** A piece free of the separator, then the separator: the piece comes off first. */
  lemma SplitCons(a: string, b: string, sep: char)
    requires sep !in a
    ensures Split(a + [sep] + b, sep) == [a] + Split(b, sep)
  {
    var s := a + [sep] + b;
    assert s[..|a|] == a;
    IndexOfAt(s, sep, |a|);
    assert s[|a| + 1..] == b;
  }

  /** Text without the separator is one piece. */
  lemma SplitNone(s: string, sep: char)
    requires sep !in s
    ensures Split(s, sep) == [s]
  {
  }

  /** A string with exactly one separator splits into the text on either side of it. */
  lemma SplitOnce(a: string, b: string, sep: char)
    requires sep !in a && sep !in b
    ensures Split(a + [sep] + b, sep) == [a, b]
  {
    var s := a + [sep] + b;
    assert s[..|a|] == a;
    IndexOfAt(s, sep, |a|);
    assert s[|a| + 1..] == b;
  }

  // ---------------------------------------------------------------------------
  // Numbers as text

  function DigitChar(d: nat): (c: char)
    requires d < 10
    ensures IsDigit(c)
  {
    "0123456789"[d]
  }

  function DigitValue(c: char): nat
    requires IsDigit(c)
  {
    (c as int - '0' as int) as nat
  }

  /** Decimal digits of n, most significant first, with no leading zero. */
  function NatToString(n: nat): (s: string)
    ensures |s| >= 1 && AllDigits(s)
    ensures s[0] == '0' ==> n == 0 && s == "0"
    decreases n
  {
    if n < 10 then [DigitChar(n)] else NatToString(n / 10) + [DigitChar(n % 10)]
  }

  /** `n.toString()` for an integer n. */
  function IntToString(n: int): string {
    if n < 0 then "-" + NatToString(-n) else NatToString(n)
  }

  /** The number a run of decimal digits stands for. */
  function ParseDigits(s: string): nat
    requires AllDigits(s)
    decreases |s|
  {
    if s == [] then 0 else ParseDigits(s[..|s| - 1]) * 10 + DigitValue(s[|s| - 1])
  }

  /** Reading the digits back gives the number. */
  lemma {:induction false} NatToStringRoundTrip(n: nat)
    ensures ParseDigits(NatToString(n)) == n
    decreases n
  {
    var s := NatToString(n);
    if n >= 10 {
      NatToStringRoundTrip(n / 10);
      assert s[..|s| - 1] == NatToString(n / 10);
    }
    assert DigitValue(DigitChar(n % 10)) == n % 10 by {
      var d := n % 10;
      assert d == 0 || d == 1 || d == 2 || d == 3 || d == 4 || d == 5 || d == 6 || d == 7 || d == 8 || d == 9;
    }
  }

  /** The integer a possibly signed run of digits stands for. */
  function ParseInt(s: string): int
    requires s != [] && (AllDigits(s) || (s[0] == '-' && AllDigits(s[1..])))
  {
    if s[0] == '-' then 0 - ParseDigits(s[1..]) as int else ParseDigits(s)
  }

  /** Reading an integer's text back gives the integer, so no two integers share a text. */
  lemma IntToStringRoundTrip(n: int)
    ensures var s := IntToString(n);
      s != [] && (AllDigits(s) || (s[0] == '-' && AllDigits(s[1..]))) && ParseInt(s) == n
  {
    if n < 0 {
      NegativeRoundTrip(-n);
      assert IntToString(n) == "-" + NatToString(-n);
    } else {
      var s := NatToString(n);
      assert IsDigit(s[0]);
      NatToStringRoundTrip(n);
    }
  }

  lemma NegativeRoundTrip(m: nat)
    requires m > 0
    ensures var s := "-" + NatToString(m);
      s[0] == '-' && AllDigits(s[1..]) && ParseInt(s) == -(m as int)
  {
    var t := NatToString(m);
    var s := "-" + t;
    assert s[1..] == t;
    NatToStringRoundTrip(m);
  }
}
