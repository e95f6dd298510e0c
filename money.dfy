/** `formatMoney` (lib/utils.ts): normalises free text typed into an amount field. */
module Money {
  import opened Strings

  /** `replace(/[^0-9.]/g, "")`: keeps digits and dots, in order. */
  function KeepMoneyChars(s: string): string
    decreases |s|
  {
    if s == [] then []
    else (if IsDigit(s[0]) || s[0] == '.' then [s[0]] else []) + KeepMoneyChars(s[1..])
  }

  /**
   * `replace(/\B(?=(\d{3})+(?!\d))/g, ",")` applied to a run of digits, read position by
   * position: a comma goes before a digit that is not the first one (`\B`) and that is
   * followed, up to the end of the run, by a positive multiple of three digits. `lead`
   * tells whether `d` starts at the beginning of the run.
   */
  function Separate(d: string, lead: bool): string
    decreases |d|
  {
    if d == [] then []
    else (if !lead && |d| % 3 == 0 then "," else "") + [d[0]] + Separate(d[1..], false)
  }

  /** The integer part with its thousands separators. */
  function GroupThousands(d: string): string {
    Separate(d, true)
  }

  /** lib/utils.ts:12-21: keep the first dot and at most two digits after it (later dots
      dropped), or append ".00" when there is no dot. */
  function NormaliseDecimal(cleanValue: string): string {
    var decimalIndex := IndexOf(cleanValue, '.');
    if decimalIndex != -1 then
      var beforeDecimal := cleanValue[..decimalIndex];
      var afterDecimal := DropChar(cleanValue[decimalIndex + 1..], '.');
      beforeDecimal + "." + Take(afterDecimal, 2)
    else
      cleanValue + ".00"
  }

  /** lib/utils.ts:23-33: rebuild the amount from the pieces around the dot. */
  function Assemble(parts: seq<string>): string
    requires |parts| >= 1
  {
    var integerPart := if parts[0] == "" then "0" else parts[0];
    var decimalPart0 := if |parts| > 1 && parts[1] != "" then parts[1] else "00";
    var decimalPart := if |decimalPart0| == 1 then decimalPart0 + "0" else decimalPart0;
    GroupThousands(integerPart) + "." + decimalPart
  }

  function FormatMoney(inputValue: string): string {
    if inputValue == "" then ""
    else Assemble(Split(NormaliseDecimal(KeepMoneyChars(inputValue)), '.'))
  }

  // ---------------------------------------------------------------------------
  // Reference definitions the properties are stated with

  /** Grouping by threes from the right, the usual reading of a thousands separator. */
  function GroupByThree(d: string): string
    decreases |d|
  {
    if |d| <= 3 then d else GroupByThree(d[..|d| - 3]) + "," + d[|d| - 3..]
  }

  /**
   * A well-grouped integer: only digits and commas, a leading group of one to three digits,
   * and a comma exactly at every fourth position counted from the end (so each comma is
   * followed by exactly three digits and then a comma or the end).
   */
  predicate WellGrouped(s: string) {
    && s != []
    && |s| % 4 != 0
    && (forall i :: 0 <= i < |s| ==> (s[i] == ',' <==> 0 < i && (|s| - i) % 4 == 0))
    && (forall i :: 0 <= i < |s| ==> s[i] == ',' || IsDigit(s[i]))
  }

  /** The longest prefix without a dot. */
  function BeforeFirstDot(s: string): string
    decreases |s|
  {
    if s == [] || s[0] == '.' then [] else [s[0]] + BeforeFirstDot(s[1..])
  }

  /** Everything after the first dot; empty when there is none. */
  function AfterFirstDot(s: string): string
    decreases |s|
  {
    if s == [] then [] else if s[0] == '.' then s[1..] else AfterFirstDot(s[1..])
  }

  /** The integer digits of a cleaned value: those before its first dot, or "0". */
  function IntegerOf(c: string): string {
    var b := BeforeFirstDot(c);
    if b == [] then "0" else b
  }

  /** The two fraction digits of a cleaned value: the first two digits after its first dot
      (later dots ignored), right-padded with zeros. */
  function FractionOf(c: string): string {
    var f := Take(DropChar(AfterFirstDot(c), '.'), 2);
    f + seq(2 - |f|, _ => '0')
  }

  /** The digits the integer part of the result is made of. */
  function ExpectedInteger(inputValue: string): string {
    IntegerOf(KeepMoneyChars(inputValue))
  }

  /** The two fraction digits of the result. */
  function ExpectedFraction(inputValue: string): string {
    FractionOf(KeepMoneyChars(inputValue))
  }

  // ---------------------------------------------------------------------------
  // Lemmas about the pieces

  predicate MoneyChars(s: string) {
    forall i :: 0 <= i < |s| ==> IsDigit(s[i]) || s[i] == '.'
  }

  /** Cleaning leaves only digits and dots. */
  lemma {:induction false} KeepMoneyCharsAlphabet(s: string)
    ensures MoneyChars(KeepMoneyChars(s))
    decreases |s|
  {
    if s != [] {
      KeepMoneyCharsAlphabet(s[1..]);
      var r := KeepMoneyChars(s[1..]);
      var h := if IsDigit(s[0]) || s[0] == '.' then [s[0]] else [];
      assert KeepMoneyChars(s) == h + r;
      assert forall i :: 0 <= i < |r| ==> (h + r)[|h| + i] == r[i];
    }
  }

  lemma {:induction false} KeepMoneyCharsAppend(a: string, b: string)
    ensures KeepMoneyChars(a + b) == KeepMoneyChars(a) + KeepMoneyChars(b)
    decreases |a|
  {
    if a != [] {
      assert (a + b)[1..] == a[1..] + b;
      KeepMoneyCharsAppend(a[1..], b);
    } else {
      assert a + b == b;
    }
  }

  lemma {:induction false} KeepMoneyCharsKeeps(s: string)
    requires MoneyChars(s)
    ensures KeepMoneyChars(s) == s
    decreases |s|
  {
    if s != [] {
      KeepMoneyCharsKeeps(s[1..]);
    }
  }

  lemma {:induction false} BeforeAfterFirstDot(s: string)
    ensures IndexOf(s, '.') >= 0 ==>
      BeforeFirstDot(s) == s[..IndexOf(s, '.')] && AfterFirstDot(s) == s[IndexOf(s, '.') + 1..]
    ensures IndexOf(s, '.') < 0 ==> BeforeFirstDot(s) == s && AfterFirstDot(s) == []
    decreases |s|
  {
    if s != [] && s[0] != '.' {
      BeforeAfterFirstDot(s[1..]);
      var k := IndexOf(s[1..], '.');
      if k >= 0 {
        IndexOfAt(s, '.', k + 1);
        assert s[..k + 1] == [s[0]] + s[1..][..k];
      }
    }
  }

  /** Commas placed at the end of a run depend only on how far they are from the end:
      a suffix whose length is a multiple of three can be separated on its own. */
  lemma {:induction false} SeparateAppend(a: string, b: string, lead: bool)
    requires |b| % 3 == 0
    ensures Separate(a + b, lead) == Separate(a, lead) + Separate(b, lead && a == [])
    decreases |a|
  {
    if a != [] {
      assert (a + b)[1..] == a[1..] + b;
      assert (a + b)[0] == a[0];
      assert |a + b| % 3 == |a| % 3;
      SeparateAppend(a[1..], b, false);
      assert Separate(a + b, lead) == (if !lead && |a| % 3 == 0 then "," else "") + [a[0]] + Separate(a[1..] + b, false);
    } else {
      assert a + b == b;
    }
  }

  lemma SeparateShort(d: string, lead: bool)
    requires |d| < 3 || (|d| == 3 && lead)
    ensures Separate(d, lead) == d
  {
    if d != [] {
      if |d[1..]| > 0 {
        if |d[1..][1..]| > 0 {
          assert d == [d[0]] + [d[1]] + [d[2]];
        }
      }
    }
  }

  /** The position-by-position reading of the regular expression is grouping by threes. */
  lemma {:induction false} SeparateIsGroupByThree(d: string)
    ensures GroupThousands(d) == GroupByThree(d)
    decreases |d|
  {
    if |d| <= 3 {
      SeparateShort(d, true);
    } else {
      var p, t := d[..|d| - 3], d[|d| - 3..];
      assert d == p + t;
      SeparateAppend(p, t, true);
      SeparateIsGroupByThree(p);
      assert Separate(t, false) == "," + [t[0]] + Separate(t[1..], false);
      SeparateShort(t[1..], false);
      assert [t[0]] + t[1..] == t;
    }
  }

  /** Past three digits, the last three form a group of their own. */
  lemma GroupByThreeStep(d: string)
    requires |d| > 3
    ensures GroupByThree(d) == GroupByThree(d[..|d| - 3]) + ([','] + d[|d| - 3..])
  {
  }

  /** One more group of three digits keeps an integer well grouped. */
  lemma WellGroupedExtend(g: string, t: string)
    requires WellGrouped(g) && |t| == 3 && AllDigits(t)
    ensures WellGrouped(g + "," + t)
  {
    var s := g + "," + t;
    assert |s| == |g| + 4;
    forall i | 0 <= i < |s|
      ensures (s[i] == ',' <==> 0 < i && (|s| - i) % 4 == 0)
      ensures s[i] == ',' || IsDigit(s[i])
    {
      if i < |g| {
        assert s[i] == g[i];
        assert (|s| - i) % 4 == (|g| - i) % 4;
      } else if i == |g| {
        assert s[i] == ',';
      } else {
        assert s[i] == t[i - |g| - 1];
      }
    }
  }

  /** Grouping by threes yields a well-grouped integer. */
  lemma {:induction false} GroupByThreeWellGrouped(d: string)
    requires d != [] && AllDigits(d)
    ensures WellGrouped(GroupByThree(d))
    decreases |d|
  {
    if |d| > 3 {
      var p, t := d[..|d| - 3], d[|d| - 3..];
      assert AllDigits(p) && AllDigits(t);
      GroupByThreeWellGrouped(p);
      WellGroupedExtend(GroupByThree(p), t);
    }
  }

  /** Removing the commas from a grouped integer gives its digits back. */
  lemma {:induction false} GroupByThreeDropCommas(d: string)
    requires AllDigits(d)
    ensures DropChar(GroupByThree(d), ',') == d
    decreases |d|
  {
    if |d| <= 3 {
      DropAbsentChar(d, ',');
    } else {
      var p, t := d[..|d| - 3], d[|d| - 3..];
      GroupByThreeDropCommas(p);
      var g := GroupByThree(p);
      GroupByThreeStep(d);
      assert ',' !in t;
      DropCommaThenDigits(g, t);
      assert d == p + t;
    }
  }

  lemma DropCommaThenDigits(g: string, t: string)
    requires ',' !in t
    ensures DropChar(g + ([','] + t), ',') == DropChar(g, ',') + t
  {
    DropAbsentChar(t, ',');
    DropCharAppend(g, [','] + t, ',');
    DropCharCons(',', t, ',');
  }

  lemma KeepMoneyCharsCons(x: char, t: string)
    ensures KeepMoneyChars([x] + t) == (if IsDigit(x) || x == '.' then [x] else []) + KeepMoneyChars(t)
  {
    assert ([x] + t)[1..] == t;
  }

  lemma KeepCommaThenDigits(g: string, t: string)
    requires AllDigits(t)
    ensures KeepMoneyChars(g + ([','] + t)) == KeepMoneyChars(g) + t
  {
    KeepMoneyCharsKeeps(t);
    KeepMoneyCharsAppend(g, [','] + t);
    KeepMoneyCharsCons(',', t);
    assert !IsDigit(',');
    assert KeepMoneyChars([','] + t) == t;
  }

  /** Cleaning a grouped integer also drops just the commas; it holds no dot. */
  lemma {:induction false} GroupByThreeClean(d: string)
    requires AllDigits(d)
    ensures KeepMoneyChars(GroupByThree(d)) == d
    ensures '.' !in GroupByThree(d)
    decreases |d|
  {
    if |d| <= 3 {
      KeepMoneyCharsKeeps(d);
    } else {
      var p, t := d[..|d| - 3], d[|d| - 3..];
      GroupByThreeClean(p);
      var g := GroupByThree(p);
      GroupByThreeStep(d);
      assert AllDigits(t);
      KeepCommaThenDigits(g, t);
      assert d == p + t;
    }
  }

  // ---------------------------------------------------------------------------
  // Properties of formatMoney

  /** An empty input is returned as it is; every other input gives a non-empty amount. */
  lemma FormatMoneyEmpty(inputValue: string)
    ensures FormatMoney(inputValue) == "" <==> inputValue == ""
  {
    if inputValue != "" {
      var parts := Split(NormaliseDecimal(KeepMoneyChars(inputValue)), '.');
      var r := Assemble(parts);
      assert r == FormatMoney(inputValue);
      assert |r| > 0;
    }
  }

  /** The normalised text splits into the digits before the first dot and at most two
      fraction digits. */
  lemma {:induction false} BeforeFirstDotDigits(c: string)
    requires MoneyChars(c)
    ensures AllDigits(BeforeFirstDot(c)) && '.' !in BeforeFirstDot(c)
    decreases |c|
  {
    if c != [] && c[0] != '.' {
      BeforeFirstDotDigits(c[1..]);
    }
  }

  lemma {:induction false} AfterFirstDotChars(c: string)
    requires MoneyChars(c)
    ensures MoneyChars(AfterFirstDot(c))
    decreases |c|
  {
    if c != [] && c[0] != '.' {
      AfterFirstDotChars(c[1..]);
    }
  }

  lemma {:induction false} DropDotsDigits(s: string)
    requires MoneyChars(s)
    ensures AllDigits(DropChar(s, '.'))
    decreases |s|
  {
    if s != [] {
      DropDotsDigits(s[1..]);
      DropCharCons(s[0], s[1..], '.');
      assert s == [s[0]] + s[1..];
    }
  }

  /** The fraction digits taken from a cleaned value: at most two digits, no dot. */
  lemma FractionDigitsShape(c: string)
    requires MoneyChars(c)
    ensures var f := Take(DropChar(AfterFirstDot(c), '.'), 2);
      |f| <= 2 && AllDigits(f) && '.' !in f
  {
    AfterFirstDotChars(c);
    DropDotsDigits(AfterFirstDot(c));
  }

  lemma NormaliseWithDot(c: string)
    requires MoneyChars(c) && '.' in c
    ensures NormaliseDecimal(c) == BeforeFirstDot(c) + ['.'] + Take(DropChar(AfterFirstDot(c), '.'), 2)
  {
    BeforeAfterFirstDot(c);
  }

  lemma NormaliseWithoutDot(c: string)
    requires '.' !in c
    ensures NormaliseDecimal(c) == c + ['.'] + "00"
  {
  }

  lemma NormaliseDecimalSplit(c: string)
    requires MoneyChars(c)
    ensures var f := Take(DropChar(AfterFirstDot(c), '.'), 2);
      Split(NormaliseDecimal(c), '.') == [BeforeFirstDot(c), if '.' in c then f else "00"]
  {
    BeforeFirstDotDigits(c);
    FractionDigitsShape(c);
    if '.' in c {
      NormaliseWithDot(c);
      SplitOnce(BeforeFirstDot(c), Take(DropChar(AfterFirstDot(c), '.'), 2), '.');
    } else {
      BeforeAfterFirstDot(c);
      NormaliseWithoutDot(c);
      SplitOnce(c, "00", '.');
    }
  }

  lemma AssemblePair(b: string, f: string)
    requires |f| <= 2
    ensures Assemble([b, f]) ==
      GroupByThree(if b == [] then "0" else b) + "." + (if f == "" then "00" else f + seq(2 - |f|, _ => '0'))
    ensures f == "" ==> "00" == f + seq(2 - |f|, _ => '0')
  {
    SeparateIsGroupByThree(if b == [] then "0" else b);
    if |f| == 1 {
      assert f + "0" == f + seq(1, _ => '0');
    } else if |f| == 2 {
      assert f + seq(0, _ => '0') == f;
    } else {
      assert "00" == seq(2, _ => '0');
    }
  }

  lemma AssembleWithDot(c: string)
    requires MoneyChars(c) && '.' in c
    ensures Assemble(Split(NormaliseDecimal(c), '.')) == GroupByThree(IntegerOf(c)) + "." + FractionOf(c)
  {
    NormaliseDecimalSplit(c);
    FractionDigitsShape(c);
    AssemblePair(BeforeFirstDot(c), Take(DropChar(AfterFirstDot(c), '.'), 2));
  }

  lemma FractionOfNoDot(c: string)
    requires AfterFirstDot(c) == []
    ensures FractionOf(c) == "00"
  {
    assert DropChar([], '.') == [];
    assert Take([], 2) == [];
    assert seq(2, _ => '0') == "00";
  }

  lemma AssembleWhole(b: string)
    ensures Assemble([b, "00"]) == GroupByThree(if b == [] then "0" else b) + "." + "00"
  {
    SeparateIsGroupByThree(if b == [] then "0" else b);
  }

  lemma AssembleWithoutDot(c: string)
    requires MoneyChars(c) && '.' !in c
    ensures Assemble(Split(NormaliseDecimal(c), '.')) == GroupByThree(IntegerOf(c)) + "." + FractionOf(c)
  {
    NormaliseDecimalSplit(c);
    BeforeAfterFirstDot(c);
    FractionOfNoDot(c);
    AssembleWhole(BeforeFirstDot(c));
  }

  /** The formatted pieces of a cleaned value. */
  lemma AssembleClean(c: string)
    requires MoneyChars(c)
    ensures Assemble(Split(NormaliseDecimal(c), '.')) == GroupByThree(IntegerOf(c)) + "." + FractionOf(c)
  {
    if '.' in c {
      AssembleWithDot(c);
    } else {
      AssembleWithoutDot(c);
    }
  }

  /** A non-empty input becomes its grouped integer digits (or "0"), one dot, and exactly
      two fraction digits. */
  lemma FormatMoneyParts(inputValue: string)
    requires inputValue != ""
    ensures FormatMoney(inputValue) == GroupByThree(ExpectedInteger(inputValue)) + "." + ExpectedFraction(inputValue)
  {
    KeepMoneyCharsAlphabet(inputValue);
    AssembleClean(KeepMoneyChars(inputValue));
  }

  lemma ExpectedPartsDigits(inputValue: string)
    ensures ExpectedInteger(inputValue) != [] && AllDigits(ExpectedInteger(inputValue))
    ensures |ExpectedFraction(inputValue)| == 2 && AllDigits(ExpectedFraction(inputValue))
  {
    var c := KeepMoneyChars(inputValue);
    KeepMoneyCharsAlphabet(inputValue);
    BeforeFirstDotDigits(c);
    FractionDigitsShape(c);
  }

  /** The pieces of an amount, grouped integer digits, a dot and two fraction digits,
      can be read back off it. */
  lemma AmountShape(ip: string, fp: string)
    requires ip != [] && AllDigits(ip) && |fp| == 2 && AllDigits(fp)
    ensures var r := GroupByThree(ip) + "." + fp; var k := IndexOf(r, '.');
      && k == |GroupByThree(ip)|
      && '.' !in r[k + 1..]
      && r[k + 1..] == fp
      && WellGrouped(r[..k])
      && DropChar(r[..k], ',') == ip
  {
    GroupByThreeDropCommas(ip);
    GroupByThreeClean(ip);
    GroupByThreeWellGrouped(ip);
    var g := GroupByThree(ip);
    var r := g + "." + fp;
    assert r[..|g|] == g;
    IndexOfAt(r, '.', |g|);
    assert r[|g| + 1..] == fp;
  }

  /**
   * The result of a non-empty input: exactly one dot, followed by exactly two digits;
   * before it, a well-grouped integer whose digits are those before the first dot of the
   * cleaned input, or "0" when there are none; after it, the first two digits after that
   * dot with later dots ignored, padded with zeros.
   */
  lemma FormatMoneyShape(inputValue: string)
    requires inputValue != ""
    ensures var r := FormatMoney(inputValue); var k := IndexOf(r, '.');
      && k >= 0
      && '.' !in r[k + 1..]
      && r[k + 1..] == ExpectedFraction(inputValue)
      && |r[k + 1..]| == 2 && AllDigits(r[k + 1..])
      && WellGrouped(r[..k])
      && DropChar(r[..k], ',') == ExpectedInteger(inputValue)
  {
    FormatMoneyParts(inputValue);
    ExpectedPartsDigits(inputValue);
    AmountShape(ExpectedInteger(inputValue), ExpectedFraction(inputValue));
  }

  /** An amount is made of digits, commas and its one dot. */
  lemma AmountAlphabet(ip: string, fp: string)
    requires ip != [] && AllDigits(ip) && AllDigits(fp)
    ensures var r := GroupByThree(ip) + "." + fp;
      forall i :: 0 <= i < |r| ==> IsDigit(r[i]) || r[i] == ',' || r[i] == '.'
  {
    GroupByThreeWellGrouped(ip);
    var g := GroupByThree(ip);
    var r := g + "." + fp;
    forall i | 0 <= i < |r| ensures IsDigit(r[i]) || r[i] == ',' || r[i] == '.' {
      if i < |g| {
        assert r[i] == g[i];
      } else if i > |g| {
        assert r[i] == fp[i - |g| - 1];
      }
    }
  }

  /** Only digits, commas and the one dot appear in the result. */
  lemma FormatMoneyAlphabet(inputValue: string)
    ensures var r := FormatMoney(inputValue);
      forall i :: 0 <= i < |r| ==> IsDigit(r[i]) || r[i] == ',' || r[i] == '.'
  {
    if inputValue != "" {
      FormatMoneyParts(inputValue);
      ExpectedPartsDigits(inputValue);
      AmountAlphabet(ExpectedInteger(inputValue), ExpectedFraction(inputValue));
    }
  }

  lemma {:induction false} DotSplitsAt(a: string, b: string)
    requires '.' !in a
    ensures BeforeFirstDot(a + ['.'] + b) == a
    ensures AfterFirstDot(a + ['.'] + b) == b
    decreases |a|
  {
    if a != [] {
      assert (a + ['.'] + b)[1..] == a[1..] + ['.'] + b;
      DotSplitsAt(a[1..], b);
    } else {
      assert (a + ['.'] + b)[1..] == b;
    }
  }

  /** Cleaning something followed by a dot and digits cleans only the first piece. */
  lemma CleanThenFraction(g: string, fp: string)
    requires AllDigits(fp)
    ensures KeepMoneyChars(g + (['.'] + fp)) == KeepMoneyChars(g) + ['.'] + fp
  {
    KeepMoneyCharsAppend(g, ['.'] + fp);
    KeepMoneyCharsCons('.', fp);
    assert MoneyChars(fp) by { assert forall i :: 0 <= i < |fp| ==> IsDigit(fp[i]); }
    KeepMoneyCharsKeeps(fp);
  }

  /** The expected parts of a cleaned amount with two fraction digits are those parts. */
  lemma ExpectedOfClean(r: string, ip: string, fp: string)
    requires ip != [] && AllDigits(ip) && |fp| == 2 && AllDigits(fp)
    requires KeepMoneyChars(r) == ip + ['.'] + fp
    ensures ExpectedInteger(r) == ip && ExpectedFraction(r) == fp
  {
    DotSplitsAt(ip, fp);
    DropAbsentChar(fp, '.');
    assert fp + seq(0, _ => '0') == fp;
  }

  /** An amount already in the output form is formatted to itself. */
  lemma AmountReformats(ip: string, fp: string)
    requires ip != [] && AllDigits(ip) && |fp| == 2 && AllDigits(fp)
    ensures FormatMoney(GroupByThree(ip) + "." + fp) == GroupByThree(ip) + "." + fp
  {
    var g := GroupByThree(ip);
    var r := g + (['.'] + fp);
    assert g + "." + fp == r;
    GroupByThreeClean(ip);
    CleanThenFraction(g, fp);
    ExpectedOfClean(r, ip, fp);
    FormatMoneyParts(r);
  }

  /** Formatting an already formatted amount changes nothing. */
  lemma FormatMoneyIdempotent(inputValue: string)
    ensures FormatMoney(FormatMoney(inputValue)) == FormatMoney(inputValue)
  {
    if inputValue != "" {
      FormatMoneyParts(inputValue);
      ExpectedPartsDigits(inputValue);
      AmountReformats(ExpectedInteger(inputValue), ExpectedFraction(inputValue));
    }
  }
}

/** Worked examples of formatMoney. */
module MoneyExamples {
  import opened Strings
  import opened Money

  lemma NothingCleaned()
    ensures GroupByThree(IntegerOf([])) + "." + FractionOf([]) == "0.00"
  {
    assert IntegerOf([]) == "0";
    assert FractionOf([]) == "00";
    assert GroupByThree("0") == "0";
  }

  /** A non-empty input with neither digits nor dots reads as zero. */
  lemma FormatMoneyNoDigits(s: string)
    requires s != "" && KeepMoneyChars(s) == []
    ensures FormatMoney(s) == "0.00"
  {
    FormatMoneyParts(s);
    NothingCleaned();
  }

  /** "abc" is such an input. */
  lemma FormatMoneyLetters()
    ensures FormatMoney("abc") == "0.00"
  {
    assert KeepMoneyChars("abc") == [];
    FormatMoneyNoDigits("abc");
  }

  lemma ExtraDotsCleaned()
    ensures KeepMoneyChars("1.2.3") == "1.2.3"
  {
    KeepMoneyCharsKeeps("1.2.3");
  }

  lemma ExtraDotsAroundFirstDot()
    ensures BeforeFirstDot("1.2.3") == "1" && AfterFirstDot("1.2.3") == "2.3"
  {
  }

  lemma ExtraDotsDropped()
    ensures DropChar("2.3", '.') == "23"
  {
  }

  lemma ExtraDotsInteger(s: string)
    requires s == "1.2.3"
    ensures ExpectedInteger(s) == "1"
  {
    ExtraDotsCleaned();
    ExtraDotsAroundFirstDot();
  }

  lemma ExtraDotsFraction(s: string)
    requires s == "1.2.3"
    ensures ExpectedFraction(s) == "23"
  {
    ExtraDotsCleaned();
    ExtraDotsAroundFirstDot();
    ExtraDotsDropped();
  }

  /** Dots after the first are discarded: "1.2.3" reads as 1.23. */
  lemma FormatMoneyExtraDots(s: string)
    requires s == "1.2.3"
    ensures FormatMoney(s) == "1.23"
  {
    FormatMoneyParts(s);
    ExtraDotsInteger(s);
    ExtraDotsFraction(s);
    assert GroupByThree("1") == "1";
  }

  lemma ThousandsCleaned()
    ensures KeepMoneyChars("$1234.5") == "1234.5"
  {
    KeepMoneyCharsCons('$', "1234.5");
    KeepMoneyCharsKeeps("1234.5");
  }

  lemma ThousandsAroundDot()
    ensures BeforeFirstDot("1234.5") == "1234" && AfterFirstDot("1234.5") == "5"
  {
  }

  lemma ThousandsGrouped()
    ensures GroupByThree("1234") == "1,234"
  {
  }

  lemma ThousandsInteger(s: string)
    requires s == "$1234.5"
    ensures ExpectedInteger(s) == "1234"
  {
    ThousandsCleaned();
    ThousandsAroundDot();
  }

  lemma ThousandsFraction(s: string)
    requires s == "$1234.5"
    ensures ExpectedFraction(s) == "50"
  {
    ThousandsCleaned();
    ThousandsAroundDot();
    assert DropChar("5", '.') == "5";
  }

  /** Grouping and padding together: "$1234.5" becomes "1,234.50". */
  lemma FormatMoneyGroupsThousands(s: string)
    requires s == "$1234.5"
    ensures FormatMoney(s) == "1,234.50"
  {
    FormatMoneyParts(s);
    ThousandsInteger(s);
    ThousandsFraction(s);
    ThousandsGrouped();
  }
}
