/** How the wallet prints amounts, and a parser that reads them back. */
module Amounts {
  import opened Types

  type U64 = x: int | 0 <= x < 0x1_0000_0000_0000_0000

  // ---------------------------------------------------------------------------------------------
  // Decimal digits
  // ---------------------------------------------------------------------------------------------

  predicate IsDigit(c: char) {
    '0' <= c <= '9'
  }

  predicate AllDigits(s: string) {
    forall i :: 0 <= i < |s| ==> IsDigit(s[i])
  }

  function Digit(n: nat): char
    requires n < 10
  {
    '0' + n as char
  }

  function Decimal(n: nat): (s: string)
    ensures |s| > 0 && AllDigits(s)
  {
    if n < 10 then [Digit(n)] else Decimal(n / 10) + [Digit(n % 10)]
  }

  function Value(s: string): nat
    requires AllDigits(s)
  {
    if s == [] then 0 else 10 * Value(s[..|s| - 1]) + (s[|s| - 1] - '0') as nat
  }

  lemma {:induction false} ValueOfDecimal(n: nat)
    ensures Value(Decimal(n)) == n
    ensures Decimal(n)[0] == '0' ==> n == 0
    decreases n
  {
    if n >= 10 {
      ValueOfDecimal(n / 10);
      var s := Decimal(n);
      assert s[..|s| - 1] == Decimal(n / 10);
    }
  }

  /** `{:03}`. */
  function ThreeDigits(n: nat): (s: string)
    requires n < 1000
    ensures |s| == 3 && AllDigits(s)
  {
    [Digit(n / 100), Digit(n / 10 % 10), Digit(n % 10)]
  }

  // ---------------------------------------------------------------------------------------------
  // Comma groups
  // ---------------------------------------------------------------------------------------------

  /** `rchunks(3)`: chunks of three from the end, the last one whatever is left. */
  function RChunks(s: string): seq<string> {
    if s == [] then [] else if |s| <= 3 then [s] else [s[|s| - 3..]] + RChunks(s[..|s| - 3])
  }

  function Reverse(xs: seq<string>): seq<string> {
    if xs == [] then [] else Reverse(xs[1..]) + [xs[0]]
  }

  function Join(xs: seq<string>): string {
    if xs == [] then "" else if |xs| == 1 then xs[0] else Join(xs[..|xs| - 1]) + "," + xs[|xs| - 1]
  }

  function CommaFormatted(digits: string): string {
    Join(Reverse(RChunks(digits)))
  }

  lemma {:induction false} CommasGoBeforeLastThree(s: string)
    ensures |s| <= 3 ==> CommaFormatted(s) == s
    ensures |s| > 3 ==> CommaFormatted(s) == CommaFormatted(s[..|s| - 3]) + "," + s[|s| - 3..]
  {
    if |s| <= 3 {
      if s != [] {
        assert Reverse([s]) == [s];
      }
    } else {
      var rest := RChunks(s[..|s| - 3]);
      assert rest != [];
      ReverseKeepsLength(rest);
      var all := Reverse(RChunks(s));
      assert RChunks(s)[1..] == rest;
      assert all[..|all| - 1] == Reverse(rest) && all[|all| - 1] == s[|s| - 3..];
    }
  }

  lemma {:induction false} ReverseKeepsLength(xs: seq<string>)
    ensures |Reverse(xs)| == |xs|
  {
    if xs != [] {
      ReverseKeepsLength(xs[1..]);
    }
  }

  function WithoutCommas(s: string): string {
    if s == [] then []
    else
      var front := WithoutCommas(s[..|s| - 1]);
      if s[|s| - 1] == ',' then front else front + [s[|s| - 1]]
  }

  lemma {:induction false} WithoutCommasAppends(a: string, b: string)
    ensures WithoutCommas(a + b) == WithoutCommas(a) + WithoutCommas(b)
    decreases |b|
  {
    if b == [] {
      assert a + b == a;
    } else {
      WithoutCommasAppends(a, b[..|b| - 1]);
      assert (a + b)[..|a + b| - 1] == a + b[..|b| - 1];
    }
  }

  lemma {:induction false} DigitsHaveNoCommas(s: string)
    requires AllDigits(s)
    ensures WithoutCommas(s) == s
  {
    if s != [] {
      DigitsHaveNoCommas(s[..|s| - 1]);
    }
  }

  /** Commas stand exactly at every fourth place from the end, so each group but the first has three
      digits and the first has one to three; deleting them gives the digits back. */
  predicate Grouped(g: string) {
    && (forall i :: 0 <= i < |g| ==> if (|g| - i) % 4 == 0 then g[i] == ',' else IsDigit(g[i]))
    && |g| % 4 != 0
  }

  lemma {:induction false} CommaFormattedIsGrouped(digits: string)
    requires AllDigits(digits) && digits != []
    ensures Grouped(CommaFormatted(digits)) && WithoutCommas(CommaFormatted(digits)) == digits
    decreases |digits|
  {
    hide CommaFormatted, Grouped;
    CommasGoBeforeLastThree(digits);
    if |digits| <= 3 {
      DigitsHaveNoCommas(digits);
      FewDigitsAreGrouped(digits);
    } else {
      var front, last := digits[..|digits| - 3], digits[|digits| - 3..];
      CommaFormattedIsGrouped(front);
      var f := CommaFormatted(front);
      var g := f + "," + last;
      GroupedExtends(f, last);
      WithoutCommasAppends(f + ",", last);
      WithoutCommasAppends(f, ",");
      DigitsHaveNoCommas(last);
      assert WithoutCommas(",") == "";
    }
  }

  lemma FewDigitsAreGrouped(digits: string)
    requires AllDigits(digits) && 1 <= |digits| <= 3
    ensures Grouped(digits)
  {
  }

  lemma GroupedExtends(f: string, last: string)
    requires Grouped(f) && |last| == 3 && AllDigits(last)
    ensures Grouped(f + "," + last)
  {
    var g := f + "," + last;
    forall i | 0 <= i < |g| ensures if (|g| - i) % 4 == 0 then g[i] == ',' else IsDigit(g[i]) {
      if i < |f| {
        assert g[i] == f[i] && (|g| - i) % 4 == (|f| - i) % 4;
      } else if i == |f| {
        assert g[i] == ',';
      } else {
        assert g[i] == last[i - |f| - 1];
      }
    }
  }

  // ---------------------------------------------------------------------------------------------
  // The whole text
  // ---------------------------------------------------------------------------------------------

  /** Without trailing zeros. */
  function Trimmed(s: string): string {
    if s != [] && s[|s| - 1] == '0' then Trimmed(s[..|s| - 1]) else s
  }

  function FractionOf(sub: nat): string
    requires sub < 1000
  {
    if sub == 0 then "" else Trimmed("." + ThreeDigits(sub))
  }

  function Formatted(msats: nat): string {
    if msats == 1000 then "1 sat"
    else CommaFormatted(Decimal(msats / 1000)) + FractionOf(msats % 1000) + " sats"
  }

  /** `format_amount`. */
  method FormatAmount(msats: U64) returns (text: string)
    ensures text == Formatted(msats)
  {
    var amountSats := msats / 1000;
    var subSatMsats := msats % 1000;
    if amountSats == 1 && subSatMsats == 0 {
      return "1 sat";
    }
    var commaFormattedSats := CommaFormatted(Decimal(amountSats));
    var msatsText := "";
    if subSatMsats != 0 {
      msatsText := "." + ThreeDigits(subSatMsats);
      while msatsText != [] && msatsText[|msatsText| - 1] == '0'
        invariant Trimmed(msatsText) == Trimmed("." + ThreeDigits(subSatMsats))
        decreases |msatsText|
      {
        msatsText := msatsText[..|msatsText| - 1];
      }
    }
    text := commaFormattedSats + msatsText + " sats";
  }

  // ---------------------------------------------------------------------------------------------
  // Reading it back
  // ---------------------------------------------------------------------------------------------

  function IndexOfDot(s: string): (i: nat)
    ensures i <= |s| && (i < |s| ==> s[i] == '.') && forall j :: 0 <= j < i ==> s[j] != '.'
  {
    if s == [] || s[0] == '.' then 0
    else
      var rest := IndexOfDot(s[1..]);
      assert forall j :: 0 < j < 1 + rest ==> s[j] == s[1..][j - 1];
      1 + rest
  }

  /** A fraction of a satoshi in millisatoshis. */
  function FractionValue(s: string): Option<nat> {
    if s == [] then Some(0)
    else if s[0] == '.' && 2 <= |s| <= 4 && AllDigits(s[1..]) then
      var digits := s[1..];
      Some(Value(digits) * (if |digits| == 1 then 100 else if |digits| == 2 then 10 else 1))
    else None
  }

  function Parsed(text: string): Option<nat> {
    if text == "1 sat" then Some(1000)
    else if |text| < 5 || text[|text| - 5..] != " sats" then None
    else
      var body := text[..|text| - 5];
      var dot := IndexOfDot(body);
      var sats := WithoutCommas(body[..dot]);
      var fraction := FractionValue(body[dot..]);
      if sats != [] && AllDigits(sats) && fraction.Some? then Some(1000 * Value(sats) + fraction.value) else None
  }

  /** The fraction has a dot, one to three digits, no trailing zero, and the right value. */
  lemma FractionIsExact(sub: nat)
    requires sub < 1000
    ensures FractionValue(FractionOf(sub)) == Some(sub)
    ensures sub == 0 <==> FractionOf(sub) == ""
    ensures
      var f := FractionOf(sub);
      sub != 0 ==> f[0] == '.' && 2 <= |f| <= 4 && AllDigits(f[1..]) && f[|f| - 1] != '0'
  {
    if sub != 0 {
      var a, b, c := sub / 100, sub / 10 % 10, sub % 10;
      var s := "." + ThreeDigits(sub);
      assert s == ['.', Digit(a), Digit(b), Digit(c)];
      assert s[..3] == ['.', Digit(a), Digit(b)] && s[..3][..2] == ['.', Digit(a)];
      if c != 0 {
        assert s[1..] == [Digit(a), Digit(b), Digit(c)];
        ThreeDigitValue(a, b, c);
      } else if b != 0 {
        assert Trimmed(s) == s[..3] && s[..3][1..] == [Digit(a), Digit(b)];
        TwoDigitValue(a, b);
      } else {
        assert a != 0 && Digit(a) != '0';
        assert s[..3][2] == '0' && s[..3][..2][1] != '0';
        assert Trimmed(s) == Trimmed(s[..3]) == Trimmed(s[..3][..2]);
        assert Trimmed(s) == s[..3][..2] && s[..3][..2][1..] == [Digit(a)];
        OneDigitValue(a);
      }
    }
  }

  lemma OneDigitValue(a: nat)
    requires a < 10
    ensures AllDigits([Digit(a)]) && Value([Digit(a)]) == a
  {
    assert [Digit(a)][..0] == [];
  }

  lemma TwoDigitValue(a: nat, b: nat)
    requires a < 10 && b < 10
    ensures AllDigits([Digit(a), Digit(b)]) && Value([Digit(a), Digit(b)]) == 10 * a + b
  {
    assert [Digit(a), Digit(b)][..1] == [Digit(a)];
    OneDigitValue(a);
  }

  lemma ThreeDigitValue(a: nat, b: nat, c: nat)
    requires a < 10 && b < 10 && c < 10
    ensures AllDigits([Digit(a), Digit(b), Digit(c)]) && Value([Digit(a), Digit(b), Digit(c)]) == 100 * a + 10 * b + c
  {
    assert [Digit(a), Digit(b), Digit(c)][..2] == [Digit(a), Digit(b)];
    TwoDigitValue(a, b);
  }

  lemma DotSplits(a: string, f: string)
    requires forall i :: 0 <= i < |a| ==> a[i] != '.'
    requires f != [] ==> f[0] == '.'
    ensures IndexOfDot(a + f) == |a|
  {
    var s := a + f;
    assert forall i :: 0 <= i < |a| ==> s[i] == a[i];
    if f != [] {
      assert s[|a|] == '.';
    }
  }

  /** Parsing what was printed gives back the exact amount, for every amount. */
  lemma ParseAfterFormat(msats: nat)
    ensures Parsed(Formatted(msats)) == Some(msats)
  {
    hide CommaFormatted, FractionOf, Decimal, FractionValue;
    if msats != 1000 {
      var a, f := CommaFormatted(Decimal(msats / 1000)), FractionOf(msats % 1000);
      var text := a + f + " sats";
      FractionIsExact(msats % 1000);
      CommaFormattedIsGrouped(Decimal(msats / 1000));
      ValueOfDecimal(msats / 1000);
      DotSplits(a, f);
      assert text[..|text| - 5] == a + f && text[|text| - 5..] == " sats";
      assert (a + f)[..|a|] == a && (a + f)[|a|..] == f;
      assert text[|text| - 1] == 's';
      assert text != "1 sat";
    }
  }

  /** So no two amounts print alike, and only 1000 msats print as "1 sat". */
  lemma FormatIsInjective(m: nat, n: nat)
    requires Formatted(m) == Formatted(n)
    ensures m == n
  {
    hide Formatted, Parsed;
    ParseAfterFormat(m);
    ParseAfterFormat(n);
  }

  /** The shape of the text. */
  lemma FormatIsWellFormed(msats: nat)
    ensures Formatted(msats) == "1 sat" <==> msats == 1000
    ensures
      msats != 1000 ==>
        var digits, f := Decimal(msats / 1000), FractionOf(msats % 1000);
        && Formatted(msats) == CommaFormatted(digits) + f + " sats"
        && Grouped(CommaFormatted(digits)) && WithoutCommas(CommaFormatted(digits)) == digits
        && Value(digits) == msats / 1000 && (digits[0] == '0' ==> msats < 1000)
        && (f == "" <==> msats % 1000 == 0)
        && (f != "" ==> f[0] == '.' && 2 <= |f| <= 4 && AllDigits(f[1..]) && f[|f| - 1] != '0')
  {
    hide CommaFormatted, FractionOf, Decimal, Grouped, WithoutCommas, Value;
    if Formatted(msats) == "1 sat" {
      FormatIsInjective(msats, 1000);
    }
    ValueOfDecimal(msats / 1000);
    CommaFormattedIsGrouped(Decimal(msats / 1000));
    FractionIsExact(msats % 1000);
  }
}
