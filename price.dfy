/**
 * The price parser of the shopping list: it turns a Brazilian-format display price
 * such as "R$ 1.200,50" into a number.  The source pipeline is
 *   1. drop every character that is neither an ASCII digit nor a comma,
 *   2. replace the first comma by a dot,
 *   3. `parseFloat`, with a failed parse (NaN) coerced to 0,
 * and an absent or empty price is 0 from the start.  Amounts are exact reals here.
 */
module Price {
  import opened Wrappers
  import opened Seqs

  predicate IsDigit(c: char) { '0' <= c <= '9' }

  /** The characters that survive the `/[^\d,]/g` clean-up. */
  predicate IsPriceChar(c: char) { IsDigit(c) || c == ',' }

  predicate AllDigits(d: string) { forall i :: 0 <= i < |d| ==> IsDigit(d[i]) }

  function DigitValue(c: char): (v: nat)
    requires IsDigit(c)
    ensures v <= 9
  {
    (c as int) - ('0' as int)
  }

  /** Position of the first `c` in `s`, or `|s|` when there is none. */
  function FirstIndexOf(s: string, c: char): (i: nat)
    ensures i <= |s|
    ensures i < |s| ==> s[i] == c
    ensures forall j :: 0 <= j < i ==> s[j] != c
  {
    if s == [] then 0
    else if s[0] == c then 0
    else 1 + FirstIndexOf(s[1..], c)
  }

  /** JavaScript's `String.prototype.replace` with a one-character string pattern: only the first occurrence changes. */
  function ReplaceFirst(s: string, from: char, to: char): (r: string)
    ensures |r| == |s|
    ensures forall j :: 0 <= j < |s| ==> r[j] == if j == FirstIndexOf(s, from) then to else s[j]
  {
    var i := FirstIndexOf(s, from);
    if i == |s| then s else s[..i] + [to] + s[i + 1..]
  }

  /** The longest prefix of `t` made of digits. */
  function LeadingDigits(t: string): (d: string)
    ensures d <= t && AllDigits(d)
    ensures |d| < |t| ==> !IsDigit(t[|d|])
  {
    if t != [] && IsDigit(t[0]) then [t[0]] + LeadingDigits(t[1..]) else []
  }

  /** The integer a digit string denotes, read most significant digit first. */
  function NatValue(d: string): nat
    requires AllDigits(d)
  {
    if d == [] then 0 else 10 * NatValue(d[..|d| - 1]) + DigitValue(d[|d| - 1])
  }

  /** The value of the digits after a decimal point: d[0]/10 + d[1]/100 + ... */
  function FracValue(d: string): (v: real)
    requires AllDigits(d)
    ensures 0.0 <= v < 1.0
  {
    if d == [] then 0.0 else (DigitValue(d[0]) as real + FracValue(d[1..])) / 10.0
  }

  /**
   * `parseFloat` on the strings the pipeline can hand it (digits, dots and commas):
   * it reads the longest prefix of the form digits [ "." digits ] and yields NaN,
   * here None, when that prefix holds no digit.
   */
  function ParseFloat(t: string): (r: Option<real>)
    ensures r.Some? ==> r.value >= 0.0 && r.value.Floor == NatValue(LeadingDigits(t))
    ensures t != [] && IsDigit(t[0]) ==> r.Some?
    ensures t == [] || (t[0] != '.' && !IsDigit(t[0])) ==> r.None?
  {
    var whole := LeadingDigits(t);
    var rest := t[|whole|..];
    var frac := if rest != [] && rest[0] == '.' then LeadingDigits(rest[1..]) else [];
    if whole == [] && frac == [] then None
    else Some(NatValue(whole) as real + FracValue(frac))
  }

  /** The string left after `replace(/[^\d,]/g, '')`: only digits and commas remain. */
  predicate IsCleaned(k: string) { forall i :: 0 <= i < |k| ==> IsPriceChar(k[i]) }

  function Cleaned(s: string): (k: string)
    ensures IsCleaned(k)
  {
    var k := Select(s, IsPriceChar);
    SelectMembers(s, IsPriceChar);
    assert forall i :: 0 <= i < |k| ==> k[i] in k;
    k
  }

  /** `parseFloat(t) || 0`: NaN becomes 0 (and 0 stays 0). */
  function ReadNumber(t: string): (r: real)
    ensures r >= 0.0
    ensures ParseFloat(t).None? ==> r == 0.0
    ensures ParseFloat(t).Some? ==> r == ParseFloat(t).value
  {
    match ParseFloat(t)
    case None => 0.0
    case Some(v) => v
  }

  /** `parsePrice`: never fails; an absent or empty price is 0. */
  function ParsePrice(price: Option<string>): (r: real)
    ensures r >= 0.0
    ensures price == None || price == Some("") ==> r == 0.0
  {
    match price
    case None => 0.0
    case Some(s) => if s == "" then 0.0 else ReadNumber(ReplaceFirst(Cleaned(s), ',', '.'))
  }

  // ----- An independent reading of the same price -----

  /** The digits before the first comma (all of them when there is no comma). */
  function WholeDigits(k: string): (d: string)
    requires IsCleaned(k)
    ensures AllDigits(d)
  {
    k[..FirstIndexOf(k, ',')]
  }

  /** The digits between the first comma and the next comma (or the end). */
  function FractionDigits(k: string): (d: string)
    requires IsCleaned(k)
    ensures AllDigits(d)
  {
    var i := FirstIndexOf(k, ',');
    if i == |k| then []
    else
      var u := k[i + 1..];
      u[..FirstIndexOf(u, ',')]
  }

  /** The Brazilian reading: digits before the first comma are the integer part, the digits after it the decimals. */
  function BrazilianReading(k: string): (r: real)
    requires IsCleaned(k)
  {
    NatValue(WholeDigits(k)) as real + FracValue(FractionDigits(k))
  }

  /** Reading leading digits stops exactly where the first non-digit begins. */
  lemma {:induction false} LeadingDigitsOfDigitsThen(d: string, x: string)
    requires AllDigits(d)
    requires x == [] || !IsDigit(x[0])
    ensures LeadingDigits(d + x) == d
  {
    if d == [] {
      assert d + x == x;
    } else {
      assert (d + x)[0] == d[0];
      assert (d + x)[1..] == d[1..] + x;
      LeadingDigitsOfDigitsThen(d[1..], x);
    }
  }

  /** In a run of digits and commas, the leading digits are everything up to the first comma. */
  lemma LeadingDigitsUpToComma(u: string)
    requires IsCleaned(u)
    ensures LeadingDigits(u) == u[..FirstIndexOf(u, ',')]
  {
    var j := FirstIndexOf(u, ',');
    assert u == u[..j] + u[j..];
    LeadingDigitsOfDigitsThen(u[..j], u[j..]);
  }

  /** Replacing the first comma and reading the number gives the Brazilian reading of a cleaned string. */
  lemma ReadCleaned(k: string)
    requires IsCleaned(k)
    ensures ReadNumber(ReplaceFirst(k, ',', '.')) == BrazilianReading(k)
  {
    var i := FirstIndexOf(k, ',');
    var t := ReplaceFirst(k, ',', '.');
    if i == |k| {
      assert k + [] == k;
      LeadingDigitsOfDigitsThen(k, []);
      assert t[|k|..] == [];
    } else {
      var u := k[i + 1..];
      assert t == k[..i] + (['.'] + u);
      LeadingDigitsOfDigitsThen(k[..i], ['.'] + u);
      assert t[i..] == ['.'] + u;
      assert (['.'] + u)[1..] == u;
      LeadingDigitsUpToComma(u);
    }
  }

  /**
   * The clean-up, comma replacement and `parseFloat` pipeline computes exactly the
   * Brazilian reading: the digits before the first comma give the integer part and
   * the digits after it, up to any further comma, give the decimals.
   */
  lemma ParsePriceIsBrazilianReading(s: string)
    ensures ParsePrice(Some(s)) == BrazilianReading(Cleaned(s))
  {
    if s == "" {
      assert Cleaned(s) == [];
    } else {
      ReadCleaned(Cleaned(s));
    }
  }

  /** The integer part of a parsed price is the number formed by the digits before the first comma. */
  lemma ParsePriceIntegerPart(s: string)
    ensures ParsePrice(Some(s)).Floor == NatValue(WholeDigits(Cleaned(s)))
  {
    ParsePriceIsBrazilianReading(s);
  }

  /** A price in which no digit occurs, such as "garbage" or ",", parses to 0. */
  lemma ParsePriceWithoutDigits(s: string)
    requires forall i :: 0 <= i < |s| ==> !IsDigit(s[i])
    ensures ParsePrice(Some(s)) == 0.0
  {
    ParsePriceIsBrazilianReading(s);
    SelectMembers(s, IsPriceChar);
    var k := Cleaned(s);
    if k != [] {
      assert k[0] == ',' by { assert k[0] in Select(s, IsPriceChar); }
      var u := k[1..];
      if u != [] {
        assert u[0] == ',' by { assert u[0] in Select(s, IsPriceChar); }
      }
    }
  }

  /** The first `c` of `w + [c] + rest` is the one after `w` when `w` holds none. */
  lemma {:induction false} FirstIndexAfter(w: string, c: char, rest: string)
    requires forall j :: 0 <= j < |w| ==> w[j] != c
    ensures FirstIndexOf(w + [c] + rest, c) == |w|
  {
    if w != [] {
      assert (w + [c] + rest)[1..] == w[1..] + [c] + rest;
      FirstIndexAfter(w[1..], c, rest);
    }
  }

  /** "w,f" is made of digits and one comma. */
  lemma AmountIsCleaned(w: string, f: string)
    requires AllDigits(w) && AllDigits(f)
    ensures IsCleaned(w + [','] + f)
  {
    var k := w + [','] + f;
    forall j | 0 <= j < |k| ensures IsPriceChar(k[j]) {
      if j < |w| {
        assert k[j] == w[j];
      } else if j > |w| {
        assert k[j] == f[j - |w| - 1];
      }
    }
  }

  /** A cleaned amount "w,f" with a single comma reads as w + 0.f. */
  lemma ReadingOfAmount(w: string, f: string)
    requires AllDigits(w) && AllDigits(f)
    ensures IsCleaned(w + [','] + f)
    ensures BrazilianReading(w + [','] + f) == NatValue(w) as real + FracValue(f)
  {
    var k := w + [','] + f;
    AmountIsCleaned(w, f);
    FirstIndexAfter(w, ',', f);
    assert k[..|w|] == w && k[|w| + 1..] == f;
    assert FirstIndexOf(f, ',') == |f|;
    assert WholeDigits(k) == w;
    assert FractionDigits(k) == f;
  }

  /** A price whose digits and commas are "w,f", with a single comma, parses to w + 0.f. */
  lemma ParsePriceOfAmount(s: string, w: string, f: string)
    requires AllDigits(w) && AllDigits(f)
    requires Cleaned(s) == w + [','] + f
    ensures ParsePrice(Some(s)) == NatValue(w) as real + FracValue(f)
  {
    ParsePriceIsBrazilianReading(s);
    ReadingOfAmount(w, f);
  }

  // ----- The clean-up works character by character -----

  /** The clean-up of a concatenation is the concatenation of the clean-ups. */
  lemma CleanedAppend(a: string, b: string)
    ensures Cleaned(a + b) == Cleaned(a) + Cleaned(b)
  {
    SelectAppend(a, b, IsPriceChar);
  }

  /** Digits and commas survive the clean-up unchanged. */
  lemma CleanedOfCleaned(k: string)
    requires IsCleaned(k)
    ensures Cleaned(k) == k
  {
    forall c | c in k ensures IsPriceChar(c) {
      var i :| 0 <= i < |k| && k[i] == c;
    }
    SelectAllKept(k, IsPriceChar);
  }

  /** Characters other than digits and commas: currency signs, spaces, dots. */
  predicate NoPriceChars(n: string) { forall i :: 0 <= i < |n| ==> !IsPriceChar(n[i]) }

  /** A string without digits or commas, such as the "R$ " prefix, is removed entirely. */
  lemma CleanedOfNoise(n: string)
    requires NoPriceChars(n)
    ensures Cleaned(n) == []
  {
    SelectNoneKept(n, IsPriceChar);
  }

  /** A digit string survives the clean-up unchanged. */
  lemma CleanedOfDigits(d: string)
    requires AllDigits(d)
    ensures Cleaned(d) == d
  {
    assert IsCleaned(d);
    CleanedOfCleaned(d);
  }

  /** Separators in front of a string vanish in the clean-up. */
  lemma CleanedDropsNoise(n: string, x: string)
    requires NoPriceChars(n)
    ensures Cleaned(n + x) == Cleaned(x)
  {
    CleanedAppend(n, x);
    CleanedOfNoise(n);
    assert [] + Cleaned(x) == Cleaned(x);
  }

  /** Digits in front of a string survive the clean-up. */
  lemma CleanedKeepsDigits(a: string, x: string)
    requires AllDigits(a)
    ensures Cleaned(a + x) == a + Cleaned(x)
  {
    CleanedAppend(a, x);
    CleanedOfDigits(a);
  }

  /** The clean-up of "<noise> a <noise> b , f" is "ab,f". */
  lemma CleanedGroups(n: string, a: string, m: string, b: string, f: string)
    requires NoPriceChars(n) && NoPriceChars(m)
    requires AllDigits(a) && AllDigits(b) && AllDigits(f)
    ensures Cleaned(n + a + m + b + [','] + f) == (a + b) + [','] + f
  {
    var amount := b + [','] + f;
    AmountIsCleaned(b, f);
    assert n + a + m + b + [','] + f == n + (a + (m + amount));
    CleanedDropsNoise(n, a + (m + amount));
    CleanedKeepsDigits(a, m + amount);
    CleanedDropsNoise(m, amount);
    CleanedOfCleaned(amount);
    assert a + amount == (a + b) + [','] + f;
  }

  /** A price shown as a currency prefix and "w,f", such as "R$ 29,90", parses to w + 0.f. */
  lemma ParsePriceOfReais(n: string, w: string, f: string)
    requires NoPriceChars(n) && AllDigits(w) && AllDigits(f)
    ensures ParsePrice(Some(n + w + [','] + f)) == NatValue(w) as real + FracValue(f)
  {
    AmountIsCleaned(w, f);
    assert n + w + [','] + f == n + (w + [','] + f);
    CleanedDropsNoise(n, w + [','] + f);
    CleanedOfCleaned(w + [','] + f);
    ParsePriceOfAmount(n + w + [','] + f, w, f);
  }

  /**
   * A price written as a currency prefix, digit groups split by a separator, a decimal
   * comma and decimals ("R$ 1.200,50") parses to the grouped digits as the integer part
   * plus the decimals.
   */
  lemma ParsePriceOfGroups(n: string, a: string, m: string, b: string, f: string)
    requires NoPriceChars(n) && NoPriceChars(m)
    requires AllDigits(a) && AllDigits(b) && AllDigits(f)
    ensures AllDigits(a + b)
    ensures ParsePrice(Some(n + a + m + b + [','] + f)) == NatValue(a + b) as real + FracValue(f)
  {
    CleanedGroups(n, a, m, b, f);
    ParsePriceOfAmount(n + a + m + b + [','] + f, a + b, f);
  }

  /** The clean-up of "a <noise> b" is "ab". */
  lemma CleanedDotted(a: string, m: string, b: string)
    requires NoPriceChars(m) && AllDigits(a) && AllDigits(b)
    ensures Cleaned(a + m + b) == a + b
  {
    assert a + m + b == a + (m + b);
    CleanedKeepsDigits(a, m + b);
    CleanedDropsNoise(m, b);
    CleanedOfDigits(b);
  }

  /** A digit string without a comma reads as the integer it denotes. */
  lemma ReadingOfDigits(d: string)
    requires AllDigits(d)
    ensures IsCleaned(d) && BrazilianReading(d) == NatValue(d) as real
  {
    assert d[..|d|] == d;
  }

  /**
   * A price without a comma, such as the dot-decimal "12.50", loses its separator:
   * the digits on both sides are read together as one integer.
   */
  lemma ParsePriceOfDotted(a: string, m: string, b: string)
    requires NoPriceChars(m) && AllDigits(a) && AllDigits(b)
    ensures AllDigits(a + b)
    ensures ParsePrice(Some(a + m + b)) == NatValue(a + b) as real
  {
    CleanedDotted(a, m, b);
    ReadingOfDigits(a + b);
    ParsePriceIsBrazilianReading(a + m + b);
  }

  /** Only the first comma is a decimal point: "w,f,rest" parses to w + 0.f, whatever digits and commas follow the second comma. */
  lemma ParsePriceIgnoresLaterCommas(w: string, f: string, rest: string)
    requires AllDigits(w) && AllDigits(f) && IsCleaned(rest)
    ensures ParsePrice(Some(w + [','] + f + [','] + rest)) == NatValue(w) as real + FracValue(f)
  {
    var u := f + [','] + rest;
    var k := w + [','] + u;
    assert w + [','] + f + [','] + rest == k;
    forall j | 0 <= j < |k| ensures IsPriceChar(k[j]) {
      if j < |w| {
        assert k[j] == w[j];
      } else if j > |w| {
        assert k[j] == u[j - |w| - 1];
        if j - |w| - 1 < |f| {
          assert u[j - |w| - 1] == f[j - |w| - 1];
        } else if j - |w| - 1 > |f| {
          assert u[j - |w| - 1] == rest[j - |w| - 1 - |f| - 1];
        }
      }
    }
    FirstIndexAfter(w, ',', u);
    FirstIndexAfter(f, ',', rest);
    assert k[..|w|] == w && k[|w| + 1..] == u && u[..|f|] == f;
    assert WholeDigits(k) == w;
    assert FractionDigits(k) == f;
    CleanedOfCleaned(k);
    ParsePriceIsBrazilianReading(k);
  }

  // ----- Worked examples -----

  lemma ThousandsValues()
    ensures NatValue("1" + "200") == 1200 && FracValue("50") == 0.5
  {
    assert "1" + "200" == "1200";
    assert "1200"[..3] == "120" && "120"[..2] == "12" && "12"[..1] == "1";
  }

  /** The example of a Brazilian price with a thousands dot: "R$ 1.200,50" is 1200.5. */
  lemma ParsePriceThousands()
    ensures ParsePrice(Some("R$ 1.200,50")) == 1200.5
  {
    assert "R$ 1.200,50" == "R$ " + "1" + "." + "200" + [','] + "50";
    ParsePriceOfGroups("R$ ", "1", ".", "200", "50");
    ThousandsValues();
  }

  lemma CommaValues()
    ensures NatValue("1") == 1 && FracValue("2") == 0.2
  {
  }

  /** "1,2,3" is 1.2: the second comma ends the decimals. */
  lemma ParsePriceFirstCommaOnly()
    ensures ParsePrice(Some("1,2,3")) == 1.2
  {
    assert "1,2,3" == "1" + [','] + "2" + [','] + "3";
    ParsePriceIgnoresLaterCommas("1", "2", "3");
    CommaValues();
  }

  lemma DotValues()
    ensures NatValue("12" + "50") == 1250
  {
    assert "12" + "50" == "1250";
    assert "1250"[..3] == "125" && "125"[..2] == "12" && "12"[..1] == "1";
  }

  /** "12.50" is 1250, not 12.5. */
  lemma ParsePriceDotDecimal()
    ensures ParsePrice(Some("12.50")) == 1250.0
  {
    assert "12.50" == "12" + "." + "50";
    ParsePriceOfDotted("12", ".", "50");
    DotValues();
  }
}
