// The localised price parser that Cart, CheckoutWizard, ProductCard and
// ProductDetailModal each carry a copy of. `PriceValue` is its meaning: the
// decimal number spelt by the string's ASCII and Persian (U+06F0..U+06F9)
// digits, read in order, with every other character ignored. The copies
// compute it in three stages, each modelled here as written: ten split/join
// passes that turn Persian digits into ASCII ones, a regex replace that drops
// every non-ASCII-digit character, and `parseInt(_, 10) || 0`.
module Prices {
  import opened Types
  import opened Strings

  const PersianDigits: string := "۰۱۲۳۴۵۶۷۸۹"
  const EnglishDigits: string := "0123456789"

  predicate IsAsciiDigit(c: char) { '0' <= c <= '9' }

  predicate IsPersianDigit(c: char) { '۰' <= c <= '۹' }

  predicate IsDigit(c: char) { IsAsciiDigit(c) || IsPersianDigit(c) }

  /** The value of an ASCII or Persian digit. */
  function DigitValue(c: char): (d: nat)
    requires IsDigit(c)
    ensures d < 10
  {
    if IsAsciiDigit(c) then c as int - '0' as int else c as int - '۰' as int
  }

  /** The ASCII digit for `d`. */
  function AsciiDigit(d: nat): (c: char)
    requires d < 10
    ensures IsAsciiDigit(c) && DigitValue(c) == d
  {
    (48 + d) as char
  }

  /** The Persian digit for `d`. */
  function PersianDigit(d: nat): (c: char)
    requires d < 10
    ensures IsPersianDigit(c) && !IsAsciiDigit(c) && DigitValue(c) == d
  {
    (0x06F0 + d) as char
  }

  /** The two lookup strings hold the ten digits in order. */
  lemma DigitTables()
    ensures |PersianDigits| == 10 && |EnglishDigits| == 10
    ensures forall i :: 0 <= i < 10 ==> PersianDigits[i] == PersianDigit(i)
    ensures forall i :: 0 <= i < 10 ==> EnglishDigits[i] == AsciiDigit(i)
  {
  }

  function Pow10(k: nat): (p: nat)
    ensures p >= 1
  {
    if k == 0 then 1 else 10 * Pow10(k - 1)
  }

  // ---------------------------------------------------------------------------
  // The meaning of a price string

  /** Values of the ASCII and Persian digits of `s`, in order. */
  function DigitsOf(s: string): (ds: seq<nat>)
    ensures |ds| <= |s|
    ensures forall k :: 0 <= k < |ds| ==> ds[k] < 10
  {
    if s == [] then []
    else (if IsDigit(s[0]) then [DigitValue(s[0])] else []) + DigitsOf(s[1..])
  }

  /** The number a digit list spells in base 10, read left to right. */
  function ValueOf(ds: seq<nat>): nat
  {
    if ds == [] then 0 else ValueOf(ds[..|ds| - 1]) * 10 + ds[|ds| - 1]
  }

  /** What every copy of the parser returns for `s`. */
  function PriceValue(s: string): nat
  {
    ValueOf(DigitsOf(s))
  }

  lemma {:induction false} DigitsOfAppend(a: string, b: string)
    ensures DigitsOf(a + b) == DigitsOf(a) + DigitsOf(b)
  {
    if a == [] {
      assert a + b == b;
    } else {
      assert (a + b)[0] == a[0];
      assert (a + b)[1..] == a[1..] + b;
      DigitsOfAppend(a[1..], b);
    }
  }

  lemma {:induction false} ValueOfAppend(a: seq<nat>, b: seq<nat>)
    ensures ValueOf(a + b) == ValueOf(a) * Pow10(|b|) + ValueOf(b)
    decreases |b|
  {
    if b == [] {
      assert a + b == a;
    } else {
      var b' := b[..|b| - 1];
      assert (a + b)[..|a + b| - 1] == a + b';
      ValueOfAppend(a, b');
      calc {
        ValueOf(a + b);
        ValueOf(a + b') * 10 + b[|b| - 1];
        (ValueOf(a) * Pow10(|b'|) + ValueOf(b')) * 10 + b[|b| - 1];
        ValueOf(a) * (Pow10(|b'|) * 10) + (ValueOf(b') * 10 + b[|b| - 1]);
      }
    }
  }

  /** Concatenating strings concatenates their digits: the left part is shifted by the right part's digit count. */
  lemma PriceValueAppend(a: string, b: string)
    ensures PriceValue(a + b) == PriceValue(a) * Pow10(|DigitsOf(b)|) + PriceValue(b)
  {
    DigitsOfAppend(a, b);
    ValueOfAppend(DigitsOf(a), DigitsOf(b));
  }

  /** A Persian digit anywhere in the string counts exactly as the ASCII digit of the same value. */
  lemma PersianDigitActsAsAscii(a: string, b: string, d: nat)
    requires d < 10
    ensures PriceValue(a + [PersianDigit(d)] + b) == PriceValue(a + [AsciiDigit(d)] + b)
  {
    DigitsOfAppend(a + [PersianDigit(d)], b);
    DigitsOfAppend(a, [PersianDigit(d)]);
    DigitsOfAppend(a + [AsciiDigit(d)], b);
    DigitsOfAppend(a, [AsciiDigit(d)]);
  }

  /** A character that is neither an ASCII nor a Persian digit is discarded, wherever it stands. */
  lemma NonDigitIgnored(a: string, c: char, b: string)
    requires !IsDigit(c)
    ensures PriceValue(a + [c] + b) == PriceValue(a + b)
  {
    assert DigitsOf([c]) == [] by {
      assert [c][1..] == [];
    }
    DigitsOfAppend(a + [c], b);
    DigitsOfAppend(a, [c]);
    DigitsOfAppend(a, b);
    assert DigitsOf(a) + [] == DigitsOf(a);
  }

  /** A string without digits (the empty string included) is worth 0. */
  lemma {:induction false} NoDigitsIsZero(s: string)
    requires forall i :: 0 <= i < |s| ==> !IsDigit(s[i])
    ensures DigitsOf(s) == [] && PriceValue(s) == 0
  {
    if s != [] {
      NoDigitsIsZero(s[1..]);
    }
  }

  /** The catalogue's first price, "۴۵۰,۰۰۰ تومان", is 450000. */
  lemma CataloguePriceExample()
    ensures PriceValue("۴۵۰,۰۰۰ تومان") == 450000
  {
    CataloguePriceSplit();
    TomanHasNoDigits();
    ExampleDigits(" تومان");
    ExampleValue();
  }

  lemma CataloguePriceSplit()
    ensures "۴۵۰,۰۰۰ تومان" == ['۴', '۵', '۰', ',', '۰', '۰', '۰'] + " تومان"
  {
  }

  /** The currency word carries no digit. */
  lemma TomanHasNoDigits()
    ensures DigitsOf(" تومان") == []
  {
    NoDigitsIsZero(" تومان");
  }

  lemma ExampleDigits(unit: string)
    requires DigitsOf(unit) == []
    ensures DigitsOf(['۴', '۵', '۰', ',', '۰', '۰', '۰'] + unit) == [4, 5, 0, 0, 0, 0]
  {
    DigitsOfAppend(['۴', '۵', '۰', ',', '۰', '۰', '۰'], unit);
  }

  lemma ExampleValue()
    ensures ValueOf([4, 5, 0, 0, 0, 0]) == 450000
  {
    var a: seq<nat> := [4];
    assert a[..0] == [];
    assert ValueOf(a) == 4;
    var b := a + [5];
    assert b[..1] == a;
    assert ValueOf(b) == 45;
    var c := b + [0];
    assert c[..2] == b;
    assert ValueOf(c) == 450;
    var d := c + [0];
    assert d[..3] == c;
    assert ValueOf(d) == 4500;
    var e := d + [0];
    assert e[..4] == d;
    assert ValueOf(e) == 45000;
    var f := e + [0];
    assert f[..5] == e;
    assert ValueOf(f) == 450000;
    assert f == [4, 5, 0, 0, 0, 0];
  }

  // ---------------------------------------------------------------------------
  // The parser's stages, as the copies write them

  /** The character `c` becomes after the first `k` split/join passes (passes for ۰ .. digit k-1). */
  function AfterPasses(c: char, k: nat): char
  {
    if IsPersianDigit(c) && DigitValue(c) < k then AsciiDigit(DigitValue(c)) else c
  }

  /** The string after all ten passes. */
  function ToEnglishDigits(s: string): (r: string)
    ensures |r| == |s|
    ensures forall i :: 0 <= i < |s| ==> r[i] == AfterPasses(s[i], 10)
  {
    if s == [] then [] else [AfterPasses(s[0], 10)] + ToEnglishDigits(s[1..])
  }

  /**
   * The loop `for (i = 0; i < 10; i++) s = s.split(persianDigits[i]).join(englishDigits[i])`
   * that all four copies run: every Persian digit ends up as its ASCII digit and
   * every other character is left alone.
   */
  method ReplacePersianDigits(s: string) returns (clean: string)
    ensures clean == ToEnglishDigits(s)
  {
    DigitTables();
    clean := s;
    for i := 0 to 10
      invariant |clean| == |s|
      invariant forall j :: 0 <= j < |s| ==> clean[j] == AfterPasses(s[j], i)
    {
      SplitJoinReplaces(clean, PersianDigits[i], EnglishDigits[i]);
      clean := Join(Split(clean, PersianDigits[i]), [EnglishDigits[i]]);
    }
  }

  /** `s.replace(/[^0-9]/g, '')`. */
  function KeepAsciiDigits(s: string): (r: string)
    ensures |r| <= |s|
    ensures forall i :: 0 <= i < |r| ==> IsAsciiDigit(r[i])
  {
    if s == [] then []
    else (if IsAsciiDigit(s[0]) then [s[0]] else []) + KeepAsciiDigits(s[1..])
  }

  /** `\d` without the `u` flag: exactly the ten code points listed in `EnglishDigits`. */
  predicate IsRegexDigit(c: char) { c in EnglishDigits }

  /** `s.replace(/\D/g, '')`, the CheckoutWizard copy's filter. */
  function RemoveNonDigits(s: string): string
  {
    if s == [] then []
    else (if IsRegexDigit(s[0]) then [s[0]] else []) + RemoveNonDigits(s[1..])
  }

  /** `\D` and `[^0-9]` select the same characters, so both filters agree on every string. */
  lemma {:induction false} RegexClassesAgree(s: string)
    ensures RemoveNonDigits(s) == KeepAsciiDigits(s)
  {
    DigitTables();
    if s != [] {
      assert IsRegexDigit(s[0]) <==> IsAsciiDigit(s[0]) by {
        if IsAsciiDigit(s[0]) {
          assert s[0] == EnglishDigits[DigitValue(s[0])];
        }
      }
      RegexClassesAgree(s[1..]);
    }
  }

  /** The longest leading run of ASCII digits. */
  function LeadingDigits(s: string): (r: string)
    ensures r <= s
  {
    if s != [] && IsAsciiDigit(s[0]) then [s[0]] + LeadingDigits(s[1..]) else []
  }

  /** `parseInt(s, 10)` on its digit prefix: NaN, here None, when there is none. */
  function ParseInt(s: string): Option<nat>
  {
    var ds := LeadingDigits(s);
    if ds == [] then None else Some(ValueOf(DigitsOf(ds)))
  }

  /** `parseInt(s, 10) || 0`: NaN and 0 both give 0. */
  function ParseIntOrZero(s: string): nat
  {
    match ParseInt(s)
    case None => 0
    case Some(v) => v
  }

  lemma {:induction false} LeadingDigitsAll(s: string)
    requires forall i :: 0 <= i < |s| ==> IsAsciiDigit(s[i])
    ensures LeadingDigits(s) == s
  {
    if s != [] {
      LeadingDigitsAll(s[1..]);
    }
  }

  lemma {:induction false} PipelineKeepsDigits(s: string)
    ensures DigitsOf(KeepAsciiDigits(ToEnglishDigits(s))) == DigitsOf(s)
  {
    if s != [] {
      var t := ToEnglishDigits(s);
      assert t == [AfterPasses(s[0], 10)] + ToEnglishDigits(s[1..]);
      assert t[1..] == ToEnglishDigits(s[1..]);
      PipelineKeepsDigits(s[1..]);
      var head := if IsAsciiDigit(t[0]) then [t[0]] else [];
      assert KeepAsciiDigits(t) == head + KeepAsciiDigits(t[1..]);
      DigitsOfAppend(head, KeepAsciiDigits(t[1..]));
    }
  }

  /**
   * The three stages together compute `PriceValue`: the Persian-to-ASCII passes,
   * the `[^0-9]` filter and `parseInt(_, 10) || 0`.
   */
  lemma PipelineMeaning(s: string)
    ensures ParseIntOrZero(KeepAsciiDigits(ToEnglishDigits(s))) == PriceValue(s)
  {
    var numericOnly := KeepAsciiDigits(ToEnglishDigits(s));
    LeadingDigitsAll(numericOnly);
    PipelineKeepsDigits(s);
    if numericOnly == [] {
      assert DigitsOf(s) == [];
    }
  }

  // ---------------------------------------------------------------------------
  // Number to string

  /** `n.toString()` for a natural number: decimal, no leading zeros. */
  function Decimal(n: nat): (s: string)
    ensures |s| >= 1
    ensures forall i :: 0 <= i < |s| ==> IsAsciiDigit(s[i])
  {
    if n < 10 then [AsciiDigit(n)] else Decimal(n / 10) + [AsciiDigit(n % 10)]
  }

  /** Parsing the decimal form of `n` gives `n` back. */
  lemma {:induction false} DecimalRoundTrip(n: nat)
    ensures PriceValue(Decimal(n)) == n
  {
    if n < 10 {
      assert DigitsOf([AsciiDigit(n)]) == [n] by {
        assert [AsciiDigit(n)][1..] == [];
      }
      assert [n][..0] == [];
      assert ValueOf([n]) == n;
      assert Decimal(n) == [AsciiDigit(n)];
    } else {
      DecimalRoundTrip(n / 10);
      assert DigitsOf([AsciiDigit(n % 10)]) == [n % 10] by {
        assert [AsciiDigit(n % 10)][1..] == [];
      }
      DigitsOfAppend(Decimal(n / 10), [AsciiDigit(n % 10)]);
      var ds := DigitsOf(Decimal(n / 10)) + [n % 10];
      assert ds[..|ds| - 1] == DigitsOf(Decimal(n / 10));
      assert ValueOf(ds) == (n / 10) * 10 + n % 10;
    }
  }

  // ---------------------------------------------------------------------------
  // The product card's and the detail modal's copy, and the struck-out price

  /**
   * `getNumericPrice`, identical in ProductCard and ProductDetailModal: the ten
   * passes, the `[^0-9]` filter and `parseInt(_, 10) || 0`, with no guard for
   * the empty string.
   */
  method GetNumericPrice(priceStr: string) returns (n: nat)
    ensures n == PriceValue(priceStr)
  {
    var cleanStr := ReplacePersianDigits(priceStr);
    n := ParseIntOrZero(KeepAsciiDigits(cleanStr));
    PipelineMeaning(priceStr);
  }

  /** The advertised discount, in percent. */
  const DiscountPercent: nat := 15

  /** The share of the old price that is paid, in percent: 85. */
  const KeptPercent: int := 100 - DiscountPercent

  /**
   * `Math.round(price / (1 - discountPercent / 100))`, i.e. the integer nearest
   * 100 * price / KeptPercent: `Math.round(x)` is `floor(x + 1/2)`, and
   * 100 * price / KeptPercent + 1/2 is (200 * price + KeptPercent) / (2 * KeptPercent).
   * With the 15% discount that is the integer nearest 40 * price / 34. No
   * price is exactly half-way (see `OldPriceNearest`), so the rounding
   * direction of ties never matters.
   */
  function OldPrice(price: nat): (struck: nat)
    ensures -KeptPercent <= 2 * KeptPercent * struck - 200 * price <= KeptPercent
    ensures -17 <= 34 * struck - 40 * price <= 17
    ensures price <= struck
    ensures struck == 0 <==> price == 0
  {
    assert KeptPercent == 85;
    (200 * price + KeptPercent) / (2 * KeptPercent)
  }

  /** `OldPrice` is the only integer within half a unit of price / 0.85. */
  lemma OldPriceNearest(price: nat, m: int)
    requires -17 <= 34 * m - 40 * price <= 17
    ensures m == OldPrice(price)
  {
    var struck := OldPrice(price);
    var d := m - struck;
    assert 34 * d == (34 * m - 40 * price) - (34 * struck - 40 * price);
    NeverHalfway(m, price);
    NeverHalfway(struck, price);
    assert -1 <= d <= 1;
  }

  /** 34 * m - 40 * price is even, so it is never exactly 17 away from zero. */
  lemma NeverHalfway(m: int, price: int)
    ensures 34 * m - 40 * price != 17 && 34 * m - 40 * price != -17
  {
    assert 34 * m - 40 * price == 2 * (17 * m - 20 * price);
  }

  /** A dearer product never shows a cheaper struck-out price. */
  lemma OldPriceMonotone(p: nat, q: nat)
    requires p <= q
    ensures OldPrice(p) <= OldPrice(q)
  {
  }

  /** The catalogue's "۴۵۰,۰۰۰ تومان" is shown struck out as 529412. */
  lemma OldPriceExample()
    ensures OldPrice(450000) == 529412
  {
    OldPriceNearest(450000, 529412);
  }

  /** The two prices a product card and the detail modal print: the parsed price and the struck-out one. */
  datatype PriceTag = PriceTag(current: nat, struck: nat)

  /**
   * `numericPrice = getNumericPrice(product.price)` and
   * `oldPrice = Math.round(numericPrice / (1 - discountPercent / 100))`,
   * as the card and the modal both compute them.
   */
  method ShownPrices(priceStr: string) returns (tag: PriceTag)
    ensures tag.current == PriceValue(priceStr)
    ensures tag.struck == OldPrice(tag.current)
    ensures tag.current <= tag.struck && -17 <= 34 * tag.struck - 40 * tag.current <= 17
  {
    var numericPrice := GetNumericPrice(priceStr);
    tag := PriceTag(numericPrice, OldPrice(numericPrice));
  }
}
