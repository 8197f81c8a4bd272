/**
 * Reading a product's display price ("$U 1.450") as a number. Three call
 * sites strip the currency prefix and the first '.' and then parse:
 * `PriceValue` with `parseInt` (catalog filter), `UnitPrice` with
 * `parseFloat` (payment manifest and order history) and `UnitPriceNoSpace`,
 * which strips "$U" without the space (order confirmation).
 */
module Price {
  import opened Wrappers
  import opened Text

  /** The filter's price: `parseInt(price.replace('$U ', '').replace('.', ''))`; None is NaN. */
  function PriceValue(price: string): Option<int> {
    ParseInt(ReplaceFirst(ReplaceFirst(price, "$U ", ""), ".", ""))
  }

  /** The manifest's unit price: the same stripping, read with `parseFloat`. */
  function UnitPrice(price: string): Option<real> {
    ParseFloat(ReplaceFirst(ReplaceFirst(price, "$U ", ""), ".", ""))
  }

  /** The confirmation page's unit price: "$U" (no space) and the first '.' stripped, read with `parseFloat`. */
  function UnitPriceNoSpace(price: string): Option<real> {
    ParseFloat(ReplaceFirst(ReplaceFirst(price, "$U", ""), ".", ""))
  }

  /** A line amount, unit price times quantity; None where the price reads as NaN. */
  function LineAmount(unit: Option<real>, quantity: int): (r: Option<real>)
    ensures r.Some? <==> unit.Some?
    ensures r.Some? ==> r.value == unit.value * quantity as real
  {
    match unit
    case None => None
    case Some(u) => Some(u * quantity as real)
  }

  /** Three digits with leading zeros. */
  function Pad3(k: nat): (r: string)
    requires k < 1000
    ensures |r| == 3 && AllDigits(r)
  {
    [DigitChar(k / 100), DigitChar(k / 10 % 10), DigitChar(k % 10)]
  }

  /** An amount written with '.' between groups of three digits. */
  function Grouped(n: nat): (r: string)
    ensures |r| >= 1 && IsDigit(r[0])
  {
    if n < 1000 then NatToString(n) else Grouped(n / 1000) + "." + Pad3(n % 1000)
  }

  /** The catalog's price format: "$U " and the grouped amount. */
  function FormatPrice(n: nat): string {
    "$U " + Grouped(n)
  }

  lemma Pad3Value(k: nat)
    requires k < 1000
    ensures DigitsValue(Pad3(k)) == k
  {
    var p := Pad3(k);
    assert p[..2][..1] == [p[0]];
    assert DigitsValue(p[..2][..1]) == k / 100;
  }

  lemma NoOccurrence(s: string, c: char)
    requires c !in s
    ensures forall j :: 0 <= j <= |s| ==> !OccursAt(s, [c], j)
  {
    forall j | 0 <= j <= |s| ensures !OccursAt(s, [c], j) {
      if j + 1 <= |s| {
        assert s[j..j + 1] == [s[j]];
      }
    }
  }

  lemma NoDotInDigits(d: string)
    requires AllDigits(d)
    ensures '.' !in d
  {
  }

  /** The digits a grouped amount below a million is made of. */
  function PlainDigits(n: nat): (d: string)
    requires n < 1_000_000
    ensures d != [] && AllDigits(d)
  {
    if n < 1000 then NatToString(n) else NatToString(n / 1000) + Pad3(n % 1000)
  }

  lemma PlainDigitsValue(n: nat)
    requires n < 1_000_000
    ensures DigitsValue(PlainDigits(n)) == n
  {
    if n < 1000 {
      NatToStringValue(n);
    } else {
      var a := NatToString(n / 1000);
      var b := Pad3(n % 1000);
      NatToStringValue(n / 1000);
      Pad3Value(n % 1000);
      DigitsValueAppend(a, b);
      assert Pow10(3) == 1000;
    }
  }

  /**
   * Below a million, removing the first '.' from a grouped amount leaves its
   * plain digits; `lead` is whatever precedes the amount.
   */
  lemma DotStripped(lead: string, n: nat)
    requires '.' !in lead
    requires n < 1_000_000
    ensures ReplaceFirst(lead + Grouped(n), ".", "") == lead + PlainDigits(n)
  {
    if n < 1000 {
      DotStrippedSmall(lead, n);
    } else {
      DotStrippedGrouped(lead, n);
    }
  }

  lemma DotStrippedSmall(lead: string, n: nat)
    requires '.' !in lead && n < 1000
    ensures ReplaceFirst(lead + Grouped(n), ".", "") == lead + PlainDigits(n)
  {
    var d := NatToString(n);
    NoDotInDigits(d);
    NoOccurrence(lead + d, '.');
    ReplaceFirstAbsent(lead + d, ".", "");
  }

  lemma DotStrippedGrouped(lead: string, n: nat)
    requires '.' !in lead && 1000 <= n < 1_000_000
    ensures ReplaceFirst(lead + Grouped(n), ".", "") == lead + PlainDigits(n)
  {
    var a := NatToString(n / 1000);
    var b := Pad3(n % 1000);
    NoDotInDigits(a);
    assert lead + Grouped(n) == (lead + a) + ['.'] + b;
    ReplaceFirstChar(lead + a, '.', b, "");
    assert (lead + a) + "" + b == lead + (a + b);
  }

  /** Stripping "$U " and the first '.' from a catalog price below a million leaves its digits. */
  lemma StrippedFormat(n: nat)
    requires n < 1_000_000
    ensures ReplaceFirst(ReplaceFirst(FormatPrice(n), "$U ", ""), ".", "") == PlainDigits(n)
  {
    var g := Grouped(n);
    ReplaceFirstPrefix("$U ", g, "");
    assert "" + g == g;
    DotStripped("", n);
    assert "" + PlainDigits(n) == PlainDigits(n);
  }

  /** Stripping "$U" alone and the first '.' leaves the space before the digits. */
  lemma StrippedFormatNoSpace(n: nat)
    requires n < 1_000_000
    ensures ReplaceFirst(ReplaceFirst(FormatPrice(n), "$U", ""), ".", "") == " " + PlainDigits(n)
  {
    var g := Grouped(n);
    assert FormatPrice(n) == "$U" + (" " + g);
    ReplaceFirstPrefix("$U", " " + g, "");
    assert "" + (" " + g) == " " + g;
    DotStripped(" ", n);
  }

  /** Below a million, the catalog filter reads a catalog-formatted price as its amount. */
  lemma PriceValueOfFormat(n: nat)
    requires n < 1_000_000
    ensures PriceValue(FormatPrice(n)) == Some(n)
  {
    StrippedFormat(n);
    var d := PlainDigits(n);
    PlainDigitsValue(n);
    assert d + [] == d;
    ParseIntOfDigits(d, []);
  }

  /** Below a million, the payment manifest reads a catalog-formatted price as its amount. */
  lemma UnitPriceOfFormat(n: nat)
    requires n < 1_000_000
    ensures UnitPrice(FormatPrice(n)) == Some(n as real)
  {
    StrippedFormat(n);
    var d := PlainDigits(n);
    PlainDigitsValue(n);
    assert "" + d == d;
    ParseFloatOfDigits("", d);
  }

  /**
   * Below a million, the confirmation page also reads a catalog-formatted
   * price as its amount: the space left behind is skipped by `parseFloat`.
   */
  lemma UnitPriceNoSpaceOfFormat(n: nat)
    requires n < 1_000_000
    ensures UnitPriceNoSpace(FormatPrice(n)) == Some(n as real)
  {
    StrippedFormatNoSpace(n);
    PlainDigitsValue(n);
    ParseFloatOfDigits(" ", PlainDigits(n));
  }

  /** The catalog writes 1450 as "$U 1.450". */
  lemma FormatExample()
    ensures FormatPrice(1450) == "$U 1.450"
  {
    assert NatToString(1) == "1";
    assert Pad3(450) == "450";
  }

  /** The catalog's "$U 1.450" is 1450. */
  lemma CatalogPriceExample()
    ensures PriceValue("$U 1.450") == Some(1450)
  {
    FormatExample();
    PriceValueOfFormat(1450);
  }

  /**
   * From a million on, only the first '.' is removed and `parseInt` stops at
   * the second: "$U 1.000.000" reads as 1000.
   */
  lemma MillionReadsAsThousand()
    ensures PriceValue("$U 1.000.000") == Some(1000)
  {
    MillionPrefixStripped();
    MillionDotStripped();
    MillionParsed();
  }

  lemma MillionPrefixStripped()
    ensures ReplaceFirst("$U 1.000.000", "$U ", "") == "1.000.000"
  {
    ReplaceFirstPrefix("$U ", "1.000.000", "");
    assert "$U " + "1.000.000" == "$U 1.000.000";
  }

  lemma MillionDotStripped()
    ensures ReplaceFirst("1.000.000", ".", "") == "1000.000"
  {
    assert "1.000.000" == "1" + ['.'] + "000.000";
    ReplaceFirstChar("1", '.', "000.000", "");
    assert "1" + "" + "000.000" == "1000.000";
  }

  lemma MillionParsed()
    ensures ParseInt("1000.000") == Some(1000)
  {
    var d := PlainDigits(1000);
    assert d == "1000";
    PlainDigitsValue(1000);
    assert d + ".000" == "1000.000";
    ParseIntOfDigits(d, ".000");
  }

  /** "$U 1.000.000" is how the catalog writes a million. */
  lemma MillionFormat()
    ensures FormatPrice(1_000_000) == "$U 1.000.000"
  {
    assert NatToString(1) == "1";
    assert Pad3(0) == "000";
  }
}
