/**
 * The quotation arithmetic of the calculator screen: a box is priced by its surface area in
 * square metres, a foam insert by its volume in cubic metres, and the quotation is their sum.
 * Dimensions are entered in millimetres. Kotlin `Double` is modelled as exact `real`.
 */
module Pricing {
  import opened DecimalInput

  /** Millimetres in a metre. */
  const MM_PER_M: real := 1000.0

  /** `calculateBoxPrice` once its four fields have been read as numbers. */
  function BoxPriceOf(length: real, width: real, height: real, unitPrice: real): (price: real)
    ensures length <= 0.0 || width <= 0.0 || height <= 0.0 ==> price == 0.0
  {
    if length <= 0.0 || width <= 0.0 || height <= 0.0 then 0.0
    else 2.0 * (length * width + length * height + width * height) / 1000000.0 * unitPrice
  }

  /** `calculateSpongePrice` once its four fields have been read as numbers. */
  function SpongePriceOf(length: real, width: real, height: real, unitPrice: real): (price: real)
    ensures length <= 0.0 || width <= 0.0 || height <= 0.0 ==> price == 0.0
  {
    if length <= 0.0 || width <= 0.0 || height <= 0.0 then 0.0
    else length * width * height / 1000000000.0 * unitPrice
  }

  /** The combined area of the six faces of a closed box with edges `a`, `b` and `c`. */
  function SurfaceArea(a: real, b: real, c: real): real {
    a * b + a * b + a * c + a * c + b * c + b * c
  }

  /**
   * The box formula is the surface area measured in square metres (each edge converted from
   * millimetres first) times the price per square metre.
   */
  lemma BoxPriceIsAreaInSquareMetres(length: real, width: real, height: real, unitPrice: real)
    requires length > 0.0 && width > 0.0 && height > 0.0
    ensures BoxPriceOf(length, width, height, unitPrice)
         == SurfaceArea(length / MM_PER_M, width / MM_PER_M, height / MM_PER_M) * unitPrice
  {
    var l, w, h := length / MM_PER_M, width / MM_PER_M, height / MM_PER_M;
    assert l * w == length * width / 1000000.0;
    assert l * h == length * height / 1000000.0;
    assert w * h == width * height / 1000000.0;
  }

  /**
   * The foam formula is the volume measured in cubic metres (each edge converted from
   * millimetres first) times the price per cubic metre.
   */
  lemma SpongePriceIsVolumeInCubicMetres(length: real, width: real, height: real, unitPrice: real)
    requires length > 0.0 && width > 0.0 && height > 0.0
    ensures SpongePriceOf(length, width, height, unitPrice)
         == (length / MM_PER_M) * (width / MM_PER_M) * (height / MM_PER_M) * unitPrice
  {
    var l, w := length / MM_PER_M, width / MM_PER_M;
    assert l * w == length * width / 1000000.0;
    assert l * w * (height / MM_PER_M) == length * width * height / 1000000000.0;
  }

  /** Turning the box over does not change its price: every ordering of the edges gives the same result. */
  lemma BoxPriceIgnoresOrientation(length: real, width: real, height: real, unitPrice: real)
    ensures BoxPriceOf(length, width, height, unitPrice) == BoxPriceOf(width, height, length, unitPrice)
    ensures BoxPriceOf(length, width, height, unitPrice) == BoxPriceOf(width, length, height, unitPrice)
  {
    if length > 0.0 && width > 0.0 && height > 0.0 {
      assert width * height + width * length + height * length == length * width + length * height + width * height;
    }
  }

  /** Non-negative dimensions and price give a non-negative amount. */
  lemma PricesNonNegative(length: real, width: real, height: real, unitPrice: real)
    requires length >= 0.0 && width >= 0.0 && height >= 0.0 && unitPrice >= 0.0
    ensures BoxPriceOf(length, width, height, unitPrice) >= 0.0
    ensures SpongePriceOf(length, width, height, unitPrice) >= 0.0
  {
    if length > 0.0 && width > 0.0 && height > 0.0 {
      assert length * width >= 0.0 && length * height >= 0.0 && width * height >= 0.0;
      assert length * width * height >= 0.0;
    }
  }

  /** The four text fields of one card: three edges in millimetres and a unit price. */
  datatype Fields = Fields(length: string, width: string, height: string, unitPrice: string)

  /** Every field holds text the input filter lets through. */
  predicate Filtered(f: Fields) {
    PassesFilter(f.length) && PassesFilter(f.width) && PassesFilter(f.height) && PassesFilter(f.unitPrice)
  }

  /** `calculateBoxPrice()`: each field read with `toDoubleOrNull() ?: 0.0`. */
  function BoxPrice(box: Fields): (price: real)
    requires Filtered(box)
    ensures price >= 0.0
    ensures !HasDigit(box.length) || !HasDigit(box.width) || !HasDigit(box.height) ==> price == 0.0
  {
    var l, w, h, u := ValueOrZero(box.length), ValueOrZero(box.width), ValueOrZero(box.height), ValueOrZero(box.unitPrice);
    PricesNonNegative(l, w, h, u);
    BoxPriceOf(l, w, h, u)
  }

  /** `calculateSpongePrice(length, width, height, unitPrice)`. */
  function SpongePrice(insert: Fields): (price: real)
    requires Filtered(insert)
    ensures price >= 0.0
    ensures !HasDigit(insert.length) || !HasDigit(insert.width) || !HasDigit(insert.height) ==> price == 0.0
  {
    var l, w, h, u := ValueOrZero(insert.length), ValueOrZero(insert.width), ValueOrZero(insert.height), ValueOrZero(insert.unitPrice);
    PricesNonNegative(l, w, h, u);
    SpongePriceOf(l, w, h, u)
  }

  /** Everything the quotation depends on: the box card and the two foam-insert cards with their checkboxes. */
  datatype QuoteInputs = QuoteInputs(
    box: Fields,
    hasTopSponge: bool, topSponge: Fields,
    hasBottomSponge: bool, bottomSponge: Fields)

  predicate AllFiltered(q: QuoteInputs) {
    Filtered(q.box) && Filtered(q.topSponge) && Filtered(q.bottomSponge)
  }

  /** The four amounts the screen shows. */
  datatype Quotation = Quotation(boxPrice: real, topSpongePrice: real, bottomSpongePrice: real, totalPrice: real)

  /** What `calculate()` writes into the four result variables. */
  function Quote(q: QuoteInputs): (r: Quotation)
    requires AllFiltered(q)
    ensures r.totalPrice == r.boxPrice + r.topSpongePrice + r.bottomSpongePrice
    ensures !q.hasTopSponge ==> r.topSpongePrice == 0.0
    ensures !q.hasBottomSponge ==> r.bottomSpongePrice == 0.0
    ensures r.boxPrice >= 0.0 && r.topSpongePrice >= 0.0 && r.bottomSpongePrice >= 0.0
    ensures r.totalPrice >= r.boxPrice
  {
    var box := BoxPrice(q.box);
    var top := if q.hasTopSponge then SpongePrice(q.topSponge) else 0.0;
    var bottom := if q.hasBottomSponge then SpongePrice(q.bottomSponge) else 0.0;
    Quotation(box, top, bottom, box + top + bottom)
  }

  /** A foam insert whose checkbox is off contributes nothing, whatever its fields hold. */
  lemma UncheckedInsertIgnored(q: QuoteInputs, top: Fields, bottom: Fields)
    requires AllFiltered(q) && Filtered(top) && Filtered(bottom)
    ensures !q.hasTopSponge ==> Quote(q.(topSponge := top)) == Quote(q)
    ensures !q.hasBottomSponge ==> Quote(q.(bottomSponge := bottom)) == Quote(q)
  {
  }

  /** The values the screen starts with. */
  function DefaultInputs(): (q: QuoteInputs)
    ensures AllFiltered(q)
  {
    var box := Fields("500", "400", "300", "300");
    var insert := Fields("", "", "", "3000");
    assert Filtered(box) by {
      WholeNumberRoundTrip(500);
      WholeNumberRoundTrip(400);
      WholeNumberRoundTrip(300);
    }
    QuoteInputs(box, false, insert, false, insert)
  }

  /**
   * With the starting values, a 500 x 400 x 300 mm box at 300 per square metre and both
   * inserts off, the first quotation is 282.
   */
  lemma DefaultQuotation()
    ensures Quote(DefaultInputs()) == Quotation(282.0, 0.0, 0.0, 282.0)
  {
    ReadsWholeNumber(500, "500");
    ReadsWholeNumber(400, "400");
    ReadsWholeNumber(300, "300");
    assert BoxPrice(DefaultInputs().box) == BoxPriceOf(500.0, 400.0, 300.0, 300.0);
    assert BoxPriceOf(500.0, 400.0, 300.0, 300.0) == 282.0;
  }

  /** A field holding a whole number written out in decimal reads as that number. */
  lemma ReadsWholeNumber(n: nat, s: string)
    requires s == NatToDecimal(n)
    ensures PassesFilter(s) && ValueOrZero(s) == n as real
  {
    WholeNumberRoundTrip(n);
  }
}
