/** The catalog entity `Product`: its validation constraints and the guarded
    stock decrement `reduceStock`.  Prices are in minor units (the column has
    precision 10 and scale 2, so one unit is 0.01); the stock is a Java `int`,
    whose 32-bit two's-complement arithmetic is written out. */
module Catalog {
  import opened Common

  const IntMin: int := -0x8000_0000
  const IntMax: int := 0x7fff_ffff

  /** The smallest price @DecimalMin("0.01") admits, in minor units. */
  const MinPrice: int := 1
  /** The largest value a NUMERIC(10, 2) column holds, in minor units. */
  const MaxPrice: int := 99_999_999_99

  predicate IsInt(x: int) {
    IntMin <= x <= IntMax
  }

  /** Java's `int` arithmetic: the mathematical result reduced modulo 2^32
      into the signed range. */
  function Wrap(x: int): (r: int)
    ensures IsInt(r)
    ensures (r - x) % 0x1_0000_0000 == 0
    ensures IsInt(x) ==> r == x
  {
    var m := (x - IntMin) % 0x1_0000_0000;
    m + IntMin
  }

  /** The exception `reduceStock` throws. */
  datatype StockError = InsufficientStock(productName: String)

  /** The stock a product holds after `reduceStock(quantity)`, or the failure
      that leaves it as it was. */
  function StockAfter(stock: int, quantity: int, name: String): (r: Result<int, StockError>)
    requires IsInt(stock) && IsInt(quantity)
    ensures r.Success? <==> quantity <= stock
    ensures r.Failure? ==> r.error == InsufficientStock(name)
    ensures r.Success? ==> IsInt(r.value)
  {
    if stock >= quantity then Success(Wrap(stock - quantity))
    else Failure(InsufficientStock(name))
  }

  /** A non-negative decrement that is admitted never wraps: the new stock is
      exactly the old stock less the quantity, and it stays non-negative. */
  lemma StockAfterNonNegative(stock: int, quantity: int, name: String)
    requires IsInt(stock) && IsInt(quantity)
    requires 0 <= stock && 0 <= quantity
    ensures StockAfter(stock, quantity, name).Success? ==>
              StockAfter(stock, quantity, name).value == stock - quantity >= 0
  {
  }

  /** `reduceStock` does not reject a negative quantity: it raises the stock
      instead, and close to the range limit the `int` wraps to a negative
      stock, which the @Min(0) constraint forbids. */
  lemma NegativeQuantityWraps()
    ensures StockAfter(1, IntMin, "x") == Success(IntMin + 1)
    ensures StockAfter(5, -3, "x") == Success(8)
  {
  }

  /** The Bean Validation `@NotBlank` test: something is left after `trim`,
      which cuts every character up to U+0020 from both ends, so some
      character lies above U+0020.  This is not `StringUtils.hasText`: "\0"
      is blank here and an ideographic space is not. */
  predicate NotBlank(s: String) {
    exists i :: 0 <= i < |s| && s[i] as int > 0x20
  }

  /** The two blankness tests part on a lone control character and on a lone
      Unicode space. */
  lemma NotBlankIsNotHasText()
    ensures !NotBlank([0 as char]) && HasNonWhitespace([0 as char])
    ensures NotBlank([0x3000 as char]) && !HasNonWhitespace([0x3000 as char])
  {
    assert !IsWhitespace([0 as char][0]);
    assert ([0x3000 as char][0]) as int > 0x20;
  }

  const MaxNameLength: nat := 100
  const MaxDescriptionLength: nat := 500

  class Product {
    var id: ProductId
    var name: String
    var description: String
    var price: int
    var stockQuantity: int

    /** The entity's validation and column constraints: a name that is not
        blank and at most 100 characters, a description of at most 500, a
        price of at least 0.01 that fits the column, a stock that is not
        negative. */
    ghost predicate Valid()
      reads this
    {
      && NotBlank(name) && |name| <= MaxNameLength
      && |description| <= MaxDescriptionLength
      && MinPrice <= price <= MaxPrice
      && 0 <= stockQuantity <= IntMax
    }

    constructor (id: ProductId, name: String, description: String, price: int, stockQuantity: int)
      requires IsInt(stockQuantity)
      ensures this.id == id && this.name == name && this.description == description
      ensures this.price == price && this.stockQuantity == stockQuantity
    {
      this.id := id;
      this.name := name;
      this.description := description;
      this.price := price;
      this.stockQuantity := stockQuantity;
    }

    /** Decrements the stock if it covers `quantity`; otherwise throws and
        changes nothing.  Only `stockQuantity` may change. */
    method ReduceStock(quantity: int) returns (r: Outcome<StockError>)
      requires IsInt(quantity) && IsInt(stockQuantity)
      modifies this`stockQuantity
      ensures var after := StockAfter(old(stockQuantity), quantity, name);
              && (after.Success? ==> r == Pass && stockQuantity == after.value)
              && (after.Failure? ==> r == Fail(after.error) && stockQuantity == old(stockQuantity))
      ensures old(stockQuantity) >= quantity ==> r == Pass
      ensures old(stockQuantity) < quantity ==> r == Fail(InsufficientStock(name)) && stockQuantity == old(stockQuantity)
      ensures old(Valid()) && 0 <= quantity ==> Valid()
      ensures 0 <= quantity <= old(stockQuantity) ==> stockQuantity == old(stockQuantity) - quantity
    {
      if stockQuantity >= quantity {
        stockQuantity := Wrap(stockQuantity - quantity);
        r := Pass;
      } else {
        r := Fail(InsufficientStock(name));
      }
    }
  }
}
