/** The shop-independent part of every parser: how one scraped product block is
    normalised and appended to the parser's result list, and the retry loop that calls
    a page action until it reports success. The browser (Selenium), the page parsing of
    the concrete shops and the logger are not part of this model. */
module ParseBase {
  import opened Builtins
  import opened Helper

  /** The values one product block yields, before normalisation. */
  datatype RawProduct = RawProduct(
    brandName: string, modelName: string, color: string, price: int, ram: int, rom: int,
    imgUrl: string, url: string, rating: real, numRating: int, productCode: string)

  predicate NoUpper(s: string) {
    forall i :: 0 <= i < |s| ==> !IsUpperChar(s[i])
  }

  /** The record _add_to_pr_result_list appends: text fields in lower case (the shop's
      name as given), and no RAM for an Apple device. */
  function Normalised(shop: string, category: string, raw: RawProduct): (r: ParseResult)
    ensures r.shop == shop
    ensures NoUpper(r.category) && NoUpper(r.brandName) && NoUpper(r.modelName) && NoUpper(r.color)
    ensures NoUpper(r.imgUrl) && NoUpper(r.url) && NoUpper(r.productCode)
    ensures r.ram == 0 <==> Contains(r.brandName, "apple") || raw.ram == 0
    ensures r.price == raw.price && r.rom == raw.rom && r.rating == raw.rating && r.numRating == raw.numRating
  {
    var brand := Lower(raw.brandName);
    ParseResult(
      shop := shop,
      category := Lower(category),
      brandName := brand,
      modelName := Lower(raw.modelName),
      color := Lower(raw.color),
      ram := if Contains(brand, "apple") then 0 else raw.ram,
      rom := raw.rom,
      price := raw.price,
      imgUrl := Lower(raw.imgUrl),
      url := Lower(raw.url),
      rating := raw.rating,
      numRating := raw.numRating,
      productCode := Lower(raw.productCode))
  }

  /** The block read back from a record (the inverse direction of Normalised). */
  function RawOf(p: ParseResult): RawProduct {
    RawProduct(p.brandName, p.modelName, p.color, p.price, p.ram, p.rom,
               p.imgUrl, p.url, p.rating, p.numRating, p.productCode)
  }

  /** Lower case is a fixed point of lower(). */
  lemma {:induction false} LowerOfLower(s: string)
    requires NoUpper(s)
    ensures Lower(s) == s
  {
    forall i | 0 <= i < |s|
      ensures Lower(s)[i] == s[i]
    {
      assert !IsUpperChar(s[i]);
    }
  }

  /** Normalising a record that is already normalised changes nothing. */
  lemma NormalisedIdempotent(shop: string, category: string, raw: RawProduct)
    ensures var r := Normalised(shop, category, raw);
      Normalised(r.shop, r.category, RawOf(r)) == r
  {
    var r := Normalised(shop, category, raw);
    LowerOfLower(r.category);
    LowerOfLower(r.brandName);
    LowerOfLower(r.modelName);
    LowerOfLower(r.color);
    LowerOfLower(r.imgUrl);
    LowerOfLower(r.url);
    LowerOfLower(r.productCode);
  }

  /** The index of the first call (below count) whose result equals trueResult. */
  function FirstSuccess<T(==)>(results: nat -> T, count: int, trueResult: T, k: nat): (r: Option<nat>)
    ensures r.Some? ==> k <= r.value < count && results(r.value) == trueResult
    ensures r.Some? ==> forall i :: k <= i < r.value ==> results(i) != trueResult
    ensures r.None? ==> forall i :: k <= i < count ==> results(i) != trueResult
    decreases count - k
  {
    if k >= count then None
    else if results(k) == trueResult then Some(k)
    else FirstSuccess(results, count, trueResult, k + 1)
  }

  /** A parser: the shop and category it scrapes and the records collected so far. */
  class ParseBase {
    const shop: string
    const category: string
    var prResultList: seq<ParseResult>

    constructor (shop: string, category: string)
      ensures this.shop == shop && this.category == category && prResultList == []
    {
      this.shop := shop;
      this.category := category;
      prResultList := [];
    }

    /** _add_to_pr_result_list: the normalised record is appended. */
    method AddToPrResultList(raw: RawProduct)
      modifies this
      ensures prResultList == old(prResultList) + [Normalised(shop, category, raw)]
    {
      var ram := raw.ram;
      if Contains(Lower(raw.brandName), "apple") {
        ram := 0;
      }
      prResultList := prResultList + [ParseResult(
        shop := shop,
        category := Lower(category),
        brandName := Lower(raw.brandName),
        modelName := Lower(raw.modelName),
        color := Lower(raw.color),
        ram := ram,
        rom := raw.rom,
        price := raw.price,
        imgUrl := Lower(raw.imgUrl),
        url := Lower(raw.url),
        rating := raw.rating,
        numRating := raw.numRating,
        productCode := Lower(raw.productCode))];
    }

    /** _multiple_func_call: calls the action up to count times, stopping at the first
        call that returns trueResult. `results(i)` is what the (i+1)-th call returns.
        True exactly when some call succeeded; `calls` is how many calls were made. */
    method MultipleFuncCall<T(==)>(results: nat -> T, count: int, trueResult: T) returns (ok: bool, calls: nat)
      ensures ok <==> exists i :: 0 <= i < count && results(i) == trueResult
      ensures ok ==> calls >= 1 && results(calls - 1) == trueResult
      ensures forall i :: 0 <= i < calls - 1 ==> results(i) != trueResult
      ensures !ok ==> calls == if count < 0 then 0 else count
      ensures ok <==> FirstSuccess(results, count, trueResult, 0).Some?
      ensures ok ==> calls == FirstSuccess(results, count, trueResult, 0).value + 1
    {
      var i := 0;
      calls := 0;
      while i < count
        invariant 0 <= i && (count >= 0 ==> i <= count) && (count < 0 ==> i == 0)
        invariant calls == i
        invariant forall j :: 0 <= j < i ==> results(j) != trueResult
        invariant FirstSuccess(results, count, trueResult, 0) == FirstSuccess(results, count, trueResult, i)
        decreases count - i
      {
        calls := calls + 1;
        if results(i) == trueResult {
          return true, calls;
        }
        i := i + 1;
      }
      return false, calls;
    }
  }
}
