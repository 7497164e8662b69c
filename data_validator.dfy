/** The first filter of the pipeline: a scraped offer is kept only when every key
    field is present (non-empty text, non-zero rom and price). */
module DataValidator {
  import opened Builtins
  import opened Helper

  /** The attributes whose Python truthiness the validator tests. */
  const RequiredFields: seq<Field> := [Category, Shop, BrandName, ModelName, Color, ImgUrl, ProductCode, Rom, Price]

  /** validation_item. */
  predicate ValidationItem(item: ParseResult) {
    item.category != [] && item.shop != [] && item.brandName != [] && item.modelName != []
    && item.color != [] && item.imgUrl != [] && item.productCode != [] && item.rom != 0 && item.price != 0
  }

  /** An offer passes exactly when each required attribute is truthy. */
  lemma ValidationItemIsTruthy(item: ParseResult)
    ensures ValidationItem(item) <==> forall f :: f in RequiredFields ==> Truthy(ParseResultGet(item, f))
  {
    if forall f :: f in RequiredFields ==> Truthy(ParseResultGet(item, f)) {
      assert Truthy(ParseResultGet(item, Category)) && Truthy(ParseResultGet(item, Shop));
      assert Truthy(ParseResultGet(item, BrandName)) && Truthy(ParseResultGet(item, ModelName));
      assert Truthy(ParseResultGet(item, Color)) && Truthy(ParseResultGet(item, ImgUrl));
      assert Truthy(ParseResultGet(item, ProductCode)) && Truthy(ParseResultGet(item, Rom));
      assert Truthy(ParseResultGet(item, Price));
    }
  }

  /** The offers that pass, in input order. */
  function ValidItems(items: seq<ParseResult>): seq<ParseResult> {
    Filter(items, ValidationItem)
  }

  /** The validated list is an order-preserving sublist holding exactly the passing offers. */
  lemma ValidItemsProperties(items: seq<ParseResult>)
    ensures IsSubsequence(ValidItems(items), items)
    ensures forall x :: x in ValidItems(items) <==> x in items && ValidationItem(x)
  {
    FilterIsSubsequence(items, ValidationItem);
  }

  class DataValidator {
    var dataForValidationList: seq<ParseResult>

    constructor(dataReceiverResultList: seq<ParseResult>)
      ensures dataForValidationList == dataReceiverResultList
    {
      dataForValidationList := dataReceiverResultList;
    }

    /** __validation_list. */
    method ValidationList() returns (result: seq<ParseResult>)
      ensures result == ValidItems(dataForValidationList)
    {
      result := [];
      var i := 0;
      while i < |dataForValidationList|
        invariant 0 <= i <= |dataForValidationList|
        invariant result == ValidItems(dataForValidationList[..i])
      {
        assert dataForValidationList[..i + 1][..i] == dataForValidationList[..i];
        if ValidationItem(dataForValidationList[i]) {
          result := result + [dataForValidationList[i]];
        }
        i := i + 1;
      }
      assert dataForValidationList[..i] == dataForValidationList;
    }

    /** run: the validated list; the input list itself is left as it was. */
    method Run() returns (result: seq<ParseResult>)
      ensures result == ValidItems(dataForValidationList)
    {
      result := ValidationList();
    }
  }
}
