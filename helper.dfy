/** The shared records of the pipeline and the list helpers every stage uses:
    the attribute search over records, the "all equal" test, the minimum-price
    selection, dictionary text substitution, the allowed-name test and the
    "percent below" arithmetic. */
module Helper {
  import opened Builtins

  // ---------------------------------------------------------------------------
  // Records
  // ---------------------------------------------------------------------------

  /** One scraped offer. `shop` is the store's short name ("мвидео", ...). */
  datatype ParseResult = ParseResult(
    shop: string, category: string, brandName: string, modelName: string, color: string,
    ram: int, rom: int, price: int, imgUrl: string, url: string,
    rating: real, numRating: int, productCode: string)

  /** One qualified deal. `shop` and `histMinShop` are shop ids; `dateTime` is the
      formatted time of the check; `histMinDate` a timestamp in microseconds. */
  datatype PriceChanges = PriceChanges(
    shop: int, category: string, brandName: string, modelName: string, color: string,
    ram: int, rom: int, imgUrl: string, url: string, dateTime: string, price: int,
    avgActualPrice: int, histMinPrice: int, histMinShop: int, histMinDate: int, diffCurAvg: int)

  /** One entry of `where_buy_list`: (shop id, color, url). */
  datatype WhereBuy = WhereBuy(shop: int, color: string, url: string)

  /** One published post (MessagesInTelegram). */
  datatype MessagesInTelegram = MessagesInTelegram(
    messageId: int, category: string, brandName: string, modelName: string,
    ram: int, rom: int, price: int, avgActualPrice: int, imgUrl: string,
    whereBuyList: seq<WhereBuy>, histMinPrice: int, histMinShop: int, histMinDate: int,
    postDatetime: int, textHash: string, isActual: bool)

  /** SHOPS_NAME_LIST: the shop id of a name is its position plus one. */
  const ShopsNameList: seq<string> := [
    "мвидео", "эльдорадо", "dns", "технопоинт", "мтс", "ситилинк", "rbt",
    "онлайнтрейд", "связной", "техносити", "билайн", "мегафон", "e2e4", "ноу-хау"]

  /** CATEGORIES_NAME_LIST. */
  const CategoriesNameList: seq<string> := ["смартфоны", "ноутбуки"]

  // ---------------------------------------------------------------------------
  // find_in_namedtuple_list
  // ---------------------------------------------------------------------------

  /** The attribute names a search can test. */
  datatype Field = Shop | Category | BrandName | ModelName | Color | Ram | Rom | Price | ImgUrl | Url | ProductCode

  /** What `getattr(item, name, None)` yields: nothing, a text or a number. */
  datatype Val = NoAttr | Text(s: string) | Num(n: int)

  /** Python truthiness of a criterion: None, '' and 0 are false. */
  predicate Truthy(v: Val) {
    match v
    case NoAttr => false
    case Text(s) => s != []
    case Num(n) => n != 0
  }

  /** The keyword arguments of one search, by attribute. */
  type Query = map<Field, Val>

  function ParseResultGet(p: ParseResult, f: Field): Val {
    match f
    case Shop => Text(p.shop)
    case Category => Text(p.category)
    case BrandName => Text(p.brandName)
    case ModelName => Text(p.modelName)
    case Color => Text(p.color)
    case Ram => Num(p.ram)
    case Rom => Num(p.rom)
    case Price => Num(p.price)
    case ImgUrl => Text(p.imgUrl)
    case Url => Text(p.url)
    case ProductCode => Text(p.productCode)
  }

  function PriceChangesGet(p: PriceChanges, f: Field): Val {
    match f
    case Shop => Num(p.shop)
    case Category => Text(p.category)
    case BrandName => Text(p.brandName)
    case ModelName => Text(p.modelName)
    case Color => Text(p.color)
    case Ram => Num(p.ram)
    case Rom => Num(p.rom)
    case Price => Num(p.price)
    case ImgUrl => Text(p.imgUrl)
    case Url => Text(p.url)
    case ProductCode => NoAttr
  }

  function PostGet(p: MessagesInTelegram, f: Field): Val {
    match f
    case Category => Text(p.category)
    case BrandName => Text(p.brandName)
    case ModelName => Text(p.modelName)
    case Ram => Num(p.ram)
    case Rom => Num(p.rom)
    case Price => Num(p.price)
    case ImgUrl => Text(p.imgUrl)
    case _ => NoAttr
  }

  /** `item` passes every criterion whose value is truthy. */
  predicate Matches<T>(get: (T, Field) -> Val, item: T, q: Query) {
    forall f :: f in q && Truthy(q[f]) ==> get(item, f) == q[f]
  }

  /** Every matching item, in input order. */
  function Matching<T>(items: seq<T>, get: (T, Field) -> Val, q: Query): (r: seq<T>)
    ensures |r| <= |items|
  {
    if items == [] then []
    else
      var last := items[|items| - 1];
      Matching(items[..|items| - 1], get, q) + (if Matches(get, last, q) then [last] else [])
  }

  /** What the search returns: all matches, or only the first with `limit_one`. */
  function Found<T>(items: seq<T>, get: (T, Field) -> Val, q: Query, limitOne: bool): seq<T> {
    var all := Matching(items, get, q);
    if limitOne && all != [] then [all[0]] else all
  }

  method FindInNamedtupleList<T>(items: seq<T>, get: (T, Field) -> Val, q: Query, limitOne: bool)
    returns (r: seq<T>)
    ensures r == Found(items, get, q, limitOne)
  {
    r := [];
    if items == [] {
      return;
    }
    var i := 0;
    while i < |items|
      invariant 0 <= i <= |items|
      invariant r == Matching(items[..i], get, q)
      invariant limitOne ==> r == []
    {
      if Matches(get, items[i], q) {
        r := r + [items[i]];
        if limitOne {
          assert items[..i + 1][..i] == items[..i];
          MatchingPrefix(items, get, q, i + 1);
          return;
        }
      }
      assert items[..i + 1][..i] == items[..i];
      i := i + 1;
    }
    assert items[..i] == items;
  }

  /** The matches of a prefix are a prefix of the matches. */
  lemma {:induction false} MatchingPrefix<T>(items: seq<T>, get: (T, Field) -> Val, q: Query, k: nat)
    requires k <= |items|
    ensures Matching(items[..k], get, q) <= Matching(items, get, q)
    decreases |items| - k
  {
    if k < |items| {
      MatchingPrefix(items, get, q, k + 1);
      assert items[..k + 1][..k] == items[..k];
    } else {
      assert items[..k] == items;
    }
  }

  /** An item is found exactly when it is in the input and passes every truthy criterion. */
  lemma {:induction false} MatchingMembers<T>(items: seq<T>, get: (T, Field) -> Val, q: Query, x: T)
    ensures x in Matching(items, get, q) <==> x in items && Matches(get, x, q)
  {
    if items != [] {
      var init := items[..|items| - 1];
      MatchingMembers(init, get, q, x);
      assert items == init + [items[|items| - 1]];
    }
  }

  /** The search returns an order-preserving subsequence of its input. */
  lemma {:induction false} MatchingIsSubsequence<T>(items: seq<T>, get: (T, Field) -> Val, q: Query)
    ensures IsSubsequence(Matching(items, get, q), items)
  {
    if items != [] {
      var init := items[..|items| - 1];
      var last := items[|items| - 1];
      var m := Matching(init, get, q);
      MatchingIsSubsequence(init, get, q);
      assert items == init + [last];
      SubsequenceAppend(m, init, last);
      assert IsSubsequence(m, items) && IsSubsequence(m + [last], items);
      assert Matching(items, get, q) == m + (if Matches(get, last, q) then [last] else []);
      if Matches(get, last, q) {
        assert Matching(items, get, q) == m + [last];
      } else {
        assert Matching(items, get, q) == m;
      }
    }
  }

  /** A matching item is found as often as it occurs; a non-matching one never. */
  lemma {:induction false} MatchingCount<T>(items: seq<T>, get: (T, Field) -> Val, q: Query, x: T)
    ensures multiset(Matching(items, get, q))[x] == if Matches(get, x, q) then multiset(items)[x] else 0
  {
    if items != [] {
      var init := items[..|items| - 1];
      var last := items[|items| - 1];
      MatchingCount(init, get, q, x);
      MatchingCountStep(items, get, q, x);
      CountSnoc(items, x);
    }
  }

  /** The count of x in a non-empty sequence: its count in all but the last, plus the last. */
  lemma CountSnoc<T>(items: seq<T>, x: T)
    requires items != []
    ensures multiset(items)[x] == multiset(items[..|items| - 1])[x] + (if x == items[|items| - 1] then 1 else 0)
  {
    assert items == items[..|items| - 1] + [items[|items| - 1]];
  }

  /** Matching one more item adds it to the count of x exactly when it is x and matches. */
  lemma MatchingCountStep<T>(items: seq<T>, get: (T, Field) -> Val, q: Query, x: T)
    requires items != []
    ensures multiset(Matching(items, get, q))[x] ==
      multiset(Matching(items[..|items| - 1], get, q))[x]
      + (if x == items[|items| - 1] && Matches(get, x, q) then 1 else 0)
  {
    var m := Matching(items[..|items| - 1], get, q);
    var last := items[|items| - 1];
    if Matches(get, last, q) {
      assert Matching(items, get, q) == m + [last];
      assert multiset(Matching(items, get, q)) == multiset(m) + multiset{last};
    } else {
      assert Matching(items, get, q) == m;
    }
  }

  /** The found items are a sub-multiset of the input, as `list.remove` on each needs. */
  lemma MatchingSubMultiset<T>(items: seq<T>, get: (T, Field) -> Val, q: Query)
    ensures multiset(Matching(items, get, q)) <= multiset(items)
  {
    forall x ensures multiset(Matching(items, get, q))[x] <= multiset(items)[x] {
      MatchingCountBounded(items, get, q, x);
    }
  }

  lemma MatchingCountBounded<T>(items: seq<T>, get: (T, Field) -> Val, q: Query, x: T)
    ensures multiset(Matching(items, get, q))[x] <= multiset(items)[x]
  {
    MatchingCount(items, get, q, x);
  }

  /** When the first item matches, it comes first in the result. */
  lemma MatchingHead<T>(items: seq<T>, get: (T, Field) -> Val, q: Query)
    requires items != [] && Matches(get, items[0], q)
    ensures Matching(items, get, q) != [] && Matching(items, get, q)[0] == items[0]
  {
    MatchingPrefix(items, get, q, 1);
    assert items[..1][..0] == [];
    assert Matching(items[..1], get, q) == [items[0]];
  }

  /** A criterion equal to 0, None or '' imposes no constraint. */
  lemma FalsyCriterionIgnored<T>(get: (T, Field) -> Val, item: T, q: Query, f: Field)
    requires f in q && !Truthy(q[f])
    ensures Matches(get, item, q) <==> Matches(get, item, q - {f})
  {
    if Matches(get, item, q - {f}) {
      forall g | g in q && Truthy(q[g]) ensures get(item, g) == q[g] {
        assert g in q - {f};
      }
    }
  }

  /** With `limit_one` the search returns nothing when nothing matches, and otherwise
      exactly the first matching item in input order. */
  lemma {:induction false} FoundFirst<T>(items: seq<T>, get: (T, Field) -> Val, q: Query)
    ensures Found(items, get, q, true) == [] <==> forall i :: 0 <= i < |items| ==> !Matches(get, items[i], q)
    ensures Found(items, get, q, true) != [] ==>
      exists k :: 0 <= k < |items| && Found(items, get, q, true) == [items[k]] && Matches(get, items[k], q)
        && forall j :: 0 <= j < k ==> !Matches(get, items[j], q)
  {
    if items != [] {
      var init := items[..|items| - 1];
      var last := items[|items| - 1];
      FoundFirst(init, get, q);
      assert forall i :: 0 <= i < |init| ==> items[i] == init[i];
      if Matching(init, get, q) == [] && Matches(get, last, q) {
        assert Found(items, get, q, true) == [items[|items| - 1]];
      }
    }
  }

  // ---------------------------------------------------------------------------
  // is_all_elem_equal_in_tuple_list
  // ---------------------------------------------------------------------------

  /** True for an empty or one-element list, otherwise true iff every element has the
      first element's value at the compared position (`key`). */
  method IsAllElemEqualInTupleList<T, K(==)>(elements: seq<T>, key: T -> K) returns (r: bool)
    ensures |elements| <= 1 ==> r
    ensures r <==> forall i :: 0 <= i < |elements| ==> key(elements[i]) == key(elements[0])
  {
    if |elements| <= 1 {
      return true;
    }
    var data := key(elements[0]);
    var i := 0;
    while i < |elements|
      invariant 0 <= i <= |elements|
      invariant forall j :: 0 <= j < i ==> key(elements[j]) == data
    {
      if key(elements[i]) != data {
        return false;
      }
      i := i + 1;
    }
    return true;
  }

  predicate AllKeysEqual<T, K(==)>(elements: seq<T>, key: T -> K) {
    forall i :: 0 <= i < |elements| ==> key(elements[i]) == key(elements[0])
  }

  // ---------------------------------------------------------------------------
  // find_min_price_in_prices_list
  // ---------------------------------------------------------------------------

  /** The smallest price of a non-empty list (the price of `min(price_list)`). */
  function MinPrice<T>(rows: seq<T>, price: T -> int): (m: int)
    requires rows != []
    ensures forall i :: 0 <= i < |rows| ==> m <= price(rows[i])
    ensures exists i :: 0 <= i < |rows| && m == price(rows[i])
  {
    if |rows| == 1 then price(rows[0])
    else
      var m := MinPrice(rows[..|rows| - 1], price);
      var p := price(rows[|rows| - 1]);
      assert forall i :: 0 <= i < |rows| - 1 ==> rows[..|rows| - 1][i] == rows[i];
      if p < m then p else m
  }

  /** The rows whose price is `m`, in input order. */
  function PricedAt<T>(rows: seq<T>, price: T -> int, m: int): (r: seq<T>)
    ensures |r| <= |rows|
    ensures forall i :: 0 <= i < |r| ==> price(r[i]) == m
  {
    if rows == [] then []
    else
      var last := rows[|rows| - 1];
      PricedAt(rows[..|rows| - 1], price, m) + (if price(last) == m then [last] else [])
  }

  /** What find_min_price_in_prices_list returns. */
  function MinPriceRows<T>(rows: seq<T>, price: T -> int): seq<T> {
    if AllKeysEqual(rows, price) then rows else PricedAt(rows, price, MinPrice(rows, price))
  }

  method FindMinPriceInPricesList<T>(priceList: seq<T>, price: T -> int) returns (r: seq<T>)
    ensures r == MinPriceRows(priceList, price)
  {
    var same := IsAllElemEqualInTupleList(priceList, price);
    if same {
      return priceList;
    }
    r := [];
    var minPrice := MinPrice(priceList, price);
    var i := 0;
    while i < |priceList|
      invariant 0 <= i <= |priceList|
      invariant r == PricedAt(priceList[..i], price, minPrice)
    {
      if price(priceList[i]) == minPrice {
        r := r + [priceList[i]];
      }
      assert priceList[..i + 1][..i] == priceList[..i];
      i := i + 1;
    }
    assert priceList[..i] == priceList;
  }

  lemma {:induction false} PricedAtMembers<T>(rows: seq<T>, price: T -> int, m: int, x: T)
    ensures x in PricedAt(rows, price, m) <==> x in rows && price(x) == m
  {
    if rows != [] {
      var init := rows[..|rows| - 1];
      PricedAtMembers(init, price, m, x);
      assert rows == init + [rows[|rows| - 1]];
    }
  }

  /** When every price is the same, keeping the minimum keeps everything. */
  lemma {:induction false} PricedAtAll<T>(rows: seq<T>, price: T -> int, m: int)
    requires forall i :: 0 <= i < |rows| ==> price(rows[i]) == m
    ensures PricedAt(rows, price, m) == rows
  {
    if rows != [] {
      var init := rows[..|rows| - 1];
      assert forall i :: 0 <= i < |init| ==> init[i] == rows[i];
      PricedAtAll(init, price, m);
    }
  }

  /** Both branches of find_min_price_in_prices_list agree: on a non-empty list the
      result is exactly the rows at the minimum price, in input order, so it is not
      empty and no input price is below any output price. */
  lemma MinPriceRowsAreMinimal<T>(rows: seq<T>, price: T -> int)
    requires rows != []
    ensures MinPriceRows(rows, price) == PricedAt(rows, price, MinPrice(rows, price))
    ensures MinPriceRows(rows, price) != []
    ensures forall x, y :: x in MinPriceRows(rows, price) && y in rows ==> price(x) <= price(y)
  {
    var m := MinPrice(rows, price);
    if AllKeysEqual(rows, price) {
      PricedAtAll(rows, price, m);
    }
    var k :| 0 <= k < |rows| && m == price(rows[k]);
    PricedAtMembers(rows, price, m, rows[k]);
    forall x, y | x in MinPriceRows(rows, price) && y in rows ensures price(x) <= price(y) {
      PricedAtMembers(rows, price, m, x);
    }
  }

  /** An empty list, or one with equal prices, comes back unchanged. */
  lemma MinPriceRowsUnchanged<T>(rows: seq<T>, price: T -> int)
    requires AllKeysEqual(rows, price)
    ensures MinPriceRows(rows, price) == rows
  {
  }

  // ---------------------------------------------------------------------------
  // replace_value_from_dictionary
  // ---------------------------------------------------------------------------

  /** The substitutions in dictionary (insertion) order, each applied when its key occurs. */
  function Substituted(dictionary: seq<(string, string)>, value: string): string {
    if dictionary == [] then value
    else
      var (key, val) := dictionary[|dictionary| - 1];
      var v := Substituted(dictionary[..|dictionary| - 1], value);
      if Contains(v, key) then ReplaceAll(v, key, val) else v
  }

  method ReplaceValueFromDictionary(dictionary: seq<(string, string)>, value: string) returns (r: string)
    ensures r == Substituted(dictionary, value)
  {
    r := value;
    if dictionary == [] {
      return;
    }
    var i := 0;
    while i < |dictionary|
      invariant 0 <= i <= |dictionary|
      invariant r == Substituted(dictionary[..i], value)
    {
      var (key, val) := dictionary[i];
      assert dictionary[..i + 1][..i] == dictionary[..i];
      if Contains(r, key) {
        r := ReplaceAll(r, key, val);
      }
      i := i + 1;
    }
    assert dictionary[..i] == dictionary;
  }

  /** An empty dictionary, or one none of whose keys occurs in the value, leaves it unchanged. */
  lemma {:induction false} SubstitutedNoKey(dictionary: seq<(string, string)>, value: string)
    requires forall i :: 0 <= i < |dictionary| ==> !Contains(value, dictionary[i].0)
    ensures Substituted(dictionary, value) == value
  {
    if dictionary != [] {
      var init := dictionary[..|dictionary| - 1];
      assert forall i :: 0 <= i < |init| ==> init[i] == dictionary[i];
      SubstitutedNoKey(init, value);
    }
  }

  /** The `if key in value` guard never changes the outcome: it is str.replace applied for every key. */
  lemma {:induction false} SubstitutedIsPlainReplace(dictionary: seq<(string, string)>, value: string)
    ensures Substituted(dictionary, value) == ReplaceEach(dictionary, value)
  {
    if dictionary != [] {
      var init := dictionary[..|dictionary| - 1];
      SubstitutedIsPlainReplace(init, value);
      var (key, val) := dictionary[|dictionary| - 1];
      var v := Substituted(init, value);
      if !Contains(v, key) {
        ReplaceAbsent(v, key, val);
      }
    }
  }

  function ReplaceEach(dictionary: seq<(string, string)>, value: string): string {
    if dictionary == [] then value
    else
      var (key, val) := dictionary[|dictionary| - 1];
      ReplaceAll(ReplaceEach(dictionary[..|dictionary| - 1], value), key, val)
  }

  // ---------------------------------------------------------------------------
  // find_allowed_model_names
  // ---------------------------------------------------------------------------

  /** True iff some allowed name equals the model name, ignoring case. The allowed
      names (a module-level list in the source) are a parameter here. */
  method FindAllowedModelNames(allowedNames: seq<string>, modelName: string) returns (r: bool)
    ensures r <==> exists i :: 0 <= i < |allowedNames| && Lower(allowedNames[i]) == Lower(modelName)
  {
    var i := 0;
    while i < |allowedNames|
      invariant 0 <= i <= |allowedNames|
      invariant forall j :: 0 <= j < i ==> Lower(allowedNames[j]) != Lower(modelName)
    {
      if Lower(allowedNames[i]) == Lower(modelName) {
        return true;
      }
      i := i + 1;
    }
    return false;
  }

  // ---------------------------------------------------------------------------
  // per_num_of_num
  // ---------------------------------------------------------------------------

  /** How many percent `a` lies below `b`: 100 - a / b * 100 (b = 0 raises ZeroDivisionError). */
  function PerNumOfNum(a: real, b: real): real
    requires b != 0.0
  {
    100.0 - (a / b * 100.0)
  }

  /** For a positive base: 0 at equality, positive below it, negative above it. */
  lemma PerNumOfNumSign(a: real, b: real)
    requires b > 0.0
    ensures a == b ==> PerNumOfNum(a, b) == 0.0
    ensures a < b ==> PerNumOfNum(a, b) > 0.0
    ensures a > b ==> PerNumOfNum(a, b) < 0.0
  {
    if a < b {
      assert a / b < 1.0;
    } else if a > b {
      assert a / b > 1.0;
    }
  }

  /** For a positive base, "at least t percent below" is "at most b * (100 - t) / 100". */
  lemma PerNumOfNumThreshold(a: real, b: real, t: real)
    requires b > 0.0
    ensures PerNumOfNum(a, b) >= t <==> a * 100.0 <= b * (100.0 - t)
  {
    assert a / b * 100.0 * b == a * 100.0;
  }
}
