/** Ingestion of validated offers into the store. Each offer is resolved level by
    level (product by brand and model, configuration by ram and rom with the stored
    ram 0 as a wildcard, shop listing by configuration, shop and url, then the
    listing's prices); missing levels are inserted, a changed price is appended, and
    the call answers with one of the labels the source returns. Offers whose price
    changed are queued for the deal check. The connection state of the database is a
    field; each statement stamps its row with `now`, which is a parameter. */
module DbInserter {
  import opened Builtins
  import opened Helper
  import opened SqlReq
  import DataValidator

  /** check_item_on_errors: true when the offer is complete. */
  predicate CheckItemOnErrors(item: ParseResult) {
    !(item.category == [] || item.shop == [] || item.brandName == [] || item.modelName == []
      || item.color == [] || item.imgUrl == [] || item.productCode == [] || item.rom == 0 || item.price == 0)
  }

  /** With integer rom and price, the inserter's completeness test is the validator's. */
  lemma CheckItemAgreesWithValidation(item: ParseResult)
    ensures CheckItemOnErrors(item) <==> DataValidator.ValidationItem(item)
  {
  }

  /** The labels 'error', 'product', 'shop', 'version' and 'price'. */
  datatype Resp = RespError | RespProduct | RespShop | RespVersion | RespPrice

  /** The shop id of a shop name: its position in the shop list plus one. */
  function ShopId(name: string): Option<int> {
    match IndexOf(ShopsNameList, name)
    case None => None
    case Some(i) => Some(i + 1)
  }

  function CategoryId(name: string): Option<int> {
    match IndexOf(CategoriesNameList, name)
    case None => None
    case Some(i) => Some(i + 1)
  }

  /** A new listing for configuration `idVer` in shop `idShop`, with the offer's price. */
  function NewListing(st: Store, idShop: int, idProduct: int, idVer: int, item: ParseResult, now: int): Store {
    var (st1, idShopPhone) := InsertShopPhone(st, idShop, idProduct, idVer, item.url, item.productCode,
                                              item.color, item.rating, item.numRating, 0);
    InsertPrice(st1, idShop, idProduct, idShopPhone, item.price, now)
  }

  /** A new configuration of product `idProduct`, then its listing and price. */
  function NewVersion(st: Store, idShop: int, idProduct: int, item: ParseResult, now: int): Store {
    var (st1, idVer) := InsertVersion(st, idProduct, item.ram, item.rom, item.imgUrl);
    NewListing(st1, idShop, idProduct, idVer, item, now)
  }

  /** A new product (total rating 0), then its configuration, listing and price. */
  function NewProduct(st: Store, idCategory: int, idShop: int, item: ParseResult, now: int): Store {
    var (st1, idProduct) := InsertProduct(st, idCategory, item.brandName, item.modelName, 0.0);
    NewVersion(st1, idShop, idProduct, item, now)
  }

  /** The listing exists: append the price if it changed. No price at all, or the same
      last price, gives 'error' with nothing written. */
  function AddToListing(st: Store, idShop: int, idProduct: int, idShopPhone: int, item: ParseResult, now: int): (Store, Resp) {
    var prices := SelectPrice(st.prices, idShopPhone);
    if prices == [] then (st, RespError)
    else if prices[|prices| - 1] == item.price then (st, RespError)
    else (InsertPrice(st, idShop, idProduct, idShopPhone, item.price, now), RespPrice)
  }

  /** The configuration exists: find the listing by (configuration, shop, url). */
  function AddToVersion(st: Store, idShop: int, idProduct: int, idVer: int, item: ParseResult, now: int): (Store, Resp) {
    var listings := SelectIdShopPhone(st.shopsPhones, idVer, idShop, item.url);
    if listings == [] then (NewListing(st, idShop, idProduct, idVer, item, now), RespVersion)
    else AddToListing(st, idShop, idProduct, listings[0], item, now)
  }

  /** The product exists: find the configuration by ram (stored 0 matches any) and rom. */
  function AddToProduct(st: Store, idShop: int, idProduct: int, item: ParseResult, now: int): (Store, Resp) {
    var versions := SelectIdVerPhone(st.versions, idProduct, item.ram, item.rom);
    if versions == [] then (NewVersion(st, idShop, idProduct, item, now), RespShop)
    else AddToVersion(st, idShop, idProduct, versions[0], item, now)
  }

  /** __add_product_to_bd: the new store and the label. */
  function AddProduct(st: Store, connected: bool, item: ParseResult, now: int): (Store, Resp) {
    if !connected then (st, RespError)
    else if CategoryId(item.category).None? || ShopId(item.shop).None? then (st, RespError)
    else AddKnownProduct(st, CategoryId(item.category).value, ShopId(item.shop).value, item, now)
  }

  /** Category and shop are known: add the model if it is new, else go down a level. */
  function AddKnownProduct(st: Store, idCategory: int, idShop: int, item: ParseResult, now: int): (Store, Resp) {
    var products := SelectIdProduct(st.products, item.brandName, item.modelName);
    if products == [] then (NewProduct(st, idCategory, idShop, item, now), RespProduct)
    else AddToProduct(st, idShop, products[0], item, now)
  }

  /** The last price recorded for a listing. */
  function LastPriceOfListing(st: Store, idShopPhone: int): Option<int> {
    var prices := SelectPrice(st.prices, idShopPhone);
    if prices == [] then None else Some(prices[|prices| - 1])
  }

  function LastPriceOfVersion(st: Store, idVer: int, idShop: int, url: string): Option<int> {
    var listings := SelectIdShopPhone(st.shopsPhones, idVer, idShop, url);
    if listings == [] then None else LastPriceOfListing(st, listings[0])
  }

  function LastPriceOfProduct(st: Store, idProduct: int, idShop: int, item: ParseResult): Option<int> {
    var versions := SelectIdVerPhone(st.versions, idProduct, item.ram, item.rom);
    if versions == [] then None else LastPriceOfVersion(st, versions[0], idShop, item.url)
  }

  /** The last price recorded for the offer's listing, found by the same lookups. */
  function LastPrice(st: Store, item: ParseResult): Option<int> {
    if ShopId(item.shop).None? then None
    else
      var products := SelectIdProduct(st.products, item.brandName, item.modelName);
      if products == [] then None else LastPriceOfProduct(st, products[0], ShopId(item.shop).value, item)
  }

  /** Every table of `st` is a prefix of the same table in `st'`. */
  predicate AppendOnly(st: Store, st': Store) {
    st.products <= st'.products && st.versions <= st'.versions
    && st.shopsPhones <= st'.shopsPhones && st.prices <= st'.prices
  }

  /** No connection, or a category or shop outside the known lists: 'error', nothing written. */
  lemma AddProductRejects(st: Store, connected: bool, item: ParseResult, now: int)
    requires !connected || item.category !in CategoriesNameList || item.shop !in ShopsNameList
    ensures AddProduct(st, connected, item, now) == (st, RespError)
  {
  }

  /** What each label means for the tables: 'error' writes nothing, 'price' appends one
      price row, 'version' a listing and a price, 'shop' a configuration, a listing and a
      price, 'product' one row in every table; every appended price row is the offer's
      price stamped `now`. */
  predicate LabelEffects(st: Store, st': Store, r: Resp, item: ParseResult, now: int) {
    && (r == RespError ==> st' == st)
    && (r != RespError ==>
          (AppendOnly(st, st') && |st'.prices| == |st.prices| + 1
           && st'.prices[|st.prices|].price == item.price && st'.prices[|st.prices|].dateTime == now))
    && (r == RespPrice ==>
          (st'.products == st.products && st'.versions == st.versions && st'.shopsPhones == st.shopsPhones))
    && (r == RespVersion ==>
          (st'.products == st.products && st'.versions == st.versions
           && |st'.shopsPhones| == |st.shopsPhones| + 1 && st'.shopsPhones[|st.shopsPhones|].urlProduct == item.url))
    && (r == RespShop ==>
          (st'.products == st.products && |st'.versions| == |st.versions| + 1
           && |st'.shopsPhones| == |st.shopsPhones| + 1 && st'.versions[|st.versions|].rom == item.rom))
    && (r == RespProduct ==>
          (|st'.products| == |st.products| + 1 && |st'.versions| == |st.versions| + 1
           && |st'.shopsPhones| == |st.shopsPhones| + 1 && st'.products[|st.products|].brandName == item.brandName
           && st'.products[|st.products|].modelName == item.modelName))
  }

  lemma AddToListingEffects(st: Store, idShop: int, idProduct: int, idShopPhone: int, item: ParseResult, now: int)
    ensures var (st', r) := AddToListing(st, idShop, idProduct, idShopPhone, item, now);
      LabelEffects(st, st', r, item, now)
  {
  }

  lemma AddToVersionEffects(st: Store, idShop: int, idProduct: int, idVer: int, item: ParseResult, now: int)
    ensures var (st', r) := AddToVersion(st, idShop, idProduct, idVer, item, now);
      LabelEffects(st, st', r, item, now)
  {
    var listings := SelectIdShopPhone(st.shopsPhones, idVer, idShop, item.url);
    if listings != [] {
      AddToListingEffects(st, idShop, idProduct, listings[0], item, now);
    }
  }

  lemma AddToProductEffects(st: Store, idShop: int, idProduct: int, item: ParseResult, now: int)
    ensures var (st', r) := AddToProduct(st, idShop, idProduct, item, now);
      LabelEffects(st, st', r, item, now)
  {
    var versions := SelectIdVerPhone(st.versions, idProduct, item.ram, item.rom);
    if versions != [] {
      AddToVersionEffects(st, idShop, idProduct, versions[0], item, now);
    }
  }

  lemma AddProductEffects(st: Store, connected: bool, item: ParseResult, now: int)
    ensures var (st', r) := AddProduct(st, connected, item, now);
      LabelEffects(st, st', r, item, now)
  {
    if connected && CategoryId(item.category).Some? && ShopId(item.shop).Some? {
      var products := SelectIdProduct(st.products, item.brandName, item.modelName);
      if products != [] {
        AddToProductEffects(st, ShopId(item.shop).value, products[0], item, now);
      }
    }
  }

  /** 'price' is answered exactly when the offer's listing exists with a last price that
      differs from the offer's; the same last price gives 'error' with nothing written. */
  lemma AddProductPriceLabel(st: Store, item: ParseResult, now: int)
    requires item.category in CategoriesNameList
    ensures AddProduct(st, true, item, now).1 == RespPrice <==>
      LastPrice(st, item).Some? && LastPrice(st, item).value != item.price
    ensures LastPrice(st, item) == Some(item.price) ==> AddProduct(st, true, item, now) == (st, RespError)
  {
    if ShopId(item.shop).Some? {
      assert CategoryId(item.category).Some?;
      var products := SelectIdProduct(st.products, item.brandName, item.modelName);
      if products != [] {
        ProductPriceLabel(st, ShopId(item.shop).value, products[0], item, now);
      }
    }
  }

  lemma ProductPriceLabel(st: Store, idShop: int, idProduct: int, item: ParseResult, now: int)
    ensures AddToProduct(st, idShop, idProduct, item, now).1 == RespPrice <==>
      LastPriceOfProduct(st, idProduct, idShop, item).Some? && LastPriceOfProduct(st, idProduct, idShop, item).value != item.price
    ensures LastPriceOfProduct(st, idProduct, idShop, item) == Some(item.price) ==>
      AddToProduct(st, idShop, idProduct, item, now) == (st, RespError)
  {
    var versions := SelectIdVerPhone(st.versions, idProduct, item.ram, item.rom);
    if versions != [] {
      VersionPriceLabel(st, idShop, idProduct, versions[0], item, now);
    }
  }

  lemma VersionPriceLabel(st: Store, idShop: int, idProduct: int, idVer: int, item: ParseResult, now: int)
    ensures AddToVersion(st, idShop, idProduct, idVer, item, now).1 == RespPrice <==>
      LastPriceOfVersion(st, idVer, idShop, item.url).Some? && LastPriceOfVersion(st, idVer, idShop, item.url).value != item.price
    ensures LastPriceOfVersion(st, idVer, idShop, item.url) == Some(item.price) ==>
      AddToVersion(st, idShop, idProduct, idVer, item, now) == (st, RespError)
  {
  }

  lemma NewListingValid(st: Store, idShop: int, idProduct: int, idVer: int, item: ParseResult, now: int)
    requires Valid(st) && HasVersion(st, idVer)
    ensures Valid(NewListing(st, idShop, idProduct, idVer, item, now))
  {
    var (st1, idShopPhone) := InsertShopPhone(st, idShop, idProduct, idVer, item.url, item.productCode,
                                              item.color, item.rating, item.numRating, 0);
    InsertShopPhoneValid(st, idShop, idProduct, idVer, item.url, item.productCode, item.color, item.rating, item.numRating, 0);
    InsertPriceValid(st1, idShop, idProduct, idShopPhone, item.price, now);
  }

  lemma NewVersionValid(st: Store, idShop: int, idProduct: int, item: ParseResult, now: int)
    requires Valid(st) && HasProduct(st, idProduct)
    ensures Valid(NewVersion(st, idShop, idProduct, item, now))
  {
    var (st1, idVer) := InsertVersion(st, idProduct, item.ram, item.rom, item.imgUrl);
    InsertVersionValid(st, idProduct, item.ram, item.rom, item.imgUrl);
    NewListingValid(st1, idShop, idProduct, idVer, item, now);
  }

  lemma NewProductValid(st: Store, idCategory: int, idShop: int, item: ParseResult, now: int)
    requires Valid(st)
    ensures Valid(NewProduct(st, idCategory, idShop, item, now))
  {
    var (st1, idProduct) := InsertProduct(st, idCategory, item.brandName, item.modelName, 0.0);
    InsertProductValid(st, idCategory, item.brandName, item.modelName, 0.0);
    NewVersionValid(st1, idShop, idProduct, item, now);
  }

  lemma AddToVersionValid(st: Store, idShop: int, idProduct: int, idVer: int, item: ParseResult, now: int)
    requires Valid(st) && HasVersion(st, idVer)
    ensures Valid(AddToVersion(st, idShop, idProduct, idVer, item, now).0)
  {
    var listings := SelectIdShopPhone(st.shopsPhones, idVer, idShop, item.url);
    if listings == [] {
      NewListingValid(st, idShop, idProduct, idVer, item, now);
    } else {
      assert listings[0] in listings;
      assert HasShopPhone(st, listings[0]);
      var prices := SelectPrice(st.prices, listings[0]);
      if prices != [] && prices[|prices| - 1] != item.price {
        InsertPriceValid(st, idShop, idProduct, listings[0], item.price, now);
      }
    }
  }

  lemma AddToProductValid(st: Store, idShop: int, idProduct: int, item: ParseResult, now: int)
    requires Valid(st) && HasProduct(st, idProduct)
    ensures Valid(AddToProduct(st, idShop, idProduct, item, now).0)
  {
    var versions := SelectIdVerPhone(st.versions, idProduct, item.ram, item.rom);
    if versions == [] {
      NewVersionValid(st, idShop, idProduct, item, now);
    } else {
      assert versions[0] in versions;
      assert HasVersion(st, versions[0]);
      AddToVersionValid(st, idShop, idProduct, versions[0], item, now);
    }
  }

  /** A consistent store stays consistent. */
  lemma AddProductValid(st: Store, connected: bool, item: ParseResult, now: int)
    requires Valid(st)
    ensures Valid(AddProduct(st, connected, item, now).0)
  {
    if connected && CategoryId(item.category).Some? && ShopId(item.shop).Some? {
      var idShop := ShopId(item.shop).value;
      var products := SelectIdProduct(st.products, item.brandName, item.modelName);
      if products == [] {
        NewProductValid(st, CategoryId(item.category).value, idShop, item, now);
      } else {
        assert products[0] in products;
        assert HasProduct(st, products[0]);
        AddToProductValid(st, idShop, products[0], item, now);
      }
    }
  }

  /** A key the sequences have not handed out yet is referenced by no row. */
  lemma FreshKeysUnreferenced(st: Store)
    requires Valid(st)
    ensures forall ram, rom :: SelectIdVerPhone(st.versions, st.nextProduct, ram, rom) == []
    ensures forall idShop, url :: SelectIdShopPhone(st.shopsPhones, st.nextVersion, idShop, url) == []
    ensures SelectPrice(st.prices, st.nextShopPhone) == []
  {
  }

  /** A fresh listing's last price is the offer's price, and it is the first listing the
      lookup finds when there was none before. */
  lemma NewListingRecords(st: Store, idShop: int, idProduct: int, idVer: int, item: ParseResult, now: int)
    requires Valid(st) && SelectIdShopPhone(st.shopsPhones, idVer, idShop, item.url) == []
    ensures LastPriceOfVersion(NewListing(st, idShop, idProduct, idVer, item, now), idVer, idShop, item.url) == Some(item.price)
    ensures NewListing(st, idShop, idProduct, idVer, item, now).products == st.products
    ensures NewListing(st, idShop, idProduct, idVer, item, now).versions == st.versions
  {
    var (st1, idShopPhone) := InsertShopPhone(st, idShop, idProduct, idVer, item.url, item.productCode,
                                              item.color, item.rating, item.numRating, 0);
    var st2 := InsertPrice(st1, idShop, idProduct, idShopPhone, item.price, now);
    SelectIdShopPhoneAppend(st.shopsPhones, st1.shopsPhones[|st.shopsPhones|], idVer, idShop, item.url);
    assert SelectIdShopPhone(st2.shopsPhones, idVer, idShop, item.url) == [idShopPhone];
    FreshKeysUnreferenced(st);
    SelectPriceAppend(st.prices, st2.prices[|st.prices|], idShopPhone);
  }

  lemma NewVersionRecords(st: Store, idShop: int, idProduct: int, item: ParseResult, now: int)
    requires Valid(st) && HasProduct(st, idProduct) && SelectIdVerPhone(st.versions, idProduct, item.ram, item.rom) == []
    ensures LastPriceOfProduct(NewVersion(st, idShop, idProduct, item, now), idProduct, idShop, item) == Some(item.price)
    ensures NewVersion(st, idShop, idProduct, item, now).products == st.products
  {
    var (st1, idVer) := InsertVersion(st, idProduct, item.ram, item.rom, item.imgUrl);
    InsertVersionValid(st, idProduct, item.ram, item.rom, item.imgUrl);
    FreshKeysUnreferenced(st);
    NewListingRecords(st1, idShop, idProduct, idVer, item, now);
    SelectIdVerPhoneAppend(st.versions, st1.versions[|st.versions|], idProduct, item.ram, item.rom);
  }

  lemma NewProductRecords(st: Store, idCategory: int, idShop: int, item: ParseResult, now: int)
    requires Valid(st) && SelectIdProduct(st.products, item.brandName, item.modelName) == []
    ensures var st' := NewProduct(st, idCategory, idShop, item, now);
      SelectIdProduct(st'.products, item.brandName, item.modelName) == [st.nextProduct]
      && LastPriceOfProduct(st', st.nextProduct, idShop, item) == Some(item.price)
  {
    var (st1, idProduct) := InsertProduct(st, idCategory, item.brandName, item.modelName, 0.0);
    InsertProductValid(st, idCategory, item.brandName, item.modelName, 0.0);
    FreshKeysUnreferenced(st);
    NewVersionRecords(st1, idShop, idProduct, item, now);
    SelectIdProductAppend(st.products, st1.products[|st.products|], item.brandName, item.modelName);
  }

  lemma AddToVersionRecords(st: Store, idShop: int, idProduct: int, idVer: int, item: ParseResult, now: int)
    requires Valid(st) && AddToVersion(st, idShop, idProduct, idVer, item, now).1 != RespError
    ensures LastPriceOfVersion(AddToVersion(st, idShop, idProduct, idVer, item, now).0, idVer, idShop, item.url) == Some(item.price)
  {
    var listings := SelectIdShopPhone(st.shopsPhones, idVer, idShop, item.url);
    if listings == [] {
      NewListingRecords(st, idShop, idProduct, idVer, item, now);
    } else {
      var st' := InsertPrice(st, idShop, idProduct, listings[0], item.price, now);
      SelectPriceAppend(st.prices, st'.prices[|st.prices|], listings[0]);
    }
  }

  lemma AddToProductRecords(st: Store, idShop: int, idProduct: int, item: ParseResult, now: int)
    requires Valid(st) && HasProduct(st, idProduct) && AddToProduct(st, idShop, idProduct, item, now).1 != RespError
    ensures LastPriceOfProduct(AddToProduct(st, idShop, idProduct, item, now).0, idProduct, idShop, item) == Some(item.price)
  {
    var versions := SelectIdVerPhone(st.versions, idProduct, item.ram, item.rom);
    if versions == [] {
      NewVersionRecords(st, idShop, idProduct, item, now);
    } else {
      var st' := AddToVersion(st, idShop, idProduct, versions[0], item, now).0;
      AddToVersionRecords(st, idShop, idProduct, versions[0], item, now);
      assert st'.versions == st.versions;
    }
  }

  /** After any call that does not answer 'error', the offer's listing is found and its
      last price is the offer's price. */
  lemma AddProductRecordsPrice(st: Store, connected: bool, item: ParseResult, now: int)
    requires Valid(st)
    requires AddProduct(st, connected, item, now).1 != RespError
    ensures LastPrice(AddProduct(st, connected, item, now).0, item) == Some(item.price)
  {
    var idShop := ShopId(item.shop).value;
    var products := SelectIdProduct(st.products, item.brandName, item.modelName);
    if products == [] {
      NewProductRecords(st, CategoryId(item.category).value, idShop, item, now);
    } else {
      assert products[0] in products;
      var st' := AddToProduct(st, idShop, products[0], item, now).0;
      assert AddProduct(st, connected, item, now).0 == st';
      AddToProductKeepsProducts(st, idShop, products[0], item, now);
      AddToProductRecords(st, idShop, products[0], item, now);
    }
  }

  lemma AddToProductKeepsProducts(st: Store, idShop: int, idProduct: int, item: ParseResult, now: int)
    ensures AddToProduct(st, idShop, idProduct, item, now).0.products == st.products
  {
    AddToProductEffects(st, idShop, idProduct, item, now);
  }

  /** Adding the same offer twice writes once: the second call finds the price unchanged. */
  lemma AddProductIdempotent(st: Store, connected: bool, item: ParseResult, now: int, later: int)
    requires Valid(st)
    ensures var st' := AddProduct(st, connected, item, now).0;
      AddProduct(st', connected, item, later) == (st', RespError)
  {
    var res := AddProduct(st, connected, item, now);
    if res.1 != RespError {
      AddProductAccepted(st, connected, item, now);
      AddProductRecordsPrice(st, connected, item, now);
      AddProductPriceLabel(res.0, item, later);
    } else {
      AddProductErrorKeeps(st, connected, item, now);
      AddProductLabelTimeless(st, connected, item, now, later);
      AddProductErrorKeeps(st, connected, item, later);
    }
  }

  /** An answer other than 'error' means a connection, a known category and a known shop. */
  lemma AddProductAccepted(st: Store, connected: bool, item: ParseResult, now: int)
    requires AddProduct(st, connected, item, now).1 != RespError
    ensures connected && item.category in CategoriesNameList && item.shop in ShopsNameList
  {
    assert CategoryId(item.category).Some? && ShopId(item.shop).Some?;
  }

  lemma AddProductErrorKeeps(st: Store, connected: bool, item: ParseResult, now: int)
    requires AddProduct(st, connected, item, now).1 == RespError
    ensures AddProduct(st, connected, item, now).0 == st
  {
    AddProductEffects(st, connected, item, now);
  }

  /** The label does not depend on the time the statements are stamped with. */
  lemma AddProductLabelTimeless(st: Store, connected: bool, item: ParseResult, now: int, later: int)
    ensures AddProduct(st, connected, item, now).1 == AddProduct(st, connected, item, later).1
  {
    if connected && CategoryId(item.category).Some? && ShopId(item.shop).Some? {
      var products := SelectIdProduct(st.products, item.brandName, item.modelName);
      if products != [] {
        var idShop := ShopId(item.shop).value;
        var versions := SelectIdVerPhone(st.versions, products[0], item.ram, item.rom);
        if versions != [] {
          AddToVersionLabelTimeless(st, idShop, products[0], versions[0], item, now, later);
        }
      }
    }
  }

  lemma AddToVersionLabelTimeless(st: Store, idShop: int, idProduct: int, idVer: int, item: ParseResult, now: int, later: int)
    ensures AddToVersion(st, idShop, idProduct, idVer, item, now).1 == AddToVersion(st, idShop, idProduct, idVer, item, later).1
  {
  }

  // ---------------------------------------------------------------------------
  // The input list
  // ---------------------------------------------------------------------------

  /** The criteria of the queue's duplicate test: brand, model, ram, rom and price. */
  function ChangeKey(item: ParseResult): Query {
    map[BrandName := Text(item.brandName), ModelName := Text(item.modelName),
        Ram := Num(item.ram), Rom := Num(item.rom), Price := Num(item.price)]
  }

  /** Offers in order: incomplete ones are skipped, the rest are added, and an offer
      answered 'price' is queued unless a queued offer already matches its key.
      `clock(i)` is the time of the statements for the i-th offer. */
  function Ingest(st: Store, queue: seq<ParseResult>, connected: bool, items: seq<ParseResult>, clock: nat -> int)
    : (Store, seq<ParseResult>)
  {
    if items == [] then (st, queue)
    else
      var (st1, queue1) := Ingest(st, queue, connected, items[..|items| - 1], clock);
      var item := items[|items| - 1];
      if !CheckItemOnErrors(item) then (st1, queue1)
      else
        var (st2, r) := AddProduct(st1, connected, item, clock(|items| - 1));
        if r == RespPrice && Found(queue1, ParseResultGet, ChangeKey(item), true) == [] then (st2, queue1 + [item])
        else (st2, queue1)
  }

  /** No queued offer matches the key of an offer queued after it. */
  predicate QueueDistinct(queue: seq<ParseResult>, from: nat) {
    forall i, j :: 0 <= i < j < |queue| && from <= j ==> !Matches(ParseResultGet, queue[i], ChangeKey(queue[j]))
  }

  /** Adding an offer never changes or removes a row. */
  lemma AddProductAppendOnly(st: Store, connected: bool, item: ParseResult, now: int)
    ensures AppendOnly(st, AddProduct(st, connected, item, now).0)
  {
    AddProductEffects(st, connected, item, now);
  }

  /** Ingestion only appends to the tables, and a consistent store stays consistent. */
  lemma {:induction false} IngestKeepsStore(st: Store, queue: seq<ParseResult>, connected: bool,
                                            items: seq<ParseResult>, clock: nat -> int)
    requires Valid(st)
    ensures var st' := Ingest(st, queue, connected, items, clock).0;
      Valid(st') && AppendOnly(st, st')
  {
    if items != [] {
      var init := items[..|items| - 1];
      var item := items[|items| - 1];
      IngestKeepsStore(st, queue, connected, init, clock);
      var st1 := Ingest(st, queue, connected, init, clock).0;
      assert items[..|items| - 1] == init;
      if CheckItemOnErrors(item) {
        var st2 := AddProduct(st1, connected, item, clock(|items| - 1)).0;
        assert Ingest(st, queue, connected, items, clock).0 == st2;
        AddProductValid(st1, connected, item, clock(|items| - 1));
        AddProductAppendOnly(st1, connected, item, clock(|items| - 1));
      } else {
        assert Ingest(st, queue, connected, items, clock).0 == st1;
      }
    }
  }

  /** Ingestion only appends to the queue; every newly queued offer is a complete input
      offer, and none matches an offer queued before it. */
  lemma {:induction false} IngestQueue(st: Store, queue: seq<ParseResult>, connected: bool,
                                       items: seq<ParseResult>, clock: nat -> int)
    ensures var queue' := Ingest(st, queue, connected, items, clock).1;
      && queue <= queue'
      && (forall k :: |queue| <= k < |queue'| ==> queue'[k] in items && CheckItemOnErrors(queue'[k]))
      && QueueDistinct(queue', |queue|)
  {
    if items != [] {
      var init := items[..|items| - 1];
      var item := items[|items| - 1];
      IngestQueue(st, queue, connected, init, clock);
      var (st1, queue1) := Ingest(st, queue, connected, init, clock);
      assert forall x :: x in init ==> x in items;
      if CheckItemOnErrors(item) {
        var r := AddProduct(st1, connected, item, clock(|items| - 1)).1;
        if r == RespPrice && Found(queue1, ParseResultGet, ChangeKey(item), true) == [] {
          QueueAppend(queue, queue1, item);
        }
      }
    }
  }

  /** Queuing an offer that matches no queued offer keeps the queue distinct. */
  lemma QueueAppend(queue: seq<ParseResult>, queue1: seq<ParseResult>, item: ParseResult)
    requires |queue| <= |queue1| && QueueDistinct(queue1, |queue|)
    requires Found(queue1, ParseResultGet, ChangeKey(item), true) == []
    ensures QueueDistinct(queue1 + [item], |queue|)
  {
    FoundFirst(queue1, ParseResultGet, ChangeKey(item));
    var queue2 := queue1 + [item];
    forall i, j | 0 <= i < j < |queue2| && |queue| <= j
      ensures !Matches(ParseResultGet, queue2[i], ChangeKey(queue2[j]))
    {
      if j == |queue1| {
        assert queue2[i] == queue1[i];
      } else {
        assert queue2[i] == queue1[i] && queue2[j] == queue1[j];
      }
    }
  }

  class DbInserter {
    var store: Store
    var connected: bool
    var prParseResultList: seq<ParseResult>
    var prPriceChangeList: seq<ParseResult>

    constructor(parseResultList: seq<ParseResult>, db: Store)
      ensures store == db && !connected
      ensures prParseResultList == parseResultList && prPriceChangeList == []
    {
      store := db;
      connected := false;
      prParseResultList := parseResultList;
      prPriceChangeList := [];
    }

    /** __add_product_to_bd. */
    method AddProductToBd(item: ParseResult, now: int) returns (r: Resp)
      modifies this`store
      ensures (store, r) == AddProduct(old(store), connected, item, now)
    {
      if !connected {
        return RespError;
      }
      var idCategory := CategoryId(item.category);
      var idShop := ShopId(item.shop);
      if idCategory.None? || idShop.None? {
        return RespError;
      }
      r := AddKnownProductInBd(idCategory.value, idShop.value, item, now);
    }

    /** Category and shop are known: look up the model. */
    method AddKnownProductInBd(idCategory: int, idShop: int, item: ParseResult, now: int) returns (r: Resp)
      modifies this`store
      ensures (store, r) == AddKnownProduct(old(store), idCategory, idShop, item, now)
    {
      var products := SelectIdProduct(store.products, item.brandName, item.modelName);
      if products == [] {
        store := NewProduct(store, idCategory, idShop, item, now);
        return RespProduct;
      }
      r := AddToProductInBd(idShop, products[0], item, now);
    }

    /** The product exists: look up its configuration. */
    method AddToProductInBd(idShop: int, idProduct: int, item: ParseResult, now: int) returns (r: Resp)
      modifies this`store
      ensures (store, r) == AddToProduct(old(store), idShop, idProduct, item, now)
    {
      var versions := SelectIdVerPhone(store.versions, idProduct, item.ram, item.rom);
      if versions == [] {
        store := NewVersion(store, idShop, idProduct, item, now);
        return RespShop;
      }
      r := AddToVersionInBd(idShop, idProduct, versions[0], item, now);
    }

    /** The configuration exists: look up the listing. */
    method AddToVersionInBd(idShop: int, idProduct: int, idVer: int, item: ParseResult, now: int) returns (r: Resp)
      modifies this`store
      ensures (store, r) == AddToVersion(old(store), idShop, idProduct, idVer, item, now)
    {
      var listings := SelectIdShopPhone(store.shopsPhones, idVer, idShop, item.url);
      if listings == [] {
        store := NewListing(store, idShop, idProduct, idVer, item, now);
        return RespVersion;
      }
      r := AddToListingInBd(idShop, idProduct, listings[0], item, now);
    }

    /** The listing exists: append the price when it changed. */
    method AddToListingInBd(idShop: int, idProduct: int, idShopPhone: int, item: ParseResult, now: int) returns (r: Resp)
      modifies this`store
      ensures (store, r) == AddToListing(old(store), idShop, idProduct, idShopPhone, item, now)
    {
      var prices := SelectPrice(store.prices, idShopPhone);
      if prices == [] {
        return RespError;
      }
      if prices[|prices| - 1] != item.price {
        store := InsertPrice(store, idShop, idProduct, idShopPhone, item.price, now);
        return RespPrice;
      }
      // unchanged price: nothing is written and the call ends in the final 'error'
      return RespError;
    }

    /** The loop of __add_input_list_to_db over a list that passed the guard. */
    method AddItems(productList: seq<ParseResult>, clock: nat -> int)
      modifies this`store, this`prPriceChangeList
      ensures (store, prPriceChangeList) == Ingest(old(store), old(prPriceChangeList), connected, productList, clock)
    {
      var i := 0;
      while i < |productList|
        invariant 0 <= i <= |productList|
        invariant (store, prPriceChangeList) ==
          Ingest(old(store), old(prPriceChangeList), connected, productList[..i], clock)
      {
        var item := productList[i];
        assert productList[..i + 1][..i] == productList[..i];
        if CheckItemOnErrors(item) {
          var resp := AddProductToBd(item, clock(i));
          var already := FindInNamedtupleList(prPriceChangeList, ParseResultGet, ChangeKey(item), true);
          if resp == RespPrice && already == [] {
            prPriceChangeList := prPriceChangeList + [item];
          }
        }
        i := i + 1;
      }
      assert productList[..i] == productList;
    }

    /** __add_input_list_to_db as written: it returns at once unless both its argument
        and the stored offer list are non-empty. A missing argument is the empty list. */
    method AddInputListToDb(productList: seq<ParseResult>, clock: nat -> int)
      modifies this`store, this`prPriceChangeList
      ensures productList == [] || prParseResultList == [] ==>
        store == old(store) && prPriceChangeList == old(prPriceChangeList)
      ensures productList != [] && prParseResultList != [] ==>
        (store, prPriceChangeList) == Ingest(old(store), old(prPriceChangeList), connected, productList, clock)
    {
      if productList == [] || prParseResultList == [] {
        return;
      }
      AddItems(productList, clock);
    }

    /** run as written: connect, call the list step without an argument, disconnect.
        The store and the queue come out as they went in. */
    method Run(connects: bool, clock: nat -> int) returns (r: seq<ParseResult>)
      modifies this`store, this`prPriceChangeList, this`connected
      ensures store == old(store) && r == old(prPriceChangeList) && prPriceChangeList == r
      ensures !connected
    {
      connected := connects;
      AddInputListToDb([], clock);
      connected := false;
      r := prPriceChangeList;
    }

    /** The list step with the guard its fallback evidently intends: return only when
        both lists are empty, otherwise ingest the argument or, failing that, the stored
        offer list. */
    method AddInputListToDbIntended(productList: seq<ParseResult>, clock: nat -> int)
      modifies this`store, this`prPriceChangeList
      ensures (store, prPriceChangeList) ==
        Ingest(old(store), old(prPriceChangeList), connected,
               if productList != [] then productList else prParseResultList, clock)
    {
      if productList == [] && prParseResultList == [] {
        return;
      }
      var items := if productList != [] then productList else prParseResultList;
      AddItems(items, clock);
    }

    /** run with the intended guard: every stored offer is ingested while connected. */
    method RunIntended(connects: bool, clock: nat -> int) returns (r: seq<ParseResult>)
      modifies this`store, this`prPriceChangeList, this`connected
      ensures (store, r) == Ingest(old(store), old(prPriceChangeList), connects, prParseResultList, clock)
      ensures prPriceChangeList == r && !connected
    {
      connected := connects;
      AddInputListToDbIntended([], clock);
      connected := false;
      r := prPriceChangeList;
    }
  }
}
