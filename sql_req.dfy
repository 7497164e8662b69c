/** The relational store the pipeline reads and writes, with the meaning the SQL
    text gives it: four tables with SERIAL keys and ON DELETE CASCADE foreign keys,
    the `general_table` view joining them, the lookups, the inserts and the two
    price queries (full history newest first, and latest price per url).
    Tables are sequences of rows in insertion order; a query without ORDER BY is
    taken to return rows in that order. Timestamps are integers in microseconds. */
module SqlReq {
  import opened Builtins

  // ---------------------------------------------------------------------------
  // Tables
  // ---------------------------------------------------------------------------

  datatype ProductRow = ProductRow(
    idProduct: int, idCategory: int, brandName: string, modelName: string, totalRating: real)

  datatype VersionRow = VersionRow(
    idVerPhone: int, idProduct: int, ram: int, rom: int, imgUrl: string)

  datatype ShopPhoneRow = ShopPhoneRow(
    idShopPhone: int, idShopName: int, idProduct: int, idVerPhone: int, urlProduct: string,
    productCode: string, color: string, localRating: real, numLocalRating: int, bonusRubles: int)

  datatype PriceRow = PriceRow(
    id: int, idShopName: int, idProduct: int, idShopPhone: int, price: int, dateTime: int)

  /** The four tables and the next value of each SERIAL sequence. */
  datatype Store = Store(
    products: seq<ProductRow>, versions: seq<VersionRow>,
    shopsPhones: seq<ShopPhoneRow>, prices: seq<PriceRow>,
    nextProduct: int, nextVersion: int, nextShopPhone: int, nextPrice: int)

  /** A freshly created database. */
  const EmptyStore := Store([], [], [], [], 1, 1, 1, 1)

  /** Primary keys are unique and below their sequence; every foreign key resolves:
      version -> product, shop listing -> version, price -> shop listing. */
  predicate Valid(st: Store) {
    UniqueKeys(st) && KeysBelowSequences(st) && ForeignKeys(st)
  }

  predicate UniqueKeys(st: Store) {
    && (forall a, b :: a in st.products && b in st.products && a.idProduct == b.idProduct ==> a == b)
    && (forall a, b :: a in st.versions && b in st.versions && a.idVerPhone == b.idVerPhone ==> a == b)
    && (forall a, b :: a in st.shopsPhones && b in st.shopsPhones && a.idShopPhone == b.idShopPhone ==> a == b)
    && (forall a, b :: a in st.prices && b in st.prices && a.id == b.id ==> a == b)
  }

  predicate KeysBelowSequences(st: Store) {
    && st.nextProduct >= 1 && st.nextVersion >= 1 && st.nextShopPhone >= 1 && st.nextPrice >= 1
    && (forall a :: a in st.products ==> 1 <= a.idProduct < st.nextProduct)
    && (forall a :: a in st.versions ==> 1 <= a.idVerPhone < st.nextVersion)
    && (forall a :: a in st.shopsPhones ==> 1 <= a.idShopPhone < st.nextShopPhone)
    && (forall a :: a in st.prices ==> 1 <= a.id < st.nextPrice)
  }

  predicate ForeignKeys(st: Store) {
    && (forall v :: v in st.versions ==> HasProduct(st, v.idProduct))
    && (forall s :: s in st.shopsPhones ==> HasVersion(st, s.idVerPhone))
    && (forall p :: p in st.prices ==> HasShopPhone(st, p.idShopPhone))
  }

  /** Every row of `small` is a row of `big`, and the sequences are the same. */
  predicate RowsWithin(small: Store, big: Store) {
    && (forall x :: x in small.products ==> x in big.products)
    && (forall x :: x in small.versions ==> x in big.versions)
    && (forall x :: x in small.shopsPhones ==> x in big.shopsPhones)
    && (forall x :: x in small.prices ==> x in big.prices)
    && small.nextProduct == big.nextProduct && small.nextVersion == big.nextVersion
    && small.nextShopPhone == big.nextShopPhone && small.nextPrice == big.nextPrice
  }

  /** Removing rows keeps keys unique and below their sequences. */
  lemma ValidWithin(small: Store, big: Store)
    requires Valid(big) && RowsWithin(small, big) && ForeignKeys(small)
    ensures Valid(small)
  {
  }

  predicate HasProduct(st: Store, id: int) {
    exists p :: p in st.products && p.idProduct == id
  }

  predicate HasVersion(st: Store, id: int) {
    exists v :: v in st.versions && v.idVerPhone == id
  }

  predicate HasShopPhone(st: Store, id: int) {
    exists s :: s in st.shopsPhones && s.idShopPhone == id
  }

  lemma EmptyStoreValid()
    ensures Valid(EmptyStore)
  {
  }

  // ---------------------------------------------------------------------------
  // Lookups
  // ---------------------------------------------------------------------------

  /** Products with this brand and model; the category is not part of the key. */
  function SelectIdProduct(products: seq<ProductRow>, brandName: string, modelName: string): (r: seq<int>)
    ensures forall id :: id in r <==>
      exists p :: p in products && p.brandName == brandName && p.modelName == modelName && p.idProduct == id
  {
    if products == [] then []
    else
      var init := products[..|products| - 1];
      var p := products[|products| - 1];
      assert products == init + [p];
      SelectIdProduct(init, brandName, modelName)
        + (if p.brandName == brandName && p.modelName == modelName then [p.idProduct] else [])
  }

  /** A stored configuration answers a request when the product and rom agree and the
      stored ram is the requested one or the wildcard 0. */
  predicate VersionAnswers(v: VersionRow, idProduct: int, ram: int, rom: int) {
    v.idProduct == idProduct && (v.ram == ram || v.ram == 0) && v.rom == rom
  }

  function SelectIdVerPhone(versions: seq<VersionRow>, idProduct: int, ram: int, rom: int): (r: seq<int>)
    ensures forall id :: id in r <==>
      exists v :: v in versions && VersionAnswers(v, idProduct, ram, rom) && v.idVerPhone == id
    ensures r == [] <==> forall v :: v in versions ==> !VersionAnswers(v, idProduct, ram, rom)
  {
    if versions == [] then []
    else
      var init := versions[..|versions| - 1];
      var v := versions[|versions| - 1];
      assert versions == init + [v];
      SelectIdVerPhone(init, idProduct, ram, rom)
        + (if VersionAnswers(v, idProduct, ram, rom) then [v.idVerPhone] else [])
  }

  /** Shop listings keyed by (configuration, shop, url). */
  function SelectIdShopPhone(shops: seq<ShopPhoneRow>, idVerPhone: int, idShopName: int, url: string): (r: seq<int>)
    ensures forall id :: id in r <==>
      exists s :: s in shops && s.idVerPhone == idVerPhone && s.idShopName == idShopName
        && s.urlProduct == url && s.idShopPhone == id
    ensures r == [] <==> forall s :: s in shops ==> !(s.idVerPhone == idVerPhone && s.idShopName == idShopName && s.urlProduct == url)
  {
    if shops == [] then []
    else
      var init := shops[..|shops| - 1];
      var s := shops[|shops| - 1];
      assert shops == init + [s];
      SelectIdShopPhone(init, idVerPhone, idShopName, url)
        + (if s.idVerPhone == idVerPhone && s.idShopName == idShopName && s.urlProduct == url
           then [s.idShopPhone] else [])
  }

  /** Every price of a listing, in table order (no ORDER BY). */
  function SelectPrice(prices: seq<PriceRow>, idShopPhone: int): (r: seq<int>)
    ensures |r| <= |prices|
    ensures forall x :: x in r <==> exists p :: p in prices && p.idShopPhone == idShopPhone && p.price == x
    ensures r == [] <==> forall p :: p in prices ==> p.idShopPhone != idShopPhone
  {
    if prices == [] then []
    else
      var init := prices[..|prices| - 1];
      var p := prices[|prices| - 1];
      assert prices == init + [p];
      SelectPrice(init, idShopPhone) + (if p.idShopPhone == idShopPhone then [p.price] else [])
  }

  lemma {:induction false} SelectIdProductAppend(products: seq<ProductRow>, row: ProductRow, brandName: string, modelName: string)
    ensures SelectIdProduct(products + [row], brandName, modelName) ==
      SelectIdProduct(products, brandName, modelName)
        + (if row.brandName == brandName && row.modelName == modelName then [row.idProduct] else [])
  {
    assert (products + [row])[..|products|] == products;
  }

  lemma {:induction false} SelectIdVerPhoneAppend(versions: seq<VersionRow>, row: VersionRow, idProduct: int, ram: int, rom: int)
    ensures SelectIdVerPhone(versions + [row], idProduct, ram, rom) ==
      SelectIdVerPhone(versions, idProduct, ram, rom) + (if VersionAnswers(row, idProduct, ram, rom) then [row.idVerPhone] else [])
  {
    assert (versions + [row])[..|versions|] == versions;
  }

  lemma {:induction false} SelectIdShopPhoneAppend(shops: seq<ShopPhoneRow>, row: ShopPhoneRow, idVerPhone: int, idShopName: int, url: string)
    ensures SelectIdShopPhone(shops + [row], idVerPhone, idShopName, url) ==
      SelectIdShopPhone(shops, idVerPhone, idShopName, url)
        + (if row.idVerPhone == idVerPhone && row.idShopName == idShopName && row.urlProduct == url
           then [row.idShopPhone] else [])
  {
    assert (shops + [row])[..|shops|] == shops;
  }

  /** A new price row for a listing becomes the last price that listing's lookup returns. */
  lemma {:induction false} SelectPriceAppend(prices: seq<PriceRow>, row: PriceRow, idShopPhone: int)
    ensures SelectPrice(prices + [row], idShopPhone) ==
      SelectPrice(prices, idShopPhone) + (if row.idShopPhone == idShopPhone then [row.price] else [])
  {
    assert (prices + [row])[..|prices|] == prices;
  }

  // ---------------------------------------------------------------------------
  // Inserts (RETURNING the new key)
  // ---------------------------------------------------------------------------

  function InsertProduct(st: Store, idCategory: int, brandName: string, modelName: string, totalRating: real): (Store, int) {
    var id := st.nextProduct;
    (st.(products := st.products + [ProductRow(id, idCategory, brandName, modelName, totalRating)],
         nextProduct := id + 1), id)
  }

  function InsertVersion(st: Store, idProduct: int, ram: int, rom: int, imgUrl: string): (Store, int) {
    var id := st.nextVersion;
    (st.(versions := st.versions + [VersionRow(id, idProduct, ram, rom, imgUrl)], nextVersion := id + 1), id)
  }

  function InsertShopPhone(st: Store, idShopName: int, idProduct: int, idVerPhone: int, url: string,
                           productCode: string, color: string, localRating: real, numLocalRating: int,
                           bonusRubles: int): (Store, int) {
    var id := st.nextShopPhone;
    (st.(shopsPhones := st.shopsPhones + [ShopPhoneRow(id, idShopName, idProduct, idVerPhone, url, productCode,
                                                        color, localRating, numLocalRating, bonusRubles)],
         nextShopPhone := id + 1), id)
  }

  function InsertPrice(st: Store, idShopName: int, idProduct: int, idShopPhone: int, price: int, dateTime: int): Store {
    st.(prices := st.prices + [PriceRow(st.nextPrice, idShopName, idProduct, idShopPhone, price, dateTime)],
        nextPrice := st.nextPrice + 1)
  }

  /** Every insert keeps the store consistent as long as the key it refers to exists,
      and returns a key no existing row has. */
  lemma InsertProductValid(st: Store, idCategory: int, brandName: string, modelName: string, totalRating: real)
    requires Valid(st)
    ensures Valid(InsertProduct(st, idCategory, brandName, modelName, totalRating).0)
    ensures HasProduct(InsertProduct(st, idCategory, brandName, modelName, totalRating).0,
                       InsertProduct(st, idCategory, brandName, modelName, totalRating).1)
    ensures !HasProduct(st, InsertProduct(st, idCategory, brandName, modelName, totalRating).1)
  {
    var st' := InsertProduct(st, idCategory, brandName, modelName, totalRating).0;
    forall v | v in st'.versions ensures HasProduct(st', v.idProduct) {
      var p :| p in st.products && p.idProduct == v.idProduct;
      assert p in st'.products;
    }
    assert st'.products[|st.products|] in st'.products;
  }

  lemma InsertVersionValid(st: Store, idProduct: int, ram: int, rom: int, imgUrl: string)
    requires Valid(st) && HasProduct(st, idProduct)
    ensures Valid(InsertVersion(st, idProduct, ram, rom, imgUrl).0)
    ensures HasVersion(InsertVersion(st, idProduct, ram, rom, imgUrl).0, InsertVersion(st, idProduct, ram, rom, imgUrl).1)
    ensures !HasVersion(st, InsertVersion(st, idProduct, ram, rom, imgUrl).1)
  {
    var st' := InsertVersion(st, idProduct, ram, rom, imgUrl).0;
    forall s | s in st'.shopsPhones ensures HasVersion(st', s.idVerPhone) {
      var v :| v in st.versions && v.idVerPhone == s.idVerPhone;
      assert v in st'.versions;
    }
    assert st'.versions[|st.versions|] in st'.versions;
  }

  lemma InsertShopPhoneValid(st: Store, idShopName: int, idProduct: int, idVerPhone: int, url: string,
                             productCode: string, color: string, localRating: real, numLocalRating: int,
                             bonusRubles: int)
    requires Valid(st) && HasVersion(st, idVerPhone)
    ensures Valid(InsertShopPhone(st, idShopName, idProduct, idVerPhone, url, productCode, color,
                                  localRating, numLocalRating, bonusRubles).0)
    ensures HasShopPhone(InsertShopPhone(st, idShopName, idProduct, idVerPhone, url, productCode, color,
                                         localRating, numLocalRating, bonusRubles).0,
                         InsertShopPhone(st, idShopName, idProduct, idVerPhone, url, productCode, color,
                                         localRating, numLocalRating, bonusRubles).1)
    ensures !HasShopPhone(st, InsertShopPhone(st, idShopName, idProduct, idVerPhone, url, productCode, color,
                                              localRating, numLocalRating, bonusRubles).1)
  {
    var st' := InsertShopPhone(st, idShopName, idProduct, idVerPhone, url, productCode, color,
                               localRating, numLocalRating, bonusRubles).0;
    forall p | p in st'.prices ensures HasShopPhone(st', p.idShopPhone) {
      var s :| s in st.shopsPhones && s.idShopPhone == p.idShopPhone;
      assert s in st'.shopsPhones;
    }
    assert st'.shopsPhones[|st.shopsPhones|] in st'.shopsPhones;
  }

  lemma InsertPriceValid(st: Store, idShopName: int, idProduct: int, idShopPhone: int, price: int, dateTime: int)
    requires Valid(st) && HasShopPhone(st, idShopPhone)
    ensures Valid(InsertPrice(st, idShopName, idProduct, idShopPhone, price, dateTime))
  {
  }

  // ---------------------------------------------------------------------------
  // ON DELETE CASCADE
  // ---------------------------------------------------------------------------

  /** Deleting a shop listing deletes its prices. */
  function DeleteShopPhone(st: Store, idShopPhone: int): Store {
    st.(shopsPhones := Filter(st.shopsPhones, (s: ShopPhoneRow) => s.idShopPhone != idShopPhone),
        prices := Filter(st.prices, (p: PriceRow) => p.idShopPhone != idShopPhone))
  }

  /** Deleting a configuration deletes its shop listings, and those delete their prices. */
  function DeleteVersion(st: Store, idVerPhone: int): Store {
    var gone := set s | s in st.shopsPhones && s.idVerPhone == idVerPhone :: s.idShopPhone;
    st.(versions := Filter(st.versions, (v: VersionRow) => v.idVerPhone != idVerPhone),
        shopsPhones := Filter(st.shopsPhones, (s: ShopPhoneRow) => s.idVerPhone != idVerPhone),
        prices := Filter(st.prices, (p: PriceRow) => p.idShopPhone !in gone))
  }

  /** Deleting a product deletes its configurations, and the cascade continues from there. */
  function DeleteProduct(st: Store, idProduct: int): Store {
    var goneVersions := set v | v in st.versions && v.idProduct == idProduct :: v.idVerPhone;
    var goneShops := set s | s in st.shopsPhones && s.idVerPhone in goneVersions :: s.idShopPhone;
    st.(products := Filter(st.products, (p: ProductRow) => p.idProduct != idProduct),
        versions := Filter(st.versions, (v: VersionRow) => v.idProduct != idProduct),
        shopsPhones := Filter(st.shopsPhones, (s: ShopPhoneRow) => s.idVerPhone !in goneVersions),
        prices := Filter(st.prices, (p: PriceRow) => p.idShopPhone !in goneShops))
  }

  /** After deleting a listing no price refers to it, every other price stays, and the
      store is still consistent. */
  lemma DeleteShopPhoneCascades(st: Store, idShopPhone: int)
    requires Valid(st)
    ensures Valid(DeleteShopPhone(st, idShopPhone))
    ensures !HasShopPhone(DeleteShopPhone(st, idShopPhone), idShopPhone)
    ensures forall p :: p in DeleteShopPhone(st, idShopPhone).prices <==> p in st.prices && p.idShopPhone != idShopPhone
  {
    var st' := DeleteShopPhone(st, idShopPhone);
    forall p | p in st'.prices ensures HasShopPhone(st', p.idShopPhone) {
      var s :| s in st.shopsPhones && s.idShopPhone == p.idShopPhone;
      assert s in st'.shopsPhones;
    }
    ValidWithin(st', st);
  }

  /** After deleting a configuration no listing refers to it, no price refers to one of
      its listings, every other row stays, and the store is still consistent. */
  lemma DeleteVersionCascades(st: Store, idVerPhone: int)
    requires Valid(st)
    ensures Valid(DeleteVersion(st, idVerPhone))
    ensures !HasVersion(DeleteVersion(st, idVerPhone), idVerPhone)
    ensures forall s :: s in DeleteVersion(st, idVerPhone).shopsPhones <==> s in st.shopsPhones && s.idVerPhone != idVerPhone
    ensures forall p, s :: (p in st.prices && s in st.shopsPhones && s.idVerPhone == idVerPhone
      && p.idShopPhone == s.idShopPhone) ==> p !in DeleteVersion(st, idVerPhone).prices
    ensures forall p :: p in st.prices && p !in DeleteVersion(st, idVerPhone).prices ==>
      exists s :: s in st.shopsPhones && s.idVerPhone == idVerPhone && p.idShopPhone == s.idShopPhone
  {
    var st' := DeleteVersion(st, idVerPhone);
    var gone := set s | s in st.shopsPhones && s.idVerPhone == idVerPhone :: s.idShopPhone;
    forall s | s in st'.shopsPhones ensures HasVersion(st', s.idVerPhone) {
      var v :| v in st.versions && v.idVerPhone == s.idVerPhone;
      assert v in st'.versions;
    }
    forall p | p in st'.prices ensures HasShopPhone(st', p.idShopPhone) {
      var s :| s in st.shopsPhones && s.idShopPhone == p.idShopPhone;
      assert s in st'.shopsPhones;
    }
    forall p, s | p in st.prices && s in st.shopsPhones && s.idVerPhone == idVerPhone && p.idShopPhone == s.idShopPhone
      ensures p !in st'.prices
    {
      assert p.idShopPhone in gone;
    }
    ValidWithin(st', st);
  }

  /** Deleting a product leaves no configuration of it and keeps the store consistent. */
  lemma DeleteProductCascades(st: Store, idProduct: int)
    requires Valid(st)
    ensures Valid(DeleteProduct(st, idProduct))
    ensures !HasProduct(DeleteProduct(st, idProduct), idProduct)
    ensures forall v :: v in DeleteProduct(st, idProduct).versions <==> v in st.versions && v.idProduct != idProduct
  {
    var st' := DeleteProduct(st, idProduct);
    var goneVersions := set v | v in st.versions && v.idProduct == idProduct :: v.idVerPhone;
    var goneShops := set s | s in st.shopsPhones && s.idVerPhone in goneVersions :: s.idShopPhone;
    forall v | v in st'.versions ensures HasProduct(st', v.idProduct) {
      var p :| p in st.products && p.idProduct == v.idProduct;
      assert p in st'.products;
    }
    forall s | s in st'.shopsPhones ensures HasVersion(st', s.idVerPhone) {
      var v :| v in st.versions && v.idVerPhone == s.idVerPhone;
      assert v in st'.versions;
    }
    forall p | p in st'.prices ensures HasShopPhone(st', p.idShopPhone) {
      var s :| s in st.shopsPhones && s.idShopPhone == p.idShopPhone;
      assert s in st'.shopsPhones;
    }
    ValidWithin(st', st);
  }

  // ---------------------------------------------------------------------------
  // The general_table view
  // ---------------------------------------------------------------------------

  datatype GeneralRow = GeneralRow(
    idProduct: int, idCategory: int, brandName: string, modelName: string, totalRating: real,
    idVerPhone: int, ram: int, rom: int, imgUrl: string,
    idShopPhone: int, idShopName: int, urlProduct: string, productCode: string, color: string,
    localRating: real, numLocalRating: int, bonusRubles: int,
    id: int, price: int, dateTime: int)

  function Joined(p: ProductRow, v: VersionRow, s: ShopPhoneRow, pr: PriceRow): GeneralRow {
    GeneralRow(p.idProduct, p.idCategory, p.brandName, p.modelName, p.totalRating,
               v.idVerPhone, v.ram, v.rom, v.imgUrl,
               s.idShopPhone, s.idShopName, s.urlProduct, s.productCode, s.color,
               s.localRating, s.numLocalRating, s.bonusRubles,
               pr.id, pr.price, pr.dateTime)
  }

  /** The four rows are linked by their keys as the view's JOIN ... USING requires. */
  predicate Linked(p: ProductRow, v: VersionRow, s: ShopPhoneRow, pr: PriceRow) {
    pr.idShopPhone == s.idShopPhone && s.idVerPhone == v.idVerPhone && v.idProduct == p.idProduct
  }

  function FindShopPhone(rows: seq<ShopPhoneRow>, id: int): (r: Option<ShopPhoneRow>)
    ensures r.Some? ==> r.value in rows && r.value.idShopPhone == id
    ensures r.None? ==> forall s :: s in rows ==> s.idShopPhone != id
  {
    if rows == [] then None
    else if rows[0].idShopPhone == id then Some(rows[0])
    else FindShopPhone(rows[1..], id)
  }

  function FindVersion(rows: seq<VersionRow>, id: int): (r: Option<VersionRow>)
    ensures r.Some? ==> r.value in rows && r.value.idVerPhone == id
    ensures r.None? ==> forall v :: v in rows ==> v.idVerPhone != id
  {
    if rows == [] then None
    else if rows[0].idVerPhone == id then Some(rows[0])
    else FindVersion(rows[1..], id)
  }

  function FindProduct(rows: seq<ProductRow>, id: int): (r: Option<ProductRow>)
    ensures r.Some? ==> r.value in rows && r.value.idProduct == id
    ensures r.None? ==> forall p :: p in rows ==> p.idProduct != id
  {
    if rows == [] then None
    else if rows[0].idProduct == id then Some(rows[0])
    else FindProduct(rows[1..], id)
  }

  /** The view row a price contributes, if its listing, configuration and product exist. */
  function JoinPrice(st: Store, pr: PriceRow): Option<GeneralRow> {
    match FindShopPhone(st.shopsPhones, pr.idShopPhone)
    case None => None
    case Some(s) =>
      match FindVersion(st.versions, s.idVerPhone)
      case None => None
      case Some(v) =>
        match FindProduct(st.products, v.idProduct)
        case None => None
        case Some(p) => Some(Joined(p, v, s, pr))
  }

  function JoinPrices(st: Store, prices: seq<PriceRow>): seq<GeneralRow> {
    if prices == [] then []
    else
      var init := JoinPrices(st, prices[..|prices| - 1]);
      match JoinPrice(st, prices[|prices| - 1])
      case None => init
      case Some(g) => init + [g]
  }

  /** general_table, one row per price, in price-table order. */
  function General(st: Store): seq<GeneralRow> {
    JoinPrices(st, st.prices)
  }

  lemma {:induction false} JoinPricesMembers(st: Store, prices: seq<PriceRow>, g: GeneralRow)
    ensures g in JoinPrices(st, prices) <==> exists pr :: pr in prices && JoinPrice(st, pr) == Some(g)
  {
    if prices != [] {
      var init := prices[..|prices| - 1];
      JoinPricesMembers(st, init, g);
      assert prices == init + [prices[|prices| - 1]];
    }
  }

  /** Every view row comes from four linked rows of the tables. */
  lemma GeneralRowSource(st: Store, g: GeneralRow)
    requires g in General(st)
    ensures exists p, v, s, pr ::
      (p in st.products && v in st.versions && s in st.shopsPhones && pr in st.prices
       && Linked(p, v, s, pr) && g == Joined(p, v, s, pr))
  {
    JoinPricesMembers(st, st.prices, g);
    var pr :| pr in st.prices && JoinPrice(st, pr) == Some(g);
    var s := FindShopPhone(st.shopsPhones, pr.idShopPhone).value;
    var v := FindVersion(st.versions, s.idVerPhone).value;
    var p := FindProduct(st.products, v.idProduct).value;
    assert Linked(p, v, s, pr) && g == Joined(p, v, s, pr);
  }

  /** In a consistent store, every four linked rows give a view row. */
  lemma GeneralRowComplete(st: Store, p: ProductRow, v: VersionRow, s: ShopPhoneRow, pr: PriceRow)
    requires Valid(st)
    requires p in st.products && v in st.versions && s in st.shopsPhones && pr in st.prices
    requires Linked(p, v, s, pr)
    ensures Joined(p, v, s, pr) in General(st)
  {
    assert JoinPrice(st, pr) == Some(Joined(p, v, s, pr));
    JoinPricesMembers(st, st.prices, Joined(p, v, s, pr));
  }

  /** In a consistent store every price row appears in the view exactly once. */
  lemma {:induction false} GeneralLength(st: Store, prices: seq<PriceRow>)
    requires Valid(st)
    requires forall pr :: pr in prices ==> pr in st.prices
    ensures |JoinPrices(st, prices)| == |prices|
  {
    if prices != [] {
      var init := prices[..|prices| - 1];
      var pr := prices[|prices| - 1];
      assert forall x :: x in init ==> x in prices;
      GeneralLength(st, init);
      JoinPriceDefined(st, pr);
    }
  }

  lemma JoinPriceDefined(st: Store, pr: PriceRow)
    requires Valid(st) && pr in st.prices
    ensures JoinPrice(st, pr).Some?
  {
    assert HasShopPhone(st, pr.idShopPhone);
    var s := FindShopPhone(st.shopsPhones, pr.idShopPhone);
    assert s.Some?;
    assert HasVersion(st, s.value.idVerPhone);
    var v := FindVersion(st.versions, s.value.idVerPhone);
    assert v.Some?;
    assert HasProduct(st, v.value.idProduct);
    var p := FindProduct(st.products, v.value.idProduct);
    assert p.Some?;
  }

  // ---------------------------------------------------------------------------
  // Price queries for one configuration
  // ---------------------------------------------------------------------------

  /** The WHERE clause shared by the price queries: brand, model and rom equal, and ram
      equal to the requested one or stored as the wildcard 0. */
  predicate OfVersion(g: GeneralRow, brandName: string, modelName: string, ram: int, rom: int) {
    g.brandName == brandName && g.modelName == modelName && (g.ram == ram || g.ram == 0) && g.rom == rom
  }

  /** (price, id_shop_name, datetime). */
  datatype HistRow = HistRow(price: int, shop: int, dateTime: int)

  /** (price, id_shop_name, datetime, color, url_product). */
  datatype ActualRow = ActualRow(price: int, shop: int, dateTime: int, color: string, url: string)

  function ActualPrice(a: ActualRow): int { a.price }

  function ToHist(g: GeneralRow): HistRow {
    HistRow(g.price, g.idShopName, g.dateTime)
  }

  function ToActual(g: GeneralRow): ActualRow {
    ActualRow(g.price, g.idShopName, g.dateTime, g.color, g.urlProduct)
  }

  function HistOf(rows: seq<GeneralRow>): (r: seq<HistRow>)
    ensures |r| == |rows|
    ensures forall i :: 0 <= i < |rows| ==> r[i] == ToHist(rows[i])
  {
    if rows == [] then [] else [ToHist(rows[0])] + HistOf(rows[1..])
  }

  predicate NewestFirst(s: seq<HistRow>) {
    forall i, j :: 0 <= i < j < |s| ==> s[i].dateTime >= s[j].dateTime
  }

  /** Place a row before the first row that is not newer than it. */
  function InsertByDate(x: HistRow, s: seq<HistRow>): (r: seq<HistRow>)
    ensures multiset(r) == multiset(s) + multiset{x}
  {
    if s == [] || x.dateTime >= s[0].dateTime then [x] + s
    else
      assert s == [s[0]] + s[1..];
      [s[0]] + InsertByDate(x, s[1..])
  }

  /** ORDER BY datetime DESC (rows with equal timestamps keep their order). */
  function SortNewestFirst(s: seq<HistRow>): (r: seq<HistRow>)
    ensures multiset(r) == multiset(s)
  {
    if s == [] then []
    else
      assert s == [s[0]] + s[1..];
      InsertByDate(s[0], SortNewestFirst(s[1..]))
  }

  lemma {:induction false} InsertByDateSorted(x: HistRow, s: seq<HistRow>)
    requires NewestFirst(s)
    ensures NewestFirst(InsertByDate(x, s))
    ensures InsertByDate(x, s) != [] && InsertByDate(x, s)[0] == (if s == [] || x.dateTime >= s[0].dateTime then x else s[0])
  {
    if s != [] && x.dateTime < s[0].dateTime {
      InsertByDateSorted(x, s[1..]);
      var t := InsertByDate(x, s[1..]);
      forall j | 0 < j < |t| + 1 ensures s[0].dateTime >= ([s[0]] + t)[j].dateTime {
        if |s| > 1 && t[0] == s[1] {
          assert s[0].dateTime >= s[1].dateTime;
        }
        assert t[0].dateTime >= t[j - 1].dateTime || j - 1 == 0;
      }
    }
  }

  lemma {:induction false} SortNewestFirstSorted(s: seq<HistRow>)
    ensures NewestFirst(SortNewestFirst(s))
  {
    if s != [] {
      SortNewestFirstSorted(s[1..]);
      InsertByDateSorted(s[0], SortNewestFirst(s[1..]));
    }
  }

  /** The view rows of one configuration (the WHERE clause of both price queries). */
  function VersionRows(st: Store, brandName: string, modelName: string, ram: int, rom: int): seq<GeneralRow> {
    Filter(General(st), (g: GeneralRow) => OfVersion(g, brandName, modelName, ram, rom))
  }

  /** search_all_prices_by_version_query. */
  function AllPricesByVersion(st: Store, brandName: string, modelName: string, ram: int, rom: int): seq<HistRow> {
    SortNewestFirst(HistOf(VersionRows(st, brandName, modelName, ram, rom)))
  }

  lemma HistOfMembers(rows: seq<GeneralRow>, h: HistRow)
    ensures h in HistOf(rows) <==> exists g :: g in rows && h == ToHist(g)
  {
    if exists g :: g in rows && h == ToHist(g) {
      var g :| g in rows && h == ToHist(g);
      var i :| 0 <= i < |rows| && rows[i] == g;
      assert HistOf(rows)[i] == h;
    }
  }

  /** The history is newest first and holds exactly one entry per matching view row. */
  lemma AllPricesByVersionProperties(st: Store, brandName: string, modelName: string, ram: int, rom: int)
    ensures NewestFirst(AllPricesByVersion(st, brandName, modelName, ram, rom))
    ensures multiset(AllPricesByVersion(st, brandName, modelName, ram, rom)) ==
      multiset(HistOf(VersionRows(st, brandName, modelName, ram, rom)))
    ensures forall h :: h in AllPricesByVersion(st, brandName, modelName, ram, rom) <==>
      exists g :: g in General(st) && OfVersion(g, brandName, modelName, ram, rom) && h == ToHist(g)
  {
    var w := VersionRows(st, brandName, modelName, ram, rom);
    SortNewestFirstSorted(HistOf(w));
    forall h ensures h in AllPricesByVersion(st, brandName, modelName, ram, rom) <==>
      exists g :: g in General(st) && OfVersion(g, brandName, modelName, ram, rom) && h == ToHist(g)
    {
      assert h in AllPricesByVersion(st, brandName, modelName, ram, rom) <==> h in multiset(HistOf(w));
      HistOfMembers(w, h);
    }
  }

  /** Some row of `rows` has this url. */
  predicate HasUrl(rows: seq<GeneralRow>, url: string) {
    exists g :: g in rows && g.urlProduct == url
  }

  /** MAX(datetime) over the rows of one url (GROUP BY url_product). */
  function MaxDate(rows: seq<GeneralRow>, url: string): (m: int)
    requires HasUrl(rows, url)
    ensures forall g :: g in rows && g.urlProduct == url ==> g.dateTime <= m
    ensures exists g :: g in rows && g.urlProduct == url && g.dateTime == m
  {
    var last := rows[|rows| - 1];
    var init := rows[..|rows| - 1];
    assert rows == init + [last];
    if !HasUrl(init, url) then last.dateTime
    else
      var m := MaxDate(init, url);
      if last.urlProduct == url && last.dateTime > m then last.dateTime else m
  }

  predicate IsLatest(inner: seq<GeneralRow>, g: GeneralRow) {
    HasUrl(inner, g.urlProduct) && g.dateTime == MaxDate(inner, g.urlProduct)
  }

  /** search_actual_prices_by_version_query: every view row (the outer SELECT is not
      filtered by configuration) whose url and datetime equal a group's url and MaxDate. */
  function ActualPricesByVersion(st: Store, brandName: string, modelName: string, ram: int, rom: int): seq<ActualRow> {
    ActualOf(Filter(General(st), LatestIn(VersionRows(st, brandName, modelName, ram, rom))))
  }

  /** The join condition of the outer SELECT against the grouped inner one. */
  function LatestIn(inner: seq<GeneralRow>): GeneralRow -> bool {
    (g: GeneralRow) => IsLatest(inner, g)
  }

  function ActualOf(rows: seq<GeneralRow>): (r: seq<ActualRow>)
    ensures |r| == |rows|
    ensures forall i :: 0 <= i < |rows| ==> r[i] == ToActual(rows[i])
  {
    if rows == [] then [] else [ToActual(rows[0])] + ActualOf(rows[1..])
  }

  /** Each row the join returns carries a url of the group and its newest datetime. */
  lemma LatestRowsSound(rows: seq<GeneralRow>, inner: seq<GeneralRow>)
    ensures forall a :: a in ActualOf(Filter(rows, LatestIn(inner))) ==>
      (exists g :: g in inner && g.urlProduct == a.url && g.dateTime == a.dateTime)
      && (forall g :: g in inner && g.urlProduct == a.url ==> g.dateTime <= a.dateTime)
  {
    var outer := Filter(rows, LatestIn(inner));
    var res := ActualOf(outer);
    forall a | a in res
      ensures (exists g :: g in inner && g.urlProduct == a.url && g.dateTime == a.dateTime)
        && (forall g :: g in inner && g.urlProduct == a.url ==> g.dateTime <= a.dateTime)
    {
      var i :| 0 <= i < |res| && res[i] == a;
      assert outer[i] in outer;
    }
  }

  /** Every newest row of the group that the outer table holds is returned. */
  lemma LatestRowsComplete(rows: seq<GeneralRow>, inner: seq<GeneralRow>)
    ensures forall g ::
      (g in rows && g in inner && (forall h :: h in inner && h.urlProduct == g.urlProduct ==> h.dateTime <= g.dateTime))
      ==> ToActual(g) in ActualOf(Filter(rows, LatestIn(inner)))
  {
    var outer := Filter(rows, LatestIn(inner));
    var res := ActualOf(outer);
    forall g | g in rows && g in inner && (forall h :: h in inner && h.urlProduct == g.urlProduct ==> h.dateTime <= g.dateTime)
      ensures ToActual(g) in res
    {
      assert HasUrl(inner, g.urlProduct);
      assert LatestIn(inner)(g);
      var i :| 0 <= i < |outer| && outer[i] == g;
      assert res[i] == ToActual(g);
    }
  }

  /** Each returned row carries a url of the configuration and the newest datetime any of
      that configuration's rows has for the url; and every newest row of the configuration
      is returned. */
  lemma ActualPricesAreLatest(st: Store, brandName: string, modelName: string, ram: int, rom: int)
    ensures forall a :: a in ActualPricesByVersion(st, brandName, modelName, ram, rom) ==>
      (exists g :: g in VersionRows(st, brandName, modelName, ram, rom) && g.urlProduct == a.url && g.dateTime == a.dateTime)
      && (forall g :: g in VersionRows(st, brandName, modelName, ram, rom) && g.urlProduct == a.url ==> g.dateTime <= a.dateTime)
    ensures forall g ::
      (g in VersionRows(st, brandName, modelName, ram, rom)
       && (forall h :: h in VersionRows(st, brandName, modelName, ram, rom) && h.urlProduct == g.urlProduct ==> h.dateTime <= g.dateTime))
      ==> ToActual(g) in ActualPricesByVersion(st, brandName, modelName, ram, rom)
  {
    var inner := VersionRows(st, brandName, modelName, ram, rom);
    LatestRowsSound(General(st), inner);
    LatestRowsComplete(General(st), inner);
  }
}
