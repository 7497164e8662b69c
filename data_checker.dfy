/** The third stage: for each offer whose price changed, decide from the price history
    of its configuration whether the cheapest in-stock offer is a deal, and collect the
    deals as PriceChanges records. */
module DataChecker {
  import opened Builtins
  import opened Helper
  import opened SqlReq
  import opened BotHelper

  /** Timestamps closer than this (one second, in microseconds) count as the same insert. */
  const OneSecond: int := 1000000

  /** A deal must undercut the average by at least this many roubles. */
  const MinDiffRubles: real := 1500.0

  // ---------------------------------------------------------------------------
  // Pieces of __check_price_for_benefit
  // ---------------------------------------------------------------------------

  function ActualShop(a: ActualRow): int { a.shop }

  /** Python's `<=` on (price, id_shop_name, datetime) tuples. */
  predicate HistLe(a: HistRow, b: HistRow) {
    a.price < b.price || (a.price == b.price && (a.shop < b.shop || (a.shop == b.shop && a.dateTime <= b.dateTime)))
  }

  /** `min(rows)`: the first of the smallest tuples. */
  function MinHist(rows: seq<HistRow>): (m: HistRow)
    requires rows != []
    ensures m in rows
    ensures forall h :: h in rows ==> HistLe(m, h)
  {
    if |rows| == 1 then rows[0]
    else
      var init := rows[..|rows| - 1];
      var last := rows[|rows| - 1];
      assert rows == init + [last];
      var m := MinHist(init);
      if HistLe(m, last) then m else last
  }

  /** How many leading rows lie less than a second before `newest`. */
  function LeadingRecent(rows: seq<HistRow>, newest: int): (n: nat)
    ensures n <= |rows|
    ensures forall j :: 0 <= j < n ==> newest - rows[j].dateTime < OneSecond
    ensures n < |rows| ==> newest - rows[n].dateTime >= OneSecond
  {
    if rows == [] || newest - rows[0].dateTime >= OneSecond then 0
    else 1 + LeadingRecent(rows[1..], newest)
  }

  /** `sum(item[pos_price] for item in rows)`. */
  function SumPrices(rows: seq<ActualRow>): int {
    if rows == [] then 0 else SumPrices(rows[..|rows| - 1]) + rows[|rows| - 1].price
  }

  /** With every price between lo and hi, the sum lies between n * lo and n * hi. */
  lemma {:induction false} SumPricesBounds(rows: seq<ActualRow>, lo: int, hi: int)
    requires forall i :: 0 <= i < |rows| ==> lo <= rows[i].price <= hi
    ensures |rows| * lo <= SumPrices(rows) <= |rows| * hi
  {
    if rows != [] {
      var init := rows[..|rows| - 1];
      var last := rows[|rows| - 1];
      assert forall i :: 0 <= i < |init| ==> init[i] == rows[i];
      SumPricesBounds(init, lo, hi);
      var n := |init|;
      assert SumPrices(rows) == SumPrices(init) + last.price;
      assert lo <= last.price <= hi;
      assert (n + 1) * lo == n * lo + lo;
      assert (n + 1) * hi == n * hi + hi;
    }
  }

  /** The history the minimum is taken over: for a single shop, without the rows of the
      newest insert (those less than a second older than the first row). */
  function HistoryForMin(all: seq<HistRow>, oneShop: bool): seq<HistRow> {
    if oneShop && all != [] then all[LeadingRecent(all, all[0].dateTime)..] else all
  }

  /** The average the offer is compared with: for one shop, the mean of the new price
      and the historical minimum; otherwise the mean of the actual prices. */
  function AveragePrice(price: int, act: seq<ActualRow>, oneShop: bool, histMin: HistRow): real
    requires act != []
  {
    if oneShop then (price + histMin.price) as real / 2.0
    else SumPrices(act) as real / |act| as real
  }

  /** What __check_price_for_benefit returns: the null triple, or the deal rows (emptied
      when not a deal), the average and the historical minimum. */
  datatype Benefit = NoData | Checked(rows: seq<ActualRow>, avg: real, histMin: HistRow)

  /** Whether the cheapest in-stock price is a deal against the average: at least
      `minDiff` percent and at least 1500 below it. */
  predicate IsDeal(cheapest: int, avg: real, minDiff: real)
    requires avg != 0.0
  {
    PerNumOfNum(cheapest as real, avg) >= minDiff && avg - cheapest as real >= MinDiffRubles
  }

  /** __check_price_for_benefit once the two price queries have answered: `act` are the
      actual prices, `all` the history, newest first. Errors are those Python raises:
      `min` of an empty history (ValueError), indexing the empty in-stock minimum
      (IndexError), and a zero average (ZeroDivisionError). */
  function BenefitFrom(act: seq<ActualRow>, all: seq<HistRow>, parseResults: seq<ParseResult>, minDiff: real,
                       price: int): Outcome<Benefit>
  {
    if act == [] || all == [] then Ok(NoData)
    else
      var oneShop := AllKeysEqual(act, ActualShop);
      var hist := HistoryForMin(all, oneShop);
      if hist == [] then Raised(ValueError)
      else
        var histMin := MinHist(hist);
        var avg := AveragePrice(price, act, oneShop, histMin);
        var cheapest := MinPriceRows(InStockRows(act, parseResults), ActualPrice);
        if cheapest == [] then Raised(IndexError)
        else if avg == 0.0 then Raised(ZeroDivisionError)
        else Ok(Checked(if IsDeal(cheapest[0].price, avg, minDiff) then cheapest else [], avg, histMin))
  }

  /** __check_price_for_benefit for one configuration, over the store and the scraped
      offers of the run. */
  function BenefitOf(st: Store, parseResults: seq<ParseResult>, minDiff: real,
                     price: int, brandName: string, modelName: string, ram: int, rom: int): Outcome<Benefit>
  {
    BenefitFrom(ActualPricesByVersion(st, brandName, modelName, ram, rom), AllPricesByVersion(st, brandName, modelName, ram, rom),
                parseResults, minDiff, price)
  }

  /** The cheapest in-stock rows: non-empty exactly for a non-empty list, and then the
      rows at the lowest price. */
  lemma CheapestRows(stock: seq<ActualRow>)
    ensures MinPriceRows(stock, ActualPrice) != [] <==> stock != []
    ensures stock != [] ==>
      (forall a :: a in MinPriceRows(stock, ActualPrice) <==> a in stock && a.price == MinPrice(stock, ActualPrice))
  {
    if stock != [] {
      MinPriceRowsAreMinimal(stock, ActualPrice);
      forall a ensures a in MinPriceRows(stock, ActualPrice) <==> a in stock && a.price == MinPrice(stock, ActualPrice) {
        PricedAtMembers(stock, ActualPrice, MinPrice(stock, ActualPrice), a);
      }
    }
  }

  /** The deal list is non-empty exactly when the lowest in-stock price is a deal
      against the average (and a checked result always has in-stock offers). */
  lemma BenefitDealThreshold(act: seq<ActualRow>, all: seq<HistRow>, parseResults: seq<ParseResult>, minDiff: real, price: int)
    ensures var b := BenefitFrom(act, all, parseResults, minDiff, price);
      var stock := InStockRows(act, parseResults);
      (b.Ok? && b.value.Checked?) ==>
        (stock != [] && b.value.avg != 0.0 && (b.value.rows != [] <==> IsDeal(MinPrice(stock, ActualPrice), b.value.avg, minDiff)))
  {
    var oneShop := AllKeysEqual(act, ActualShop);
    if act != [] && all != [] && HistoryForMin(all, oneShop) != [] {
      var histMin := MinHist(HistoryForMin(all, oneShop));
      var avg := AveragePrice(price, act, oneShop, histMin);
      var stock := InStockRows(act, parseResults);
      var cheapest := MinPriceRows(stock, ActualPrice);
      if cheapest != [] && avg != 0.0 {
        CheapestRows(stock);
        assert cheapest[0] in cheapest;
        assert BenefitFrom(act, all, parseResults, minDiff, price)
            == Ok(Checked(if IsDeal(MinPrice(stock, ActualPrice), avg, minDiff) then cheapest else [], avg, histMin));
      }
    }
  }

  /** A non-empty deal list is exactly the in-stock actual offers at the lowest in-stock
      price. */
  lemma BenefitDealRows(act: seq<ActualRow>, all: seq<HistRow>, parseResults: seq<ParseResult>, minDiff: real, price: int)
    ensures var b := BenefitFrom(act, all, parseResults, minDiff, price);
      var stock := InStockRows(act, parseResults);
      (b.Ok? && b.value.Checked? && b.value.rows != []) ==>
        (stock != [] && forall a :: a in b.value.rows <==> a in stock && a.price == MinPrice(stock, ActualPrice))
  {
    BenefitShape(act, all, parseResults, minDiff, price);
    CheapestRows(InStockRows(act, parseResults));
  }

  /** Every deal row is an actual offer that is in stock, and no in-stock actual offer is
      cheaper. */
  lemma BenefitRowsInStock(act: seq<ActualRow>, all: seq<HistRow>, parseResults: seq<ParseResult>, minDiff: real, price: int)
    ensures var b := BenefitFrom(act, all, parseResults, minDiff, price);
      (b.Ok? && b.value.Checked?) ==>
        forall a :: a in b.value.rows ==>
          && a in act && InStock(parseResults, a.url)
          && (forall s :: s in act && InStock(parseResults, s.url) ==> a.price <= s.price)
  {
    var b := BenefitFrom(act, all, parseResults, minDiff, price);
    var stock := InStockRows(act, parseResults);
    if b.Ok? && b.value.Checked? {
      BenefitDealRows(act, all, parseResults, minDiff, price);
      InStockRowsProperties(act, parseResults);
    }
  }

  /** Where a checked result's minimum and average come from. */
  lemma BenefitShape(act: seq<ActualRow>, all: seq<HistRow>, parseResults: seq<ParseResult>, minDiff: real, price: int)
    ensures var b := BenefitFrom(act, all, parseResults, minDiff, price);
      var oneShop := AllKeysEqual(act, ActualShop);
      (b.Ok? && b.value.Checked?) ==>
        && act != [] && all != [] && HistoryForMin(all, oneShop) != []
        && b.value.histMin == MinHist(HistoryForMin(all, oneShop))
        && b.value.avg == AveragePrice(price, act, oneShop, b.value.histMin)
        && (b.value.rows == [] || b.value.rows == MinPriceRows(InStockRows(act, parseResults), ActualPrice))
  {
    var oneShop := AllKeysEqual(act, ActualShop);
    if act != [] && all != [] && HistoryForMin(all, oneShop) != [] {
      var histMin := MinHist(HistoryForMin(all, oneShop));
      var avg := AveragePrice(price, act, oneShop, histMin);
      var cheapest := MinPriceRows(InStockRows(act, parseResults), ActualPrice);
      if cheapest != [] && avg != 0.0 {
        assert BenefitFrom(act, all, parseResults, minDiff, price)
            == Ok(Checked(if IsDeal(cheapest[0].price, avg, minDiff) then cheapest else [], avg, histMin));
      }
    }
  }

  /** The minimum is taken over rows of the history; for one shop, only over rows at
      least a second older than the newest, and over all of those. */
  lemma {:induction false} HistoryForMinRows(all: seq<HistRow>, oneShop: bool)
    requires NewestFirst(all)
    ensures forall h :: h in HistoryForMin(all, oneShop) ==> h in all
    ensures oneShop && all != [] ==>
      forall h :: h in all ==> (h in HistoryForMin(all, oneShop) <==> all[0].dateTime - h.dateTime >= OneSecond)
  {
    if oneShop && all != [] {
      var n := LeadingRecent(all, all[0].dateTime);
      var hist := all[n..];
      forall h | h in all ensures h in hist <==> all[0].dateTime - h.dateTime >= OneSecond {
        if all[0].dateTime - h.dateTime >= OneSecond {
          var k :| 0 <= k < |all| && all[k] == h;
          assert k >= n;
          assert hist[k - n] == h;
        }
        if h in hist {
          var k :| 0 <= k < |hist| && hist[k] == h;
          assert all[n + k] == h;
          assert all[0].dateTime - all[n].dateTime >= OneSecond;
          assert all[n].dateTime >= all[n + k].dateTime;
        }
      }
    }
  }

  /** The historical minimum is a row of the history. With several shops no historical
      price is below it; with one shop it is at least a second older than the newest row,
      and no such older price is below it. */
  lemma BenefitHistMin(act: seq<ActualRow>, all: seq<HistRow>, parseResults: seq<ParseResult>, minDiff: real, price: int)
    requires NewestFirst(all)
    ensures var b := BenefitFrom(act, all, parseResults, minDiff, price);
      var oneShop := AllKeysEqual(act, ActualShop);
      (b.Ok? && b.value.Checked?) ==>
        && all != [] && b.value.histMin in all
        && (!oneShop ==> forall h :: h in all ==> b.value.histMin.price <= h.price)
        && (oneShop ==>
              all[0].dateTime - b.value.histMin.dateTime >= OneSecond
              && forall h :: h in all && all[0].dateTime - h.dateTime >= OneSecond ==> b.value.histMin.price <= h.price)
  {
    BenefitShape(act, all, parseResults, minDiff, price);
    HistoryForMinRows(all, AllKeysEqual(act, ActualShop));
  }

  /** A quotient of bounds: from n * lo <= s <= n * hi with n > 0. */
  lemma QuotientBounds(s: real, n: real, lo: real, hi: real)
    requires n > 0.0 && n * lo <= s <= n * hi
    ensures lo <= s / n <= hi
  {
    assert s / n * n == s;
  }

  /** Converting a product to real is the product of the conversions. */
  lemma CastProduct(a: int, b: int)
    ensures (a * b) as real == a as real * b as real
  {
  }

  /** The mean of prices between lo and hi lies between lo and hi. */
  lemma MeanBounds(act: seq<ActualRow>, lo: int, hi: int)
    requires act != []
    requires forall i :: 0 <= i < |act| ==> lo <= act[i].price <= hi
    ensures lo as real <= SumPrices(act) as real / |act| as real <= hi as real
  {
    SumPricesBounds(act, lo, hi);
    CastProduct(|act|, lo);
    CastProduct(|act|, hi);
    QuotientBounds(SumPrices(act) as real, |act| as real, lo as real, hi as real);
  }

  /** With several shops the average is the mean of the actual prices, so it lies between
      the lowest and the highest of them. */
  lemma BenefitAverageBounds(act: seq<ActualRow>, all: seq<HistRow>, parseResults: seq<ParseResult>, minDiff: real,
                             price: int, lo: int, hi: int)
    requires forall i :: 0 <= i < |act| ==> lo <= act[i].price <= hi
    ensures var b := BenefitFrom(act, all, parseResults, minDiff, price);
      (b.Ok? && b.value.Checked? && !AllKeysEqual(act, ActualShop)) ==> lo as real <= b.value.avg <= hi as real
  {
    BenefitShape(act, all, parseResults, minDiff, price);
    if act != [] {
      MeanBounds(act, lo, hi);
    }
  }

  /** Over the store, the history handed to the check is newest first, so the properties
      above hold for every configuration. */
  lemma BenefitOfHistMin(st: Store, parseResults: seq<ParseResult>, minDiff: real,
                         price: int, brandName: string, modelName: string, ram: int, rom: int)
    ensures var b := BenefitOf(st, parseResults, minDiff, price, brandName, modelName, ram, rom);
      var all := AllPricesByVersion(st, brandName, modelName, ram, rom);
      (b.Ok? && b.value.Checked?) ==> all != [] && b.value.histMin in all
  {
    var act := ActualPricesByVersion(st, brandName, modelName, ram, rom);
    var all := AllPricesByVersion(st, brandName, modelName, ram, rom);
    AllPricesByVersionProperties(st, brandName, modelName, ram, rom);
    BenefitHistMin(act, all, parseResults, minDiff, price);
  }

  // ---------------------------------------------------------------------------
  // Pieces of __check_prices
  // ---------------------------------------------------------------------------

  /** The search for a preferred image: brand, model and shop. */
  function ImgQuery(brandName: string, modelName: string, shop: string): Query {
    map[BrandName := Text(brandName), ModelName := Text(modelName), Shop := Text(shop)]
  }

  /** The image url of the first preferred shop (in configured order) whose first
      matching scraped offer has an image url containing "http". */
  function BestImgUrl(parseResults: seq<ParseResult>, bestShops: seq<string>, brandName: string, modelName: string): (r: Option<string>)
    ensures r.Some? ==> Contains(r.value, "http")
    ensures r.Some? ==> exists p :: p in parseResults && p.imgUrl == r.value
  {
    if bestShops == [] then None
    else
      var f := Found(parseResults, ParseResultGet, ImgQuery(brandName, modelName, bestShops[0]), true);
      if f != [] && Contains(f[0].imgUrl, "http") then
        MatchingMembers(parseResults, ParseResultGet, ImgQuery(brandName, modelName, bestShops[0]), f[0]);
        Some(f[0].imgUrl)
      else BestImgUrl(parseResults, bestShops[1..], brandName, modelName)
  }

  /** The record built for one deal row. */
  function Deal(item: ParseResult, row: ActualRow, avg: real, histMin: HistRow, img: Option<string>, stamp: string): PriceChanges {
    PriceChanges(row.shop, item.category, item.brandName, item.modelName, row.color, item.ram, item.rom,
                 if img.Some? then img.value else item.imgUrl, row.url, stamp, row.price,
                 Trunc(avg), histMin.price, histMin.shop, histMin.dateTime, Trunc(avg - row.price as real))
  }

  /** The search for an earlier record of the same url. */
  function UrlQuery(url: string): Query {
    map[Url := Text(url)]
  }

  /** The deal rows appended in order, each skipped when a record for its url exists;
      the k-th record of the result list is stamped `stamp(k)`. */
  function AddDeals(acc: seq<PriceChanges>, item: ParseResult, rows: seq<ActualRow>, avg: real, histMin: HistRow,
                    img: Option<string>, stamp: nat -> string): seq<PriceChanges>
  {
    if rows == [] then acc
    else
      var done := AddDeals(acc, item, rows[..|rows| - 1], avg, histMin, img, stamp);
      var row := rows[|rows| - 1];
      if Found(done, PriceChangesGet, UrlQuery(row.url), true) != [] then done
      else done + [Deal(item, row, avg, histMin, img, stamp(|done|))]
  }

  /** One changed offer: an error ends the run, a null or empty result (or a zero
      average) adds nothing, and deal rows are appended. */
  function CheckStep(done: seq<PriceChanges>, item: ParseResult, benefit: Outcome<Benefit>, img: Option<string>,
                     stamp: nat -> string): (seq<PriceChanges>, Option<PyError>)
  {
    match benefit
    case Raised(err) => (done, Some(err))
    case Ok(b) =>
      if b.NoData? || b.rows == [] || b.avg == 0.0 then (done, None)
      else (AddDeals(done, item, b.rows, b.avg, b.histMin, img, stamp), None)
  }

  /** The records after the changed offers, in order, up to the first that raises, for
      any way of judging an offer and of choosing its picture. */
  function CheckedWith(benefitOf: ParseResult -> Outcome<Benefit>, imgOf: ParseResult -> Option<string>,
                       items: seq<ParseResult>, acc: seq<PriceChanges>, stamp: nat -> string): (seq<PriceChanges>, Option<PyError>)
  {
    if items == [] then (acc, None)
    else
      var (done, e) := CheckedWith(benefitOf, imgOf, items[..|items| - 1], acc, stamp);
      var item := items[|items| - 1];
      if e.Some? then (done, e)
      else CheckStep(done, item, benefitOf(item), imgOf(item), stamp)
  }

  /** The price check of one offer against the store. */
  function BenefitOfItem(st: Store, parseResults: seq<ParseResult>, minDiff: real): ParseResult -> Outcome<Benefit> {
    (item: ParseResult) => BenefitOf(st, parseResults, minDiff, item.price, item.brandName, item.modelName, item.ram, item.rom)
  }

  /** The picture chosen for one offer. */
  function ImgOfItem(parseResults: seq<ParseResult>, bestShops: seq<string>): ParseResult -> Option<string> {
    (item: ParseResult) => BestImgUrl(parseResults, bestShops, item.brandName, item.modelName)
  }

  /** The records after the changed offers, checked against the store. */
  function CheckedPrices(st: Store, parseResults: seq<ParseResult>, minDiff: real, bestShops: seq<string>,
                         items: seq<ParseResult>, acc: seq<PriceChanges>, stamp: nat -> string): (seq<PriceChanges>, Option<PyError>)
  {
    CheckedWith(BenefitOfItem(st, parseResults, minDiff), ImgOfItem(parseResults, bestShops), items, acc, stamp)
  }

  /** No two records share a url. */
  predicate DistinctUrls(records: seq<PriceChanges>) {
    forall i, j :: 0 <= i < j < |records| ==> records[i].url != records[j].url
  }

  /** A url search finds nothing exactly when no record has the url, or, for the empty
      url (no criterion), when there are no records at all. */
  lemma UrlAbsent(records: seq<PriceChanges>, url: string)
    ensures Found(records, PriceChangesGet, UrlQuery(url), true) == [] <==>
      (if url == [] then records == [] else forall i :: 0 <= i < |records| ==> records[i].url != url)
  {
    var q := UrlQuery(url);
    assert Url in q && q[Url] == Text(url);
    FoundFirst(records, PriceChangesGet, q);
    if url == [] && records != [] {
      assert Matches(PriceChangesGet, records[0], q);
    }
    if url != [] {
      forall i | 0 <= i < |records| ensures Matches(PriceChangesGet, records[i], q) <==> records[i].url != url ==> false {
        assert Truthy(q[Url]);
      }
    }
  }

  /** What appending deals for `rows` to `acc` promises about the result `r`. */
  predicate DealsAppended(acc: seq<PriceChanges>, r: seq<PriceChanges>, item: ParseResult, rows: seq<ActualRow>, avg: real,
                          histMin: HistRow, img: Option<string>, stamp: nat -> string)
  {
    && |acc| <= |r| && r[..|acc|] == acc
    && DistinctUrls(r)
    && (forall k :: |acc| <= k < |r| ==>
          (exists a :: a in rows && r[k] == Deal(item, a, avg, histMin, img, stamp(k))) && r[k].diffCurAvg >= 1500)
  }

  /** Appending the deal of a row whose url no record has keeps the promises. */
  lemma DealAppended(acc: seq<PriceChanges>, done: seq<PriceChanges>, item: ParseResult, rows: seq<ActualRow>, row: ActualRow,
                     avg: real, histMin: HistRow, img: Option<string>, stamp: nat -> string)
    requires DealsAppended(acc, done, item, rows, avg, histMin, img, stamp)
    requires row in rows && avg - row.price as real >= MinDiffRubles
    requires forall i :: 0 <= i < |done| ==> done[i].url != row.url
    ensures DealsAppended(acc, done + [Deal(item, row, avg, histMin, img, stamp(|done|))], item, rows, avg, histMin, img, stamp)
  {
    var r := done + [Deal(item, row, avg, histMin, img, stamp(|done|))];
    assert r[..|done|] == done;
    assert r[..|acc|] == done[..|acc|];
    forall k | |acc| <= k < |r|
      ensures (exists a :: a in rows && r[k] == Deal(item, a, avg, histMin, img, stamp(k))) && r[k].diffCurAvg >= 1500
    {
      if k < |done| {
        assert r[k] == done[k];
      }
    }
  }

  /** Appending deals keeps the earlier records, keeps urls distinct, and every new
      record is the deal of one of the rows, undercutting the average by at least 1500. */
  lemma {:induction false} AddDealsProperties(acc: seq<PriceChanges>, item: ParseResult, rows: seq<ActualRow>, avg: real,
                                              histMin: HistRow, img: Option<string>, stamp: nat -> string)
    requires DistinctUrls(acc)
    requires forall a :: a in rows ==> avg - a.price as real >= MinDiffRubles
    ensures DealsAppended(acc, AddDeals(acc, item, rows, avg, histMin, img, stamp), item, rows, avg, histMin, img, stamp)
  {
    if rows == [] {
      assert acc[..|acc|] == acc;
    } else {
      var init := rows[..|rows| - 1];
      var row := rows[|rows| - 1];
      assert forall a :: a in init ==> a in rows;
      AddDealsProperties(acc, item, init, avg, histMin, img, stamp);
      var done := AddDeals(acc, item, init, avg, histMin, img, stamp);
      assert DealsAppended(acc, done, item, rows, avg, histMin, img, stamp);
      if Found(done, PriceChangesGet, UrlQuery(row.url), true) == [] {
        UrlAbsent(done, row.url);
        DealAppended(acc, done, item, rows, row, avg, histMin, img, stamp);
      }
    }
  }

  /** Every deal row of a checked result undercuts its average by at least 1500. */
  predicate Undercuts(benefit: Outcome<Benefit>) {
    (benefit.Ok? && benefit.value.Checked?) ==>
      forall a :: a in benefit.value.rows ==> benefit.value.avg - a.price as real >= MinDiffRubles
  }

  lemma BenefitUndercuts(act: seq<ActualRow>, all: seq<HistRow>, parseResults: seq<ParseResult>, minDiff: real, price: int)
    ensures Undercuts(BenefitFrom(act, all, parseResults, minDiff, price))
  {
    BenefitDealThreshold(act, all, parseResults, minDiff, price);
    BenefitDealRows(act, all, parseResults, minDiff, price);
  }

  /** One step keeps the records already collected and distinct urls, and what it adds
      undercuts the average by at least 1500. */
  lemma CheckStepProperties(done: seq<PriceChanges>, item: ParseResult, benefit: Outcome<Benefit>, img: Option<string>,
                            stamp: nat -> string)
    requires DistinctUrls(done) && Undercuts(benefit)
    ensures var (r, e) := CheckStep(done, item, benefit, img, stamp);
      && |done| <= |r| && r[..|done|] == done
      && DistinctUrls(r)
      && (forall k :: |done| <= k < |r| ==> r[k].diffCurAvg >= 1500)
      && (e.Some? <==> benefit.Raised?)
  {
    if benefit.Ok? && benefit.value.Checked? && benefit.value.rows != [] && benefit.value.avg != 0.0 {
      var b := benefit.value;
      AddDealsProperties(done, item, b.rows, b.avg, b.histMin, img, stamp);
    }
  }

  lemma {:induction false} CheckedWithProperties(benefitOf: ParseResult -> Outcome<Benefit>, imgOf: ParseResult -> Option<string>,
                                                 items: seq<ParseResult>, acc: seq<PriceChanges>, stamp: nat -> string)
    requires DistinctUrls(acc)
    requires forall item :: Undercuts(benefitOf(item))
    ensures var (r, e) := CheckedWith(benefitOf, imgOf, items, acc, stamp);
      && |acc| <= |r| && r[..|acc|] == acc
      && DistinctUrls(r)
      && (forall k :: |acc| <= k < |r| ==> r[k].diffCurAvg >= 1500)
  {
    if items != [] {
      var init := items[..|items| - 1];
      var item := items[|items| - 1];
      CheckedWithProperties(benefitOf, imgOf, init, acc, stamp);
      var (done, e) := CheckedWith(benefitOf, imgOf, init, acc, stamp);
      if e.None? {
        CheckStepProperties(done, item, benefitOf(item), imgOf(item), stamp);
        var r := CheckStep(done, item, benefitOf(item), imgOf(item), stamp).0;
        assert r[..|acc|] == r[..|done|][..|acc|];
      }
    }
  }

  /** Checking keeps the records already collected, never records a url twice, and every
      new record undercuts its average by at least 1500. */
  lemma CheckedPricesProperties(st: Store, parseResults: seq<ParseResult>, minDiff: real,
                                bestShops: seq<string>, items: seq<ParseResult>,
                                acc: seq<PriceChanges>, stamp: nat -> string)
    requires DistinctUrls(acc)
    ensures var (r, e) := CheckedPrices(st, parseResults, minDiff, bestShops, items, acc, stamp);
      && |acc| <= |r| && r[..|acc|] == acc
      && DistinctUrls(r)
      && (forall k :: |acc| <= k < |r| ==> r[k].diffCurAvg >= 1500)
  {
    var benefitOf := BenefitOfItem(st, parseResults, minDiff);
    forall item
      ensures Undercuts(benefitOf(item))
    {
      BenefitUndercuts(ActualPricesByVersion(st, item.brandName, item.modelName, item.ram, item.rom),
                       AllPricesByVersion(st, item.brandName, item.modelName, item.ram, item.rom),
                       parseResults, minDiff, item.price);
    }
    CheckedWithProperties(benefitOf, ImgOfItem(parseResults, bestShops), items, acc, stamp);
  }

  // ---------------------------------------------------------------------------
  // The stage
  // ---------------------------------------------------------------------------

  class DataChecker {
    /** The database after the inserter (the SQL store it reads). */
    var store: Store
    /** Offers whose price changed, from the inserter. */
    var prPriceChangeList: seq<ParseResult>
    /** Every validated offer of the run (the in-stock reference). */
    var prParseResultList: seq<ParseResult>
    /** The deals found so far. */
    var pcSelfResultList: seq<PriceChanges>
    /** min_diff_price_per from the configuration. */
    var minDiffPricePer: real
    /** best_shops_for_img_url from the configuration, lower-cased and split. */
    var bestShopForImgUrl: seq<string>

    constructor(st: Store, prDataAfterBdList: seq<ParseResult>, prParseResultList: seq<ParseResult>,
                minDiffPricePer: real, bestShopForImgUrl: seq<string>)
      ensures store == st && prPriceChangeList == prDataAfterBdList && this.prParseResultList == prParseResultList
      ensures pcSelfResultList == []
      ensures this.minDiffPricePer == minDiffPricePer && this.bestShopForImgUrl == bestShopForImgUrl
    {
      store := st;
      pcSelfResultList := [];
      prPriceChangeList := prDataAfterBdList;
      this.prParseResultList := prParseResultList;
      this.minDiffPricePer := minDiffPricePer;
      this.bestShopForImgUrl := bestShopForImgUrl;
    }

    /** __check_price_for_benefit: the two price queries, then the check. */
    method CheckPriceForBenefit(price: int, brandName: string, modelName: string, ram: int, rom: int)
      returns (r: Outcome<Benefit>)
      ensures r == BenefitOf(store, prParseResultList, minDiffPricePer, price, brandName, modelName, ram, rom)
    {
      var actPriceDataList := ActualPricesByVersion(store, brandName, modelName, ram, rom);
      var allPriceDataList := AllPricesByVersion(store, brandName, modelName, ram, rom);
      r := CheckPriceLists(actPriceDataList, allPriceDataList, price);
    }

    /** The body of __check_price_for_benefit once the queries have answered. The
        in-stock loop is the one of irr_post_search_data_in_stock. */
    method CheckPriceLists(actPriceDataList: seq<ActualRow>, allPriceDataList: seq<HistRow>, price: int)
      returns (r: Outcome<Benefit>)
      ensures r == BenefitFrom(actPriceDataList, allPriceDataList, prParseResultList, minDiffPricePer, price)
    {
      if actPriceDataList == [] || allPriceDataList == [] {
        return Ok(NoData);
      }
      var isOneShop := IsAllElemEqualInTupleList(actPriceDataList, ActualShop);
      var indx := 0;
      if isOneShop {
        var lastDatetime := allPriceDataList[0].dateTime;
        while indx < |allPriceDataList| && lastDatetime - allPriceDataList[indx].dateTime < OneSecond
          invariant 0 <= indx <= LeadingRecent(allPriceDataList, lastDatetime)
        {
          indx := indx + 1;
        }
      }
      var hist := allPriceDataList[indx..];
      assert hist == HistoryForMin(allPriceDataList, isOneShop);
      if hist == [] {
        return Raised(ValueError);
      }
      var histMinPrice := MinHist(hist);
      var avgPrice := AveragePrice(price, actPriceDataList, isOneShop, histMinPrice);
      var actPriceInStockDataList := IrrPostSearchDataInStock(actPriceDataList, prParseResultList);
      var minActPriceInStockDataList := FindMinPriceInPricesList(actPriceInStockDataList, ActualPrice);
      if minActPriceInStockDataList == [] {
        return Raised(IndexError);
      }
      if avgPrice == 0.0 {
        return Raised(ZeroDivisionError);
      }
      if !IsDeal(minActPriceInStockDataList[0].price, avgPrice, minDiffPricePer) {
        minActPriceInStockDataList := [];
      }
      return Ok(Checked(minActPriceInStockDataList, avgPrice, histMinPrice));
    }

    /** The preferred-shop image search of __check_prices. */
    method FindBestImgUrl(brandName: string, modelName: string) returns (imgUrl: Option<string>)
      ensures imgUrl == BestImgUrl(prParseResultList, bestShopForImgUrl, brandName, modelName)
    {
      imgUrl := None;
      var i := 0;
      while i < |bestShopForImgUrl|
        invariant 0 <= i <= |bestShopForImgUrl|
        invariant BestImgUrl(prParseResultList, bestShopForImgUrl, brandName, modelName)
               == BestImgUrl(prParseResultList, bestShopForImgUrl[i..], brandName, modelName)
      {
        assert bestShopForImgUrl[i..][1..] == bestShopForImgUrl[i + 1..];
        var found := FindInNamedtupleList(prParseResultList, ParseResultGet,
                                          ImgQuery(brandName, modelName, bestShopForImgUrl[i]), true);
        if found != [] && Contains(found[0].imgUrl, "http") {
          return Some(found[0].imgUrl);
        }
        i := i + 1;
      }
    }

    /** __check_prices over prPriceChangeList; on an error the records collected so far
        stay and the error is returned. */
    method CheckPrices(stamp: nat -> string) returns (error: Option<PyError>)
      modifies this`pcSelfResultList
      ensures (pcSelfResultList, error) == CheckedPrices(store, prParseResultList, minDiffPricePer, bestShopForImgUrl,
                                                         prPriceChangeList, old(pcSelfResultList), stamp)
    {
      error := CheckOffers(prPriceChangeList, stamp, BenefitOfItem(store, prParseResultList, minDiffPricePer),
                           ImgOfItem(prParseResultList, bestShopForImgUrl));
    }

    /** The outer loop of __check_prices over the given offers. */
    method CheckOffers(items: seq<ParseResult>, stamp: nat -> string,
                       ghost benefitOf: ParseResult -> Outcome<Benefit>, ghost imgOf: ParseResult -> Option<string>)
      returns (error: Option<PyError>)
      requires benefitOf == BenefitOfItem(store, prParseResultList, minDiffPricePer)
      requires imgOf == ImgOfItem(prParseResultList, bestShopForImgUrl)
      modifies this`pcSelfResultList
      ensures (pcSelfResultList, error) == CheckedWith(benefitOf, imgOf, items, old(pcSelfResultList), stamp)
    {
      error := None;
      ghost var acc := pcSelfResultList;
      var i := 0;
      while i < |items|
        invariant 0 <= i <= |items|
        invariant (pcSelfResultList, error) == CheckedWith(benefitOf, imgOf, items[..i], acc, stamp) && error == None
      {
        error := CheckOffer(items[i], stamp, benefitOf, imgOf);
        CheckedWithNext(benefitOf, imgOf, items, acc, stamp, i);
        if error.Some? {
          CheckedWithStops(benefitOf, imgOf, items, acc, stamp, i + 1);
          return;
        }
        i := i + 1;
      }
      assert items[..i] == items;
    }

    /** One pass of the outer loop of __check_prices. */
    method CheckOffer(item: ParseResult, stamp: nat -> string,
                      ghost benefitOf: ParseResult -> Outcome<Benefit>, ghost imgOf: ParseResult -> Option<string>)
      returns (error: Option<PyError>)
      requires benefitOf == BenefitOfItem(store, prParseResultList, minDiffPricePer)
      requires imgOf == ImgOfItem(prParseResultList, bestShopForImgUrl)
      modifies this`pcSelfResultList
      ensures (pcSelfResultList, error) == CheckStep(old(pcSelfResultList), item, benefitOf(item), imgOf(item), stamp)
    {
      var b := CheckPriceForBenefit(item.price, item.brandName, item.modelName, item.ram, item.rom);
      match b
      case Raised(e) =>
        error := Some(e);
      case Ok(NoData) =>
        error := None;
      case Ok(Checked(rows, avg, histMin)) =>
        if rows != [] && avg != 0.0 {
          AddResults(item, rows, avg, histMin, stamp);
        }
        error := None;
    }

    /** The inner loop of __check_prices: each deal row becomes a record unless one for
        its url exists already. */
    method AddResults(item: ParseResult, resultList: seq<ActualRow>, avg: real, histMin: HistRow, stamp: nat -> string)
      modifies this`pcSelfResultList
      ensures pcSelfResultList == AddDeals(old(pcSelfResultList), item, resultList, avg, histMin,
                                           BestImgUrl(prParseResultList, bestShopForImgUrl, item.brandName, item.modelName), stamp)
    {
      ghost var acc := pcSelfResultList;
      ghost var img := BestImgUrl(prParseResultList, bestShopForImgUrl, item.brandName, item.modelName);
      var j := 0;
      while j < |resultList|
        invariant 0 <= j <= |resultList|
        invariant pcSelfResultList == AddDeals(acc, item, resultList[..j], avg, histMin, img, stamp)
      {
        assert resultList[..j + 1][..j] == resultList[..j];
        var itemResult := resultList[j];
        var seen := FindInNamedtupleList(pcSelfResultList, PriceChangesGet, UrlQuery(itemResult.url), true);
        if seen == [] {
          var imgUrl := FindBestImgUrl(item.brandName, item.modelName);
          pcSelfResultList := pcSelfResultList + [Deal(item, itemResult, avg, histMin, imgUrl, stamp(|pcSelfResultList|))];
        }
        j := j + 1;
      }
      assert resultList[..j] == resultList;
    }

    /** run: the deals of this run, or the error that ended it. */
    method Run(stamp: nat -> string) returns (result: seq<PriceChanges>, error: Option<PyError>)
      modifies this`pcSelfResultList
      ensures (result, error) == CheckedPrices(store, prParseResultList, minDiffPricePer, bestShopForImgUrl,
                                               prPriceChangeList, old(pcSelfResultList), stamp)
      ensures pcSelfResultList == result
    {
      error := CheckPrices(stamp);
      result := pcSelfResultList;
    }
  }

  /** Checking one more offer is one more step, unless an earlier offer raised. */
  lemma CheckedWithNext(benefitOf: ParseResult -> Outcome<Benefit>, imgOf: ParseResult -> Option<string>,
                        items: seq<ParseResult>, acc: seq<PriceChanges>, stamp: nat -> string, i: nat)
    requires i < |items| && CheckedWith(benefitOf, imgOf, items[..i], acc, stamp).1.None?
    ensures CheckedWith(benefitOf, imgOf, items[..i + 1], acc, stamp)
         == CheckStep(CheckedWith(benefitOf, imgOf, items[..i], acc, stamp).0, items[i], benefitOf(items[i]), imgOf(items[i]), stamp)
  {
    assert items[..i + 1][..i] == items[..i];
  }

  /** Once an offer has raised, the later offers change nothing. */
  lemma {:induction false} CheckedWithStops(benefitOf: ParseResult -> Outcome<Benefit>, imgOf: ParseResult -> Option<string>,
                                            items: seq<ParseResult>, acc: seq<PriceChanges>, stamp: nat -> string, k: nat)
    requires k <= |items| && CheckedWith(benefitOf, imgOf, items[..k], acc, stamp).1.Some?
    ensures CheckedWith(benefitOf, imgOf, items, acc, stamp) == CheckedWith(benefitOf, imgOf, items[..k], acc, stamp)
    decreases |items| - k
  {
    if k < |items| {
      assert items[..k + 1][..k] == items[..k];
      CheckedWithStops(benefitOf, imgOf, items, acc, stamp, k + 1);
    } else {
      assert items[..k] == items;
    }
  }
}
