/** Helpers of the Telegram stage: the statistics counters, referral-link rewriting,
    the in-stock filter over actual prices, and the bounded list of published posts
    that evicts its oldest inactive post when full. */
module BotHelper {
  import opened Builtins
  import opened Helper
  import opened SqlReq

  // ---------------------------------------------------------------------------
  // Statistics
  // ---------------------------------------------------------------------------

  /** The count stored under a key, 0 when absent. */
  function Get(dictionary: map<string, int>, key: string): int {
    if key in dictionary then dictionary[key] else 0
  }

  /** One more under a key: `dictionary[key] += 1`, starting from 1. */
  function Inc(dictionary: map<string, int>, key: string): map<string, int> {
    dictionary[key := Get(dictionary, key) + 1]
  }

  /** inc_stats_products: the key "brand model" gains one, every other key is unchanged. */
  function IncStatsProducts(dictionary: map<string, int>, brandName: string, modelName: string): (r: map<string, int>)
    ensures brandName + " " + modelName in r
    ensures r[brandName + " " + modelName] == Get(dictionary, brandName + " " + modelName) + 1
    ensures forall k :: k != brandName + " " + modelName ==> (k in r <==> k in dictionary) && Get(r, k) == Get(dictionary, k)
  {
    Inc(dictionary, brandName + " " + modelName)
  }

  /** `SHOPS_NAME_LIST[id - 1]` with Python's indexing: -14 .. -1 count from the end,
      anything else outside the list raises IndexError. */
  function ShopName(id: int): Outcome<string> {
    var i := id - 1;
    if 0 <= i < |ShopsNameList| then Ok(ShopsNameList[i])
    else if -|ShopsNameList| <= i < 0 then Ok(ShopsNameList[|ShopsNameList| + i])
    else Raised(IndexError)
  }

  /** The counters after the shop ids, in order, up to the first id that raises. */
  function ShopStats(dictionary: map<string, int>, shopList: seq<int>): (map<string, int>, Option<PyError>) {
    if shopList == [] then (dictionary, None)
    else
      var (d, e) := ShopStats(dictionary, shopList[..|shopList| - 1]);
      if e.Some? then (d, e)
      else
        match ShopName(shopList[|shopList| - 1])
        case Raised(err) => (d, Some(err))
        case Ok(name) => (Inc(d, name), None)
  }

  /** inc_stats_shops. The dictionary is returned rather than updated in place; on an
      invalid id the counters reached so far and the error come back. */
  method IncStatsShops(dictionary: map<string, int>, shopList: seq<int>) returns (r: map<string, int>, error: Option<PyError>)
    ensures (r, error) == ShopStats(dictionary, shopList)
  {
    r := dictionary;
    error := None;
    var i := 0;
    while i < |shopList|
      invariant 0 <= i <= |shopList|
      invariant (r, error) == ShopStats(dictionary, shopList[..i])
      invariant error == None
    {
      assert shopList[..i + 1][..i] == shopList[..i];
      var name := ShopName(shopList[i]);
      if name.Raised? {
        error := Some(name.error);
        assert ShopStats(dictionary, shopList[..i + 1]) == (r, error);
        ShopStatsStops(dictionary, shopList, i + 1);
        return;
      }
      r := Inc(r, name.value);
      i := i + 1;
    }
    assert shopList[..i] == shopList;
  }

  /** Once an id has raised, later ids change nothing. */
  lemma {:induction false} ShopStatsStops(dictionary: map<string, int>, shopList: seq<int>, k: nat)
    requires k <= |shopList| && ShopStats(dictionary, shopList[..k]).1.Some?
    ensures ShopStats(dictionary, shopList) == ShopStats(dictionary, shopList[..k])
    decreases |shopList| - k
  {
    if k < |shopList| {
      assert shopList[..k + 1][..k] == shopList[..k];
      ShopStatsStops(dictionary, shopList, k + 1);
    } else {
      assert shopList[..k] == shopList;
    }
  }

  /** How many ids of the list name this shop. */
  function CountNamed(shopList: seq<int>, name: string): nat {
    if shopList == [] then 0
    else CountNamed(shopList[..|shopList| - 1], name) + (if ShopName(shopList[|shopList| - 1]) == Ok(name) then 1 else 0)
  }

  /** When every id is valid, each shop's counter grows by the number of entries naming it. */
  lemma {:induction false} ShopStatsCounts(dictionary: map<string, int>, shopList: seq<int>, name: string)
    requires forall i :: 0 <= i < |shopList| ==> ShopName(shopList[i]).Ok?
    ensures ShopStats(dictionary, shopList).1 == None
    ensures Get(ShopStats(dictionary, shopList).0, name) == Get(dictionary, name) + CountNamed(shopList, name)
  {
    if shopList != [] {
      var init := shopList[..|shopList| - 1];
      assert forall i :: 0 <= i < |init| ==> init[i] == shopList[i];
      ShopStatsCounts(dictionary, init, name);
      assert ShopName(shopList[|shopList| - 1]).Ok?;
    }
  }

  /** Ids 1..14 name the shops in list order; 0 wraps to the last shop. */
  lemma ShopNameRange(id: int)
    ensures 1 <= id <= 14 ==> ShopName(id) == Ok(ShopsNameList[id - 1])
    ensures id == 0 ==> ShopName(id) == Ok("ноу-хау")
    ensures (id > 14 || id < -13) ==> ShopName(id) == Raised(IndexError)
  {
  }

  // ---------------------------------------------------------------------------
  // Referral links
  // ---------------------------------------------------------------------------

  const DomainMvideo := "mvideo.ru"
  const DomainMts := "mts.ru"
  const DomainEldorado := "eldorado.ru"
  const DomainCitilink := "citilink.ru"

  /** The referral prefixes of the four partner shops (module constants in the source). */
  datatype RefLinks = RefLinks(mvideo: string, mts: string, eldorado: string, citilink: string)

  /** convert_url_for_ref_link: ':' to "%3A", '/' to "%2F", then strip. */
  function ConvertUrlForRefLink(url: string): string {
    Strip(ReplaceAll(ReplaceAll(url, ":", "%3A"), "/", "%2F"))
  }

  /** The converted url contains neither ':' nor '/'. */
  lemma ConvertUrlForRefLinkClean(url: string)
    ensures ':' !in ConvertUrlForRefLink(url) && '/' !in ConvertUrlForRefLink(url)
  {
    var a := ReplaceAll(url, ":", "%3A");
    var b := ReplaceAll(a, "/", "%2F");
    ReplaceCharRemoves(url, ':', "%3A");
    ReplaceCharKeepsAbsent(a, '/', "%2F", ':');
    ReplaceCharRemoves(a, '/', "%2F");
    if ':' in Strip(b) {
      StripKeeps(b, ':');
    }
    if '/' in Strip(b) {
      StripKeeps(b, '/');
    }
  }

  /** get_ref_link. */
  function GetRefLink(url: string, refs: RefLinks): string {
    if Contains(url, DomainMvideo) then refs.mvideo + ConvertUrlForRefLink(url)
    else if Contains(url, DomainMts) then refs.mts + ConvertUrlForRefLink(url)
    else if Contains(url, DomainCitilink) then refs.citilink + ConvertUrlForRefLink(url)
    else if Contains(url, DomainEldorado) then refs.eldorado + ConvertUrlForRefLink(url)
    else url
  }

  /** The partner domains in priority order, with their referral prefixes. */
  function Partners(refs: RefLinks): seq<(string, string)> {
    [(DomainMvideo, refs.mvideo), (DomainMts, refs.mts), (DomainCitilink, refs.citilink), (DomainEldorado, refs.eldorado)]
  }

  /** The prefix of the first partner whose domain occurs in the url. */
  function FirstPartner(partners: seq<(string, string)>, url: string): Option<string> {
    if partners == [] then None
    else if Contains(url, partners[0].0) then Some(partners[0].1)
    else FirstPartner(partners[1..], url)
  }

  /** On a four-entry table the first match is the first entry, in order, whose domain occurs. */
  lemma FirstPartnerOfFour(a: (string, string), b: (string, string), c: (string, string), d: (string, string), url: string)
    ensures FirstPartner([a, b, c, d], url) ==
      if Contains(url, a.0) then Some(a.1)
      else if Contains(url, b.0) then Some(b.1)
      else if Contains(url, c.0) then Some(c.1)
      else if Contains(url, d.0) then Some(d.1)
      else None
  {
    assert [a, b, c, d][1..] == [b, c, d];
    assert [b, c, d][1..] == [c, d];
    assert [c, d][1..] == [d];
    assert [d][1..] == [];
    assert FirstPartner([d], url) == if Contains(url, d.0) then Some(d.1) else None;
    assert FirstPartner([c, d], url) == if Contains(url, c.0) then Some(c.1) else FirstPartner([d], url);
    assert FirstPartner([b, c, d], url) == if Contains(url, b.0) then Some(b.1) else FirstPartner([c, d], url);
    assert FirstPartner([a, b, c, d], url) == if Contains(url, a.0) then Some(a.1) else FirstPartner([b, c, d], url);
  }

  /** The first matching domain in the order mvideo, mts, citilink, eldorado decides the
      prefix; a url with none of them comes back unchanged. */
  lemma GetRefLinkFirstPartner(url: string, refs: RefLinks)
    ensures GetRefLink(url, refs) ==
      match FirstPartner(Partners(refs), url)
      case None => url
      case Some(prefix) => prefix + ConvertUrlForRefLink(url)
  {
    FirstPartnerOfFour((DomainMvideo, refs.mvideo), (DomainMts, refs.mts), (DomainCitilink, refs.citilink),
                       (DomainEldorado, refs.eldorado), url);
  }

  // ---------------------------------------------------------------------------
  // In-stock filter
  // ---------------------------------------------------------------------------

  /** Some scraped offer has this url (a search on `url` with limit_one finds one). */
  predicate InStock(parseResults: seq<ParseResult>, url: string) {
    Found(parseResults, ParseResultGet, map[Url := Text(url)], true) != []
  }

  /** With a non-empty url the test is membership of the url; an empty url imposes no
      criterion, so any non-empty offer list passes. */
  lemma InStockMeaning(parseResults: seq<ParseResult>, url: string)
    ensures url != [] ==> (InStock(parseResults, url) <==> exists p :: p in parseResults && p.url == url)
    ensures url == [] ==> (InStock(parseResults, url) <==> parseResults != [])
  {
    var q := map[Url := Text(url)];
    assert Url in q && q[Url] == Text(url);
    FoundFirst(parseResults, ParseResultGet, q);
    if InStock(parseResults, url) {
      var k :| 0 <= k < |parseResults| && Matches(ParseResultGet, parseResults[k], q);
      if url != [] {
        assert Truthy(q[Url]);
        assert ParseResultGet(parseResults[k], Url) == Text(url);
        assert parseResults[k] in parseResults && parseResults[k].url == url;
      }
    }
    if url == [] && parseResults != [] {
      assert Matches(ParseResultGet, parseResults[0], q);
    }
    if url != [] && exists p :: p in parseResults && p.url == url {
      var p :| p in parseResults && p.url == url;
      var k :| 0 <= k < |parseResults| && parseResults[k] == p;
      assert Matches(ParseResultGet, parseResults[k], q);
    }
  }

  /** The actual-price rows whose url is in stock, in order. */
  function InStockRows(rows: seq<ActualRow>, parseResults: seq<ParseResult>): seq<ActualRow> {
    Filter(rows, (a: ActualRow) => InStock(parseResults, a.url))
  }

  /** irr_post_search_data_in_stock. */
  method IrrPostSearchDataInStock(actPriceDataList: seq<ActualRow>, prProductInStockList: seq<ParseResult>)
    returns (r: seq<ActualRow>)
    ensures r == InStockRows(actPriceDataList, prProductInStockList)
  {
    r := [];
    var i := 0;
    while i < |actPriceDataList|
      invariant 0 <= i <= |actPriceDataList|
      invariant r == InStockRows(actPriceDataList[..i], prProductInStockList)
    {
      assert actPriceDataList[..i + 1][..i] == actPriceDataList[..i];
      var found := FindInNamedtupleList(prProductInStockList, ParseResultGet, map[Url := Text(actPriceDataList[i].url)], true);
      if found != [] {
        r := r + [actPriceDataList[i]];
      }
      i := i + 1;
    }
    assert actPriceDataList[..i] == actPriceDataList;
  }

  /** The in-stock rows are an order-preserving sublist holding exactly the rows in stock. */
  lemma InStockRowsProperties(rows: seq<ActualRow>, parseResults: seq<ParseResult>)
    ensures IsSubsequence(InStockRows(rows, parseResults), rows)
    ensures forall a :: a in InStockRows(rows, parseResults) <==> a in rows && InStock(parseResults, a.url)
  {
    FilterIsSubsequence(rows, (a: ActualRow) => InStock(parseResults, a.url));
  }

  // ---------------------------------------------------------------------------
  // The bounded list of posts
  // ---------------------------------------------------------------------------

  /** The index of the first inactive post, or the length when all are active. */
  function FirstInactive(posts: seq<MessagesInTelegram>): (k: nat)
    ensures k <= |posts|
    ensures forall j :: 0 <= j < k ==> posts[j].isActual
    ensures k < |posts| ==> !posts[k].isActual
  {
    if posts == [] then 0
    else if !posts[0].isActual then 0
    else 1 + FirstInactive(posts[1..])
  }

  /** The post as re-added: every field copied except the hash and the state. */
  function Readded(item: MessagesInTelegram, newHash: string, isActual: bool): MessagesInTelegram {
    MessagesInTelegram(item.messageId, item.category, item.brandName, item.modelName, item.ram, item.rom,
                       item.price, item.avgActualPrice, item.imgUrl, item.whereBuyList, item.histMinPrice,
                       item.histMinShop, item.histMinDate, item.postDatetime, newHash, isActual)
  }

  /** At or over capacity, the first inactive post (if any) is dropped; then the item is appended. */
  function AddItem(posts: seq<MessagesInTelegram>, maxElement: int, item: MessagesInTelegram,
                   newHash: string, isActual: bool): seq<MessagesInTelegram> {
    (if |posts| >= maxElement then WithoutFirstInactive(posts) else posts) + [Readded(item, newHash, isActual)]
  }

  /** The posts with the first inactive one (if any) removed. */
  function WithoutFirstInactive(posts: seq<MessagesInTelegram>): seq<MessagesInTelegram> {
    if posts == [] then []
    else if !posts[0].isActual then posts[1..]
    else [posts[0]] + WithoutFirstInactive(posts[1..])
  }

  /** Removing the first inactive post splices it out at FirstInactive. */
  lemma {:induction false} WithoutFirstInactiveSplice(posts: seq<MessagesInTelegram>)
    ensures var k := FirstInactive(posts);
      WithoutFirstInactive(posts) == if k < |posts| then posts[..k] + posts[k + 1..] else posts
    decreases |posts|
  {
    if posts != [] && posts[0].isActual {
      WithoutFirstInactiveSplice(posts[1..]);
      var k := FirstInactive(posts[1..]);
      if k < |posts[1..]| {
        assert [posts[0]] + (posts[1..][..k] + posts[1..][k + 1..]) == posts[..k + 1] + posts[k + 2..];
      } else {
        assert [posts[0]] + posts[1..] == posts;
      }
    }
  }

  /** irr_post_add_item_in_msg_in_telegram_list. The list is returned rather than
      updated in place. */
  method IrrPostAddItemInMsgInTelegramList(msgTelegramList: seq<MessagesInTelegram>, maxElement: int,
                                           item: MessagesInTelegram, newHash: string, isActual: bool)
    returns (r: seq<MessagesInTelegram>)
    ensures r == AddItem(msgTelegramList, maxElement, item, newHash, isActual)
  {
    var newItem := Readded(item, newHash, isActual);
    r := msgTelegramList;
    if |r| >= maxElement {
      var indx := 0;
      while indx < |r| && r[indx].isActual
        invariant 0 <= indx <= |r|
        invariant forall j :: 0 <= j < indx ==> r[j].isActual
        invariant indx <= FirstInactive(r)
      {
        indx := indx + 1;
      }
      if indx < |r| {
        r := r[..indx] + r[indx + 1..];
      }
      WithoutFirstInactiveSplice(msgTelegramList);
    }
    r := r + [newItem];
  }

  /** Exactly one post is appended, at the end: the item with the new hash and state. */
  lemma AddItemAppends(posts: seq<MessagesInTelegram>, maxElement: int, item: MessagesInTelegram,
                       newHash: string, isActual: bool)
    ensures var r := AddItem(posts, maxElement, item, newHash, isActual);
      r != [] && r[|r| - 1] == item.(textHash := newHash, isActual := isActual)
  {
  }

  /** Full with an inactive post: the oldest inactive post goes, every other post keeps
      its order, and the length is unchanged. Full with none inactive: nothing goes and
      the list grows by one. Below capacity: the old posts are untouched. */
  lemma AddItemEviction(posts: seq<MessagesInTelegram>, maxElement: int, item: MessagesInTelegram,
                        newHash: string, isActual: bool)
    ensures var r := AddItem(posts, maxElement, item, newHash, isActual);
      && (|posts| >= maxElement && (exists j :: 0 <= j < |posts| && !posts[j].isActual) ==>
            (|r| == |posts|
             && exists k :: 0 <= k < |posts| && !posts[k].isActual
                  && (forall j :: 0 <= j < k ==> posts[j].isActual)
                  && r[..|r| - 1] == posts[..k] + posts[k + 1..]))
      && (|posts| >= maxElement && (forall j :: 0 <= j < |posts| ==> posts[j].isActual) ==>
            (|r| == |posts| + 1 && r[..|posts|] == posts))
      && (|posts| < maxElement ==> (|r| == |posts| + 1 && r[..|posts|] == posts))
  {
    var r := AddItem(posts, maxElement, item, newHash, isActual);
    var k := FirstInactive(posts);
    WithoutFirstInactiveSplice(posts);
    if |posts| >= maxElement && (exists j :: 0 <= j < |posts| && !posts[j].isActual) {
      assert k < |posts|;
      assert r[..|r| - 1] == posts[..k] + posts[k + 1..];
    }
  }

  /** The new list holds old posts and the re-added item, nothing else, and grows by at
      most one. */
  lemma AddItemMembers(posts: seq<MessagesInTelegram>, maxElement: int, item: MessagesInTelegram,
                       newHash: string, isActual: bool)
    ensures var r := AddItem(posts, maxElement, item, newHash, isActual);
      |r| <= |posts| + 1 && forall x :: x in r ==> x in posts || x == item.(textHash := newHash, isActual := isActual)
  {
    var k := FirstInactive(posts);
    WithoutFirstInactiveSplice(posts);
    if |posts| >= maxElement && k < |posts| {
      var kept := posts[..k] + posts[k + 1..];
      assert forall x :: x in kept ==> x in posts[..k] || x in posts[k + 1..];
    }
  }
}
