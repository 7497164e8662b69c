/** The Telegram user-bot: it filters and groups the qualified deals, publishes one post
    per group (at most three send attempts, a duplicate check first), and later
    re-checks every stored post against the store and the current scrape, marking it
    actual or not actual by editing it, then rebuilds the bounded list of posts.

    Everything outside the process is an oracle: the picture file, the Telegram send and
    edit calls, the clock, the caption text and sha256. */
module Bot {
  import opened Builtins
  import opened Helper
  import opened SqlReq
  import opened BotHelper

  // ---------------------------------------------------------------------------
  // Configuration and oracles
  // ---------------------------------------------------------------------------

  /** The five percent thresholds of the star tiers (`bot-stars` in the configuration). */
  datatype Stars = Stars(one: real, two: real, three: real, four: real, five: real)

  /** One (shop, url, color) entry of a caption's shop list. */
  datatype Version = Version(shop: int, url: string, color: string)

  /** What the caption is made from. The text itself is rendered by `Setup.render`. */
  datatype CaptionArgs = CaptionArgs(
    category: string, brandName: string, modelName: string, ram: int, rom: int, price: int,
    avgActualPrice: int, histMinPrice: int, histMinDate: int, histMinShop: int,
    versions: seq<Version>, isActual: bool)

  /** The bot's fixed configuration. `render` stands for the caption text (given its
      arguments and the star tier) and `sha256` for the hex digest of a text. */
  datatype Setup = Setup(
    ignoreBrands: seq<string>, stars: Stars, maxNumActPostTelegram: int,
    render: (CaptionArgs, int) -> string, sha256: string -> string)

  /** The answers of the outside world during one run:
      - `pictureMade(k)`: the picture for the k-th group could be made;
      - `sendPhoto(k, disNotify, a)`: the message id answered by send attempt a of the
        k-th group, 0 when the attempt failed;
      - `editPhoto(j, a)`: edit attempt a of the j-th stored post succeeded;
      - `editCaption(j)`: the caption edit of the j-th stored post succeeded;
      - `now(k)`: the clock when the k-th group's post is stored. */
  datatype Telegram = Telegram(
    pictureMade: nat -> bool, sendPhoto: (nat, bool, nat) -> int,
    editPhoto: (nat, nat) -> bool, editCaption: nat -> bool, now: nat -> int)

  /** The state the bot keeps between runs: published posts and the statistics. */
  datatype Board = Board(
    posts: seq<MessagesInTelegram>, numAllPost: int, numActualPost: int,
    statsProds: map<string, int>, statsShops: map<string, int>)

  // ---------------------------------------------------------------------------
  // Star tier and caption
  // ---------------------------------------------------------------------------

  /** How many percent the price lies below the average (ZeroDivisionError at 0). */
  function Per(price: int, avgActualPrice: int): real
    requires avgActualPrice != 0
  {
    PerNumOfNum(price as real, avgActualPrice as real)
  }

  /** The threshold of the k-th star (k = 1..5). */
  function Threshold(stars: Stars, k: nat): real
    requires 1 <= k <= 5
  {
    if k == 1 then stars.one
    else if k == 2 then stars.two
    else if k == 3 then stars.three
    else if k == 4 then stars.four
    else stars.five
  }

  /** The k-th of the five tests: the band [t_k, t_k+1) for k < 5, above t_5 for 5. */
  predicate Passes(stars: Stars, per: real, k: nat)
    requires 1 <= k <= 5
  {
    if k == 5 then stars.five < per else Threshold(stars, k) <= per < Threshold(stars, k + 1)
  }

  /** The last of the first k tests that passes, 0 when none does: the tests run in
      order and a later passing one overrides an earlier one. */
  function LastPassing(stars: Stars, per: real, k: nat): (star: int)
    requires k <= 5
    ensures 0 <= star <= k
  {
    if k == 0 then 0 else if Passes(stars, per, k) then k else LastPassing(stars, per, k - 1)
  }

  /** The star count of a caption. */
  function StarTier(stars: Stars, per: real): (star: int)
    ensures 0 <= star <= 5
  {
    LastPassing(stars, per, 5)
  }

  predicate Ascending(stars: Stars) {
    stars.one <= stars.two <= stars.three <= stars.four <= stars.five
  }

  /** With ascending thresholds the tiers are the bands [t_k, t_k+1) for k = 1..4 and
      (t_5, ∞) for 5; a percentage below the first threshold or exactly at the fifth
      gets no star. */
  lemma StarTierBands(stars: Stars, per: real)
    requires Ascending(stars)
    ensures StarTier(stars, per) == 1 <==> stars.one <= per < stars.two
    ensures StarTier(stars, per) == 2 <==> stars.two <= per < stars.three
    ensures StarTier(stars, per) == 3 <==> stars.three <= per < stars.four
    ensures StarTier(stars, per) == 4 <==> stars.four <= per < stars.five
    ensures StarTier(stars, per) == 5 <==> stars.five < per
    ensures StarTier(stars, per) == 0 <==> per < stars.one || per == stars.five
  {
    var s1 := LastPassing(stars, per, 1);
    var s2 := LastPassing(stars, per, 2);
    var s3 := LastPassing(stars, per, 3);
    var s4 := LastPassing(stars, per, 4);
    assert s1 == if stars.one <= per < stars.two then 1 else 0;
    assert s2 == if stars.two <= per < stars.three then 2 else s1;
    assert s3 == if stars.three <= per < stars.four then 3 else s2;
    assert s4 == if stars.four <= per < stars.five then 4 else s3;
    assert StarTier(stars, per) == if stars.five < per then 5 else s4;
  }

  /** `TRUE_SHOP_NAMES[id - 1]` is defined: the list has 21 entries, and Python's
      negative indices count from its end. */
  predicate TrueShopIndexed(id: int) {
    -21 <= id - 1 < 21
  }

  /** `str()` of a datetime omits the fraction when its microseconds are 0, and the
      format '%Y-%m-%d %H:%M:%S.%f' then fails to parse it. Datetimes are microseconds. */
  predicate WholeSecond(dateTime: int) {
    dateTime % 1000000 == 0
  }

  /** Every step of the caption after the empty-list test succeeds: a non-zero average,
      a historical minimum that is either not shown or has a parsable date and a named
      shop, and a named shop for every entry of the list. */
  predicate CaptionRenders(args: CaptionArgs, strictDate: bool) {
    && args.avgActualPrice != 0
    && (args.price > args.histMinPrice ==> !(strictDate && WholeSecond(args.histMinDate)) && TrueShopIndexed(args.histMinShop))
    && forall v :: v in args.versions ==> ShopName(v.shop).Ok?
  }

  /** The body of __generate_caption in the order it fails: the percentage divides by
      the average, the historical minimum's date is parsed and its shop named, then each
      shop of the list is named in SHOPS_NAME_LIST. With `strictDate` false the date is
      parsed with or without its fraction. */
  function Caption(setup: Setup, args: CaptionArgs, strictDate: bool): Outcome<Option<string>> {
    if args.versions == [] then Ok(None)
    else if args.avgActualPrice == 0 then Raised(ZeroDivisionError)
    else if args.price > args.histMinPrice && strictDate && WholeSecond(args.histMinDate) then Raised(ValueError)
    else if args.price > args.histMinPrice && !TrueShopIndexed(args.histMinShop) then Raised(IndexError)
    else if exists v :: v in args.versions && ShopName(v.shop).Raised? then Raised(IndexError)
    else Ok(Some(setup.render(args, StarTier(setup.stars, Per(args.price, args.avgActualPrice)))))
  }

  /** __generate_caption: None for an empty shop list; ZeroDivisionError for a zero
      average; ValueError when the historical minimum is shown and its date has no
      fraction; IndexError for a shop id outside the name lists; otherwise the rendered
      text with the star tier of the discount. */
  function GenerateCaption(setup: Setup, args: CaptionArgs): (r: Outcome<Option<string>>)
    ensures r == Ok(None) <==> args.versions == []
    ensures r.Ok? <==> args.versions == [] || CaptionRenders(args, true)
    ensures r == Raised(ZeroDivisionError) <==> args.versions != [] && args.avgActualPrice == 0
    ensures r == Raised(ValueError) <==>
      args.versions != [] && args.avgActualPrice != 0 && args.price > args.histMinPrice && WholeSecond(args.histMinDate)
    ensures r.Raised? ==> r.error in {ZeroDivisionError, ValueError, IndexError}
    ensures r.Ok? && args.versions != [] ==>
      r.value == Some(setup.render(args, StarTier(setup.stars, Per(args.price, args.avgActualPrice))))
  {
    Caption(setup, args, true)
  }

  /** The caption as evidently intended: the date is read whatever its fraction, so the
      only failures are the zero average and the unnamed shops. */
  function GenerateCaptionIntended(setup: Setup, args: CaptionArgs): (r: Outcome<Option<string>>)
    ensures r.Ok? <==> args.versions == [] || CaptionRenders(args, false)
    ensures r.Raised? ==> r.error in {ZeroDivisionError, IndexError}
  {
    Caption(setup, args, false)
  }

  /** The two agree except on a shown historical minimum stamped on a whole second. */
  lemma CaptionIntendedAgrees(setup: Setup, args: CaptionArgs)
    requires !(args.price > args.histMinPrice && WholeSecond(args.histMinDate))
    ensures GenerateCaptionIntended(setup, args) == GenerateCaption(setup, args)
  {
  }

  /** A deal whose historical minimum was recorded at 12:00:00.000000 on a day, cheaper
      now than then, fails with ValueError as written; the intended caption renders. */
  lemma WholeSecondCaptionRaises(setup: Setup, args: CaptionArgs)
    requires args.versions == [Version(1, "u", "c")] && args.avgActualPrice == 10000 && args.price == 9000
    requires args.histMinPrice == 8000 && args.histMinDate == 1622548800000000 && args.histMinShop == 1
    ensures GenerateCaption(setup, args) == Raised(ValueError)
    ensures GenerateCaptionIntended(setup, args).Ok? && GenerateCaptionIntended(setup, args).value.Some?
  {
    assert ShopName(1).Ok?;
    assert forall v :: v in args.versions ==> v == Version(1, "u", "c");
  }

  // ---------------------------------------------------------------------------
  // __filtering_data
  // ---------------------------------------------------------------------------

  function KeepBrand(ignoreBrands: seq<string>): PriceChanges -> bool {
    (p: PriceChanges) => p.brandName !in ignoreBrands
  }

  /** The deals after removing repeats (first occurrence kept) and ignored brands. */
  function Filtered(products: seq<PriceChanges>, ignoreBrands: seq<string>): seq<PriceChanges> {
    Filter(Dedup(products), KeepBrand(ignoreBrands))
  }

  /** The filtered list has no repeats, holds exactly the input deals of brands not
      ignored, and keeps the input order (deduplication and filtering each keep it). */
  lemma FilteredProperties(products: seq<PriceChanges>, ignoreBrands: seq<string>)
    ensures NoDuplicates(Filtered(products, ignoreBrands))
    ensures forall p :: p in Filtered(products, ignoreBrands) <==> p in products && p.brandName !in ignoreBrands
    ensures IsSubsequence(Dedup(products), products)
    ensures IsSubsequence(Filtered(products, ignoreBrands), Dedup(products))
  {
    DedupProperties(products);
    FilterNoDuplicates(Dedup(products), KeepBrand(ignoreBrands));
    DedupIsSubsequence(products);
    FilterIsSubsequence(Dedup(products), KeepBrand(ignoreBrands));
  }

  // ---------------------------------------------------------------------------
  // Grouping in __prepare_and_send_all_posts
  // ---------------------------------------------------------------------------

  /** The search a group is taken with: brand, model, ram, rom and price of its head. */
  function GroupQuery(p: PriceChanges): Query {
    map[BrandName := Text(p.brandName), ModelName := Text(p.modelName), Ram := Num(p.ram),
        Rom := Num(p.rom), Price := Num(p.price)]
  }

  lemma SelfMatches(p: PriceChanges)
    ensures Matches(PriceChangesGet, p, GroupQuery(p))
  {
  }

  /** The groups the while loop takes: the head's matches, then the groups of what is
      left once each of them is removed. */
  function Groups(products: seq<PriceChanges>): seq<seq<PriceChanges>>
    decreases |products|
  {
    if products == [] then []
    else
      var g := Matching(products, PriceChangesGet, GroupQuery(products[0]));
      HeadGroup(products);
      [g] + Groups(RemoveEach(products, g))
  }

  /** The groups one after another. */
  function Flatten(groups: seq<seq<PriceChanges>>): seq<PriceChanges> {
    if groups == [] then [] else groups[0] + Flatten(groups[1..])
  }

  lemma {:induction false} FlattenMembers(groups: seq<seq<PriceChanges>>, i: nat, x: PriceChanges)
    requires i < |groups| && x in groups[i]
    ensures x in Flatten(groups)
  {
    if i > 0 {
      FlattenMembers(groups[1..], i - 1, x);
    }
  }

  /** The head's group starts with the head and can be removed from the list. */
  lemma HeadGroup(products: seq<PriceChanges>)
    requires products != []
    ensures var g := Matching(products, PriceChangesGet, GroupQuery(products[0]));
      multiset(g) <= multiset(products) && g != [] && g[0] == products[0]
  {
    MatchingSubMultiset(products, PriceChangesGet, GroupQuery(products[0]));
    SelfMatches(products[0]);
    MatchingHead(products, PriceChangesGet, GroupQuery(products[0]));
  }

  /** The first group is the head's matches; the rest are the groups of what is left. */
  lemma GroupsUnfold(products: seq<PriceChanges>)
    requires products != []
    ensures var g := Matching(products, PriceChangesGet, GroupQuery(products[0]));
      && multiset(g) <= multiset(products)
      && g != [] && g[0] == products[0]
      && Groups(products) == [g] + Groups(RemoveEach(products, g))
  {
    HeadGroup(products);
  }

  /** The grouping terminates and partitions the list: every deal lands in exactly one
      group, as a multiset. */
  lemma {:induction false} GroupsPartition(products: seq<PriceChanges>)
    ensures multiset(Flatten(Groups(products))) == multiset(products)
    decreases |products|
  {
    if products != [] {
      GroupsUnfold(products);
      var g := Matching(products, PriceChangesGet, GroupQuery(products[0]));
      var rest := RemoveEach(products, g);
      assert Flatten(Groups(products)) == g + Flatten(Groups(rest));
      GroupsPartition(rest);
      RejoinRemoved(g, Flatten(Groups(rest)), products);
    }
  }

  /** What was removed, put back in front of what is left, is the whole list again. */
  lemma RejoinRemoved(g: seq<PriceChanges>, rest: seq<PriceChanges>, products: seq<PriceChanges>)
    requires multiset(g) <= multiset(products) && multiset(rest) == multiset(products) - multiset(g)
    ensures multiset(g + rest) == multiset(products)
  {
  }

  /** No group is empty: each holds at least its head. */
  lemma {:induction false} GroupsNonEmpty(products: seq<PriceChanges>)
    ensures forall i :: 0 <= i < |Groups(products)| ==> Groups(products)[i] != []
    decreases |products|
  {
    if products != [] {
      GroupsUnfold(products);
      var g := Matching(products, PriceChangesGet, GroupQuery(products[0]));
      var rest := RemoveEach(products, g);
      GroupsNonEmpty(rest);
      NonEmptyCons(Groups(products), g, Groups(rest));
    }
  }

  lemma NonEmptyCons(gs: seq<seq<PriceChanges>>, g: seq<PriceChanges>, tail: seq<seq<PriceChanges>>)
    requires gs == [g] + tail && g != [] && forall i :: 0 <= i < |tail| ==> tail[i] != []
    ensures forall i :: 0 <= i < |gs| ==> gs[i] != []
  {
    assert forall i :: 0 < i < |gs| ==> gs[i] == tail[i - 1];
  }

  /** Every member of a group matches the group's head on brand, model, ram, rom and
      price (truthy criteria only). */
  lemma {:induction false} GroupsMatchHead(products: seq<PriceChanges>)
    ensures forall i, x :: 0 <= i < |Groups(products)| && x in Groups(products)[i] && Groups(products)[i] != [] ==>
      Matches(PriceChangesGet, x, GroupQuery(Groups(products)[i][0]))
    decreases |products|
  {
    if products != [] {
      GroupsUnfold(products);
      var q := GroupQuery(products[0]);
      var g := Matching(products, PriceChangesGet, q);
      var rest := RemoveEach(products, g);
      GroupsMatchHead(rest);
      forall x | x in g
        ensures Matches(PriceChangesGet, x, GroupQuery(g[0]))
      {
        MatchingMembers(products, PriceChangesGet, q, x);
      }
      MatchHeadCons(Groups(products), g, Groups(rest));
    }
  }

  lemma MatchHeadCons(gs: seq<seq<PriceChanges>>, g: seq<PriceChanges>, tail: seq<seq<PriceChanges>>)
    requires gs == [g] + tail && g != []
    requires forall x :: x in g ==> Matches(PriceChangesGet, x, GroupQuery(g[0]))
    requires forall i, x :: 0 <= i < |tail| && x in tail[i] && tail[i] != [] ==>
      Matches(PriceChangesGet, x, GroupQuery(tail[i][0]))
    ensures forall i, x :: 0 <= i < |gs| && x in gs[i] && gs[i] != [] ==>
      Matches(PriceChangesGet, x, GroupQuery(gs[i][0]))
  {
    assert forall i :: 0 < i < |gs| ==> gs[i] == tail[i - 1];
  }

  /** The groups are maximal: no member of a later group matches an earlier group's head,
      so each group holds every remaining deal that matches its head. */
  lemma {:induction false} GroupsMaximal(products: seq<PriceChanges>)
    ensures forall i, j, y :: 0 <= i < j < |Groups(products)| && y in Groups(products)[j] && Groups(products)[i] != [] ==>
      !Matches(PriceChangesGet, y, GroupQuery(Groups(products)[i][0]))
    decreases |products|
  {
    if products != [] {
      GroupsUnfold(products);
      var g := Matching(products, PriceChangesGet, GroupQuery(products[0]));
      var rest := RemoveEach(products, g);
      GroupsMaximal(rest);
      RestMissesHead(products);
      MaximalCons(Groups(products), g, Groups(rest));
    }
  }

  /** What is left after taking the head's group holds no deal matching the head. */
  lemma RestMissesHead(products: seq<PriceChanges>)
    requires products != []
    ensures var q := GroupQuery(products[0]);
      var rest := (HeadGroup(products); RemoveEach(products, Matching(products, PriceChangesGet, q)));
      forall j, y :: 0 <= j < |Groups(rest)| && y in Groups(rest)[j] ==> !Matches(PriceChangesGet, y, q)
  {
    HeadGroup(products);
    var q := GroupQuery(products[0]);
    var g := Matching(products, PriceChangesGet, q);
    var rest := RemoveEach(products, g);
    GroupsPartition(rest);
    forall j, y | 0 <= j < |Groups(rest)| && y in Groups(rest)[j]
      ensures !Matches(PriceChangesGet, y, q)
    {
      FlattenMembers(Groups(rest), j, y);
      assert y in multiset(rest);
      MatchingCount(products, PriceChangesGet, q, y);
    }
  }

  lemma MaximalCons(gs: seq<seq<PriceChanges>>, g: seq<PriceChanges>, tail: seq<seq<PriceChanges>>)
    requires gs == [g] + tail && g != []
    requires forall j, y :: 0 <= j < |tail| && y in tail[j] ==> !Matches(PriceChangesGet, y, GroupQuery(g[0]))
    requires forall i, j, y :: 0 <= i < j < |tail| && y in tail[j] && tail[i] != [] ==>
      !Matches(PriceChangesGet, y, GroupQuery(tail[i][0]))
    ensures forall i, j, y :: 0 <= i < j < |gs| && y in gs[j] && gs[i] != [] ==>
      !Matches(PriceChangesGet, y, GroupQuery(gs[i][0]))
  {
    assert forall i :: 0 < i < |gs| ==> gs[i] == tail[i - 1];
  }

  // ---------------------------------------------------------------------------
  // __send_one_post
  // ---------------------------------------------------------------------------

  /** A stored post, active or not, already shows this deal: the same search as the
      grouping (brand, model, price, ram, rom; truthy criteria only) with `limit_one`. */
  predicate IsDuplicate(posts: seq<MessagesInTelegram>, item: PriceChanges) {
    Found(posts, PostGet, GroupQuery(item), true) != []
  }

  /** The shop ids of a group, in order. */
  function ShopsOf(group: seq<PriceChanges>): (r: seq<int>)
    ensures |r| == |group| && forall i :: 0 <= i < |group| ==> r[i] == group[i].shop
  {
    seq(|group|, i requires 0 <= i < |group| => group[i].shop)
  }

  /** The `where_buy_list` of a new post: (shop, color, url) of every deal of the group. */
  function WhereBuyOf(group: seq<PriceChanges>): (r: seq<WhereBuy>)
    ensures |r| == |group|
    ensures forall i :: 0 <= i < |group| ==> r[i] == WhereBuy(group[i].shop, group[i].color, group[i].url)
  {
    seq(|group|, i requires 0 <= i < |group| => WhereBuy(group[i].shop, group[i].color, group[i].url))
  }

  /** The caption's shop list of a group: (shop, url, color) of every deal. */
  function DealVersions(group: seq<PriceChanges>): (r: seq<Version>)
    ensures |r| == |group|
    ensures forall i :: 0 <= i < |group| ==> r[i] == Version(group[i].shop, group[i].url, group[i].color)
  {
    seq(|group|, i requires 0 <= i < |group| => Version(group[i].shop, group[i].url, group[i].color))
  }

  /** The caption of a new post: the head's figures, the group's shops, marked actual. */
  function DealCaption(group: seq<PriceChanges>): CaptionArgs
    requires group != []
  {
    var item := group[0];
    CaptionArgs(item.category, item.brandName, item.modelName, item.ram, item.rom, item.price,
                item.avgActualPrice, item.histMinPrice, item.histMinDate, item.histMinShop,
                DealVersions(group), true)
  }

  /** The message id of the first of the send attempts a..2 that answers one (a falsy id
      is a failed attempt). */
  function FirstSent(send: (nat, bool, nat) -> int, k: nat, disNotify: bool, a: nat): (r: Option<int>)
    requires a <= 3
    ensures r.None? <==> forall i :: a <= i < 3 ==> send(k, disNotify, i) == 0
    ensures r.Some? ==> r.value != 0
    ensures r.Some? ==> exists i :: a <= i < 3 && send(k, disNotify, i) == r.value && forall j :: a <= j < i ==> send(k, disNotify, j) == 0
    decreases 3 - a
  {
    if a == 3 then None
    else if send(k, disNotify, a) != 0 then Some(send(k, disNotify, a))
    else FirstSent(send, k, disNotify, a + 1)
  }

  /** The post stored for a group once Telegram answered a message id. */
  function NewPost(group: seq<PriceChanges>, messageId: int, now: int, textHash: string): MessagesInTelegram
    requires group != []
  {
    var item := group[0];
    MessagesInTelegram(messageId, item.category, item.brandName, item.modelName, item.ram, item.rom,
                       item.price, item.avgActualPrice, item.imgUrl, WhereBuyOf(group), item.histMinPrice,
                       item.histMinShop, item.histMinDate, now, textHash, true)
  }

  /** __send_one_post for the k-th group: skip a duplicate; otherwise count the post,
      update the statistics, render the caption, and store the post when the picture
      exists and one of three sends answers a message id. An exception (an invalid shop
      id in the statistics, a zero average in the caption) stops the run. */
  function SendOne(setup: Setup, tg: Telegram, b: Board, group: seq<PriceChanges>, k: nat, disNotify: bool)
    : (Board, Option<PyError>)
    requires group != []
  {
    if IsDuplicate(b.posts, group[0]) then (b, None)
    else SendNew(setup, tg, b, group, k, disNotify)
  }

  /** The part of __send_one_post after the duplicate check. */
  function SendNew(setup: Setup, tg: Telegram, b: Board, group: seq<PriceChanges>, k: nat, disNotify: bool)
    : (Board, Option<PyError>)
    requires group != []
  {
    var item := group[0];
    var (shops, e) := ShopStats(b.statsShops, Dedup(ShopsOf(group)));
    var counted := Board(b.posts, b.numAllPost + 1, b.numActualPost + 1,
                         IncStatsProducts(b.statsProds, item.brandName, item.modelName), shops);
    if e.Some? then (counted, e) else Publish(setup, tg, counted, group, k, disNotify)
  }

  /** The end of __send_one_post: the caption, the picture and up to three send
      attempts, the first answered one appending the post. */
  function Publish(setup: Setup, tg: Telegram, b: Board, group: seq<PriceChanges>, k: nat, disNotify: bool)
    : (Board, Option<PyError>)
    requires group != []
  {
    match GenerateCaption(setup, DealCaption(group))
    case Raised(err) => (b, Some(err))
    case Ok(text) =>
      if !tg.pictureMade(k) then (b, None)
      else
        match FirstSent(tg.sendPhoto, k, disNotify, 0)
        case None => (b, None)
        case Some(id) => (b.(posts := b.posts + [NewPost(group, id, tg.now(k), setup.sha256(text.value))]), None)
  }

  /** The post appended for a group: active, carrying the first answered message id,
      the group's shops and the head's figures. */
  predicate Published(p: MessagesInTelegram, tg: Telegram, group: seq<PriceChanges>, k: nat, disNotify: bool)
    requires group != []
  {
    && p.isActual && p.messageId != 0
    && (exists a :: 0 <= a < 3 && tg.sendPhoto(k, disNotify, a) == p.messageId
          && forall j :: 0 <= j < a ==> tg.sendPhoto(k, disNotify, j) == 0)
    && p.whereBuyList == WhereBuyOf(group) && p.postDatetime == tg.now(k)
    && p.brandName == group[0].brandName && p.modelName == group[0].modelName
    && p.price == group[0].price && p.ram == group[0].ram && p.rom == group[0].rom
  }

  /** Past the duplicate check both counters grow by one and the statistics are
      updated, whether or not the post then goes out. */
  lemma SendNewCounts(setup: Setup, tg: Telegram, b: Board, group: seq<PriceChanges>, k: nat, disNotify: bool)
    requires group != []
    ensures var b' := SendNew(setup, tg, b, group, k, disNotify).0;
      && b'.numAllPost == b.numAllPost + 1 && b'.numActualPost == b.numActualPost + 1
      && b'.statsProds == IncStatsProducts(b.statsProds, group[0].brandName, group[0].modelName)
      && b'.statsShops == ShopStats(b.statsShops, Dedup(ShopsOf(group))).0
  {
    var item := group[0];
    var (shops, e) := ShopStats(b.statsShops, Dedup(ShopsOf(group)));
    var counted := Board(b.posts, b.numAllPost + 1, b.numActualPost + 1,
                         IncStatsProducts(b.statsProds, item.brandName, item.modelName), shops);
    PublishKeepsCounts(setup, tg, counted, group, k, disNotify);
  }

  lemma PublishKeepsCounts(setup: Setup, tg: Telegram, b: Board, group: seq<PriceChanges>, k: nat, disNotify: bool)
    requires group != []
    ensures Publish(setup, tg, b, group, k, disNotify).0 == b.(posts := Publish(setup, tg, b, group, k, disNotify).0.posts)
  {
  }

  /** Past the duplicate check at most one post is appended, and one is exactly when no
      exception was raised, the picture exists and some send attempt answered. */
  lemma SendNewPosts(setup: Setup, tg: Telegram, b: Board, group: seq<PriceChanges>, k: nat, disNotify: bool)
    requires group != []
    ensures var (b', e) := SendNew(setup, tg, b, group, k, disNotify);
      && (b'.posts == b.posts || (b'.posts[..|b.posts|] == b.posts && |b'.posts| == |b.posts| + 1
                                  && Published(b'.posts[|b.posts|], tg, group, k, disNotify)))
      && (|b'.posts| > |b.posts| <==> e == None && tg.pictureMade(k) && exists a :: 0 <= a < 3 && tg.sendPhoto(k, disNotify, a) != 0)
  {
    var (b', e) := SendNew(setup, tg, b, group, k, disNotify);
    var caption := GenerateCaption(setup, DealCaption(group));
    var sent := FirstSent(tg.sendPhoto, k, disNotify, 0);
    if ShopStats(b.statsShops, Dedup(ShopsOf(group))).1.None? && caption.Ok? && tg.pictureMade(k) && sent.Some? {
      assert caption.value.Some?;
      var p := NewPost(group, sent.value, tg.now(k), setup.sha256(caption.value.value));
      assert b'.posts == b.posts + [p];
      assert (b.posts + [p])[..|b.posts|] == b.posts;
    } else {
      assert b'.posts == b.posts;
    }
  }

  /** A duplicate, active or not, changes nothing. Otherwise both counters grow by one
      and the statistics are updated whether or not the post goes out; at most one post
      is appended (capacity is not consulted), and one is exactly when no exception was
      raised, the picture exists and some send attempt answered. */
  lemma SendOneProperties(setup: Setup, tg: Telegram, b: Board, group: seq<PriceChanges>, k: nat, disNotify: bool)
    requires group != []
    ensures var (b', e) := SendOne(setup, tg, b, group, k, disNotify);
      && (IsDuplicate(b.posts, group[0]) ==> b' == b && e == None)
      && (!IsDuplicate(b.posts, group[0]) ==>
            && b'.numAllPost == b.numAllPost + 1 && b'.numActualPost == b.numActualPost + 1
            && b'.statsProds == IncStatsProducts(b.statsProds, group[0].brandName, group[0].modelName)
            && b'.statsShops == ShopStats(b.statsShops, Dedup(ShopsOf(group))).0)
      && (b'.posts == b.posts || (b'.posts[..|b.posts|] == b.posts && |b'.posts| == |b.posts| + 1
                                  && Published(b'.posts[|b.posts|], tg, group, k, disNotify)))
      && (|b'.posts| > |b.posts| <==>
            && !IsDuplicate(b.posts, group[0]) && e == None && tg.pictureMade(k)
            && exists a :: 0 <= a < 3 && tg.sendPhoto(k, disNotify, a) != 0)
  {
    if !IsDuplicate(b.posts, group[0]) {
      SendNewCounts(setup, tg, b, group, k, disNotify);
      SendNewPosts(setup, tg, b, group, k, disNotify);
    }
  }

  /** The send loop over the first n groups, the loop stopping at the first exception;
      `step(b, i)` is what sending the i-th group does to the board. */
  function SendFold(step: (Board, nat) -> (Board, Option<PyError>), b: Board, n: nat): (Board, Option<PyError>) {
    if n == 0 then (b, None)
    else
      var (b1, e) := SendFold(step, b, n - 1);
      if e.Some? then (b1, e) else step(b1, n - 1)
  }

  /** Sending the i-th group: only the last two groups notify with sound. */
  function SendStep(setup: Setup, tg: Telegram, groups: seq<seq<PriceChanges>>): (Board, nat) -> (Board, Option<PyError>) {
    (b: Board, i: nat) =>
      if i < |groups| && groups[i] != [] then SendOne(setup, tg, b, groups[i], i, i < |groups| - 2) else (b, None)
  }

  /** The posts of the first n groups, in order. */
  function SendGroups(setup: Setup, tg: Telegram, b: Board, groups: seq<seq<PriceChanges>>, n: nat)
    : (Board, Option<PyError>)
  {
    SendFold(SendStep(setup, tg, groups), b, n)
  }

  lemma SendStepApply(setup: Setup, tg: Telegram, groups: seq<seq<PriceChanges>>, b0: Board, i: nat, r: (Board, Option<PyError>))
    requires i < |groups| && groups[i] != [] && SendFold(SendStep(setup, tg, groups), b0, i).1.None?
    requires r == SendOne(setup, tg, SendFold(SendStep(setup, tg, groups), b0, i).0, groups[i], i, i < |groups| - 2)
    ensures SendFold(SendStep(setup, tg, groups), b0, i + 1) == r
  {
  }

  /** From b to b' the two counters grew together by at most n, posts were only
      appended, no more than were counted, and every appended post is active. */
  predicate Grew(b: Board, b': Board, n: nat) {
    && b'.numAllPost - b.numAllPost == b'.numActualPost - b.numActualPost
    && 0 <= b'.numAllPost - b.numAllPost <= n
    && b.posts <= b'.posts
    && |b'.posts| - |b.posts| <= b'.numAllPost - b.numAllPost
    && forall i :: |b.posts| <= i < |b'.posts| ==> b'.posts[i].isActual
  }

  lemma GrewTrans(b: Board, b1: Board, b2: Board, m: nat, n: nat)
    requires Grew(b, b1, m) && Grew(b1, b2, n)
    ensures Grew(b, b2, m + n)
  {
    forall i | |b.posts| <= i < |b2.posts| ensures b2.posts[i].isActual {
      if i < |b1.posts| {
        assert b2.posts[i] == b1.posts[i];
      }
    }
  }

  /** One group grows the board by at most one. */
  lemma SendOneGrows(setup: Setup, tg: Telegram, b: Board, group: seq<PriceChanges>, k: nat, disNotify: bool)
    requires group != []
    ensures Grew(b, SendOne(setup, tg, b, group, k, disNotify).0, 1)
  {
    if !IsDuplicate(b.posts, group[0]) {
      var b' := SendNew(setup, tg, b, group, k, disNotify).0;
      SendNewCounts(setup, tg, b, group, k, disNotify);
      SendNewPosts(setup, tg, b, group, k, disNotify);
      assert b'.posts == b.posts || b'.posts == b'.posts[..|b.posts|] + [b'.posts[|b.posts|]];
    }
  }

  /** A loop whose every step grows the board by at most one grows it by at most n. */
  lemma {:induction false} SendFoldGrows(step: (Board, nat) -> (Board, Option<PyError>), b: Board, n: nat)
    requires forall b1: Board, i: nat :: Grew(b1, step(b1, i).0, 1)
    ensures Grew(b, SendFold(step, b, n).0, n)
  {
    if n > 0 {
      SendFoldGrows(step, b, n - 1);
      var (b1, e) := SendFold(step, b, n - 1);
      if e.None? {
        GrewTrans(b, b1, step(b1, n - 1).0, n - 1, 1);
      }
    }
  }

  /** Over a run the two counters move together and only up, by at most one per group;
      posts are only appended (none is evicted, whatever the capacity), never more than
      were counted, and every appended post is active. */
  lemma SendGroupsProperties(setup: Setup, tg: Telegram, b: Board, groups: seq<seq<PriceChanges>>, n: nat)
    ensures Grew(b, SendGroups(setup, tg, b, groups, n).0, n)
  {
    var step := SendStep(setup, tg, groups);
    forall b1: Board, i: nat ensures Grew(b1, step(b1, i).0, 1) {
      if i < |groups| && groups[i] != [] {
        SendOneGrows(setup, tg, b1, groups[i], i, i < |groups| - 2);
      }
    }
    SendFoldGrows(step, b, n);
  }

  // ---------------------------------------------------------------------------
  // __edit_post_as_irrelevant
  // ---------------------------------------------------------------------------

  /** One of the full edit attempts a..2 (picture and caption) of the j-th post succeeded. */
  function EditedPhoto(edit: (nat, nat) -> bool, j: nat, a: nat): (r: bool)
    requires a <= 3
    ensures r <==> exists i :: a <= i < 3 && edit(j, i)
    decreases 3 - a
  {
    if a == 3 then false else edit(j, a) || EditedPhoto(edit, j, a + 1)
  }

  /** __edit_post_as_irrelevant on the j-th stored post: the change to numActualPost and
      the result. Inactive and still inactive: nothing to do. A change of state: up to
      three full edits, the first success moving the counter. Still active: the caption
      is edited only when its hash changed (a missing text raises AttributeError when
      hashed). */
  function EditOutcome(setup: Setup, tg: Telegram, post: MessagesInTelegram, text: Option<string>,
                       currentActual: bool, j: nat): (int, Outcome<bool>)
  {
    if !post.isActual && !currentActual then (0, Ok(true))
    else if post.isActual != currentActual then
      if EditedPhoto(tg.editPhoto, j, 0) then (if currentActual then 1 else -1, Ok(true)) else (0, Ok(false))
    else if text.None? then (0, Raised(AttributeError))
    else if setup.sha256(text.value) != post.textHash && !tg.editCaption(j) then (0, Ok(false))
    else (0, Ok(true))
  }

  function Flag(b: bool): int { if b then 1 else 0 }

  /** The counter follows the post's shown state: a successful edit moves it by the
      change of state, anything else leaves it. The edit fails only when all three full
      edits of a change of state fail, or when an active post's changed caption cannot be
      edited; it raises only for an active post without a text. A post inactive before
      and after, or active with an unchanged text, succeeds whatever Telegram answers. */
  lemma EditOutcomeProperties(setup: Setup, tg: Telegram, post: MessagesInTelegram, text: Option<string>,
                              currentActual: bool, j: nat)
    ensures var (delta, r) := EditOutcome(setup, tg, post, text, currentActual, j);
      && (r == Ok(true) ==> delta == Flag(currentActual) - Flag(post.isActual))
      && (r != Ok(true) ==> delta == 0)
      && (r == Ok(false) <==>
            || (post.isActual != currentActual && forall i :: 0 <= i < 3 ==> !tg.editPhoto(j, i))
            || (post.isActual && currentActual && text.Some? && setup.sha256(text.value) != post.textHash
                && !tg.editCaption(j)))
      && (r.Raised? <==> post.isActual && currentActual && text.None?)
    ensures (!post.isActual && !currentActual) ||
            (post.isActual && currentActual && text.Some? && setup.sha256(text.value) == post.textHash) ==>
      forall tg': Telegram :: EditOutcome(setup, tg', post, text, currentActual, j) == (0, Ok(true))
  {
  }

  /** Stands for the coroutine object that an un-awaited `send_photo_message` returns
      and that is stored as the message id; no Telegram message has a negative id. */
  const UnawaitedId: int := -1

  /** Telegram as the code calls it: `send_photo_message`, `edit_photo_message` and
      `edit_photo_message_caption` are coroutine functions called without `await`, so
      every call answers a truthy coroutine and nothing is sent or edited. */
  function Unawaited(tg: Telegram): Telegram {
    tg.(sendPhoto := (k: nat, disNotify: bool, a: nat) => UnawaitedId,
        editPhoto := (j: nat, a: nat) => true,
        editCaption := (j: nat) => true)
  }

  /** As written, a new post is stored whenever its picture exists and nothing raised,
      and what it stores as message id is the coroutine. */
  lemma UnawaitedSendAlwaysPosts(setup: Setup, tg: Telegram, b: Board, group: seq<PriceChanges>, k: nat, disNotify: bool)
    requires group != []
    ensures var (b', e) := SendNew(setup, Unawaited(tg), b, group, k, disNotify);
      && (|b'.posts| > |b.posts| <==> e == None && tg.pictureMade(k))
      && (|b'.posts| > |b.posts| ==> b'.posts[|b.posts|].messageId == UnawaitedId)
  {
    var u := Unawaited(tg);
    assert u.sendPhoto(k, disNotify, 0) != 0;
    SendNewPosts(setup, u, b, group, k, disNotify);
  }

  /** As written, no edit ever fails: the counter always follows the recomputed state. */
  lemma UnawaitedEditNeverFails(setup: Setup, tg: Telegram, post: MessagesInTelegram, text: Option<string>,
                                currentActual: bool, j: nat)
    ensures var (delta, r) := EditOutcome(setup, Unawaited(tg), post, text, currentActual, j);
      && r != Ok(false)
      && (r.Ok? ==> delta == Flag(currentActual) - Flag(post.isActual))
  {
    var u := Unawaited(tg);
    assert u.editPhoto(j, 0) && u.editCaption(j);
    EditOutcomeProperties(setup, u, post, text, currentActual, j);
  }

  // ---------------------------------------------------------------------------
  // __checking_irrelevant_posts
  // ---------------------------------------------------------------------------

  /** The in-stock rows at the lowest actual price of the post's configuration. */
  function InStockMinimum(store: Store, inStock: seq<ParseResult>, post: MessagesInTelegram): seq<ActualRow> {
    MinPriceRows(InStockRows(ActualPricesByVersion(store, post.brandName, post.modelName, post.ram, post.rom), inStock),
                 ActualPrice)
  }

  /** The post is still a deal: the lowest in-stock price exists and is the post's price.
      The post's previous state plays no part. */
  predicate IsActualNow(store: Store, inStock: seq<ParseResult>, post: MessagesInTelegram) {
    ActualAt(InStockMinimum(store, inStock, post), post.price)
  }

  /** The state test of the loop on the cheapest in-stock rows. */
  predicate ActualAt(mins: seq<ActualRow>, price: int) {
    mins != [] && mins[0].price == price
  }

  /** The cheapest in-stock rows of every stored post, in order: what the loop reads
      from the store, which it does not change. */
  function MinsOf(store: Store, inStock: seq<ParseResult>, posts: seq<MessagesInTelegram>): (r: seq<seq<ActualRow>>)
    ensures |r| == |posts|
  {
    if posts == [] then []
    else MinsOf(store, inStock, posts[..|posts| - 1]) + [InStockMinimum(store, inStock, posts[|posts| - 1])]
  }

  lemma {:induction false} MinsOfIndex(store: Store, inStock: seq<ParseResult>, posts: seq<MessagesInTelegram>, i: nat)
    requires i < |posts|
    ensures MinsOf(store, inStock, posts)[i] == InStockMinimum(store, inStock, posts[i])
  {
    var init := posts[..|posts| - 1];
    var last := InStockMinimum(store, inStock, posts[|posts| - 1]);
    assert MinsOf(store, inStock, posts) == MinsOf(store, inStock, init) + [last];
    if i < |posts| - 1 {
      MinsOfIndex(store, inStock, init, i);
      assert init[i] == posts[i];
    }
  }

  /** mins holds the cheapest in-stock rows of every stored post (stated so that a
      post's rows are looked up only where that post is handled). */
  predicate MinimaOf(store: Store, inStock: seq<ParseResult>, posts: seq<MessagesInTelegram>, mins: seq<seq<ActualRow>>) {
    && |mins| == |posts|
    && forall k {:trigger InStockMinimum(store, inStock, posts[k])} ::
         0 <= k < |posts| ==> mins[k] == InStockMinimum(store, inStock, posts[k])
  }

  lemma MinsOfMinima(store: Store, inStock: seq<ParseResult>, posts: seq<MessagesInTelegram>)
    ensures MinimaOf(store, inStock, posts, MinsOf(store, inStock, posts))
  {
    forall k | 0 <= k < |posts| {
      MinsOfIndex(store, inStock, posts, k);
    }
  }

  /** A post is actual exactly when some in-stock actual row of its configuration has the
      post's price and none is cheaper. */
  lemma IsActualNowMeaning(store: Store, inStock: seq<ParseResult>, post: MessagesInTelegram)
    ensures var rows := InStockRows(ActualPricesByVersion(store, post.brandName, post.modelName, post.ram, post.rom), inStock);
      IsActualNow(store, inStock, post) <==>
        (exists a :: a in rows && a.price == post.price) && (forall a :: a in rows ==> post.price <= a.price)
  {
    var rows := InStockRows(ActualPricesByVersion(store, post.brandName, post.modelName, post.ram, post.rom), inStock);
    var mins := InStockMinimum(store, inStock, post);
    if rows != [] {
      MinPriceRowsAreMinimal(rows, ActualPrice);
      var m := MinPrice(rows, ActualPrice);
      assert mins[0] in mins;
      PricedAtMembers(rows, ActualPrice, m, mins[0]);
      var k :| 0 <= k < |rows| && m == rows[k].price;
      if !IsActualNow(store, inStock, post) {
        if exists a :: a in rows && a.price == post.price {
          var a :| a in rows && a.price == post.price;
          assert mins[0].price <= a.price;
          assert rows[k] in rows;
        }
      }
    }
  }

  /** The caption's shop list: the cheapest in-stock rows for an actual post, the post's
      own shops otherwise. */
  function ReconcileVersions(post: MessagesInTelegram, mins: seq<ActualRow>, isActual: bool): (r: seq<Version>)
    ensures isActual ==> |r| == |mins| && forall i :: 0 <= i < |mins| ==> r[i] == Version(mins[i].shop, mins[i].url, mins[i].color)
    ensures !isActual ==> |r| == |post.whereBuyList| && forall i :: 0 <= i < |r| ==>
      r[i] == Version(post.whereBuyList[i].shop, post.whereBuyList[i].url, post.whereBuyList[i].color)
  {
    if isActual then seq(|mins|, i requires 0 <= i < |mins| => Version(mins[i].shop, mins[i].url, mins[i].color))
    else
      var w := post.whereBuyList;
      seq(|w|, i requires 0 <= i < |w| => Version(w[i].shop, w[i].url, w[i].color))
  }

  /** The caption of a stored post: its own figures with the given shops and state. */
  function PostCaption(post: MessagesInTelegram, versions: seq<Version>, isActual: bool): CaptionArgs {
    CaptionArgs(post.category, post.brandName, post.modelName, post.ram, post.rom, post.price,
                post.avgActualPrice, post.histMinPrice, post.histMinDate, post.histMinShop, versions, isActual)
  }

  /** One post of the loop, the j-th: recompute its state, render its caption, edit it,
      and re-add it to the new list with the new hash, as active when the edit failed.
      The new list, the counter, and the exception that stops the loop. */
  function ReconcileStep(setup: Setup, tg: Telegram, acc: seq<MessagesInTelegram>, num: int,
                         post: MessagesInTelegram, mins: seq<ActualRow>, j: nat)
    : (seq<MessagesInTelegram>, int, Option<PyError>)
  {
    var isActual := ActualAt(mins, post.price);
    match GenerateCaption(setup, PostCaption(post, ReconcileVersions(post, mins, isActual), isActual))
    case Raised(e) => (acc, num, Some(e))
    case Ok(text) => EditAndKeep(setup, tg, acc, num, post, text, isActual, j)
  }

  /** The end of one pass of __checking_irrelevant_posts: edit the post, then keep it in
      the new list, as active when the edit failed. */
  function EditAndKeep(setup: Setup, tg: Telegram, acc: seq<MessagesInTelegram>, num: int,
                       post: MessagesInTelegram, text: Option<string>, isActual: bool, j: nat)
    : (seq<MessagesInTelegram>, int, Option<PyError>)
  {
    var (delta, r) := EditOutcome(setup, tg, post, text, isActual, j);
    if r.Raised? then (acc, num + delta, Some(r.error))
    else if text.None? then (acc, num + delta, Some(AttributeError))
    else
      var stored := if r.value then isActual else true;
      (AddItem(acc, setup.maxNumActPostTelegram, post, setup.sha256(text.value), stored), num + delta, None)
  }

  /** Without an exception the post is re-added last, with the new hash, marked with its
      recomputed state, or active when the edit failed; the counter moves by the change
      of shown state only when the edit succeeded. A post without in-stock deal and
      without shops has no caption and raises AttributeError; a zero average raises
      ZeroDivisionError, a shown historical minimum stamped on a whole second
      ValueError, and an unnamed shop IndexError. */
  lemma ReconcileStepProperties(setup: Setup, tg: Telegram, acc: seq<MessagesInTelegram>, num: int,
                                post: MessagesInTelegram, mins: seq<ActualRow>, j: nat)
    ensures var (acc', num', e) := ReconcileStep(setup, tg, acc, num, post, mins, j);
      var isActual := ActualAt(mins, post.price);
      var hasShops := isActual || post.whereBuyList != [];
      var args := PostCaption(post, ReconcileVersions(post, mins, isActual), isActual);
      && (e == Some(ZeroDivisionError) <==> hasShops && post.avgActualPrice == 0)
      && (e == Some(ValueError) <==>
            hasShops && post.avgActualPrice != 0 && post.price > post.histMinPrice && WholeSecond(post.histMinDate))
      && (e == Some(AttributeError) <==> !hasShops)
      && (e.None? <==> hasShops && CaptionRenders(args, true))
      && (e.None? ==>
            && acc' != [] && acc'[|acc'| - 1].messageId == post.messageId
            && acc'[|acc'| - 1].price == post.price
            && (var r := EditOutcome(setup, tg, post, GenerateCaption(setup, PostCaption(post, ReconcileVersions(post, mins, isActual), isActual)).value, isActual, j).1;
                && (r == Ok(true) ==> acc'[|acc'| - 1].isActual == isActual
                                      && num' - num == Flag(isActual) - Flag(post.isActual))
                && (r == Ok(false) ==> acc'[|acc'| - 1].isActual && num' == num)))
  {
    var isActual := ActualAt(mins, post.price);
    var versions := ReconcileVersions(post, mins, isActual);
    assert versions == [] <==> !(isActual || post.whereBuyList != []);
    var caption := GenerateCaption(setup, PostCaption(post, versions, isActual));
    if caption.Ok? {
      EditOutcomeProperties(setup, tg, post, caption.value, isActual, j);
      if caption.value.Some? {
        var (delta, r) := EditOutcome(setup, tg, post, caption.value, isActual, j);
        if r.Ok? {
          var stored := if r.value then isActual else true;
          AddItemAppends(acc, setup.maxNumActPostTelegram, post, setup.sha256(caption.value.value), stored);
        }
      }
    }
  }

  /** The loop over the first n stored posts, stopping at the first exception;
      `step(acc, num, j)` is what the j-th post does to the new list and the counter. */
  function ReconcileFold(step: (seq<MessagesInTelegram>, int, nat) -> (seq<MessagesInTelegram>, int, Option<PyError>),
                         acc: seq<MessagesInTelegram>, num: int, n: nat): (seq<MessagesInTelegram>, int, Option<PyError>)
  {
    if n == 0 then (acc, num, None)
    else
      var (acc1, num1, e) := ReconcileFold(step, acc, num, n - 1);
      if e.Some? then (acc1, num1, e) else step(acc1, num1, n - 1)
  }

  /** The step for the j-th of the stored posts. */
  function ReconcileStepOf(setup: Setup, tg: Telegram, posts: seq<MessagesInTelegram>, mins: seq<seq<ActualRow>>)
    : (seq<MessagesInTelegram>, int, nat) -> (seq<MessagesInTelegram>, int, Option<PyError>)
  {
    (acc: seq<MessagesInTelegram>, num: int, j: nat) =>
      if j < |posts| && j < |mins| then ReconcileStep(setup, tg, acc, num, posts[j], mins[j], j) else (acc, num, None)
  }

  /** The whole loop: the rebuilt list, the counter and the exception, if any. */
  function Reconciled(setup: Setup, tg: Telegram, store: Store, inStock: seq<ParseResult>,
                      posts: seq<MessagesInTelegram>, num: int): (seq<MessagesInTelegram>, int, Option<PyError>)
  {
    ReconcileFold(ReconcileStepOf(setup, tg, posts, MinsOf(store, inStock, posts)), [], num, |posts|)
  }

  /** A list of at most n posts, each carrying the message id of one of the first n
      stored posts. */
  predicate RebuiltFrom(acc: seq<MessagesInTelegram>, posts: seq<MessagesInTelegram>, n: nat) {
    && |acc| <= n
    && forall p :: p in acc ==> exists j :: 0 <= j < n && j < |posts| && p.messageId == posts[j].messageId
  }

  /** One step keeps the list rebuilt from the posts seen so far. */
  lemma ReconcileStepRebuilds(setup: Setup, tg: Telegram, posts: seq<MessagesInTelegram>, mins: seq<seq<ActualRow>>,
                              acc: seq<MessagesInTelegram>, num: int, j: nat)
    requires RebuiltFrom(acc, posts, j)
    ensures RebuiltFrom(ReconcileStepOf(setup, tg, posts, mins)(acc, num, j).0, posts, j + 1)
  {
    if j < |posts| && j < |mins| {
      var post := posts[j];
      var (acc', num', e) := ReconcileStep(setup, tg, acc, num, post, mins[j], j);
      if e.None? {
        var isActual := ActualAt(mins[j], post.price);
        var text := GenerateCaption(setup, PostCaption(post, ReconcileVersions(post, mins[j], isActual), isActual)).value.value;
        var r := EditOutcome(setup, tg, post, Some(text), isActual, j).1;
        var stored := if r.value then isActual else true;
        assert acc' == AddItem(acc, setup.maxNumActPostTelegram, post, setup.sha256(text), stored);
        AddItemMembers(acc, setup.maxNumActPostTelegram, post, setup.sha256(text), stored);
      }
    }
  }

  /** A loop whose every step keeps the list rebuilt from the posts seen so far leaves
      it rebuilt from the first n. */
  lemma {:induction false} ReconcileFoldRebuilds(
    step: (seq<MessagesInTelegram>, int, nat) -> (seq<MessagesInTelegram>, int, Option<PyError>),
    posts: seq<MessagesInTelegram>, num: int, n: nat)
    requires forall acc: seq<MessagesInTelegram>, num1: int, j: nat ::
      RebuiltFrom(acc, posts, j) ==> RebuiltFrom(step(acc, num1, j).0, posts, j + 1)
    ensures RebuiltFrom(ReconcileFold(step, [], num, n).0, posts, n)
  {
    if n > 0 {
      ReconcileFoldRebuilds(step, posts, num, n - 1);
      var (acc1, num1, e) := ReconcileFold(step, [], num, n - 1);
      if e.Some? {
        assert forall p :: p in acc1 ==> exists j :: 0 <= j < n - 1 && j < |posts| && p.messageId == posts[j].messageId;
      }
    }
  }

  /** The whole reconcile run: the new list holds at most one entry per stored post, each
      a stored post re-added (same message id), so reconciling never invents a post. */
  lemma ReconciledRebuilds(setup: Setup, tg: Telegram, store: Store, inStock: seq<ParseResult>,
                           posts: seq<MessagesInTelegram>, num: int)
    ensures RebuiltFrom(Reconciled(setup, tg, store, inStock, posts, num).0, posts, |posts|)
  {
    var mins := MinsOf(store, inStock, posts);
    ReconcileStepsRebuild(setup, tg, posts, mins);
    ReconcileFoldRebuilds(ReconcileStepOf(setup, tg, posts, mins), posts, num, |posts|);
  }

  lemma ReconcileStepsRebuild(setup: Setup, tg: Telegram, posts: seq<MessagesInTelegram>, mins: seq<seq<ActualRow>>)
    ensures forall acc: seq<MessagesInTelegram>, num1: int, j: nat :: RebuiltFrom(acc, posts, j) ==>
      RebuiltFrom(ReconcileStepOf(setup, tg, posts, mins)(acc, num1, j).0, posts, j + 1)
  {
    forall acc: seq<MessagesInTelegram>, num1: int, j: nat | RebuiltFrom(acc, posts, j)
      ensures RebuiltFrom(ReconcileStepOf(setup, tg, posts, mins)(acc, num1, j).0, posts, j + 1)
    {
      ReconcileStepRebuilds(setup, tg, posts, mins, acc, num1, j);
    }
  }

  /** Once a step has raised, later steps change nothing. */
  lemma {:induction false} SendFoldStops(step: (Board, nat) -> (Board, Option<PyError>), b: Board, k: nat, n: nat)
    requires k <= n && SendFold(step, b, k).1.Some?
    ensures SendFold(step, b, n) == SendFold(step, b, k)
    decreases n - k
  {
    if k < n {
      SendFoldStops(step, b, k, n - 1);
    }
  }

  lemma {:induction false} ReconcileFoldStops(
    step: (seq<MessagesInTelegram>, int, nat) -> (seq<MessagesInTelegram>, int, Option<PyError>),
    num: int, k: nat, n: nat)
    requires k <= n && ReconcileFold(step, [], num, k).2.Some?
    ensures ReconcileFold(step, [], num, n) == ReconcileFold(step, [], num, k)
    decreases n - k
  {
    if k < n {
      ReconcileFoldStops(step, num, k, n - 1);
    }
  }

  /** Taking the head's group off the remaining deals extends the groups found so far. */
  lemma GroupsTake(done: seq<seq<PriceChanges>>, products: seq<PriceChanges>, g: seq<PriceChanges>)
    requires products != [] && g == Found(products, PriceChangesGet, GroupQuery(products[0]), false)
    ensures multiset(g) <= multiset(products)
    ensures (done + [g]) + Groups(RemoveEach(products, g)) == done + Groups(products)
  {
    GroupsUnfold(products);
    AppendAssoc(done, [g], Groups(RemoveEach(products, g)));
  }

  lemma AppendAssoc<T>(a: seq<T>, b: seq<T>, c: seq<T>)
    ensures (a + b) + c == a + (b + c)
  {
  }

  lemma ReconcileStepApply(setup: Setup, tg: Telegram, posts: seq<MessagesInTelegram>, mins: seq<seq<ActualRow>>,
                           num: int, i: nat, r: (seq<MessagesInTelegram>, int, Option<PyError>))
    requires i < |posts| && i < |mins|
    requires ReconcileFold(ReconcileStepOf(setup, tg, posts, mins), [], num, i).2.None?
    requires var (acc, num1, _) := ReconcileFold(ReconcileStepOf(setup, tg, posts, mins), [], num, i);
      r == ReconcileStep(setup, tg, acc, num1, posts[i], mins[i], i)
    ensures ReconcileFold(ReconcileStepOf(setup, tg, posts, mins), [], num, i + 1) == r
  {
  }

  // ---------------------------------------------------------------------------
  // The bot
  // ---------------------------------------------------------------------------

  class Bot {
    const setup: Setup
    var pcProductList: seq<PriceChanges>
    var postsInTelegramList: seq<MessagesInTelegram>
    var numAllPost: int
    var numActualPost: int
    var statsProdsDict: map<string, int>
    var statsShopsDict: map<string, int>

    /** The state kept between runs. */
    function State(): Board
      reads this
    {
      Board(postsInTelegramList, numAllPost, numActualPost, statsProdsDict, statsShopsDict)
    }

    /** A bot over the configuration and the state loaded from the files (the loading
        itself is not modelled). */
    constructor(setup: Setup, loaded: Board)
      ensures this.setup == setup && State() == loaded && pcProductList == []
    {
      this.setup := setup;
      pcProductList := [];
      postsInTelegramList := loaded.posts;
      numAllPost := loaded.numAllPost;
      numActualPost := loaded.numActualPost;
      statsProdsDict := loaded.statsProds;
      statsShopsDict := loaded.statsShops;
    }

    /** __filtering_data: drop repeated deals, then deals of ignored brands. */
    method FilteringData()
      modifies this`pcProductList
      ensures pcProductList == Filtered(old(pcProductList), setup.ignoreBrands)
    {
      pcProductList := DropRepeats(pcProductList);
      pcProductList := DropIgnoredBrands(pcProductList);
    }

    /** The first loop of __filtering_data: keep the first copy of each deal. */
    method DropRepeats(products: seq<PriceChanges>) returns (result: seq<PriceChanges>)
      ensures result == Dedup(products)
    {
      result := [];
      var i := 0;
      while i < |products|
        invariant 0 <= i <= |products|
        invariant result == Dedup(products[..i])
      {
        assert products[..i + 1][..i] == products[..i];
        if products[i] !in result {
          result := result + [products[i]];
        }
        i := i + 1;
      }
      assert products[..i] == products;
    }

    /** The second loop of __filtering_data: drop the deals of ignored brands. */
    method DropIgnoredBrands(products: seq<PriceChanges>) returns (result: seq<PriceChanges>)
      ensures result == Filter(products, KeepBrand(setup.ignoreBrands))
    {
      result := [];
      var i := 0;
      while i < |products|
        invariant 0 <= i <= |products|
        invariant result == Filter(products[..i], KeepBrand(setup.ignoreBrands))
      {
        assert products[..i + 1][..i] == products[..i];
        if products[i].brandName !in setup.ignoreBrands {
          result := result + [products[i]];
        }
        i := i + 1;
      }
      assert products[..i] == products;
    }

    /** The grouping loop of __prepare_and_send_all_posts: take the head's group, remove
        each of its deals, until the list is empty. */
    method TakeGroups() returns (versionsList: seq<seq<PriceChanges>>)
      modifies this`pcProductList
      ensures versionsList == Groups(old(pcProductList)) && pcProductList == []
    {
      ghost var all := pcProductList;
      versionsList := [];
      while pcProductList != []
        invariant versionsList + Groups(pcProductList) == Groups(all)
        decreases |pcProductList|
      {
        ghost var before := pcProductList;
        ghost var done := versionsList;
        var item := pcProductList[0];
        var oneVersionList := FindInNamedtupleList(pcProductList, PriceChangesGet, GroupQuery(item), false);
        GroupsTake(done, before, oneVersionList);
        versionsList := versionsList + [oneVersionList];
        var j := 0;
        while j < |oneVersionList|
          invariant 0 <= j <= |oneVersionList|
          invariant multiset(oneVersionList[..j]) <= multiset(before)
          invariant pcProductList == RemoveEach(before, oneVersionList[..j])
        {
          RemoveEachNext(before, oneVersionList, j);
          pcProductList := RemoveFirst(pcProductList, oneVersionList[j]);
          j := j + 1;
        }
        assert oneVersionList[..j] == oneVersionList;
      }
    }

    /** __send_one_post for the k-th group. */
    method SendOnePost(versionList: seq<PriceChanges>, disNotify: bool, k: nat, tg: Telegram)
      returns (error: Option<PyError>)
      requires versionList != []
      modifies this`postsInTelegramList, this`numAllPost, this`numActualPost, this`statsProdsDict, this`statsShopsDict
      ensures (State(), error) == SendOne(setup, tg, old(State()), versionList, k, disNotify)
    {
      var item := versionList[0];
      var duplicate := FindInNamedtupleList(postsInTelegramList, PostGet, GroupQuery(item), true);
      if duplicate != [] {
        return None;
      }
      numAllPost := numAllPost + 1;
      numActualPost := numActualPost + 1;
      statsProdsDict := IncStatsProducts(statsProdsDict, item.brandName, item.modelName);
      statsShopsDict, error := IncStatsShops(statsShopsDict, Dedup(ShopsOf(versionList)));
      if error.Some? {
        return;
      }
      error := PublishPost(versionList, disNotify, k, tg);
    }

    /** The caption, picture and send attempts of __send_one_post. */
    method PublishPost(versionList: seq<PriceChanges>, disNotify: bool, k: nat, tg: Telegram)
      returns (error: Option<PyError>)
      requires versionList != []
      modifies this`postsInTelegramList
      ensures (State(), error) == Publish(setup, tg, old(State()), versionList, k, disNotify)
    {
      var text := GenerateCaption(setup, DealCaption(versionList));
      if text.Raised? {
        return Some(text.error);
      }
      if !tg.pictureMade(k) {
        return None;
      }
      var a := 0;
      while a < 3
        invariant 0 <= a <= 3
        invariant forall i :: 0 <= i < a ==> tg.sendPhoto(k, disNotify, i) == 0
      {
        var msgId := tg.sendPhoto(k, disNotify, a);
        if msgId != 0 {
          postsInTelegramList := postsInTelegramList + [NewPost(versionList, msgId, tg.now(k), setup.sha256(text.value.value))];
          return None;
        }
        a := a + 1;
      }
      return None;
    }

    /** __prepare_and_send_all_posts: group the deals, then post the groups in order, an
        exception ending the run. */
    method PrepareAndSendAllPosts(tg: Telegram) returns (error: Option<PyError>)
      modifies this
      ensures pcProductList == []
      ensures (State(), error) == SendGroups(setup, tg, old(State()), Groups(old(pcProductList)), |Groups(old(pcProductList))|)
    {
      GroupsNonEmpty(pcProductList);
      var versionsList := TakeGroups();
      error := SendAllGroups(versionsList, tg);
    }

    /** The sending loop of __prepare_and_send_all_posts. */
    method SendAllGroups(versionsList: seq<seq<PriceChanges>>, tg: Telegram) returns (error: Option<PyError>)
      requires forall i :: 0 <= i < |versionsList| ==> versionsList[i] != []
      modifies this`postsInTelegramList, this`numAllPost, this`numActualPost, this`statsProdsDict, this`statsShopsDict
      ensures (State(), error) == SendGroups(setup, tg, old(State()), versionsList, |versionsList|)
    {
      ghost var step := SendStep(setup, tg, versionsList);
      ghost var b0 := State();
      var i;
      error, i := SendPrefix(versionsList, tg, step);
      if error.Some? {
        SendFoldStops(step, b0, i, |versionsList|);
      }
    }

    /** The loop itself: it runs until the groups run out or an exception escapes. */
    method SendPrefix(versionsList: seq<seq<PriceChanges>>, tg: Telegram, ghost step: (Board, nat) -> (Board, Option<PyError>))
      returns (error: Option<PyError>, i: nat)
      requires forall i :: 0 <= i < |versionsList| ==> versionsList[i] != []
      requires step == SendStep(setup, tg, versionsList)
      modifies this`postsInTelegramList, this`numAllPost, this`numActualPost, this`statsProdsDict, this`statsShopsDict
      ensures i <= |versionsList| && (error.None? ==> i == |versionsList|)
      ensures (State(), error) == SendFold(step, old(State()), i)
    {
      ghost var b0 := State();
      error := None;
      i := 0;
      while i < |versionsList| && error.None?
        invariant i <= |versionsList|
        invariant (State(), error) == SendFold(step, b0, i)
      {
        error := SendNextGroup(versionsList, i, tg, step, b0);
        i := i + 1;
      }
    }

    /** One pass of the loop: the i-th group is posted. */
    method SendNextGroup(versionsList: seq<seq<PriceChanges>>, i: nat, tg: Telegram,
                         ghost step: (Board, nat) -> (Board, Option<PyError>), ghost b0: Board)
      returns (error: Option<PyError>)
      requires i < |versionsList| && versionsList[i] != []
      requires step == SendStep(setup, tg, versionsList)
      requires (State(), None) == SendFold(step, b0, i)
      modifies this`postsInTelegramList, this`numAllPost, this`numActualPost, this`statsProdsDict, this`statsShopsDict
      ensures (State(), error) == SendFold(step, b0, i + 1)
    {
      error := SendOnePost(versionsList[i], i < |versionsList| - 2, i, tg);
      SendStepApply(setup, tg, versionsList, b0, i, (State(), error));
    }

    /** __edit_post_as_irrelevant on the j-th stored post. */
    method EditPostAsIrrelevant(post: MessagesInTelegram, text: Option<string>, currentActual: bool, j: nat, tg: Telegram)
      returns (r: Outcome<bool>)
      modifies this`numActualPost
      ensures (numActualPost - old(numActualPost), r) == EditOutcome(setup, tg, post, text, currentActual, j)
    {
      if !post.isActual && !currentActual {
        return Ok(true);
      }
      if post.isActual != currentActual {
        var a := 0;
        while a < 3
          invariant 0 <= a <= 3
          invariant forall i :: 0 <= i < a ==> !tg.editPhoto(j, i)
        {
          if tg.editPhoto(j, a) {
            numActualPost := numActualPost + (if currentActual then 1 else -1);
            return Ok(true);
          }
          a := a + 1;
        }
        return Ok(false);
      }
      if text.None? {
        return Raised(AttributeError);
      }
      if setup.sha256(text.value) != post.textHash {
        if !tg.editCaption(j) {
          return Ok(false);
        }
      }
      return Ok(true);
    }

    /** One pass of the __checking_irrelevant_posts loop, for the j-th stored post. */
    method CheckOnePost(store: Store, inStock: seq<ParseResult>, acc: seq<MessagesInTelegram>,
                        item: MessagesInTelegram, j: nat, tg: Telegram)
      returns (newList: seq<MessagesInTelegram>, error: Option<PyError>)
      modifies this`numActualPost
      ensures (newList, numActualPost, error) == ReconcileStep(setup, tg, acc, old(numActualPost), item, InStockMinimum(store, inStock, item), j)
    {
      newList := acc;
      var actPriceDataList := ActualPricesByVersion(store, item.brandName, item.modelName, item.ram, item.rom);
      var inStockList := IrrPostSearchDataInStock(actPriceDataList, inStock);
      var minList := FindMinPriceInPricesList(inStockList, ActualPrice);
      var isActual := true;
      if (minList != [] && minList[0].price != item.price) || minList == [] {
        isActual := false;
      }
      var versionsList := ReconcileVersions(item, minList, isActual);
      var newText := GenerateCaption(setup, PostCaption(item, versionsList, isActual));
      if newText.Raised? {
        return acc, Some(newText.error);
      }
      newList, error := EditAndKeepPost(acc, item, newText.value, isActual, j, tg);
    }

    /** CheckOnePost for the i-th stored post, continuing the rebuild of the first i. */
    method CheckNextPost(store: Store, inStock: seq<ParseResult>, posts: seq<MessagesInTelegram>,
                         ghost mins: seq<seq<ActualRow>>, i: nat, ghost num0: int, acc: seq<MessagesInTelegram>, tg: Telegram,
                         ghost step: (seq<MessagesInTelegram>, int, nat) -> (seq<MessagesInTelegram>, int, Option<PyError>),
                         ghost minima: bool)
      returns (newList: seq<MessagesInTelegram>, error: Option<PyError>)
      requires i < |posts|
      requires step == ReconcileStepOf(setup, tg, posts, mins) && minima == MinimaOf(store, inStock, posts, mins)
      requires minima ==> (acc, numActualPost, None) == ReconcileFold(step, [], num0, i)
      modifies this`numActualPost
      ensures minima ==> (newList, numActualPost, error) == ReconcileFold(step, [], num0, i + 1)
    {
      newList, error := CheckOnePost(store, inStock, acc, posts[i], i, tg);
      if minima {
        ReconcileStepApply(setup, tg, posts, mins, num0, i, (newList, numActualPost, error));
      }
    }

    /** The edit and the append that end one pass of __checking_irrelevant_posts. */
    method EditAndKeepPost(acc: seq<MessagesInTelegram>, item: MessagesInTelegram, text: Option<string>,
                           isActual: bool, j: nat, tg: Telegram)
      returns (newList: seq<MessagesInTelegram>, error: Option<PyError>)
      modifies this`numActualPost
      ensures (newList, numActualPost, error) == EditAndKeep(setup, tg, acc, old(numActualPost), item, text, isActual, j)
    {
      var edited := EditPostAsIrrelevant(item, text, isActual, j, tg);
      if edited.Raised? {
        return acc, Some(edited.error);
      }
      var stored := isActual;
      if !edited.value {
        stored := true;
      }
      if text.None? {
        return acc, Some(AttributeError);
      }
      newList := IrrPostAddItemInMsgInTelegramList(acc, setup.maxNumActPostTelegram, item,
                                                   setup.sha256(text.value), stored);
      error := None;
    }

    /** __checking_irrelevant_posts: rebuild the list of posts from the stored ones; an
        exception leaves the old list in place (the counter keeps the moves made). */
    method CheckIrrelevantPosts(store: Store, inStock: seq<ParseResult>, tg: Telegram) returns (error: Option<PyError>)
      modifies this`postsInTelegramList, this`numActualPost
      ensures var (rebuilt, num, e) := Reconciled(setup, tg, store, inStock, old(postsInTelegramList), old(numActualPost));
        && numActualPost == num && error == e
        && postsInTelegramList == (if e.None? then rebuilt else old(postsInTelegramList))
    {
      MinsOfMinima(store, inStock, postsInTelegramList);
      var newPostsInTelegramList;
      newPostsInTelegramList, error := RebuildPosts(store, inStock, postsInTelegramList, MinsOf(store, inStock, postsInTelegramList), tg);
      if error.None? {
        postsInTelegramList := newPostsInTelegramList;
      }
    }

    /** The loop of __checking_irrelevant_posts over the stored posts, mins being what
        the store says of each. */
    method RebuildPosts(store: Store, inStock: seq<ParseResult>, posts: seq<MessagesInTelegram>,
                        ghost mins: seq<seq<ActualRow>>, tg: Telegram)
      returns (newList: seq<MessagesInTelegram>, error: Option<PyError>)
      modifies this`numActualPost
      ensures MinimaOf(store, inStock, posts, mins) ==>
        (newList, numActualPost, error) == ReconcileFold(ReconcileStepOf(setup, tg, posts, mins), [], old(numActualPost), |posts|)
    {
      ghost var num0 := numActualPost;
      ghost var step := ReconcileStepOf(setup, tg, posts, mins);
      ghost var minima := MinimaOf(store, inStock, posts, mins);
      var i;
      newList, error, i := RebuildPrefix(store, inStock, posts, mins, tg, step, minima);
      if error.Some? && minima {
        ReconcileFoldStops(step, num0, i, |posts|);
      }
    }

    /** The loop itself: it runs until the posts are exhausted or an exception escapes. */
    method RebuildPrefix(store: Store, inStock: seq<ParseResult>, posts: seq<MessagesInTelegram>,
                         ghost mins: seq<seq<ActualRow>>, tg: Telegram,
                         ghost step: (seq<MessagesInTelegram>, int, nat) -> (seq<MessagesInTelegram>, int, Option<PyError>),
                         ghost minima: bool)
      returns (newList: seq<MessagesInTelegram>, error: Option<PyError>, i: nat)
      requires step == ReconcileStepOf(setup, tg, posts, mins) && minima == MinimaOf(store, inStock, posts, mins)
      modifies this`numActualPost
      ensures i <= |posts| && (error.None? ==> i == |posts|)
      ensures minima ==> (newList, numActualPost, error) == ReconcileFold(step, [], old(numActualPost), i)
    {
      ghost var num0 := numActualPost;
      newList := [];
      i := 0;
      error := None;
      while i < |posts| && error.None?
        invariant i <= |posts|
        invariant minima ==> (newList, numActualPost, error) == ReconcileFold(step, [], num0, i)
      {
        newList, error := CheckNextPost(store, inStock, posts, mins, i, num0, newList, tg, step, minima);
        i := i + 1;
      }
    }

    /** send_posts: nothing for an empty input; otherwise filter, group and post (saving
        the files afterwards is not modelled). */
    method SendPosts(products: seq<PriceChanges>, tg: Telegram) returns (error: Option<PyError>)
      modifies this
      ensures products == [] ==> State() == old(State()) && pcProductList == old(pcProductList) && error == None
      ensures products != [] ==>
        var groups := Groups(Filtered(products, setup.ignoreBrands));
        pcProductList == [] && (State(), error) == SendGroups(setup, tg, old(State()), groups, |groups|)
    {
      if products == [] {
        return None;
      }
      pcProductList := products;
      FilteringData();
      error := PrepareAndSendAllPosts(tg);
    }

    /** checking_irrelevant_posts: nothing without a current scrape; otherwise the
        re-check (saving the files afterwards is not modelled). */
    method CheckingIrrelevantPosts(inStock: seq<ParseResult>, store: Store, tg: Telegram) returns (error: Option<PyError>)
      modifies this`postsInTelegramList, this`numActualPost
      ensures inStock == [] ==> State() == old(State()) && error == None
      ensures inStock != [] ==>
        var (rebuilt, num, e) := Reconciled(setup, tg, store, inStock, old(postsInTelegramList), old(numActualPost));
        numActualPost == num && error == e && postsInTelegramList == (if e.None? then rebuilt else old(postsInTelegramList))
    {
      if inStock == [] {
        return None;
      }
      error := CheckIrrelevantPosts(store, inStock, tg);
    }
  }
}
