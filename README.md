# ParserOnlineShops — a verified model of the deal pipeline

ParserOnlineShops scrapes smartphone listings from Russian online shops. It stores every observed price in PostgreSQL. It decides which price changes are real deals and publishes those deals as posts in a Telegram channel. Later it edits the posts once the deals have expired.

This project models the part of that pipeline between the scrapers and Telegram, and proves properties of the model in Dafny. It has one Dafny module per source file:

| module | file | source |
|---|---|---|
| `Builtins` | `builtins.dfy` | the Python primitives the code relies on: `str.strip`, `str.lower` and `str.title` (for Latin and Cyrillic letters; see "Left out"), `str.replace`, `in`, `int()` of digit strings, truthiness. It also holds `Option` and `Outcome` (a value, or the Python exception that was raised). |
| `Helper` | `helper.dfy` | `modules/common/helper.py`: the list helpers (`find_in_namedtuple_list` and the others), the `ParseResult`, `PriceChanges` and `MessagesInTelegram` records, and the shop and category name lists |
| `SqlReq` | `sql_req.dfy` | `modules/common/sql_req.py`: the four tables as sequences of rows with serial ids, the foreign keys and `ON DELETE CASCADE`, every SELECT and INSERT, the `general_table` view, and the history and actual-price queries |
| `DataValidator` | `data_validator.dfy` | `modules/data_validator/data_validator.py` |
| `DbInserter` | `db_inserter.dfy` | `modules/db_inserter/db_inserter.py`: resolving a listing level by level (product, configuration, shop listing, price) and the ingestion loop |
| `DataChecker` | `data_checker.dfy` | `modules/data_checker/data_checker.py`: the benefit check and the loop that collects deals |
| `BotHelper` | `bot_helper.dfy` | `modules/data_sender/telegram/bot_helper.py`: statistics counters, referral links, the in-stock filter and the bounded post list |
| `Bot` | `bot.dfy` | `modules/data_sender/telegram/bot.py`: filtering, grouping, sending, the star tier, and reconciling posts that are no longer actual |
| `FileWorker` | `file_worker.dfy` | `modules/common/file_worker.py`: the CSV column names, the `[key] -> [value]` dictionary lines, the list lines, the CSV records, and the guards of `save`/`load`. It also holds the crash counter of `modules/runner/runner_helper.py`, which is stored through it. |
| `ParseBase` | `parse_base.dfy` | `modules/data_receiver/parsers/parse_base.py`: `_add_to_pr_result_list` and `_multiple_func_call` |

The model follows the shape of the code:
- **Loops and state.** Where the code loops or updates an object's fields, the model is a `class` (`DataValidator`, `DbInserter`, `DataChecker`, `Bot`, `ParseBase`) whose methods carry loop invariants. Each method is proved equal to a specification function, and the properties are lemmas about those functions.
- **Pure code** (the SQL queries, the string conversions) is modelled as functions.
- **The database** is a value of type `SqlReq.Store`. Its serial counters play the role of the auto-increment ids.
- **Telegram.** The send and edit calls are oracles, passed in as functions. Each is indexed by the post and the attempt number.
- **Parameters and uninterpreted functions.** Caption rendering, sha256, the clock, and whether a picture could be made are parameters (`Bot.Setup`, `Bot.Telegram`, `now` arguments).
- **Exceptions.** A Python exception becomes an `Outcome.Raised` value instead of a precondition. For example:
  - an `IndexError` on an empty in-stock list in the benefit check;
  - a `ZeroDivisionError` in the caption for a zero average;
  - the `AttributeError` raised by `save` and `load` on a wrong `namedtuple_type`.

Several surprising behaviours of the code are modelled as written:
- A new configuration is labelled `'shop'` and a new shop listing `'version'` (`DbInserter.AddToVersion`, `DbInserter.AddToProduct`).
- An unchanged price falls through to `'error'`.
- A post's `is_actual` is recomputed without looking at its previous state, so an inactive post can become active again.
- A failed edit stores the post as active.
- The duplicate-post check ignores `is_actual`.
- The capacity of the post list is enforced only while reconcile rebuilds the list. A new post is appended unconditionally (`Bot.SendOneProperties`).

## Model

| member | source | states |
|---|---|---|
| Helper.Matching | modules/common/helper.py:104-141 | the items that pass every truthy criterion, never more than the input |
| Helper.FindInNamedtupleList | modules/common/helper.py:91-147 | the search loop returns every match in input order, or only the first match when `limit_one` is set |
| Helper.MatchingPrefix | modules/common/helper.py:104-141 | the matches of a prefix of the list are a prefix of the matches of the whole list |
| Helper.MatchingMembers | modules/common/helper.py:104-141 | an element is returned iff it is in the input and equals the item on every criterion with a truthy value |
| Helper.MatchingIsSubsequence | modules/common/helper.py:104-141 | the result is an order-preserving subsequence of the input |
| Helper.MatchingCount | modules/common/helper.py:104-141 | a matching element keeps its input multiplicity; a non-matching one is absent |
| Helper.MatchingSubMultiset | modules/common/helper.py:104-141 | the result is a sub-multiset of the input |
| Helper.MatchingHead | modules/common/helper.py:104-141 | when the first item matches, it heads the result |
| Helper.FalsyCriterionIgnored | modules/common/helper.py:104-141 | a criterion whose value is 0, None or '' can be dropped without changing which items match |
| Helper.FoundFirst | modules/common/helper.py:143-145 | with `limit_one` the result is empty iff nothing matches, and otherwise is exactly the first match in input order |
| Helper.IsAllElemEqualInTupleList | modules/common/helper.py:48-60 | true for an empty or one-element list; otherwise true iff every element's key equals the first element's |
| Helper.MinPrice | modules/common/helper.py:160-167 | the minimum price: no row is cheaper, and some row has it |
| Helper.PricedAt | modules/common/helper.py:160-167 | every kept row has the given price, and no more rows are kept than given |
| Helper.FindMinPriceInPricesList | modules/common/helper.py:150-167 | the two loops return exactly the rows specified by `MinPriceRows` |
| Helper.PricedAtMembers | modules/common/helper.py:160-167 | a row is kept iff it is in the input and has the given price |
| Helper.PricedAtAll | modules/common/helper.py:157-158 | when every row has the price, all rows are kept, in order |
| Helper.MinPriceRowsAreMinimal | modules/common/helper.py:160-167 | for a non-empty list the result is exactly the rows at the minimum price; it is non-empty, and every result price is at most every input price |
| Helper.MinPriceRowsUnchanged | modules/common/helper.py:157-158 | a list whose prices are all equal (including the empty and one-row lists) is returned unchanged |
| Helper.ReplaceValueFromDictionary | modules/common/helper.py:63-77 | the loop applies each substitution in dictionary order when its key occurs in the value |
| Helper.SubstitutedNoKey | modules/common/helper.py:68-77 | an empty dictionary, or one none of whose keys occurs in the value, leaves the value unchanged |
| Helper.SubstitutedIsPlainReplace | modules/common/helper.py:72-77 | the `key in value` guard never changes the outcome: the result is `str.replace` applied for every key |
| Helper.FindAllowedModelNames | modules/common/helper.py:80-88 | true iff some allowed name equals the model name, ignoring case |
| Helper.PerNumOfNumSign | modules/common/helper.py:170-174 | for b > 0 the percentage below b is 0 when a == b, positive when a < b and negative when a > b |
| Helper.PerNumOfNumThreshold | modules/common/helper.py:170-174 | for b > 0 the percentage reaches t iff a·100 ≤ b·(100 − t) |
| Helper.Found | modules/common/helper.py:91-147 | what find_in_namedtuple_list returns: every element whose fields equal all truthy criteria, in order, or only the first of them with `limit_one`; `FindInNamedtupleList` is proved to return it, and `MatchingMembers`, `MatchingIsSubsequence`, `FalsyCriterionIgnored` and `FoundFirst` state its meaning |
| Helper.MinPriceRows | modules/common/helper.py:150-167 | what find_min_price_in_prices_list returns: the whole list when every price is equal, otherwise the rows at the lowest price in order; `MinPriceRowsAreMinimal` and `MinPriceRowsUnchanged` state this |
| Helper.Substituted | modules/common/helper.py:63-77 | the value after each dictionary entry, in insertion order, has replaced its key wherever the key occurs; `SubstitutedNoKey` and `SubstitutedIsPlainReplace` state its effect |
| Helper.PerNumOfNum | modules/common/helper.py:170-174 | how many percent `a` lies below a non-zero `b`; `PerNumOfNumSign` and `PerNumOfNumThreshold` state its sign and the deal threshold |
| SqlReq.ValidWithin | modules/common/sql_req.py:24-89 | a store whose rows come from a valid store and whose foreign keys resolve is itself valid |
| SqlReq.EmptyStoreValid | modules/common/sql_req.py:24-89 | the empty database satisfies every key and foreign-key constraint |
| SqlReq.SelectIdProduct | modules/common/sql_req.py:110-115 | an id is returned iff a product with that brand and model has it; the category is not part of the key |
| SqlReq.SelectIdVerPhone | modules/common/sql_req.py:118-124 | an id is returned iff a version of the product has the rom and either the ram asked for or a stored ram of 0; the result is empty iff no version answers |
| SqlReq.SelectIdShopPhone | modules/common/sql_req.py:127-134 | an id is returned iff a listing has that version, shop and url; the result is empty iff none does |
| SqlReq.SelectPrice | modules/common/sql_req.py:137-142 | every price of the listing is returned, and only those; the result is empty iff the listing has no price |
| SqlReq.SelectIdProductAppend | modules/common/sql_req.py:110-115 | appending a row appends its id to the answer exactly when it matches |
| SqlReq.SelectIdVerPhoneAppend | modules/common/sql_req.py:118-124 | appending a version appends its id exactly when it answers the ram/rom query |
| SqlReq.SelectIdShopPhoneAppend | modules/common/sql_req.py:127-134 | appending a listing appends its id exactly when it matches |
| SqlReq.SelectPriceAppend | modules/common/sql_req.py:137-142 | appending a price row appends its price exactly when it belongs to the listing |
| SqlReq.InsertProductValid | modules/common/sql_req.py:183-187 | inserting a product keeps the store valid and returns a fresh id that now exists |
| SqlReq.InsertVersionValid | modules/common/sql_req.py:177-181 | inserting a version of an existing product keeps the store valid and returns a fresh id that now exists |
| SqlReq.InsertShopPhoneValid | modules/common/sql_req.py:170-175 | inserting a listing of an existing version keeps the store valid and returns a fresh id that now exists |
| SqlReq.InsertPriceValid | modules/common/sql_req.py:165-168 | inserting a price for an existing listing keeps the store valid |
| SqlReq.DeleteShopPhoneCascades | modules/common/sql_req.py:74-89 | deleting a listing keeps the store valid and removes exactly its prices (ON DELETE CASCADE) |
| SqlReq.DeleteVersionCascades | modules/common/sql_req.py:52-72 | deleting a version removes exactly its listings and, in cascade, every price of those listings and no other |
| SqlReq.DeleteProductCascades | modules/common/sql_req.py:35-50 | deleting a product keeps the store valid and removes exactly its versions |
| SqlReq.FindShopPhone | modules/common/sql_req.py:94-105 | the join lookup finds a listing row with the id, or there is none |
| SqlReq.FindVersion | modules/common/sql_req.py:94-105 | the join lookup finds a version row with the id, or there is none |
| SqlReq.FindProduct | modules/common/sql_req.py:94-105 | the join lookup finds a product row with the id, or there is none |
| SqlReq.JoinPricesMembers | modules/common/sql_req.py:94-105 | a view row is produced iff it is the join of one of the given price rows |
| SqlReq.GeneralRowSource | modules/common/sql_req.py:94-105 | every row of `general_table` joins a product, a version, a listing and a price linked by their keys |
| SqlReq.GeneralRowComplete | modules/common/sql_req.py:94-105 | in a valid store every linked product/version/listing/price quadruple appears in `general_table` |
| SqlReq.GeneralLength | modules/common/sql_req.py:94-105 | in a valid store the view has exactly one row per price row |
| SqlReq.JoinPriceDefined | modules/common/sql_req.py:94-105 | in a valid store every price row joins |
| SqlReq.HistOf | modules/common/sql_req.py:192-200 | the history rows are the (price, shop, datetime) projection of the view rows, one for one |
| SqlReq.InsertByDate | modules/common/sql_req.py:192-200 | inserting into the ordered history adds exactly the new row |
| SqlReq.SortNewestFirst | modules/common/sql_req.py:192-200 | ordering by datetime is a permutation |
| SqlReq.InsertByDateSorted | modules/common/sql_req.py:192-200 | insertion keeps the history newest first and puts the newest row at its head |
| SqlReq.SortNewestFirstSorted | modules/common/sql_req.py:192-200 | the ordered history is newest first (`ORDER BY datetime DESC`) |
| SqlReq.HistOfMembers | modules/common/sql_req.py:192-200 | a history row is returned iff it is the projection of a selected view row |
| SqlReq.AllPricesByVersionProperties | modules/common/sql_req.py:192-200 | the full history of a configuration is newest first, is a permutation of the projected view rows, and holds exactly the projections of the view rows of that configuration (same ram wildcard) |
| SqlReq.MaxDate | modules/common/sql_req.py:215-229 | `MAX(datetime)` per url: no row of the url is later, and some row has it |
| SqlReq.ActualOf | modules/common/sql_req.py:215-229 | the actual-price rows are the projection of the selected rows, one for one |
| SqlReq.LatestRowsSound | modules/common/sql_req.py:215-229 | every returned row carries its url's maximum datetime |
| SqlReq.LatestRowsComplete | modules/common/sql_req.py:215-229 | every selected row that carries its url's maximum datetime is returned |
| SqlReq.ActualPricesAreLatest | modules/common/sql_req.py:215-229 | the actual prices of a configuration are exactly its rows at their url's latest datetime |
| SqlReq.Valid | modules/common/sql_req.py:24-89 | the schema's constraints: unique primary keys below their sequences, and every foreign key (version to product, listing to version, price to listing) resolving; the `Insert*Valid` and `Delete*Cascades` lemmas prove it preserved |
| SqlReq.InsertProduct | modules/common/sql_req.py:183-187 | insert_into_products_table: appends one product row under the next key and returns that key; `InsertProductValid` proves the key fresh and the store consistent |
| SqlReq.InsertVersion | modules/common/sql_req.py:177-181 | insert_into_versions_phones_table: appends one configuration row under the next key and returns that key; `InsertVersionValid` states its effect |
| SqlReq.InsertShopPhone | modules/common/sql_req.py:170-175 | insert_into_shops_phones_table: appends one listing row under the next key and returns that key; `InsertShopPhoneValid` states its effect |
| SqlReq.InsertPrice | modules/common/sql_req.py:165-168 | insert_into_prices_phones_table: appends one price row under the next key; `InsertPriceValid` states its effect |
| SqlReq.DeleteShopPhone | modules/common/sql_req.py:74-89 | the ON DELETE CASCADE of a listing: the listing and its prices go; `DeleteShopPhoneCascades` proves no price is left dangling and the rest stays |
| SqlReq.DeleteVersion | modules/common/sql_req.py:52-72 | the cascade of a configuration: its listings and their prices go; `DeleteVersionCascades` states the effect |
| SqlReq.DeleteProduct | modules/common/sql_req.py:35-50 | the cascade of a product: its configurations, their listings and prices go; `DeleteProductCascades` states the effect |
| SqlReq.General | modules/common/sql_req.py:94-105 | general_table: one joined row per price whose listing, configuration and product exist, in price order; `GeneralRowSource`, `GeneralRowComplete` and `GeneralLength` state it |
| SqlReq.AllPricesByVersion | modules/common/sql_req.py:192-200 | search_all_prices_by_version_query: the configuration's (price, shop, datetime) rows, newest first; `AllPricesByVersionProperties` states sortedness and membership |
| SqlReq.ActualPricesByVersion | modules/common/sql_req.py:215-229 | search_actual_prices_by_version_query: the view rows at the latest datetime of each url of the configuration; `LatestRowsSound`, `LatestRowsComplete` and `ActualPricesAreLatest` state it |
| DataValidator.ValidationItemIsTruthy | modules/data_validator/data_validator.py:27-31 | an item is valid iff category, shop, brand, model, color, image url, product code, rom and price are all truthy |
| DataValidator.ValidItemsProperties | modules/data_validator/data_validator.py:38-43 | the validated list is the order-preserving sublist of the valid items |
| DataValidator.DataValidator.constructor | modules/data_validator/data_validator.py:12-14 | the validator holds the list it was given |
| DataValidator.DataValidator.ValidationList | modules/data_validator/data_validator.py:33-43 | the loop returns exactly the valid items in order, and the held list is not modified |
| DataValidator.DataValidator.Run | modules/data_validator/data_validator.py:45-50 | `run` returns the validated list and leaves the input unchanged |
| DataValidator.ValidationItem | modules/data_validator/data_validator.py:17-31 | validation_item: an offer passes when every required field is truthy; `ValidationItemIsTruthy` proves both directions |
| DataValidator.ValidItems | modules/data_validator/data_validator.py:33-43 | the result of __validation_list: the passing offers in input order; `ValidItemsProperties` states it |
| DbInserter.CheckItemAgreesWithValidation | modules/db_inserter/db_inserter.py:10-22 | `check_item_on_errors` is true exactly for the items `validation_item` accepts (true means no error, despite its comment) |
| DbInserter.AddProductRejects | modules/db_inserter/db_inserter.py:89-98 | with no connection, or an unknown category or shop name, the result is 'error' and nothing is written |
| DbInserter.AddToListingEffects | modules/db_inserter/db_inserter.py:116-140 | an existing listing: 'error' writes nothing; 'price' appends exactly one price row with the observed price and time and changes no other table |
| DbInserter.AddToVersionEffects | modules/db_inserter/db_inserter.py:109-151 | an existing configuration: a new listing is labelled 'version' and adds one listing with the url and one price; other labels as for the listing |
| DbInserter.AddToProductEffects | modules/db_inserter/db_inserter.py:102-164 | an existing product: a new configuration is labelled 'shop' and adds one version, one listing and one price |
| DbInserter.AddProductEffects | modules/db_inserter/db_inserter.py:78-179 | every label has its effect: 'error' writes nothing; otherwise the store grows append-only by exactly one price row; 'product' adds the product, a version and a listing |
| DbInserter.AddProductPriceLabel | modules/db_inserter/db_inserter.py:119-140 | when connected with a known category the label is 'price' iff the listing's last price exists and differs; an equal last price gives 'error' and no write |
| DbInserter.NewListingValid | modules/db_inserter/db_inserter.py:143-151 | adding a listing and its price keeps the store valid |
| DbInserter.NewVersionValid | modules/db_inserter/db_inserter.py:154-164 | adding a version, a listing and a price keeps the store valid |
| DbInserter.NewProductValid | modules/db_inserter/db_inserter.py:167-177 | adding a product, a version, a listing and a price keeps the store valid |
| DbInserter.AddToVersionValid | modules/db_inserter/db_inserter.py:109-151 | resolving under an existing configuration keeps the store valid |
| DbInserter.AddToProductValid | modules/db_inserter/db_inserter.py:102-164 | resolving under an existing product keeps the store valid |
| DbInserter.AddProductValid | modules/db_inserter/db_inserter.py:78-179 | `__add_product_to_bd` keeps the store valid |
| DbInserter.FreshKeysUnreferenced | modules/common/sql_req.py:35-89 | the next serial ids are referenced by no row, so a freshly inserted row has no children |
| DbInserter.NewListingRecords | modules/db_inserter/db_inserter.py:143-151 | after a new listing its last price is the observed price, and products and versions are untouched |
| DbInserter.NewVersionRecords | modules/db_inserter/db_inserter.py:154-164 | after a new configuration its listing's last price is the observed price, and products are untouched |
| DbInserter.NewProductRecords | modules/db_inserter/db_inserter.py:167-177 | after a new product, the product lookup returns exactly the new id, and the listing's last price is the observed price |
| DbInserter.AddToVersionRecords | modules/db_inserter/db_inserter.py:109-151 | after any non-error outcome under a configuration, the listing's last price is the observed price |
| DbInserter.AddToProductRecords | modules/db_inserter/db_inserter.py:102-164 | after any non-error outcome under a product, the listing's last price is the observed price |
| DbInserter.AddProductRecordsPrice | modules/db_inserter/db_inserter.py:78-179 | after any non-error outcome, looking the item up again finds the observed price as its last price |
| DbInserter.AddProductIdempotent | modules/db_inserter/db_inserter.py:78-179 | adding the same observation again, at any later time, gives 'error' and changes nothing |
| DbInserter.AddProductAccepted | modules/db_inserter/db_inserter.py:89-98 | any label other than 'error' implies a connection, a known category and a known shop |
| DbInserter.AddProductErrorKeeps | modules/db_inserter/db_inserter.py:78-179 | an 'error' answer leaves the store exactly as it was |
| DbInserter.AddProductLabelTimeless | modules/db_inserter/db_inserter.py:78-179 | the label depends only on the store and the offer, never on the time the rows are stamped with |
| DbInserter.AddProductAppendOnly | modules/db_inserter/db_inserter.py:78-179 | the store only grows: every table of the old store is a prefix of the new one |
| DbInserter.IngestKeepsStore | modules/db_inserter/db_inserter.py:191-221 | the ingestion loop keeps the store valid and append-only |
| DbInserter.IngestQueue | modules/db_inserter/db_inserter.py:191-221 | the price-change list only grows; every added entry is a valid input item; no two added entries agree on brand/model/ram/rom/price with each other or with an earlier entry |
| DbInserter.QueueAppend | modules/db_inserter/db_inserter.py:217-221 | appending an item that the `limit_one` search does not find keeps the added entries distinct |
| DbInserter.DbInserter.constructor | modules/db_inserter/db_inserter.py:31-39 | the inserter starts disconnected with the given results and an empty price-change list |
| DbInserter.DbInserter.AddProductToBd | modules/db_inserter/db_inserter.py:78-179 | the method updates the store and returns the label as `AddProduct` specifies |
| DbInserter.DbInserter.AddKnownProductInBd | modules/db_inserter/db_inserter.py:100-179 | the method resolves a listing with known category and shop as `AddKnownProduct` specifies |
| DbInserter.DbInserter.AddToProductInBd | modules/db_inserter/db_inserter.py:102-164 | the method handles an existing product as `AddToProduct` specifies |
| DbInserter.DbInserter.AddToVersionInBd | modules/db_inserter/db_inserter.py:109-151 | the method handles an existing configuration as `AddToVersion` specifies |
| DbInserter.DbInserter.AddToListingInBd | modules/db_inserter/db_inserter.py:116-140 | the method handles an existing listing as `AddToListing` specifies |
| DbInserter.DbInserter.AddItems | modules/db_inserter/db_inserter.py:191-221 | the loop skips invalid items, stores the rest and queues new 'price' results as `Ingest` specifies |
| DbInserter.DbInserter.AddInputListToDb | modules/db_inserter/db_inserter.py:181-221 | an empty argument, or no parse results held, changes nothing; otherwise the items are ingested |
| DbInserter.DbInserter.Run | modules/db_inserter/db_inserter.py:223-231 | as written, `run` changes neither the store nor the price-change list and returns the list |
| DbInserter.DbInserter.AddInputListToDbIntended | modules/db_inserter/db_inserter.py:181-221 | the corrected method ingests the argument, or the held results when the argument is empty |
| DbInserter.DbInserter.RunIntended | modules/db_inserter/db_inserter.py:223-231 | the corrected `run` ingests the held results and returns the price-change list |
| DbInserter.CheckItemOnErrors | modules/db_inserter/db_inserter.py:10-22 | check_item_on_errors: an offer is complete when no required field is empty or zero; `CheckItemAgreesWithValidation` proves it equal to the validator's test |
| DbInserter.ShopId | modules/db_inserter/db_inserter.py:89-98 | the shop id of a name: its index in the shop list plus one, none for an unknown shop (then the offer is answered 'error', see `AddProductRejects`) |
| DbInserter.CategoryId | modules/db_inserter/db_inserter.py:89-98 | the category id of a name: its index in the category list plus one, none for an unknown category (see `AddProductRejects`) |
| DbInserter.NewListing | modules/db_inserter/db_inserter.py:143-151 | a new listing and its first price; `NewListingValid` and `NewListingRecords` state consistency and the recorded price |
| DbInserter.NewVersion | modules/db_inserter/db_inserter.py:154-164 | a new configuration, its listing and price; `NewVersionValid` and `NewVersionRecords` state them |
| DbInserter.NewProduct | modules/db_inserter/db_inserter.py:167-177 | a new product with rating 0, its configuration, listing and price; `NewProductValid` and `NewProductRecords` state them |
| DbInserter.AddToListing | modules/db_inserter/db_inserter.py:116-140 | the listing exists: a changed price is appended and answered 'price', a missing or equal last price is 'error'; `AddToListingEffects` states it |
| DbInserter.AddToVersion | modules/db_inserter/db_inserter.py:109-151 | the configuration exists: a new listing is 'version', an existing one goes to the price step; `AddToVersionEffects` states it |
| DbInserter.AddToProduct | modules/db_inserter/db_inserter.py:102-164 | the product exists: a new configuration is 'shop', an existing one goes down a level; `AddToProductEffects` states it |
| DbInserter.AddKnownProduct | modules/db_inserter/db_inserter.py:100-179 | category and shop known: a new model is 'product', a known one goes down a level; its properties are in `AddProductEffects` |
| DbInserter.AddProduct | modules/db_inserter/db_inserter.py:78-179 | what __add_product_to_bd writes and answers; `AddProductEffects`, `AddProductPriceLabel`, `AddProductIdempotent` and `AddProductValid` state its properties |
| DbInserter.LastPrice | modules/db_inserter/db_inserter.py:119-140 | the last price stored for the offer's listing, found by the same lookups; `AddProductPriceLabel` and `AddProductRecordsPrice` relate it to the label |
| DbInserter.Ingest | modules/db_inserter/db_inserter.py:191-221 | the loop of __add_input_list_to_db: incomplete offers skipped, the rest added, and those answered 'price' queued once per key; `IngestKeepsStore` and `IngestQueue` state it |
| DataChecker.MinHist | modules/data_checker/data_checker.py:66-68 | `min` over history tuples: a member of the rows that is lexicographically (price, shop, datetime) no larger than any row |
| DataChecker.LeadingRecent | modules/data_checker/data_checker.py:57-64 | the counting loop's index: every earlier row is less than one second older than the newest, and the row at the index (if any) is not |
| DataChecker.SumPricesBounds | modules/data_checker/data_checker.py:71-72 | the sum of prices lies between n·lo and n·hi |
| DataChecker.CheapestRows | modules/data_checker/data_checker.py:86-87 | the cheapest in-stock rows are non-empty iff some row is in stock, and are exactly the in-stock rows at the minimum price |
| DataChecker.BenefitDealThreshold | modules/data_checker/data_checker.py:89-92 | when the check completes, the in-stock list is non-empty, the average is non-zero, and rows are returned iff the percentage below the average reaches the configured minimum and the gap reaches 1500 (boundaries qualify) |
| DataChecker.BenefitDealRows | modules/data_checker/data_checker.py:80-95 | returned rows are exactly the in-stock actual rows at the minimum in-stock price |
| DataChecker.BenefitRowsInStock | modules/data_checker/data_checker.py:80-87 | every returned row is an actual row whose url is in the current scrape, and no in-stock actual row is cheaper |
| DataChecker.BenefitShape | modules/data_checker/data_checker.py:41-72 | a completed check had non-empty actual and history lists; the average is (price + historical min)/2 for one shop and the mean of all actual prices otherwise |
| DataChecker.HistoryForMinRows | modules/data_checker/data_checker.py:57-68 | the rows considered for the minimum come from the history; for one shop they are exactly the rows at least one second older than the newest |
| DataChecker.BenefitHistMin | modules/data_checker/data_checker.py:57-68 | the historical minimum is a history row, minimal over the whole history for several shops and over the rows at least one second old for one shop |
| DataChecker.MeanBounds | modules/data_checker/data_checker.py:71-72 | the mean of the actual prices lies between their bounds |
| DataChecker.BenefitAverageBounds | modules/data_checker/data_checker.py:71-72 | with several shops the baseline average lies between the lowest and highest actual price |
| DataChecker.BenefitOfHistMin | modules/data_checker/data_checker.py:41-68 | against the store, the historical minimum is a row of the configuration's full price history |
| DataChecker.BestImgUrl | modules/data_checker/data_checker.py:119-128 | a chosen image url contains "http" and is the image url of a scraped item |
| DataChecker.UrlAbsent | modules/data_checker/data_checker.py:115-116 | the `limit_one` url search finds nothing iff no record has the url (an empty url is a falsy criterion and matches any record) |
| DataChecker.DealAppended | modules/data_checker/data_checker.py:130-147 | appending one more deal keeps the accumulated list as specified by `DealsAppended` |
| DataChecker.AddDealsProperties | modules/data_checker/data_checker.py:113-147 | the inner loop appends one deal per new url, each with `avg_actual_price = int(avg)` and `diff_cur_avg = int(avg − price)`, and never a url already present |
| DataChecker.BenefitUndercuts | modules/data_checker/data_checker.py:89-95 | every row the check returns undercuts the average by at least 1500 |
| DataChecker.CheckStepProperties | modules/data_checker/data_checker.py:106-147 | one item's step keeps the earlier records as a prefix, keeps urls distinct, adds only records with a gap of at least 1500, and stops with an error exactly when the check raised |
| DataChecker.CheckedWithProperties | modules/data_checker/data_checker.py:106-147 | the whole loop keeps the earlier records as a prefix, never emits two records with the same url, and every added record has a gap of at least 1500 |
| DataChecker.CheckedPricesProperties | modules/data_checker/data_checker.py:97-147 | `__check_prices` against the store has the same three properties |
| DataChecker.CheckedWithNext | modules/data_checker/data_checker.py:106-147 | the loop over one more item is the loop so far followed by one step |
| DataChecker.CheckedWithStops | modules/data_checker/data_checker.py:106-147 | once a step raises, later items change nothing |
| DataChecker.DataChecker.constructor | modules/data_checker/data_checker.py:18-31 | the checker holds its inputs and configuration and starts with no results |
| DataChecker.DataChecker.CheckPriceForBenefit | modules/data_checker/data_checker.py:33-95 | the method computes the benefit as `BenefitOf` specifies |
| DataChecker.DataChecker.CheckPriceLists | modules/data_checker/data_checker.py:46-95 | the counting loop, the in-stock loop and the threshold compute `BenefitFrom` |
| DataChecker.DataChecker.FindBestImgUrl | modules/data_checker/data_checker.py:119-128 | the loop over preferred shops returns `BestImgUrl` |
| DataChecker.DataChecker.CheckPrices | modules/data_checker/data_checker.py:97-147 | the loop over price changes produces the records and error `CheckedPrices` specifies |
| DataChecker.DataChecker.CheckOffers | modules/data_checker/data_checker.py:106-147 | the outer loop over the offers produces the records and error `CheckedWith` specifies, stopping at the first error |
| DataChecker.DataChecker.CheckOffer | modules/data_checker/data_checker.py:106-147 | one loop iteration performs one `CheckStep` |
| DataChecker.DataChecker.AddResults | modules/data_checker/data_checker.py:113-147 | the inner loop appends the deals `AddDeals` specifies |
| DataChecker.DataChecker.Run | modules/data_checker/data_checker.py:149-162 | `run` returns the collected records of `__check_prices` |
| DataChecker.AveragePrice | modules/data_checker/data_checker.py:71-72 | the average: for one shop the mean of the price and the historical minimum, otherwise the mean of the actual prices; `BenefitAverageBounds` bounds it |
| DataChecker.IsDeal | modules/data_checker/data_checker.py:89-92 | a deal is at least `min_diff_price_per` percent and at least 1500 below the average; `BenefitDealThreshold` states it |
| DataChecker.BenefitFrom | modules/data_checker/data_checker.py:41-95 | __check_price_for_benefit once both queries answered, with its ValueError, IndexError and ZeroDivisionError; `BenefitShape`, `BenefitDealRows` and `BenefitHistMin` state its result |
| DataChecker.BenefitOf | modules/data_checker/data_checker.py:33-95 | __check_price_for_benefit over the store; `BenefitOfHistMin` and `BenefitUndercuts` state its result |
| DataChecker.AddDeals | modules/data_checker/data_checker.py:113-147 | the records appended for one offer's deal rows, each skipped when its url is already recorded; `AddDealsProperties` and `DealAppended` state them |
| DataChecker.CheckStep | modules/data_checker/data_checker.py:106-147 | one changed offer: an exception stops, a null or empty result adds nothing, deals are appended; `CheckStepProperties` states it |
| DataChecker.CheckedWith | modules/data_checker/data_checker.py:106-147 | the loop of __check_prices up to the first exception; `CheckedWithProperties`, `CheckedWithNext` and `CheckedWithStops` state it |
| DataChecker.CheckedPrices | modules/data_checker/data_checker.py:97-147 | __check_prices against the store; `CheckedPricesProperties` states it |
| BotHelper.IncStatsProducts | modules/data_sender/telegram/bot_helper.py:15-23 | the "brand model" key goes up by one (starting at 1), and every other key is unchanged |
| BotHelper.IncStatsShops | modules/data_sender/telegram/bot_helper.py:26-35 | the loop counts the shops as `ShopStats` specifies |
| BotHelper.ShopStatsStops | modules/data_sender/telegram/bot_helper.py:26-35 | after an IndexError the remaining shops are not counted |
| BotHelper.ShopStatsCounts | modules/data_sender/telegram/bot_helper.py:26-35 | with valid shop ids, each name's count grows by the number of list entries naming it |
| BotHelper.ShopNameRange | modules/data_sender/telegram/bot_helper.py:31 | ids 1..14 name `SHOPS_NAME_LIST[id-1]`; id 0 wraps to the last entry; ids above 14 or below −13 raise IndexError |
| BotHelper.ConvertUrlForRefLinkClean | modules/data_sender/telegram/bot_helper.py:40-44 | the converted url contains no ':' and no '/' |
| BotHelper.FirstPartnerOfFour | modules/data_sender/telegram/bot_helper.py:47-67 | the first domain contained in the url, in the order mvideo, mts, citilink, eldorado, selects the referral prefix |
| BotHelper.GetRefLinkFirstPartner | modules/data_sender/telegram/bot_helper.py:47-67 | the referral link is the first matching prefix followed by the converted url; a url matching no domain is returned unchanged |
| BotHelper.InStockMeaning | modules/data_sender/telegram/bot_helper.py:125-128 | a row is in stock iff some scraped item has its url (an empty url matches any item) |
| BotHelper.IrrPostSearchDataInStock | modules/data_sender/telegram/bot_helper.py:118-130 | the loop returns the in-stock rows `InStockRows` specifies |
| BotHelper.InStockRowsProperties | modules/data_sender/telegram/bot_helper.py:118-130 | the result is the order-preserving sublist of rows whose url is in stock |
| BotHelper.FirstInactive | modules/data_sender/telegram/bot_helper.py:150-154 | the counting loop stops at the first inactive post: every earlier post is active |
| BotHelper.WithoutFirstInactiveSplice | modules/data_sender/telegram/bot_helper.py:157-161 | `pop(indx)` removes exactly the first inactive post, or nothing when all are active |
| BotHelper.IrrPostAddItemInMsgInTelegramList | modules/data_sender/telegram/bot_helper.py:133-163 | the in-place update produces the list `AddItem` specifies |
| BotHelper.AddItemAppends | modules/data_sender/telegram/bot_helper.py:137-163 | the last element is the item with the new hash and state and every other field copied |
| BotHelper.AddItemEviction | modules/data_sender/telegram/bot_helper.py:146-163 | at or above capacity with an inactive post the first inactive post is removed and the length is unchanged; with none, or below capacity, the length grows by one and the old entries stay in place |
| BotHelper.AddItemMembers | modules/data_sender/telegram/bot_helper.py:133-163 | the list grows by at most one, and holds only old posts and the new entry |
| BotHelper.ShopName | modules/data_sender/telegram/bot_helper.py:31 | `SHOPS_NAME_LIST[id - 1]` with Python's negative indexing; `ShopNameRange` states which ids name a shop and which raise IndexError |
| BotHelper.ShopStats | modules/data_sender/telegram/bot_helper.py:26-35 | the shop counters after the ids, up to the first that raises; `ShopStatsCounts` and `ShopStatsStops` state it |
| BotHelper.ConvertUrlForRefLink | modules/data_sender/telegram/bot_helper.py:40-44 | convert_url_for_ref_link; `ConvertUrlForRefLinkClean` proves no ':' or '/' remains |
| BotHelper.GetRefLink | modules/data_sender/telegram/bot_helper.py:47-67 | get_ref_link: the first partner domain in the url picks the prefix, other urls stay; `GetRefLinkFirstPartner` states it |
| BotHelper.InStockRows | modules/data_sender/telegram/bot_helper.py:118-130 | the actual-price rows whose url is among the scraped offers, in order; `InStockRowsProperties` and `InStockMeaning` state it |
| BotHelper.WithoutFirstInactive | modules/data_sender/telegram/bot_helper.py:150-161 | the posts with the first inactive one removed; `WithoutFirstInactiveSplice` states where |
| BotHelper.AddItem | modules/data_sender/telegram/bot_helper.py:133-163 | irr_post_add_item_in_msg_in_telegram_list on values; `AddItemAppends`, `AddItemEviction` and `AddItemMembers` state it |
| Bot.LastPassing | modules/data_sender/telegram/bot.py:69-81 | the star of the last passing band check is between 0 and the number of checks |
| Bot.StarTier | modules/data_sender/telegram/bot.py:69-81 | the star tier is between 0 and 5 |
| Bot.StarTierBands | modules/data_sender/telegram/bot.py:69-81 | with ascending thresholds, tier k is chosen iff threshold_k ≤ per < threshold_k+1 (k = 1..4); tier 5 iff per > five_star_per; per == five_star_per gives 0 |
| Bot.GenerateCaption | modules/data_sender/telegram/bot.py:48-132 | no caption iff the versions list is empty; otherwise ZeroDivisionError iff the average is 0, then ValueError iff a shown historical minimum (price above it) falls on a whole second, then IndexError for a shop index out of range; a caption exactly when none of these applies |
| Bot.FilteredProperties | modules/data_sender/telegram/bot.py:134-150 | the first occurrence of each item is kept in order, then ignored brands are dropped; the result has no duplicates and holds exactly the input items of other brands |
| Bot.SelfMatches | modules/data_sender/telegram/bot.py:161-163 | every deal matches its own group query |
| Bot.HeadGroup | modules/data_sender/telegram/bot.py:158-168 | the head's group is a non-empty sub-multiset of the list, headed by the head |
| Bot.GroupsUnfold | modules/data_sender/telegram/bot.py:158-168 | the first group is the head's matches, and the rest are the groups of what remains after removing them |
| Bot.GroupsPartition | modules/data_sender/telegram/bot.py:158-168 | the grouping loop terminates and partitions the list: the groups together are a permutation of it |
| Bot.GroupsNonEmpty | modules/data_sender/telegram/bot.py:158-168 | no group is empty |
| Bot.GroupsMatchHead | modules/data_sender/telegram/bot.py:158-168 | every member of a group equals the group's head on brand, model, ram, rom and price (truthy criteria) |
| Bot.GroupsMaximal | modules/data_sender/telegram/bot.py:158-168 | no later group holds a deal matching an earlier group's head |
| Bot.RestMissesHead | modules/data_sender/telegram/bot.py:167-168 | after the head's group is removed, nothing left matches the head |
| Bot.ShopsOf | modules/data_sender/telegram/bot.py:196 | the shops of the group, one per deal |
| Bot.WhereBuyOf | modules/data_sender/telegram/bot.py:225 | the stored (shop, color, url) triples, one per deal |
| Bot.DealVersions | modules/data_sender/telegram/bot.py:199 | the caption's (shop, url, color) triples, one per deal |
| Bot.FirstSent | modules/data_sender/telegram/bot.py:211-233 | no message id iff all remaining attempts answer 0; otherwise the non-zero id of the first answering attempt |
| Bot.SendNewCounts | modules/data_sender/telegram/bot.py:190-196 | past the duplicate check both counters grow by one and the statistics are updated, whether or not the post goes out |
| Bot.PublishKeepsCounts | modules/data_sender/telegram/bot.py:198-233 | sending changes only the post list |
| Bot.SendNewPosts | modules/data_sender/telegram/bot.py:198-233 | at most one post is appended; one is appended iff nothing raised, the picture exists and one of three attempts answered |
| Bot.SendOneProperties | modules/data_sender/telegram/bot.py:176-233 | a duplicate (any stored post, active or not, equal on brand/model/price/ram/rom) changes nothing; otherwise counters +1 and statistics updated; at most one active post appended, regardless of capacity |
| Bot.SendStepApply | modules/data_sender/telegram/bot.py:171-174 | the send loop over one more group is the loop so far followed by sending that group |
| Bot.SendOneGrows | modules/data_sender/telegram/bot.py:176-233 | one send grows the counters together by at most one and appends at most that many active posts |
| Bot.SendFoldGrows | modules/data_sender/telegram/bot.py:171-174 | n steps that each grow by at most one grow by at most n |
| Bot.SendGroupsProperties | modules/data_sender/telegram/bot.py:171-174 | sending n groups grows both counters equally by at most n, only appends posts, never more posts than counted, all active |
| Bot.EditedPhoto | modules/data_sender/telegram/bot.py:252-257 | some of the remaining three full edit attempts succeeded |
| Bot.EditOutcomeProperties | modules/data_sender/telegram/bot.py:235-268 | inactive to inactive, or active with an unchanged hash, succeeds with no call; a change of state moves the actual counter by ±1 only on success, and fails after three failed edits; a changed caption fails iff its edit fails |
| Bot.MinsOf | modules/data_sender/telegram/bot.py:281-287 | one cheapest-in-stock list per stored post |
| Bot.MinsOfIndex | modules/data_sender/telegram/bot.py:281-287 | entry i is the cheapest in-stock actual rows of post i's configuration |
| Bot.MinsOfMinima | modules/data_sender/telegram/bot.py:281-287 | the precomputed minima satisfy `MinimaOf` |
| Bot.IsActualNowMeaning | modules/data_sender/telegram/bot.py:295-300 | a post is actual iff some in-stock actual row has its price and none is cheaper; the previous state is not consulted |
| Bot.ReconcileVersions | modules/data_sender/telegram/bot.py:303-306 | an actual post lists the cheapest rows' (shop, url, color); otherwise its stored where-to-buy list, reordered |
| Bot.ReconcileStepProperties | modules/data_sender/telegram/bot.py:295-326 | one post: AttributeError iff it has no shops; ZeroDivisionError iff shops and a zero average; ValueError iff the shown historical minimum falls on a whole second; no error iff the caption renders; then the re-added entry keeps the post's id and price, a successful edit stores the new state and moves the counter, a failed edit stores it as active with the counter unchanged |
| Bot.ReconcileStepRebuilds | modules/data_sender/telegram/bot.py:278-326 | each step keeps the new list rebuilt from the posts seen so far |
| Bot.ReconcileFoldRebuilds | modules/data_sender/telegram/bot.py:278-326 | a loop of such steps rebuilds from the first n posts |
| Bot.ReconciledRebuilds | modules/data_sender/telegram/bot.py:270-326 | the new list has no more entries than the old one, each carrying the message id of a stored post |
| Bot.ReconcileStepsRebuild | modules/data_sender/telegram/bot.py:278-326 | every reconcile step preserves `RebuiltFrom` |
| Bot.SendFoldStops | modules/data_sender/telegram/bot.py:171-174 | once sending raises, later groups change nothing |
| Bot.ReconcileFoldStops | modules/data_sender/telegram/bot.py:278-326 | once a reconcile step raises, later posts change nothing |
| Bot.GroupsTake | modules/data_sender/telegram/bot.py:158-168 | taking the head's group and removing it advances the grouping by one group |
| Bot.ReconcileStepApply | modules/data_sender/telegram/bot.py:278-326 | the reconcile loop over one more post is the loop so far followed by one step |
| Bot.Bot.constructor | modules/data_sender/telegram/bot.py:40-46 | the bot starts from the loaded posts, counters and statistics with no products |
| Bot.Bot.FilteringData | modules/data_sender/telegram/bot.py:134-150 | the product list becomes `Filtered` of the old list |
| Bot.Bot.DropRepeats | modules/data_sender/telegram/bot.py:139-143 | the loop keeps the first occurrence of each item |
| Bot.Bot.DropIgnoredBrands | modules/data_sender/telegram/bot.py:146-150 | the loop drops items of ignored brands |
| Bot.Bot.TakeGroups | modules/data_sender/telegram/bot.py:156-168 | the while loop empties the product list and returns its `Groups` |
| Bot.Bot.SendOnePost | modules/data_sender/telegram/bot.py:176-233 | the method changes the bot's state as `SendOne` specifies |
| Bot.Bot.PublishPost | modules/data_sender/telegram/bot.py:198-233 | the method's send attempts change the state as `Publish` specifies |
| Bot.Bot.PrepareAndSendAllPosts | modules/data_sender/telegram/bot.py:152-174 | the product list is emptied and its groups are sent in order |
| Bot.Bot.SendAllGroups | modules/data_sender/telegram/bot.py:170-174 | the send loop sends each group in order, sound only for the last two |
| Bot.Bot.SendPrefix | modules/data_sender/telegram/bot.py:170-174 | the loop stops only when the groups run out or an exception escapes, having posted the groups it visited in order |
| Bot.Bot.SendNextGroup | modules/data_sender/telegram/bot.py:170-174 | one more pass extends the send fold by the next group |
| Bot.Bot.EditPostAsIrrelevant | modules/data_sender/telegram/bot.py:235-268 | the counter change and result are those of `EditOutcome` |
| Bot.Bot.CheckOnePost | modules/data_sender/telegram/bot.py:278-326 | one reconcile iteration performs one `ReconcileStep` |
| Bot.Bot.CheckNextPost | modules/data_sender/telegram/bot.py:278-326 | one more iteration extends the reconcile loop by one post |
| Bot.Bot.EditAndKeepPost | modules/data_sender/telegram/bot.py:315-324 | editing then re-adding the post are as `EditAndKeep` specifies |
| Bot.Bot.CheckIrrelevantPosts | modules/data_sender/telegram/bot.py:270-327 | the rebuilt list replaces the stored posts, and the counter and error are those of `Reconciled` |
| Bot.Bot.RebuildPosts | modules/data_sender/telegram/bot.py:278-326 | the loop over all posts computes the reconcile fold |
| Bot.Bot.RebuildPrefix | modules/data_sender/telegram/bot.py:278-326 | the loop stops only when the posts run out or an exception escapes, having computed the reconcile fold over the posts it visited |
| Bot.Bot.SendPosts | modules/data_sender/telegram/bot.py:329-341 | an empty input changes nothing; otherwise the filtered products are grouped and sent |
| Bot.Bot.CheckingIrrelevantPosts | modules/data_sender/telegram/bot.py:349-357 | an empty in-stock list changes nothing; otherwise the posts are reconciled |
| Bot.Caption | modules/data_sender/telegram/bot.py:48-132 | the caption or the exception of __generate_caption, with the whole-second date check switchable; `GenerateCaption` and `GenerateCaptionIntended` state its cases |
| Bot.GenerateCaptionIntended | modules/data_sender/telegram/bot.py:48-132 | __generate_caption with the date parsed whatever its microseconds: a caption iff the versions are empty or the average is non-zero and every shop index is in range; only ZeroDivisionError or IndexError |
| Bot.CaptionIntendedAgrees | modules/data_sender/telegram/bot.py:94-101 | the two captions agree whenever no shown historical minimum falls on a whole second |
| Bot.WholeSecondCaptionRaises | modules/data_sender/telegram/bot.py:97 | a historical minimum stamped 2021-06-01 12:00:00.000000 makes the code as written raise ValueError where the intended caption renders |
| Bot.Filtered | modules/data_sender/telegram/bot.py:134-150 | the deals after __filtering_data; `FilteredProperties` states no repeats, membership and order |
| Bot.Groups | modules/data_sender/telegram/bot.py:158-168 | the groups the while loop of __prepare_and_send_all_posts takes; `GroupsPartition`, `GroupsMatchHead`, `GroupsMaximal` and `GroupsNonEmpty` state them |
| Bot.IsDuplicate | modules/data_sender/telegram/bot.py:182-188 | a stored post already shows the deal under the grouping search with `limit_one`; `SendOneProperties` uses it |
| Bot.SendOne | modules/data_sender/telegram/bot.py:176-233 | __send_one_post on values; `SendOneProperties` and `SendOneGrows` state its effect |
| Bot.SendNew | modules/data_sender/telegram/bot.py:190-233 | the part after the duplicate check; `SendNewCounts` and `SendNewPosts` state it |
| Bot.Publish | modules/data_sender/telegram/bot.py:198-233 | caption, picture and up to three sends; `PublishKeepsCounts` and `SendNewPosts` state it |
| Bot.SendGroups | modules/data_sender/telegram/bot.py:170-174 | the sending loop up to the first exception; `SendGroupsProperties` and `SendFoldStops` state it |
| Bot.EditOutcome | modules/data_sender/telegram/bot.py:235-268 | __edit_post_as_irrelevant on values; `EditOutcomeProperties` states the counter change and result |
| Bot.Unawaited | modules/data_sender/telegram/bot.py:212 | Telegram as called without `await`: every send and edit answers a truthy coroutine; `UnawaitedSendAlwaysPosts` and `UnawaitedEditNeverFails` state what follows |
| Bot.UnawaitedSendAlwaysPosts | modules/data_sender/telegram/bot.py:211-233 | with the un-awaited send a post is stored exactly when nothing raised and the picture exists, carrying the coroutine as its message id |
| Bot.UnawaitedEditNeverFails | modules/data_sender/telegram/bot.py:252-265 | with the un-awaited edits no edit reports failure, and every successful one moves the counter by the change of state |
| Bot.InStockMinimum | modules/data_sender/telegram/bot.py:281-287 | the cheapest in-stock rows of a post's configuration; `MinsOfMinima` and `IsActualNowMeaning` state it |
| Bot.ReconcileStep | modules/data_sender/telegram/bot.py:295-326 | one post of __checking_irrelevant_posts; `ReconcileStepProperties` and `ReconcileStepRebuilds` state it |
| Bot.EditAndKeep | modules/data_sender/telegram/bot.py:315-324 | edit the post, then re-add it; its properties are in `ReconcileStepProperties` |
| Bot.Reconciled | modules/data_sender/telegram/bot.py:270-326 | the whole loop of __checking_irrelevant_posts; `ReconciledRebuilds` and `ReconcileFoldStops` state it |
| FileWorker.TitledFieldAt | modules/common/file_worker.py:22-30 | for a field name, title-casing turns '_' into ' ' and leaves every other character a non-space whose lower case is the original |
| FileWorker.TitledFieldChars | modules/common/file_worker.py:22-30 | the same, for every position |
| FileWorker.TwoSpacesAt | modules/common/file_worker.py:11-19 | a double-space occurrence is two adjacent spaces |
| FileWorker.NoDoubleSpace | modules/common/file_worker.py:11-19 | a title-cased name without doubled underscores contains no '  ' |
| FileWorker.LowerMappedField | modules/common/file_worker.py:11-19 | replacing ' ' by '_' and lowering recovers the field name |
| FileWorker.ColumnNameRoundTrip | modules/common/file_worker.py:11-30 | `convert_column_name(convert_namedtuple_fields_name(f)) == f` for lower-case field names without leading, trailing or doubled underscores |
| FileWorker.ColumnNameShape | modules/common/file_worker.py:11-19 | a converted column name contains no space and no upper-case letter |
| FileWorker.DictLines | modules/common/file_worker.py:115-125 | one `[k] -> [v]` line per entry, in order |
| FileWorker.CloseFrom | modules/common/file_worker.py:140 | a found closing bracket lies at or after the start |
| FileWorker.LoadDict | modules/common/file_worker.py:128-170 | the line loop builds the dictionary `LoadDictSpec` specifies; a missing file gives an empty dictionary |
| FileWorker.CloseAfter | modules/common/file_worker.py:140 | the lazy `\[.+?]` match of a written group ends at its own closing bracket |
| FileWorker.GroupFirst | modules/common/file_worker.py:140 | a written group is the first match |
| FileWorker.SkipPlain | modules/common/file_worker.py:140 | text without '[' yields no match |
| FileWorker.DictLineGroups | modules/common/file_worker.py:125-140 | a written dictionary line has exactly the two bracket groups of its key and value |
| FileWorker.StripGroup | modules/common/file_worker.py:145-146 | removing the brackets of a written group gives back its text |
| FileWorker.ShownNatClean | modules/common/file_worker.py:149-163 | the decimal text of a natural is all digits and converts back to it |
| FileWorker.ShownFits | modules/common/file_worker.py:125-146 | a non-negative int or clean string survives being written inside brackets and read back |
| FileWorker.DictLineRoundTrip | modules/common/file_worker.py:125-165 | a written entry whose key and value fit the dictionary kind is parsed back to itself |
| FileWorker.DictRoundTrip | modules/common/file_worker.py:115-170 | loading the saved lines gives back the dictionary (later keys win) |
| FileWorker.LoadDictOf | modules/common/file_worker.py:136-170 | lines that each parse to an entry load as those entries' dictionary |
| FileWorker.NegativeCountSkipped | modules/common/file_worker.py:155-157 | a negative int value in a str_int dictionary is not all digits, so its line is skipped |
| FileWorker.ListLines | modules/common/file_worker.py:173-190 | a single str or int is one line; a list is one line per item, in order; other data write nothing |
| FileWorker.LoadList | modules/common/file_worker.py:193-225 | the line loop builds the list `LoadListSpec` specifies; a missing file gives an empty list |
| FileWorker.CleanWrittenLine | modules/common/file_worker.py:205 | stripping newline characters gives back the written text |
| FileWorker.ListLineRoundTrip | modules/common/file_worker.py:186-220 | a written item that fits the list kind is parsed back to itself |
| FileWorker.LoadListOf | modules/common/file_worker.py:204-220 | lines that each parse to an item load as those items |
| FileWorker.ListRoundTrip | modules/common/file_worker.py:173-225 | loading the saved list gives back the list |
| FileWorker.NegativeIntLosesSign | modules/common/file_worker.py:209-213 | a negative int saved to a list loads back as an int list entry with the sign lost |
| FileWorker.CsvHeader | modules/common/file_worker.py:249 | the header has one converted field name per field |
| FileWorker.Columns | modules/common/file_worker.py:282-294 | one converted column name per header cell |
| FileWorker.ColumnsAt | modules/common/file_worker.py:282-294 | the converted column at i is `convert_column_name` of header cell i |
| FileWorker.FirstIndex | modules/common/file_worker.py:282-294 | the first position at or after k holding the name, or none |
| FileWorker.FirstColumn | modules/common/file_worker.py:282-294 | a field is found iff some column converts to it, and then at its first such column |
| FileWorker.RowDictKeys | modules/common/file_worker.py:274-294 | every header name is a key of a row's dictionary (missing cells become None) |
| FileWorker.RecordOf | modules/common/file_worker.py:288-294 | one value per namedtuple field |
| FileWorker.LoadCsv | modules/common/file_worker.py:266-302 | the loop returns the records `LoadCsvSpec` specifies; a missing file gives an empty list |
| FileWorker.HasAllColumns | modules/common/file_worker.py:282-286 | the loop decides whether every field has a column |
| FileWorker.RecordValues | modules/common/file_worker.py:288-294 | the loop collects a row's value for every field |
| FileWorker.CsvRoundTrip | modules/common/file_worker.py:228-302 | loading a header written for distinct field names followed by full rows gives back every row's values |
| FileWorker.HeaderColumns | modules/common/file_worker.py:249-286 | each field of a written header is found at its own column, and the header cells are distinct |
| FileWorker.ZippedAt | modules/common/file_worker.py:274-294 | with distinct header names, a row's dictionary maps header name j to cell j |
| FileWorker.HeaderRecord | modules/common/file_worker.py:249-294 | a full row under a written header is read as its own cells |
| FileWorker.RecordsAsWritten | modules/common/file_worker.py:274-302 | rows that each read back as their cells load as all rows |
| FileWorker.ApplyLines | modules/common/file_worker.py:183-190 | overwrite replaces the file's lines; append adds them at the end; no write leaves the file |
| FileWorker.ApplyRecords | modules/common/file_worker.py:240-263 | the same for CSV records |
| FileWorker.SaveRaises | modules/common/file_worker.py:58-86 | `save` raises, always AttributeError, iff the data is truthy and: the dict kind gets a namedtuple type or non-dict data; the list kind gets a namedtuple type; or the csv kind gets none |
| FileWorker.TypedKindsSaveNothing | modules/common/file_worker.py:58-86 | saving with a typed dict or list kind writes nothing |
| FileWorker.Load | modules/common/file_worker.py:88-112 | the method loads what `LoadSpec` specifies for each kind |
| FileWorker.LoadRaises | modules/common/file_worker.py:88-112 | `load` raises iff the csv kind is given no namedtuple type or another kind is given one |
| FileWorker.SavedDictLoads | modules/common/file_worker.py:58-170 | a non-empty dictionary saved with `dict_data` loads back under any dict kind it fits |
| FileWorker.SavedListLoads | modules/common/file_worker.py:58-225 | a non-empty list saved with `list_data` loads back under any list kind it fits |
| FileWorker.SavedRecordsLoad | modules/common/file_worker.py:58-302 | non-empty records saved with `csv_data` load back as their values |
| FileWorker.LoadCountCrash | modules/runner/runner_helper.py:57-59 | the crash counter read at start-up is never negative |
| FileWorker.CountCrashRoundTrip | modules/runner/runner_helper.py:57-110 | a positive counter saved by `inc_count_crash` is read back |
| FileWorker.ClearCountCrashKeepsCount | modules/runner/runner_helper.py:113-119 | as written, clearing after saving a positive count leaves that count in the file |
| FileWorker.ClearCountCrashFixedResets | modules/runner/runner_helper.py:113-119 | the corrected clear makes the counter read back as 0 from any file |
| FileWorker.ConvertColumnName | modules/common/file_worker.py:11-19 | convert_column_name; `ColumnNameShape` and `ColumnNameRoundTrip` state its shape and its inverse |
| FileWorker.ConvertNamedtupleFieldsName | modules/common/file_worker.py:22-30 | convert_namedtuple_fields_name; `ColumnNameRoundTrip` proves `ConvertColumnName` undoes it on field names |
| FileWorker.DictLine | modules/common/file_worker.py:115-125 | the `[key] -> [value]` line of __save_dict; `DictLineRoundTrip` proves __load_dict reads it back |
| FileWorker.ParseDictLine | modules/common/file_worker.py:136-165 | one line of __load_dict; `DictLineRoundTrip` and `NegativeCountSkipped` state it |
| FileWorker.LoadDictSpec | modules/common/file_worker.py:128-170 | __load_dict over the lines; `DictRoundTrip` and `LoadDictOf` state it |
| FileWorker.ParseListLine | modules/common/file_worker.py:204-220 | one line of __load_list; `ListLineRoundTrip` and `NegativeIntLosesSign` state it |
| FileWorker.LoadListSpec | modules/common/file_worker.py:193-225 | __load_list over the lines; `ListRoundTrip` and `LoadListOf` state it |
| FileWorker.LoadCsvSpec | modules/common/file_worker.py:266-302 | __load_csv over the records; `CsvRoundTrip`, `HeaderRecord` and `RecordsAsWritten` state it |
| FileWorker.Save | modules/common/file_worker.py:58-86 | FileWorker.save as an effect on the file; `SaveRaises`, `TypedKindsSaveNothing` and the `Saved*Load` round trips state it |
| FileWorker.LoadSpec | modules/common/file_worker.py:88-112 | FileWorker.load; `LoadRaises` and the `Saved*Load` round trips state it |
| FileWorker.SaveCountCrash | modules/runner/runner_helper.py:96-110 | the file after inc_count_crash saves a count; `CountCrashRoundTrip` proves the next start reads it |
| FileWorker.ClearCountCrash | modules/runner/runner_helper.py:113-119 | clear_count_crash as written; `ClearCountCrashKeepsCount` shows the count is kept |
| FileWorker.ClearCountCrashFixed | modules/runner/runner_helper.py:113-119 | clear_count_crash as intended; `ClearCountCrashFixedResets` proves the next start reads 0 |
| ParseBase.Normalised | modules/data_receiver/parsers/parse_base.py:177-195 | the appended record keeps the parser's shop; its text fields have no upper-case letter; ram is 0 iff the brand contains "apple" (any case) or ram was 0; price, rom, rating and num_rating pass through |
| ParseBase.LowerOfLower | modules/data_receiver/parsers/parse_base.py:183-194 | lower-casing text that has no upper-case letter changes nothing |
| ParseBase.NormalisedIdempotent | modules/data_receiver/parsers/parse_base.py:177-195 | normalising an already normalised record gives it back |
| ParseBase.FirstSuccess | modules/data_receiver/parsers/parse_base.py:161-163 | the first call below count that returns the expected result, or none |
| ParseBase.ParseBase.constructor | modules/data_receiver/parsers/parse_base.py:45-50 | a parser starts with its shop, its category and an empty result list |
| ParseBase.ParseBase.AddToPrResultList | modules/data_receiver/parsers/parse_base.py:172-195 | exactly one normalised record is appended to the result list |
| ParseBase.ParseBase.MultipleFuncCall | modules/data_receiver/parsers/parse_base.py:157-170 | true iff some call below count returned the expected result; calls stop right after the first such call, every earlier call failed, and a failure makes max(count, 0) calls |
| ParseBase.NoUpper | modules/data_receiver/parsers/parse_base.py:183-194 | no upper-case letter; `ParseBase.Normalised` ensures it of every lower-cased field |

## Left out

- File I/O itself (opening, encodings, paths, partial writes when an exception interrupts a write) is not modelled. A file is a sequence of lines or CSV records, or `None` when it cannot be opened.
- Python text forms are limited:
  - `str()` of an int is modelled only through `Show`;
  - the text form of a namedtuple is not modelled;
  - CSV quoting and escaping are not modelled;
  - text containing line breaks is excluded by the `Clean`/`ListFits` preconditions of the round-trip lemmas.
- `\d` and `isdigit` are modelled for ASCII digits only. Python also accepts other Unicode digits.
- Letter case (`str.lower`, `str.title`, and the upper/lower/cased tests behind them) covers only the ASCII Latin letters, the basic Cyrillic letters А–я, and Ё/ё. Python maps every cased Unicode character, for example 'Ä', 'Σ' and 'İ' (which also changes the length). So ParseBase.Normalised's "no upper-case letter", Helper.FindAllowedModelNames' case-insensitive match and the CSV header's `title()` are exact only for text in those alphabets.
- FileWorker.Save: saving a single namedtuple, and a list of namedtuples with `list_data`, are excluded by a precondition. Their text depends on the namedtuple's text form.
- Database connections (`db_wrapper.py`) and the row order of SELECTs without ORDER BY are not modelled. Rows come back in table (insertion) order.
- Datetimes are integers in microseconds. `total_seconds() < 1` becomes a difference below 1000000.
- Python floats are exact `real` numbers, so float rounding at the threshold boundaries is not captured. `int()` of a real is `Builtins.Trunc`, which truncates toward zero.
- Telegram, image creation, sha256, caption text and the clock are oracles or uninterpreted parameters. The rest of the model takes the send and edit calls as awaited, so they return Telegram's answers. The code as written, which does not await them, is modelled separately by `Bot.Unawaited` (see "Findings").
- The order of `set(...)` in the shop statistics is not modelled. The shops are taken deduplicated in first-occurrence order.
- The cheapest in-stock rows of each post are computed before reconcile's loop (`Bot.MinsOf`). The loop itself does not query the store.
- The site parsers, the Selenium methods of `parse_base.py`, `config.ini`, logging, `main.py`, `runner.py` and `image_creator.py` are not part of this model. The same goes for `load_msg_in_telegram_list` and `load_num_posts` in `bot_helper.py`.
- The CSV saves at the end of `DataChecker.run` and of `Bot.send_posts`/`checking_irrelevant_posts` are not modelled. Neither is the mismatch between the 'Message Id' header written for `MessagesInTelegram` and the 'Message ID' key read back.
- `inc_count_crash`'s alarm at `MAX_COUNT_CRASH_FOR_ALARM` is not modelled. Only saving and loading the counter are.
- ParseBase.MultipleFuncCall: `fun` is modelled as the sequence of its results, `results(i)` for the (i+1)-th call. The calls' side effects are not modelled.

## Findings

| source | as written | input that shows it | evidently intended | confidence | as-written member | corrected member |
|---|---|---|---|---|---|---|
| modules/db_inserter/db_inserter.py:186-188, 229 | `run` calls `__add_input_list_to_db()` with no argument; the guard `not pr_product_list` then returns at once, so nothing is ever inserted | any inserter holding a non-empty parse result list: `run` leaves the store and the price-change list unchanged | an empty argument falls back to `self.pr_parse_result_list` (line 190), which is then ingested | not executed | DbInserter.DbInserter.Run | DbInserter.DbInserter.RunIntended |
| modules/runner/runner_helper.py:113-119 with modules/common/file_worker.py:69-71 | `clear_count_crash` saves the int 0, which is falsy, so `save` returns without writing and the file keeps the previous count | crash count 2 saved, then cleared: the next start-up reads 2 | the file holds 0 after clearing, e.g. by saving `[0]` | not executed | FileWorker.ClearCountCrashKeepsCount | FileWorker.ClearCountCrashFixedResets |
| modules/data_sender/telegram/bot.py:97 | the historical-minimum date is parsed from `str(hist_min_date)` with '%Y-%m-%d %H:%M:%S.%f'; `str()` of a datetime whose microseconds are 0 has no fraction, so `strptime` raises ValueError and the post is not sent or edited | a deal at 9000 with average 10000, historical minimum 8000 recorded at 2021-06-01 12:00:00.000000 in shop 1 | the date is read with or without its fraction | not executed | Bot.WholeSecondCaptionRaises | Bot.GenerateCaptionIntended |
| modules/data_sender/telegram/bot.py:212 with modules/data_sender/telegram/telegram_sender.py:47-95 | `send_photo_message`, `edit_photo_message` and `edit_photo_message_caption` are `async def` but are called without `await`; each returns a truthy coroutine, so every send stores the coroutine as the message id and every edit reports success, while nothing reaches Telegram | any group whose picture was made: the post is stored with the coroutine as id on the first attempt; any state change of a stored post: the edit succeeds and the counter moves | the calls are awaited and their answers decide, as the retry loops assume | not executed | Bot.UnawaitedSendAlwaysPosts | Bot.SendNewPosts |
