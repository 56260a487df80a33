/**
 * The catalog import command (catalog/management/commands/import_products.py):
 * a checked payload shape, then one `update_or_create` per feed category
 * and per feed product, keyed by `source_id`, counting rows created and
 * updated. A failed database write or a missing "id" ends the command with
 * the earlier rows kept. Fetching the feed is not modelled: the command
 * starts from the decoded payload. The class `CatalogTables` runs the
 * command as written; the loops are specified for both ways of keying the
 * category map (`Keying`), the code's and the corrected one.
 */
module Importer {
  import opened Wrappers
  import Text
  import Catalog

  /** A feed id as JSON has it: a number or a string. */
  datatype FeedId = IdNumber(n: int) | IdString(s: string)

  /** The `source_id` column is text: what is stored is `str(id)`. */
  function SourceText(id: FeedId): (s: string)
    ensures id.IdString? ==> s == id.s
    ensures id.IdNumber? ==> Text.ParseInt(s) == Some(id.n)
  {
    Text.ParseIntToString(if id.IdNumber? then id.n else 0);
    match id
    case IdNumber(n) => Text.IntToString(n)
    case IdString(s) => s
  }

  /** A feed category; None is a key the item does not have. */
  datatype CategoryItem = CategoryItem(
    id: Option<FeedId>,
    nameEn: Option<string>,
    nameKh: Option<string>,
    description: Option<string>,
    active: Option<bool>,
    displayOrder: Option<int>)

  datatype ProductItem = ProductItem(
    id: Option<FeedId>,
    categoryId: Option<FeedId>,
    nameEn: Option<string>,
    nameKh: Option<string>,
    descriptionEn: Option<string>,
    descriptionKh: Option<string>,
    priceCents: Option<int>,
    imageUrl: Option<string>,
    active: Option<bool>,
    popular: Option<bool>,
    displayOrder: Option<int>)

  /** The decoded feed: a JSON object with (perhaps) "categories" and "products", or anything else. */
  datatype Payload = NotAnObject | Object(categories: Option<seq<CategoryItem>>, products: Option<seq<ProductItem>>)

  /**
   * `item.get("display_order") or 0` stored in a positive-integer column:
   * missing or 0 is 0, a negative value is refused by the database (None).
   */
  function DisplayOrder(v: Option<int>): (r: Option<nat>)
    ensures v.None? ==> r == Some(0)
    ensures v.Some? ==> (r.None? <==> v.value < 0)
    ensures v.Some? && v.value >= 0 ==> r == Some(v.value as nat)
  {
    if v.None? then Some(0) else if v.value < 0 then None else Some(v.value as nat)
  }

  /** An item the database accepts: it has an id and a display order that is not negative. */
  predicate CategoryAccepted(item: CategoryItem) {
    item.id.Some? && DisplayOrder(item.displayOrder).Some?
  }

  predicate ProductAccepted(item: ProductItem) {
    item.id.Some? && DisplayOrder(item.displayOrder).Some?
  }

  /** The `defaults` of a category upsert: missing texts are "", `active` defaults to True. */
  function CategoryRow(item: CategoryItem): (c: Catalog.Category)
    requires CategoryAccepted(item)
    ensures c.sourceId == SourceText(item.id.value)
    ensures item.active.None? ==> c.active
    ensures item.displayOrder.None? || item.displayOrder == Some(0) ==> c.displayOrder == 0
    ensures item.nameEn.None? ==> c.nameEn == ""
    ensures item.nameEn.Some? ==> c.nameEn == item.nameEn.value
    ensures c.nameKh == item.nameKh.GetOr("") && c.description == item.description.GetOr("")
    ensures item.active.Some? ==> c.active == item.active.value
    ensures item.displayOrder.Some? && item.displayOrder.value >= 0 ==> c.displayOrder == item.displayOrder.value
  {
    Catalog.Category(SourceText(item.id.value), item.nameEn.GetOr(""), item.nameKh.GetOr(""),
                     item.description.GetOr(""), item.active.GetOr(true), DisplayOrder(item.displayOrder).value)
  }

  /**
   * The `defaults` of a product upsert under the given category: a missing
   * price is 0, `active` defaults to True, `popular` to False, a missing or
   * zero display order is 0.
   */
  function ProductRow(item: ProductItem, category: string): (p: Catalog.Product)
    requires ProductAccepted(item)
    ensures p.sourceId == SourceText(item.id.value) && p.category == category
    ensures item.priceCents.None? ==> p.priceCents == 0
    ensures item.priceCents.Some? ==> p.priceCents == item.priceCents.value
    ensures item.active.None? ==> p.active
    ensures item.popular.None? ==> !p.popular
    ensures item.displayOrder.None? || item.displayOrder == Some(0) ==> p.displayOrder == 0
    ensures p.nameEn == item.nameEn.GetOr("") && p.nameKh == item.nameKh.GetOr("")
    ensures p.descriptionEn == item.descriptionEn.GetOr("") && p.descriptionKh == item.descriptionKh.GetOr("")
    ensures p.imageUrl == item.imageUrl.GetOr("")
    ensures item.active.Some? ==> p.active == item.active.value
    ensures item.popular.Some? ==> p.popular == item.popular.value
    ensures item.displayOrder.Some? && item.displayOrder.value >= 0 ==> p.displayOrder == item.displayOrder.value
  {
    Catalog.Product(SourceText(item.id.value), item.nameEn.GetOr(""), item.nameKh.GetOr(""),
                    item.descriptionEn.GetOr(""), item.descriptionKh.GetOr(""), item.priceCents.GetOr(0),
                    item.imageUrl.GetOr(""), category, item.active.GetOr(true), item.popular.GetOr(false),
                    DisplayOrder(item.displayOrder).value)
  }

  // ---------------------------------------------------------------- the category map's keys

  /**
   * How `category_map` is keyed and read. `AsWritten` is the command:
   * `category_map[obj.source_id]` files a category under the id of the
   * object `update_or_create` returns, which for a row just created still
   * holds the feed's own value (a JSON number stays a number) and for a row
   * read back and updated holds the stored text; `category_map.get(...)`
   * then looks up the product's raw `category_id`. `ByText` is the evident
   * intent: both sides use the stored text `str(id)`.
   */
  datatype Keying = AsWritten | ByText

  /** The key a category is filed under in `category_map`. */
  function MapKey(keying: Keying, id: FeedId, wasCreated: bool): (k: FeedId)
    ensures SourceText(k) == SourceText(id)
    ensures keying == AsWritten && wasCreated ==> k == id
    ensures keying == AsWritten && !wasCreated ==> k == IdString(SourceText(id))
    ensures keying == ByText ==> k == IdString(SourceText(id))
  {
    if keying == AsWritten && wasCreated then id else IdString(SourceText(id))
  }

  /** The key a product's `category_id` is looked up by. */
  function LookupKey(keying: Keying, id: FeedId): (k: FeedId)
    ensures SourceText(k) == SourceText(id)
    ensures keying == AsWritten ==> k == id
    ensures keying == ByText ==> k == IdString(SourceText(id))
  {
    if keying == AsWritten then id else IdString(SourceText(id))
  }

  /** The texts the map's keys are stored as. */
  function TextKeys(m: map<FeedId, string>): set<string> {
    set k | k in m :: SourceText(k)
  }

  /** Every entry leads from a key to the category stored under that key's text. */
  predicate MapSound(m: map<FeedId, string>) {
    forall k :: k in m ==> m[k] == SourceText(k)
  }

  /** Every key is a text. */
  predicate TextKeyed(m: map<FeedId, string>) {
    forall k :: k in m ==> k.IdString?
  }

  lemma TextKeysUpdate(m: map<FeedId, string>, k: FeedId, v: string)
    ensures TextKeys(m[k := v]) == TextKeys(m) + {SourceText(k)}
  {
    assert k in m[k := v];
    forall x | x in TextKeys(m) ensures x in TextKeys(m[k := v]) {
      var k' :| k' in m && x == SourceText(k');
      assert k' in m[k := v];
    }
  }

  // ---------------------------------------------------------------- categories

  /** The state of `_import_categories` between items; `categoryMap` maps a key to the category's `source_id`. */
  datatype CategoryPass = CategoryPass(
    categories: map<string, Catalog.Category>,
    categoryMap: map<FeedId, string>,
    created: nat,
    updated: nat,
    raised: bool)

  /** One accepted item: the row is created or updated and filed in the map. */
  function CategoryStep(keying: Keying, p: CategoryPass, item: CategoryItem): CategoryPass
    requires CategoryAccepted(item)
  {
    var row := CategoryRow(item);
    var sid := row.sourceId;
    var wasCreated := sid !in p.categories;
    CategoryPass(p.categories[sid := row], p.categoryMap[MapKey(keying, item.id.value, wasCreated) := sid],
                 p.created + (if wasCreated then 1 else 0), p.updated + (if wasCreated then 0 else 1), false)
  }

  /** The category loop: a refused item ends it with the exception, the earlier rows kept. */
  function CategoryLoop(keying: Keying, p: CategoryPass, items: seq<CategoryItem>): (r: CategoryPass)
    requires !p.raised
    decreases |items|
  {
    if |items| == 0 then p
    else if !CategoryAccepted(items[0]) then p.(raised := true)
    else CategoryLoop(keying, CategoryStep(keying, p, items[0]), items[1..])
  }

  function FeedCategoryIds(items: seq<CategoryItem>): set<string> {
    set i | 0 <= i < |items| && items[i].id.Some? :: SourceText(items[i].id.value)
  }

  lemma FeedIdsCons(items: seq<CategoryItem>)
    requires |items| > 0 && items[0].id.Some?
    ensures FeedCategoryIds(items) == {SourceText(items[0].id.value)} + FeedCategoryIds(items[1..])
  {
    var rest := items[1..];
    forall x | x in FeedCategoryIds(items) ensures x in {SourceText(items[0].id.value)} + FeedCategoryIds(rest) {
      var i :| 0 <= i < |items| && items[i].id.Some? && x == SourceText(items[i].id.value);
      if i > 0 { assert items[i] == rest[i - 1]; }
    }
    forall x | x in FeedCategoryIds(rest) ensures x in FeedCategoryIds(items) {
      var i :| 0 <= i < |rest| && rest[i].id.Some? && x == SourceText(rest[i].id.value);
      assert rest[i] == items[i + 1];
    }
  }

  /** A category pass raises exactly when some feed item is refused, under either keying. */
  lemma {:induction false} CategoryLoopRaises(keying: Keying, p: CategoryPass, items: seq<CategoryItem>)
    requires !p.raised
    ensures CategoryLoop(keying, p, items).raised <==> exists i :: 0 <= i < |items| && !CategoryAccepted(items[i])
    decreases |items|
  {
    if |items| > 0 && CategoryAccepted(items[0]) {
      CategoryLoopRaises(keying, CategoryStep(keying, p, items[0]), items[1..]);
      if exists i :: 0 <= i < |items| && !CategoryAccepted(items[i]) {
        var i :| 0 <= i < |items| && !CategoryAccepted(items[i]);
        assert !CategoryAccepted(items[1..][i - 1]);
      }
      if exists i :: 0 <= i < |items[1..]| && !CategoryAccepted(items[1..][i]) {
        var i :| 0 <= i < |items[1..]| && !CategoryAccepted(items[1..][i]);
        assert !CategoryAccepted(items[i + 1]);
      }
    } else if |items| > 0 {
      assert !CategoryAccepted(items[0]);
    }
  }

  /**
   * A category pass that gets through counts one creation or update per
   * feed item and ends with every feed id in the table.
   */
  lemma {:induction false} CategoryLoopCounts(keying: Keying, p: CategoryPass, items: seq<CategoryItem>)
    requires !p.raised
    ensures var r := CategoryLoop(keying, p, items);
      !r.raised ==>
        && r.created + r.updated == p.created + p.updated + |items|
        && r.categories.Keys == p.categories.Keys + FeedCategoryIds(items)
    decreases |items|
  {
    if |items| > 0 && CategoryAccepted(items[0]) {
      CategoryLoopCounts(keying, CategoryStep(keying, p, items[0]), items[1..]);
      FeedIdsCons(items);
    } else if |items| == 0 {
      assert FeedCategoryIds(items) == {};
    }
  }

  /**
   * Under either keying, the map's keys, read as text, gain exactly the
   * feed's category ids: a key may be a number or a text, but every feed
   * category is filed and nothing else is.
   */
  lemma {:induction false} CategoryLoopFilesFeedIds(keying: Keying, p: CategoryPass, items: seq<CategoryItem>)
    requires !p.raised
    ensures var r := CategoryLoop(keying, p, items);
      !r.raised ==> TextKeys(r.categoryMap) == TextKeys(p.categoryMap) + FeedCategoryIds(items)
    decreases |items|
  {
    if |items| > 0 && CategoryAccepted(items[0]) {
      var sid := CategoryRow(items[0]).sourceId;
      TextKeysUpdate(p.categoryMap, MapKey(keying, items[0].id.value, sid !in p.categories), sid);
      CategoryLoopFilesFeedIds(keying, CategoryStep(keying, p, items[0]), items[1..]);
      FeedIdsCons(items);
    } else if |items| == 0 {
      assert FeedCategoryIds(items) == {};
    }
  }

  /** The table grows by exactly the number of categories counted as created. */
  lemma {:induction false} CategoryLoopCreatesNewRows(keying: Keying, p: CategoryPass, items: seq<CategoryItem>)
    requires !p.raised
    ensures var r := CategoryLoop(keying, p, items);
      r.created >= p.created && |r.categories| == |p.categories| + (r.created - p.created)
    decreases |items|
  {
    if |items| > 0 && CategoryAccepted(items[0]) {
      CategoryLoopCreatesNewRows(keying, CategoryStep(keying, p, items[0]), items[1..]);
    }
  }

  /** Rows whose id is not in the feed are left as they were. */
  lemma {:induction false} CategoryLoopKeepsOtherRows(keying: Keying, p: CategoryPass, items: seq<CategoryItem>, sid: string)
    requires !p.raised && sid !in FeedCategoryIds(items)
    ensures var r := CategoryLoop(keying, p, items);
      && (sid in r.categories <==> sid in p.categories)
      && (sid in p.categories ==> r.categories[sid] == p.categories[sid])
    decreases |items|
  {
    if |items| > 0 && CategoryAccepted(items[0]) {
      FeedIdsCons(items);
      CategoryLoopKeepsOtherRows(keying, CategoryStep(keying, p, items[0]), items[1..], sid);
    }
  }

  /** Map entries whose key does not read as a feed id are left as they were. */
  lemma {:induction false} CategoryLoopKeepsOtherKeys(keying: Keying, p: CategoryPass, items: seq<CategoryItem>, key: FeedId)
    requires !p.raised && SourceText(key) !in FeedCategoryIds(items)
    ensures var r := CategoryLoop(keying, p, items);
      && (key in r.categoryMap <==> key in p.categoryMap)
      && (key in p.categoryMap ==> r.categoryMap[key] == p.categoryMap[key])
    decreases |items|
  {
    if |items| > 0 && CategoryAccepted(items[0]) {
      FeedIdsCons(items);
      CategoryLoopKeepsOtherKeys(keying, CategoryStep(keying, p, items[0]), items[1..], key);
    }
  }

  /** Under either keying, every map entry leads to the category stored under its key's text. */
  lemma {:induction false} CategoryMapSound(keying: Keying, p: CategoryPass, items: seq<CategoryItem>)
    requires !p.raised && MapSound(p.categoryMap)
    ensures MapSound(CategoryLoop(keying, p, items).categoryMap)
    decreases |items|
  {
    if |items| > 0 && CategoryAccepted(items[0]) {
      var next := CategoryStep(keying, p, items[0]);
      assert MapSound(next.categoryMap);
      CategoryMapSound(keying, next, items[1..]);
    }
  }

  /** Keyed by text, the map's keys stay texts. */
  lemma {:induction false} CategoryMapTextKeyed(p: CategoryPass, items: seq<CategoryItem>)
    requires !p.raised && TextKeyed(p.categoryMap)
    ensures TextKeyed(CategoryLoop(ByText, p, items).categoryMap)
    decreases |items|
  {
    if |items| > 0 && CategoryAccepted(items[0]) {
      var next := CategoryStep(ByText, p, items[0]);
      assert TextKeyed(next.categoryMap);
      CategoryMapTextKeyed(next, items[1..]);
    }
  }

  /** The two keyings write the same rows, counts and exception; only the map differs. */
  lemma {:induction false} KeyingOnlyChangesMap(p1: CategoryPass, p2: CategoryPass, items: seq<CategoryItem>)
    requires !p1.raised && p1.(categoryMap := map[]) == p2.(categoryMap := map[])
    ensures CategoryLoop(AsWritten, p1, items).(categoryMap := map[]) == CategoryLoop(ByText, p2, items).(categoryMap := map[])
    decreases |items|
  {
    if |items| > 0 && CategoryAccepted(items[0]) {
      KeyingOnlyChangesMap(CategoryStep(AsWritten, p1, items[0]), CategoryStep(ByText, p2, items[0]), items[1..]);
    }
  }

  /** With text ids in the feed, the command as written keys the map by text. */
  lemma {:induction false} TextIdsKeyAlike(p: CategoryPass, items: seq<CategoryItem>)
    requires !p.raised
    requires forall i :: 0 <= i < |items| && items[i].id.Some? ==> items[i].id.value.IdString?
    ensures CategoryLoop(AsWritten, p, items) == CategoryLoop(ByText, p, items)
    decreases |items|
  {
    if |items| > 0 && CategoryAccepted(items[0]) {
      assert CategoryStep(AsWritten, p, items[0]) == CategoryStep(ByText, p, items[0]);
      assert forall i :: 0 <= i < |items[1..]| && items[1..][i].id.Some? ==> items[1..][i].id.value.IdString? by {
        forall i | 0 <= i < |items[1..]| ensures items[1..][i] == items[i + 1] { }
      }
      TextIdsKeyAlike(CategoryStep(ByText, p, items[0]), items[1..]);
    }
  }

  /**
   * As written, a category that is already stored is filed under its text:
   * when every feed category is already in the table, the map the pass
   * builds has only text keys.
   */
  lemma {:induction false} StoredCategoriesKeyedByTextAsWritten(p: CategoryPass, items: seq<CategoryItem>)
    requires !p.raised && TextKeyed(p.categoryMap)
    requires FeedCategoryIds(items) <= p.categories.Keys
    ensures TextKeyed(CategoryLoop(AsWritten, p, items).categoryMap)
    decreases |items|
  {
    if |items| > 0 && CategoryAccepted(items[0]) {
      FeedIdsCons(items);
      var next := CategoryStep(AsWritten, p, items[0]);
      assert TextKeyed(next.categoryMap);
      StoredCategoriesKeyedByTextAsWritten(next, items[1..]);
    }
  }

  // ---------------------------------------------------------------- products

  datatype ProductPass = ProductPass(products: map<string, Catalog.Product>, created: nat, updated: nat, raised: bool)

  /** `category_map.get(item.get("category_id"))`. */
  function CategoryOf(keying: Keying, categoryMap: map<FeedId, string>, item: ProductItem): (c: Option<string>)
    ensures c.Some? <==> item.categoryId.Some? && LookupKey(keying, item.categoryId.value) in categoryMap
    ensures c.Some? && MapSound(categoryMap) ==> c.value == SourceText(item.categoryId.value)
  {
    if item.categoryId.Some? && LookupKey(keying, item.categoryId.value) in categoryMap
    then Some(categoryMap[LookupKey(keying, item.categoryId.value)]) else None
  }

  /** Keyed by text, a product's category resolves exactly when its id's text is a key. */
  lemma ByTextResolvesStoredText(categoryMap: map<FeedId, string>, item: ProductItem)
    requires TextKeyed(categoryMap)
    ensures CategoryOf(ByText, categoryMap, item).Some? <==>
      item.categoryId.Some? && SourceText(item.categoryId.value) in TextKeys(categoryMap)
  {
    if item.categoryId.Some? && SourceText(item.categoryId.value) in TextKeys(categoryMap) {
      var k :| k in categoryMap && SourceText(k) == SourceText(item.categoryId.value);
      assert k == IdString(SourceText(item.categoryId.value));
    }
  }

  /** One resolved, accepted item: the row is created or updated. */
  function ProductStep(p: ProductPass, item: ProductItem, category: string): ProductPass
    requires ProductAccepted(item)
  {
    var row := ProductRow(item, category);
    var sid := row.sourceId;
    var wasCreated := sid !in p.products;
    ProductPass(p.products[sid := row], p.created + (if wasCreated then 1 else 0),
                p.updated + (if wasCreated then 0 else 1), false)
  }

  /** The product loop: an item whose category is not in the map is skipped and counted nowhere. */
  function ProductLoop(keying: Keying, p: ProductPass, items: seq<ProductItem>, categoryMap: map<FeedId, string>)
    : (r: ProductPass)
    requires !p.raised
    decreases |items|
  {
    if |items| == 0 then p
    else
      var category := CategoryOf(keying, categoryMap, items[0]);
      if category.None? then ProductLoop(keying, p, items[1..], categoryMap)
      else if !ProductAccepted(items[0]) then p.(raised := true)
      else ProductLoop(keying, ProductStep(p, items[0], category.value), items[1..], categoryMap)
  }

  /** The number of feed products whose category resolves. */
  function Resolved(keying: Keying, items: seq<ProductItem>, categoryMap: map<FeedId, string>): (n: nat)
    ensures n <= |items|
  {
    if |items| == 0 then 0
    else (if CategoryOf(keying, categoryMap, items[0]).Some? then 1 else 0) + Resolved(keying, items[1..], categoryMap)
  }

  /** The ids of the feed products that are imported. */
  function ImportedProductIds(keying: Keying, items: seq<ProductItem>, categoryMap: map<FeedId, string>): set<string> {
    set i | 0 <= i < |items| && items[i].id.Some? && CategoryOf(keying, categoryMap, items[i]).Some? :: SourceText(items[i].id.value)
  }

  lemma ImportedIdsCons(keying: Keying, items: seq<ProductItem>, categoryMap: map<FeedId, string>)
    requires |items| > 0
    ensures ImportedProductIds(keying, items, categoryMap) ==
      (if items[0].id.Some? && CategoryOf(keying, categoryMap, items[0]).Some? then {SourceText(items[0].id.value)} else {})
      + ImportedProductIds(keying, items[1..], categoryMap)
  {
    var rest := items[1..];
    forall x | x in ImportedProductIds(keying, items, categoryMap)
      ensures x in (if items[0].id.Some? && CategoryOf(keying, categoryMap, items[0]).Some? then {SourceText(items[0].id.value)} else {})
                   + ImportedProductIds(keying, rest, categoryMap)
    {
      var i :| 0 <= i < |items| && items[i].id.Some? && CategoryOf(keying, categoryMap, items[i]).Some? && x == SourceText(items[i].id.value);
      if i > 0 { assert items[i] == rest[i - 1]; }
    }
    forall x | x in ImportedProductIds(keying, rest, categoryMap) ensures x in ImportedProductIds(keying, items, categoryMap) {
      var i :| 0 <= i < |rest| && rest[i].id.Some? && CategoryOf(keying, categoryMap, rest[i]).Some? && x == SourceText(rest[i].id.value);
      assert rest[i] == items[i + 1];
    }
  }

  predicate BadProductAt(keying: Keying, items: seq<ProductItem>, categoryMap: map<FeedId, string>, i: int)
    requires 0 <= i < |items|
  {
    CategoryOf(keying, categoryMap, items[i]).Some? && !ProductAccepted(items[i])
  }

  lemma BadProductCons(keying: Keying, items: seq<ProductItem>, categoryMap: map<FeedId, string>)
    requires |items| > 0 && !BadProductAt(keying, items, categoryMap, 0)
    ensures (exists i :: 0 <= i < |items| && BadProductAt(keying, items, categoryMap, i))
        <==> (exists i :: 0 <= i < |items[1..]| && BadProductAt(keying, items[1..], categoryMap, i))
  {
    var rest := items[1..];
    if exists i :: 0 <= i < |items| && BadProductAt(keying, items, categoryMap, i) {
      var i :| 0 <= i < |items| && BadProductAt(keying, items, categoryMap, i);
      assert i > 0 && BadProductAt(keying, rest, categoryMap, i - 1);
    }
    if exists i :: 0 <= i < |rest| && BadProductAt(keying, rest, categoryMap, i) {
      var i :| 0 <= i < |rest| && BadProductAt(keying, rest, categoryMap, i);
      assert BadProductAt(keying, items, categoryMap, i + 1);
    }
  }

  /** A product pass raises exactly when some product whose category resolves is refused. */
  lemma {:induction false} ProductLoopRaises(keying: Keying, p: ProductPass, items: seq<ProductItem>, categoryMap: map<FeedId, string>)
    requires !p.raised
    ensures ProductLoop(keying, p, items, categoryMap).raised <==>
      exists i :: 0 <= i < |items| && BadProductAt(keying, items, categoryMap, i)
    decreases |items|
  {
    if |items| > 0 {
      var category := CategoryOf(keying, categoryMap, items[0]);
      if category.None? {
        ProductLoopRaises(keying, p, items[1..], categoryMap);
        BadProductCons(keying, items, categoryMap);
      } else if ProductAccepted(items[0]) {
        ProductLoopRaises(keying, ProductStep(p, items[0], category.value), items[1..], categoryMap);
        BadProductCons(keying, items, categoryMap);
      } else {
        assert BadProductAt(keying, items, categoryMap, 0);
      }
    }
  }

  /**
   * A product pass that gets through counts one creation or update per
   * product whose category resolves and none for the skipped ones.
   */
  lemma {:induction false} ProductLoopCounts(keying: Keying, p: ProductPass, items: seq<ProductItem>, categoryMap: map<FeedId, string>)
    requires !p.raised
    ensures var r := ProductLoop(keying, p, items, categoryMap);
      !r.raised ==> r.created + r.updated == p.created + p.updated + Resolved(keying, items, categoryMap)
    decreases |items|
  {
    if |items| > 0 {
      var category := CategoryOf(keying, categoryMap, items[0]);
      if category.None? {
        ProductLoopCounts(keying, p, items[1..], categoryMap);
      } else if ProductAccepted(items[0]) {
        ProductLoopCounts(keying, ProductStep(p, items[0], category.value), items[1..], categoryMap);
      }
    }
  }

  /** A product pass that gets through ends with a row for exactly the earlier ids and the imported ones. */
  lemma {:induction false} ProductLoopImportsIds(keying: Keying, p: ProductPass, items: seq<ProductItem>, categoryMap: map<FeedId, string>)
    requires !p.raised
    ensures var r := ProductLoop(keying, p, items, categoryMap);
      !r.raised ==> r.products.Keys == p.products.Keys + ImportedProductIds(keying, items, categoryMap)
    decreases |items|
  {
    if |items| > 0 {
      var category := CategoryOf(keying, categoryMap, items[0]);
      ImportedIdsCons(keying, items, categoryMap);
      if category.None? {
        ProductLoopImportsIds(keying, p, items[1..], categoryMap);
      } else if ProductAccepted(items[0]) {
        ProductLoopImportsIds(keying, ProductStep(p, items[0], category.value), items[1..], categoryMap);
      }
    } else {
      assert ImportedProductIds(keying, items, categoryMap) == {};
    }
  }

  /** The product table grows by exactly the number of products counted as created. */
  lemma {:induction false} ProductLoopCreatesNewRows(keying: Keying, p: ProductPass, items: seq<ProductItem>, categoryMap: map<FeedId, string>)
    requires !p.raised
    ensures var r := ProductLoop(keying, p, items, categoryMap);
      r.created >= p.created && |r.products| == |p.products| + (r.created - p.created)
    decreases |items|
  {
    if |items| > 0 {
      var category := CategoryOf(keying, categoryMap, items[0]);
      if category.None? {
        ProductLoopCreatesNewRows(keying, p, items[1..], categoryMap);
      } else if ProductAccepted(items[0]) {
        ProductLoopCreatesNewRows(keying, ProductStep(p, items[0], category.value), items[1..], categoryMap);
      }
    }
  }

  /** Product rows whose id is not imported from this feed are left as they were. */
  lemma {:induction false} ProductLoopKeepsOthers(keying: Keying, p: ProductPass, items: seq<ProductItem>,
                                                  categoryMap: map<FeedId, string>, sid: string)
    requires !p.raised && sid !in ImportedProductIds(keying, items, categoryMap)
    ensures var r := ProductLoop(keying, p, items, categoryMap);
      && (sid in r.products <==> sid in p.products)
      && (sid in p.products ==> r.products[sid] == p.products[sid])
    decreases |items|
  {
    if |items| > 0 {
      var category := CategoryOf(keying, categoryMap, items[0]);
      ImportedIdsCons(keying, items, categoryMap);
      if category.None? {
        ProductLoopKeepsOthers(keying, p, items[1..], categoryMap, sid);
      } else if ProductAccepted(items[0]) {
        ProductLoopKeepsOthers(keying, ProductStep(p, items[0], category.value), items[1..], categoryMap, sid);
      }
    }
  }

  /** With text category ids on the products, both keyings look up the same key. */
  lemma {:induction false} TextIdsLookUpAlike(p: ProductPass, items: seq<ProductItem>, categoryMap: map<FeedId, string>)
    requires !p.raised
    requires forall i :: 0 <= i < |items| && items[i].categoryId.Some? ==> items[i].categoryId.value.IdString?
    ensures ProductLoop(AsWritten, p, items, categoryMap) == ProductLoop(ByText, p, items, categoryMap)
    decreases |items|
  {
    if |items| > 0 {
      assert CategoryOf(AsWritten, categoryMap, items[0]) == CategoryOf(ByText, categoryMap, items[0]);
      assert forall i :: 0 <= i < |items[1..]| && items[1..][i].categoryId.Some? ==> items[1..][i].categoryId.value.IdString? by {
        forall i | 0 <= i < |items[1..]| ensures items[1..][i] == items[i + 1] { }
      }
      var category := CategoryOf(ByText, categoryMap, items[0]);
      if category.None? {
        TextIdsLookUpAlike(p, items[1..], categoryMap);
      } else if ProductAccepted(items[0]) {
        TextIdsLookUpAlike(ProductStep(p, items[0], category.value), items[1..], categoryMap);
      }
    }
  }

  // ---------------------------------------------------------------- the finding

  /** The pass a run starts from: the stored categories and an empty map. */
  function FirstCategoryPass(categories: map<string, Catalog.Category>): CategoryPass {
    CategoryPass(categories, map[], 0, 0, false)
  }

  /** One category and one product under it, both with the numeric feed id 1. */
  function NumericFeedCategories(): seq<CategoryItem> {
    [CategoryItem(Some(IdNumber(1)), Some("Drinks"), None, None, None, None)]
  }

  function NumericFeedProducts(): seq<ProductItem> {
    [ProductItem(Some(IdNumber(1)), Some(IdNumber(1)), Some("Tea"), None, None, None, Some(150), None, None, None, None)]
  }

  /**
   * As written, importing that feed into empty tables creates the product,
   * but importing the same feed a second time skips it: its category was
   * updated, so the map holds the text "1" while the product asks for the
   * number 1.
   */
  lemma ReimportSkipsProductsAsWritten()
    ensures var cats := NumericFeedCategories();
      var prods := NumericFeedProducts();
      var c1 := CategoryLoop(AsWritten, FirstCategoryPass(map[]), cats);
      !c1.raised &&
      var p1 := ProductLoop(AsWritten, ProductPass(map[], 0, 0, false), prods, c1.categoryMap);
      var c2 := CategoryLoop(AsWritten, FirstCategoryPass(c1.categories), cats);
      !c2.raised &&
      var p2 := ProductLoop(AsWritten, ProductPass(p1.products, 0, 0, false), prods, c2.categoryMap);
      && p1.created == 1 && !p1.raised
      && c2.updated == 1
      && p2.created == 0 && p2.updated == 0 && !p2.raised
  {
    var one := SourceText(IdNumber(1));
    assert one == "1";
    var cats := NumericFeedCategories();
    var c1 := CategoryLoop(AsWritten, FirstCategoryPass(map[]), cats);
    assert c1.categoryMap == map[IdNumber(1) := one];
    var c2 := CategoryLoop(AsWritten, FirstCategoryPass(c1.categories), cats);
    assert c2.categoryMap == map[IdString(one) := one];
    assert IdNumber(1) !in c2.categoryMap;
  }

  /**
   * As written, re-importing a feed whose categories are all stored already
   * skips every product whose `category_id` is a JSON number.
   */
  lemma ReimportSkipsNumericCategoryIdsAsWritten(categories: map<string, Catalog.Category>, cats: seq<CategoryItem>,
                                                 prods: seq<ProductItem>)
    requires FeedCategoryIds(cats) <= categories.Keys
    ensures var c := CategoryLoop(AsWritten, FirstCategoryPass(categories), cats);
      forall i :: 0 <= i < |prods| && prods[i].categoryId.Some? && prods[i].categoryId.value.IdNumber? ==>
        CategoryOf(AsWritten, c.categoryMap, prods[i]).None?
  {
    StoredCategoriesKeyedByTextAsWritten(FirstCategoryPass(categories), cats);
  }

  /** With the text keying, the second import of the same feed updates the product. */
  lemma ReimportUpdatesProducts()
    ensures var cats := NumericFeedCategories();
      var prods := NumericFeedProducts();
      var c1 := CategoryLoop(ByText, FirstCategoryPass(map[]), cats);
      !c1.raised &&
      var p1 := ProductLoop(ByText, ProductPass(map[], 0, 0, false), prods, c1.categoryMap);
      var c2 := CategoryLoop(ByText, FirstCategoryPass(c1.categories), cats);
      !c2.raised &&
      var p2 := ProductLoop(ByText, ProductPass(p1.products, 0, 0, false), prods, c2.categoryMap);
      && p1.created == 1 && !p1.raised
      && p2.created == 0 && p2.updated == 1 && !p2.raised
  {
    var one := SourceText(IdNumber(1));
    assert one == "1";
  }

  /** Two sound, text-keyed maps with the same key texts are the same map. */
  lemma SoundTextMapsEqual(m1: map<FeedId, string>, m2: map<FeedId, string>)
    requires MapSound(m1) && MapSound(m2) && TextKeyed(m1) && TextKeyed(m2) && TextKeys(m1) == TextKeys(m2)
    ensures m1 == m2
  {
    forall k | k in m1 ensures k in m2 {
      assert SourceText(k) in TextKeys(m2);
      var k' :| k' in m2 && SourceText(k') == SourceText(k);
    }
    forall k | k in m2 ensures k in m1 {
      assert SourceText(k) in TextKeys(m1);
      var k' :| k' in m1 && SourceText(k') == SourceText(k);
    }
  }

  /**
   * With the text keying, the map a run builds does not depend on what the
   * tables held before: every import of the same feed builds the same map,
   * whose keys read as exactly the feed's category ids, and so raises,
   * resolves and imports the same products, with the same total of
   * creations and updates.
   */
  lemma ReimportResolvesSameProducts(t1: map<string, Catalog.Category>, t2: map<string, Catalog.Category>,
                                     cats: seq<CategoryItem>, prods: seq<ProductItem>,
                                     u1: map<string, Catalog.Product>, u2: map<string, Catalog.Product>)
    ensures var c1 := CategoryLoop(ByText, FirstCategoryPass(t1), cats);
      var c2 := CategoryLoop(ByText, FirstCategoryPass(t2), cats);
      && c1.raised == c2.raised
      && (!c1.raised ==>
            && c1.categoryMap == c2.categoryMap
            && TextKeys(c1.categoryMap) == FeedCategoryIds(cats)
            && var p1 := ProductLoop(ByText, ProductPass(u1, 0, 0, false), prods, c1.categoryMap);
               var p2 := ProductLoop(ByText, ProductPass(u2, 0, 0, false), prods, c2.categoryMap);
               && p1.raised == p2.raised
               && (!p1.raised ==> p1.created + p1.updated == p2.created + p2.updated))
  {
    var c1 := CategoryLoop(ByText, FirstCategoryPass(t1), cats);
    var c2 := CategoryLoop(ByText, FirstCategoryPass(t2), cats);
    CategoryLoopRaises(ByText, FirstCategoryPass(t1), cats);
    CategoryLoopRaises(ByText, FirstCategoryPass(t2), cats);
    if !c1.raised {
      assert TextKeys(map[]) == {};
      CategoryLoopFilesFeedIds(ByText, FirstCategoryPass(t1), cats);
      CategoryLoopFilesFeedIds(ByText, FirstCategoryPass(t2), cats);
      CategoryMapSound(ByText, FirstCategoryPass(t1), cats);
      CategoryMapSound(ByText, FirstCategoryPass(t2), cats);
      CategoryMapTextKeyed(FirstCategoryPass(t1), cats);
      CategoryMapTextKeyed(FirstCategoryPass(t2), cats);
      SoundTextMapsEqual(c1.categoryMap, c2.categoryMap);
      var m := c1.categoryMap;
      ProductLoopCounts(ByText, ProductPass(u1, 0, 0, false), prods, m);
      ProductLoopCounts(ByText, ProductPass(u2, 0, 0, false), prods, m);
      ProductLoopRaises(ByText, ProductPass(u1, 0, 0, false), prods, m);
      ProductLoopRaises(ByText, ProductPass(u2, 0, 0, false), prods, m);
    }
  }

  /**
   * The command as written imports no product the text keying would not:
   * run on the same tables and feed, both keyings write the same categories
   * with the same counts, and a product whose category the command resolves
   * resolves to the same category under the text keying.
   */
  lemma AsWrittenResolvesWithinByText(categories: map<string, Catalog.Category>, cats: seq<CategoryItem>, item: ProductItem)
    ensures var cw := CategoryLoop(AsWritten, FirstCategoryPass(categories), cats);
      var ct := CategoryLoop(ByText, FirstCategoryPass(categories), cats);
      && cw.(categoryMap := map[]) == ct.(categoryMap := map[])
      && (!cw.raised && CategoryOf(AsWritten, cw.categoryMap, item).Some? ==>
            CategoryOf(ByText, ct.categoryMap, item) == CategoryOf(AsWritten, cw.categoryMap, item))
  {
    var p := FirstCategoryPass(categories);
    var cw := CategoryLoop(AsWritten, p, cats);
    var ct := CategoryLoop(ByText, p, cats);
    KeyingOnlyChangesMap(p, p, cats);
    if !cw.raised && CategoryOf(AsWritten, cw.categoryMap, item).Some? {
      assert TextKeys(map[]) == {};
      CategoryLoopFilesFeedIds(AsWritten, p, cats);
      CategoryLoopFilesFeedIds(ByText, p, cats);
      CategoryMapSound(AsWritten, p, cats);
      CategoryMapSound(ByText, p, cats);
      CategoryMapTextKeyed(p, cats);
      assert SourceText(item.categoryId.value) in TextKeys(cw.categoryMap);
      ByTextResolvesStoredText(ct.categoryMap, item);
    }
  }

  // ---------------------------------------------------------------- the command

  /** Both keys the command requires are present in a JSON object. */
  predicate ShapeAccepted(payload: Payload) {
    payload.Object? && payload.categories.Some? && payload.products.Some?
  }

  /**
   * How the command ends: the shape error, an exception in the category
   * pass, an exception in the product pass (after the category counts were
   * reported), or all four counts reported.
   */
  datatype ImportOutcome =
    | UnexpectedShape
    | CategoriesFailed
    | ProductsFailed(categoriesCreated: nat, categoriesUpdated: nat)
    | Imported(categoriesCreated: nat, categoriesUpdated: nat, productsCreated: nat, productsUpdated: nat)

  /** The `Category` and `Product` tables, keyed by `source_id`; the methods run the command as written. */
  class CatalogTables {
    var categories: map<string, Catalog.Category>
    var products: map<string, Catalog.Product>

    constructor(categories: map<string, Catalog.Category>, products: map<string, Catalog.Product>)
      ensures this.categories == categories && this.products == products
    {
      this.categories := categories;
      this.products := products;
    }

    /**
     * `_import_categories`: one upsert per item, filing each category in the
     * map under the id of the object the upsert returns.
     */
    method ImportCategories(items: seq<CategoryItem>)
      returns (categoryMap: map<FeedId, string>, created: nat, updated: nat, raised: bool)
      modifies this
      ensures var r := CategoryLoop(AsWritten, FirstCategoryPass(old(categories)), items);
        categories == r.categories && categoryMap == r.categoryMap
        && created == r.created && updated == r.updated && raised == r.raised
      ensures products == old(products)
    {
      ghost var goal := CategoryLoop(AsWritten, FirstCategoryPass(categories), items);
      categoryMap, created, updated, raised := map[], 0, 0, false;
      var i := 0;
      while i < |items|
        invariant 0 <= i <= |items|
        invariant CategoryLoop(AsWritten, CategoryPass(categories, categoryMap, created, updated, false), items[i..]) == goal
        invariant products == old(products)
      {
        var item := items[i];
        assert items[i..][1..] == items[i + 1..];
        if !CategoryAccepted(item) {
          raised := true;
          return;
        }
        var row := CategoryRow(item);
        var sid := row.sourceId;
        var wasCreated := sid !in categories;
        if wasCreated {
          created := created + 1;
        } else {
          updated := updated + 1;
        }
        categories := categories[sid := row];
        var key := if wasCreated then item.id.value else IdString(sid);
        categoryMap := categoryMap[key := sid];
        i := i + 1;
      }
    }

    /** `_import_products`: one upsert per item whose raw `category_id` is in the map, skipping the rest. */
    method ImportProducts(items: seq<ProductItem>, categoryMap: map<FeedId, string>)
      returns (created: nat, updated: nat, raised: bool)
      modifies this
      ensures var r := ProductLoop(AsWritten, ProductPass(old(products), 0, 0, false), items, categoryMap);
        products == r.products && created == r.created && updated == r.updated && raised == r.raised
      ensures categories == old(categories)
    {
      ghost var goal := ProductLoop(AsWritten, ProductPass(products, 0, 0, false), items, categoryMap);
      created, updated, raised := 0, 0, false;
      var i := 0;
      while i < |items|
        invariant 0 <= i <= |items|
        invariant ProductLoop(AsWritten, ProductPass(products, created, updated, false), items[i..], categoryMap) == goal
        invariant categories == old(categories)
      {
        var item := items[i];
        assert items[i..][1..] == items[i + 1..];
        if item.categoryId.Some? && item.categoryId.value in categoryMap {
          if !ProductAccepted(item) {
            raised := true;
            return;
          }
          var row := ProductRow(item, categoryMap[item.categoryId.value]);
          var sid := row.sourceId;
          if sid in products {
            updated := updated + 1;
          } else {
            created := created + 1;
          }
          products := products[sid := row];
        }
        i := i + 1;
      }
    }

    /**
     * `handle` from the decoded payload on: a payload of the wrong shape is
     * refused before any write; otherwise the categories are imported, then
     * the products under the map the category pass built.
     */
    method Handle(payload: Payload) returns (outcome: ImportOutcome)
      modifies this
      ensures !ShapeAccepted(payload) ==> outcome == UnexpectedShape && categories == old(categories) && products == old(products)
      ensures ShapeAccepted(payload) ==>
        var c := CategoryLoop(AsWritten, FirstCategoryPass(old(categories)), payload.categories.value);
        && categories == c.categories
        && (c.raised ==> outcome == CategoriesFailed && products == old(products))
        && (!c.raised ==>
              var p := ProductLoop(AsWritten, ProductPass(old(products), 0, 0, false), payload.products.value, c.categoryMap);
              && products == p.products
              && outcome == (if p.raised then ProductsFailed(c.created, c.updated)
                             else Imported(c.created, c.updated, p.created, p.updated)))
    {
      if !ShapeAccepted(payload) {
        return UnexpectedShape;
      }
      var categoryMap, catCreated, catUpdated, catRaised := ImportCategories(payload.categories.value);
      if catRaised {
        return CategoriesFailed;
      }
      var prodCreated, prodUpdated, prodRaised := ImportProducts(payload.products.value, categoryMap);
      if prodRaised {
        return ProductsFailed(catCreated, catUpdated);
      }
      outcome := Imported(catCreated, catUpdated, prodCreated, prodUpdated);
    }
  }

  /**
   * A category pass that gets through counts one creation or update per
   * feed category and leaves a row for each of them, under either keying.
   */
  lemma CategoriesCoverFeed(keying: Keying, categories: map<string, Catalog.Category>, cats: seq<CategoryItem>)
    ensures var c := CategoryLoop(keying, FirstCategoryPass(categories), cats);
      !c.raised ==>
        && c.created + c.updated == |cats|
        && forall i :: 0 <= i < |cats| ==> cats[i].id.Some? && SourceText(cats[i].id.value) in c.categories
  {
    var c := CategoryLoop(keying, FirstCategoryPass(categories), cats);
    CategoryLoopRaises(keying, FirstCategoryPass(categories), cats);
    CategoryLoopCounts(keying, FirstCategoryPass(categories), cats);
    if !c.raised {
      forall i | 0 <= i < |cats| ensures cats[i].id.Some? && SourceText(cats[i].id.value) in c.categories {
        assert CategoryAccepted(cats[i]);
        assert SourceText(cats[i].id.value) in FeedCategoryIds(cats);
      }
    }
  }

  /**
   * A product pass that gets through counts the resolved products and
   * leaves a row for every one of them, under either keying.
   */
  lemma ProductsCoverFeed(keying: Keying, products: map<string, Catalog.Product>, prods: seq<ProductItem>,
                          categoryMap: map<FeedId, string>)
    ensures var p := ProductLoop(keying, ProductPass(products, 0, 0, false), prods, categoryMap);
      !p.raised ==>
        && p.created + p.updated == Resolved(keying, prods, categoryMap)
        && forall i :: 0 <= i < |prods| && CategoryOf(keying, categoryMap, prods[i]).Some?
             ==> prods[i].id.Some? && SourceText(prods[i].id.value) in p.products
  {
    var p := ProductLoop(keying, ProductPass(products, 0, 0, false), prods, categoryMap);
    ProductLoopRaises(keying, ProductPass(products, 0, 0, false), prods, categoryMap);
    ProductLoopCounts(keying, ProductPass(products, 0, 0, false), prods, categoryMap);
    ProductLoopImportsIds(keying, ProductPass(products, 0, 0, false), prods, categoryMap);
    if !p.raised {
      forall i | 0 <= i < |prods| && CategoryOf(keying, categoryMap, prods[i]).Some?
        ensures prods[i].id.Some? && SourceText(prods[i].id.value) in p.products
      {
        assert !BadProductAt(keying, prods, categoryMap, i);
        assert SourceText(prods[i].id.value) in ImportedProductIds(keying, prods, categoryMap);
      }
    }
  }
}
