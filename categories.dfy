/** categories.service.ts: the category list, read through the `cache:categories`
    key with a built-in seed as the last resort. */
module Categories {
  import opened Js
  import opened Records
  import opened Storage
  import opened Offline

  const Base := "http://localhost:3001/categories"

  /** `dummyCategories`. */
  function SeedCategories(): (seed: seq<Category>)
    ensures |seed| == 8
    ensures forall i :: 0 <= i < |seed| ==> seed[i].icon.Some?
    ensures forall i, j :: 0 <= i < j < |seed| ==> seed[i].id != seed[j].id
  {
    [ Category("groceries", "Groceries", Some("fas fa-shopping-cart")),
      Category("entertainment", "Entertainment", Some("fas fa-film")),
      Category("gas", "Gas", Some("fas fa-gas-pump")),
      Category("shopping", "Shopping", Some("fas fa-shopping-bag")),
      Category("transport", "Transport", Some("fas fa-car")),
      Category("rent", "Rent", Some("fas fa-home")),
      Category("food", "Food", Some("fas fa-utensils")),
      Category("healthcare", "Healthcare", Some("fas fa-heart")) ]
  }

  /** `getCached()`: the stored list; absent, empty or unparseable storage reads as []. */
  function CachedCategoriesOf(entries: Entries): (list: seq<Category>)
    ensures !Parse(Get(entries, CacheCategories)).Parsed? ==> list == []
    ensures CacheCategories in entries && entries[CacheCategories].CategoriesJson? ==> list == entries[CacheCategories].categories
  {
    match Parse(Get(entries, CacheCategories))
    case Parsed(CategoriesJson(list)) => list
    case _ => []
  }

  /** `cached.length > 0 ? cached : dummyCategories`: never empty. */
  function Fallback(cached: seq<Category>): (r: seq<Category>)
    ensures |r| > 0
    ensures |cached| > 0 ==> r == cached
    ensures |cached| == 0 ==> r == SeedCategories()
  {
    if |cached| > 0 then cached else SeedCategories()
  }

  /** Whatever storage holds, the offline answer is a non-empty list. */
  lemma OfflineListNeverEmpty(entries: Entries)
    ensures |Fallback(CachedCategoriesOf(entries))| > 0
  {
  }

  /** A stored list reads back unchanged, whatever was there before. */
  lemma CacheRoundTrip(entries: Entries, list: seq<Category>)
    ensures CachedCategoriesOf(entries[CacheCategories := CategoriesJson(list)]) == list
  {
  }

  class CategoriesService {
    const store: LocalStorage

    constructor (store: LocalStorage)
      ensures this.store == store
    {
      this.store := store;
    }

    method GetCached() returns (list: seq<Category>)
      ensures list == CachedCategoriesOf(store.entries)
    {
      var raw := store.GetItem(CacheCategories);
      match Parse(raw)
      case Parsed(CategoriesJson(l)) => list := l;
      case _ => list := [];
    }

    /** `cache(list)`: a write whose failure is swallowed. */
    method Cache(list: seq<Category>)
      modifies store`entries
      ensures store.entries == if store.writable then old(store.entries)[CacheCategories := CategoriesJson(list)] else old(store.entries)
      ensures store.writable ==> CachedCategoriesOf(store.entries) == list
    {
      var _ := store.SetItem(CacheCategories, CategoriesJson(list));
    }

    /** `list()`; `get` is the outcome of the GET when one is made. An online success
        is returned and cached as it is, even when empty. */
    method List(nav: Navigator, get: Fetch<seq<Category>>) returns (r: seq<Category>)
      modifies store`entries
      ensures !IsOnline(nav) || get.Failed? ==>
                r == Fallback(CachedCategoriesOf(old(store.entries))) && store.entries == old(store.entries)
      ensures IsOnline(nav) && get.Fetched? ==> r == get.value
      ensures IsOnline(nav) && get.Fetched? ==>
                store.entries == if store.writable then old(store.entries)[CacheCategories := CategoriesJson(get.value)] else old(store.entries)
    {
      if IsOnline(nav) && get.Fetched? {
        Cache(get.value);
        return get.value;
      }
      var cached := GetCached();
      r := if |cached| > 0 then cached else SeedCategories();
    }
  }
}
