/** The browser's localStorage as the services use it: one entry per key, each
    holding JSON text. An entry is modelled by what JSON.parse makes of it. */
module Storage {
  import opened Js
  import opened Records

  /** The keys the application writes. */
  datatype StorageKey = OfflineOutbox | CacheExpenses | CacheCategories | CacheRates | UserProfileKey | DashboardFilter

  /** The key string under which each entry lives. */
  function KeyName(k: StorageKey): string
  {
    match k
    case OfflineOutbox => "offline:outbox"
    case CacheExpenses => "cache:expenses"
    case CacheCategories => "cache:categories"
    case CacheRates => "cache:rates"
    case UserProfileKey => "user:profile"
    case DashboardFilter => "dashboard:filter"
  }

  /** Distinct keys name distinct entries, so a map over StorageKey is a faithful
      picture of the string-keyed store. */
  lemma KeyNamesDistinct(a: StorageKey, b: StorageKey)
    ensures KeyName(a) == KeyName(b) <==> a == b
  {
  }

  /** The text stored under a key, as JSON.parse sees it. `Garbled` is text JSON.parse
      rejects; `Text` is a plain string stored without JSON encoding. */
  datatype Doc =
    | Garbled
    | Text(raw: string)
    | OutboxJson(items: seq<OutboxItem>)
    | ExpensesJson(expenses: seq<Expense>)
    | CategoriesJson(categories: seq<Category>)
    | RatesJson(rates: Rates)
    | ProfileJson(profile: UserProfile)

  type Entries = map<StorageKey, Doc>

  /** `localStorage.getItem(key)`: the stored text, or null. */
  function Get(entries: Entries, k: StorageKey): Option<Doc>
  {
    if k in entries then Some(entries[k]) else None
  }

  /** What a reader gets from `raw = getItem(k); if (!raw) …; JSON.parse(raw)`. */
  datatype Slot = Empty | Corrupt | Parsed(doc: Doc)

  /** Null or the empty string is falsy (Empty); text JSON.parse rejects throws (Corrupt). */
  function Parse(raw: Option<Doc>): (s: Slot)
    ensures raw.None? ==> s.Empty?
    ensures s.Parsed? ==> raw == Some(s.doc) && !s.doc.Garbled? && !s.doc.Text?
    ensures raw == Some(Text("")) ==> s.Empty?
    ensures raw == Some(Garbled) || (raw.Some? && raw.value.Text? && raw.value.raw != "") ==> s.Corrupt?
    ensures raw.Some? && !raw.value.Garbled? && !raw.value.Text? ==> s == Parsed(raw.value)
  {
    match raw
    case None => Empty
    case Some(Text(t)) => if t == "" then Empty else Corrupt
    case Some(Garbled) => Corrupt
    case Some(d) => Parsed(d)
  }

  /** The key-value store. `writable` is false while setItem throws
      (quota exceeded, storage disabled). */
  class LocalStorage {
    var entries: Entries
    var writable: bool

    constructor (entries: Entries, writable: bool)
      ensures this.entries == entries && this.writable == writable
    {
      this.entries := entries;
      this.writable := writable;
    }

    method GetItem(k: StorageKey) returns (raw: Option<Doc>)
      ensures raw == Get(entries, k)
    {
      raw := if k in entries then Some(entries[k]) else None;
    }

    /** `localStorage.setItem(k, d)`; `ok` is false when it threw, and then nothing changed. */
    method SetItem(k: StorageKey, d: Doc) returns (ok: bool)
      modifies this`entries
      ensures ok == writable
      ensures entries == if ok then old(entries)[k := d] else old(entries)
    {
      ok := writable;
      if ok {
        entries := entries[k := d];
      }
    }

    /** `localStorage.removeItem(k)`. */
    method RemoveItem(k: StorageKey)
      modifies this`entries
      ensures entries == old(entries) - {k}
    {
      entries := entries - {k};
    }
  }
}
