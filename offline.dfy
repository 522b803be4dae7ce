/** offline.service.ts: the connectivity query and the persisted outbox of
    deferred writes under the `offline:outbox` key. */
module Offline {
  import opened Js
  import opened Records
  import opened Storage

  /** The global `navigator`, when the runtime has one. */
  datatype Navigator = NoNavigator | Navigator(onLine: bool)

  /** `isOnline()`: the browser's flag, or true where there is no navigator. */
  function IsOnline(nav: Navigator): (online: bool)
    ensures nav.NoNavigator? ==> online
    ensures nav.Navigator? ==> online == nav.onLine
  {
    match nav
    case NoNavigator => true
    case Navigator(onLine) => onLine
  }

  /** `getOutbox()`: the stored list; absent, empty or unparseable storage reads as []. */
  function OutboxOf(entries: Entries): (items: seq<OutboxItem>)
    ensures !Parse(Get(entries, OfflineOutbox)).Parsed? ==> items == []
    ensures OfflineOutbox in entries && entries[OfflineOutbox].OutboxJson? ==> items == entries[OfflineOutbox].items
  {
    match Parse(Get(entries, OfflineOutbox))
    case Parsed(OutboxJson(items)) => items
    case _ => []
  }

  /** `{ ...item, id }`: the item with its id replaced. */
  function Stamped(item: OutboxItem, id: string): (r: OutboxItem)
    ensures r.id == Some(id)
    ensures r.url == item.url && r.verb == item.verb && r.body == item.body && r.createdAt == item.createdAt
  {
    item.(id := Some(id))
  }

  /** `list.filter((i) => i.id !== id)`. */
  function WithoutId(items: seq<OutboxItem>, id: Option<string>): (r: seq<OutboxItem>)
    ensures forall x :: x in r <==> x in items && x.id != id
    ensures (forall i :: 0 <= i < |items| ==> items[i].id != id) ==> r == items
    ensures IsSubsequence(r, items)
  {
    var keep := (i: OutboxItem) => i.id != id;
    FilterMembers(items, keep);
    FilterIsSubsequence(items, keep);
    if forall i :: 0 <= i < |items| ==> items[i].id != id then
      FilterKeepsAll(items, keep);
      Filter(items, keep)
    else
      Filter(items, keep)
  }

  /** The store after a successful `push(item)` with the fresh id. */
  function Pushed(entries: Entries, item: OutboxItem, id: string): (r: Entries)
    ensures OutboxOf(r) == OutboxOf(entries) + [Stamped(item, id)]
    ensures forall k :: k != OfflineOutbox ==> Get(r, k) == Get(entries, k)
  {
    entries[OfflineOutbox := OutboxJson(OutboxOf(entries) + [Stamped(item, id)])]
  }

  /** The store after a successful `removeItem(id)`. */
  function Removed(entries: Entries, id: Option<string>): (r: Entries)
    ensures OutboxOf(r) == WithoutId(OutboxOf(entries), id)
    ensures forall k :: k != OfflineOutbox ==> Get(r, k) == Get(entries, k)
  {
    entries[OfflineOutbox := OutboxJson(WithoutId(OutboxOf(entries), id))]
  }

  /** Successive successful pushes, each with its own fresh id. */
  function PushAll(entries: Entries, items: seq<OutboxItem>, ids: seq<string>): Entries
    requires |ids| == |items|
    decreases |items|
  {
    if items == [] then entries
    else PushAll(Pushed(entries, items[0], ids[0]), items[1..], ids[1..])
  }

  /** The items as `push` stores them, each stamped with its id, in order. */
  function StampedAll(items: seq<OutboxItem>, ids: seq<string>): (r: seq<OutboxItem>)
    requires |ids| == |items|
    ensures |r| == |items|
    decreases |items|
  {
    if items == [] then [] else [Stamped(items[0], ids[0])] + StampedAll(items[1..], ids[1..])
  }

  /** Item i of the pushed run is item i stamped with id i. */
  lemma {:induction false} StampedAllAt(items: seq<OutboxItem>, ids: seq<string>, i: nat)
    requires |ids| == |items| && i < |items|
    ensures StampedAll(items, ids)[i] == Stamped(items[i], ids[i])
    decreases |items|
  {
    if i > 0 {
      StampedAllAt(items[1..], ids[1..], i - 1);
    }
  }

  /** FIFO durability: after any run of pushes the outbox reads back as the old
      contents followed by the pushed items, in push order, each with its id. */
  lemma {:induction false} PushAllKeepsOrder(entries: Entries, items: seq<OutboxItem>, ids: seq<string>)
    requires |ids| == |items|
    ensures OutboxOf(PushAll(entries, items, ids)) == OutboxOf(entries) + StampedAll(items, ids)
    decreases |items|
  {
    if items == [] {
      assert OutboxOf(entries) + [] == OutboxOf(entries);
    } else {
      var next := Pushed(entries, items[0], ids[0]);
      PushAllKeepsOrder(next, items[1..], ids[1..]);
      var head := [Stamped(items[0], ids[0])];
      assert OutboxOf(next) == OutboxOf(entries) + head;
      assert (OutboxOf(entries) + head) + StampedAll(items[1..], ids[1..])
          == OutboxOf(entries) + (head + StampedAll(items[1..], ids[1..]));
    }
  }

  class OfflineService {
    const store: LocalStorage

    constructor (store: LocalStorage)
      ensures this.store == store
    {
      this.store := store;
    }

    method GetOutbox() returns (items: seq<OutboxItem>)
      ensures items == OutboxOf(store.entries)
    {
      var raw := store.GetItem(OfflineOutbox);
      match Parse(raw)
      case Parsed(OutboxJson(list)) => items := list;
      case _ => items := [];
    }

    /** `push(item)`: append the item, stamped with the fresh id, and write the list
        back. The write is not guarded: `ok` is false when setItem threw. */
    method Push(item: OutboxItem, freshId: string) returns (ok: bool)
      modifies store`entries
      ensures ok == store.writable
      ensures store.entries == if ok then Pushed(old(store.entries), item, freshId) else old(store.entries)
    {
      var list := GetOutbox();
      list := list + [Stamped(item, freshId)];
      ok := store.SetItem(OfflineOutbox, OutboxJson(list));
    }

    /** `clearOutbox()`: remove the key; the outbox then reads as empty. */
    method ClearOutbox()
      modifies store`entries
      ensures store.entries == old(store.entries) - {OfflineOutbox}
      ensures OutboxOf(store.entries) == []
    {
      store.RemoveItem(OfflineOutbox);
    }

    /** `removeItem(id)`: keep the items whose id differs; `ok` is false when setItem threw. */
    method RemoveItem(id: Option<string>) returns (ok: bool)
      modifies store`entries
      ensures ok == store.writable
      ensures store.entries == if ok then Removed(old(store.entries), id) else old(store.entries)
    {
      var list := GetOutbox();
      var kept := WithoutId(list, id);
      ok := store.SetItem(OfflineOutbox, OutboxJson(kept));
    }
  }
}
