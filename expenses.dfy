/** expenses.service.ts: the read-through expense cache (`cache:expenses`), the
    write path that defers to the outbox, the outbox replay with reconciliation
    of local placeholders, and the exchange-rate cache (`cache:rates`). */
module Expenses {
  import opened Js
  import opened Records
  import opened Storage
  import opened Offline

  const Base := "http://localhost:3001/expenses"

  function SeedExpense(id: int, category: string, amount: real, day: int): Expense
  {
    Expense(Some(Num(id)), category, Some(amount), Some("USD"), Some(amount), OnDay(day), None)
  }

  /** The fallback expenses, dated 1, 2, 5, 7, 10, 12 and 15 days before `today`
      (the day the service is created). */
  function SeedExpenses(today: int): (seed: seq<Expense>)
    ensures |seed| == 7
    ensures forall i :: 0 <= i < 7 ==> seed[i].id == Some(Num(i + 1)) && seed[i].currency == Some("USD")
    ensures forall i :: 0 <= i < 7 ==> seed[i].amountUsd == seed[i].amount && seed[i].date.OnDay? && seed[i].date.day < today
  {
    [ SeedExpense(1, "groceries", 120.0, today - 1),
      SeedExpense(2, "gas", 50.0, today - 2),
      SeedExpense(3, "entertainment", 45.0, today - 5),
      SeedExpense(4, "shopping", 200.0, today - 7),
      SeedExpense(5, "transport", 35.0, today - 10),
      SeedExpense(6, "food", 85.0, today - 12),
      SeedExpense(7, "rent", 1200.0, today - 15) ]
  }

  // ---------------------------------------------------------------------------
  // Reads

  /** `getCachedList()`: the stored list; absent, empty or unparseable storage reads as []. */
  function CachedListOf(entries: Entries): (list: seq<Expense>)
    ensures !Parse(Get(entries, CacheExpenses)).Parsed? ==> list == []
    ensures CacheExpenses in entries && entries[CacheExpenses].ExpensesJson? ==> list == entries[CacheExpenses].expenses
  {
    match Parse(Get(entries, CacheExpenses))
    case Parsed(ExpensesJson(list)) => list
    case _ => []
  }

  /** The list offline reads are served from: the cache when non-empty, else the seed. */
  function DataSource(cached: seq<Expense>, seed: seq<Expense>): (source: seq<Expense>)
    ensures |cached| > 0 ==> source == cached
    ensures |cached| == 0 ==> source == seed
  {
    if |cached| > 0 then cached else seed
  }

  /** `source.slice((page - 1) * limit, page * limit)`. */
  function PageOf(source: seq<Expense>, page: int, limit: int): seq<Expense>
  {
    Slice(source, (page - 1) * limit, page * limit)
  }

  /** For page >= 1 and limit >= 0 a page is the window of `limit` records starting
      at (page - 1) * limit, cut short at the end of the list. */
  lemma PageWindow(source: seq<Expense>, page: int, limit: int)
    requires page >= 1 && limit >= 0
    ensures var start := (page - 1) * limit;
            PageOf(source, page, limit) == if |source| <= start then [] else source[start..Min(start + limit, |source|)]
  {
    var start := (page - 1) * limit;
    assert page * limit == start + limit;
    assert 0 <= start;
    SliceWindow(source, start, start + limit);
  }

  /** `getRates` reading the cache: the stored table, or null when absent or unparseable. */
  function CachedRatesOf(entries: Entries): (r: Option<Rates>)
    ensures !Parse(Get(entries, CacheRates)).Parsed? ==> r.None?
    ensures CacheRates in entries && entries[CacheRates].RatesJson? ==> r == Some(entries[CacheRates].rates)
  {
    match Parse(Get(entries, CacheRates))
    case Parsed(RatesJson(x)) => Some(x)
    case _ => None
  }

  /** What `getRates` leaves in storage and what it resolves with. */
  datatype RatesResult = RatesResult(entries: Entries, rates: Option<Rates>)

  /** `getRates()` as one step: an online success is cached (a failed write is
      swallowed) and returned; otherwise the cached table, or null, is returned. */
  function RatesSpec(entries: Entries, writable: bool, online: bool, get: Fetch<Rates>): (r: RatesResult)
    ensures !online || get.Failed? ==> r == RatesResult(entries, CachedRatesOf(entries))
    ensures online && get.Fetched? ==> r.rates == Some(get.value)
    ensures forall k :: k != CacheRates ==> Get(r.entries, k) == Get(entries, k)
  {
    if online && get.Fetched? then
      RatesResult(if writable then entries[CacheRates := RatesJson(get.value)] else entries, Some(get.value))
    else RatesResult(entries, CachedRatesOf(entries))
  }

  /** Read-through: once an online answer was stored, a later offline or failed
      request is answered with that same table. */
  lemma RatesReadThrough(entries: Entries, v: Rates, later: Fetch<Rates>)
    ensures var first := RatesSpec(entries, true, true, Fetched(v));
            RatesSpec(first.entries, true, false, later).rates == Some(v)
            && RatesSpec(first.entries, true, true, Failed).rates == Some(v)
  {
  }

  // ---------------------------------------------------------------------------
  // Writes

  /** The two time- and random-based strings one `add` draws: the suffix of the local
      id and the id `push` stamps on the outbox item. */
  datatype Tickets = Tickets(localSuffix: string, outboxId: string)

  /** `local-${Date.now()}-${random}`: the placeholder id of an expense made offline. */
  function LocalId(t: Tickets): (id: string)
    ensures StartsWith(id, "local-")
  {
    "local-" + t.localSuffix
  }

  /** The deferred POST of an expense, tagged with its local id. */
  function DeferredPost(exp: Expense, localId: string, now: int): OutboxItem
  {
    OutboxItem(None, Base, POST, Some(Body(exp, Some(localId))), now)
  }

  /** What `add` leaves in storage, and the record it resolves with (None: it rejected). */
  datatype AddResult = AddResult(entries: Entries, record: Option<Expense>)

  /** `enqueueAndReturnLocal(exp)`, with `current` the cached list read when `add` began.
      The push writes first; when that write throws, nothing is stored and add rejects. */
  function EnqueueLocal(entries: Entries, writable: bool, exp: Expense, current: seq<Expense>, t: Tickets, now: int): AddResult
  {
    if !writable then AddResult(entries, None)
    else
      var saved := exp.(id := Some(Str(LocalId(t))));
      var queued := Pushed(entries, DeferredPost(exp, LocalId(t), now), t.outboxId);
      AddResult(queued[CacheExpenses := ExpensesJson([saved] + current)], Some(saved))
  }

  /** `add(expense)` as one atomic step; `post` is the outcome of the POST, when one is made. */
  function AddSpec(entries: Entries, writable: bool, exp: Expense, online: bool, post: Fetch<Expense>, t: Tickets, now: int): AddResult
  {
    var current := CachedListOf(entries);
    if !online then EnqueueLocal(entries, writable, exp, current, t, now)
    else match post
      case Fetched(res) =>
        AddResult(if writable then entries[CacheExpenses := ExpensesJson([res] + current)] else entries, Some(res))
      case Failed => EnqueueLocal(entries, writable, exp, current, t, now)
  }

  /** Offline, add returns the expense under a `local-` id, puts it in front of the
      cached list, and appends one POST to the expenses endpoint, tagged with that id. */
  lemma OfflineAddDefers(entries: Entries, exp: Expense, post: Fetch<Expense>, t: Tickets, now: int)
    ensures var a := AddSpec(entries, true, exp, false, post, t, now);
            && a.record == Some(exp.(id := Some(Str(LocalId(t)))))
            && StartsWith(LocalId(t), "local-")
            && CachedListOf(a.entries) == [a.record.value] + CachedListOf(entries)
            && |OutboxOf(a.entries)| == |OutboxOf(entries)| + 1
            && OutboxOf(a.entries)[..|OutboxOf(entries)|] == OutboxOf(entries)
            && var q := OutboxOf(a.entries)[|OutboxOf(entries)|];
               q.verb == POST && q.url == Base && q.id == Some(t.outboxId) && q.createdAt == now
               && q.body == Some(Body(exp, Some(LocalId(t))))
  {
    var q := Stamped(DeferredPost(exp, LocalId(t), now), t.outboxId);
    var queued := Pushed(entries, DeferredPost(exp, LocalId(t), now), t.outboxId);
    var a := AddSpec(entries, true, exp, false, post, t, now);
    assert Get(a.entries, OfflineOutbox) == Get(queued, OfflineOutbox);
    assert OutboxOf(a.entries) == OutboxOf(entries) + [q];
  }

  /** Online with a successful POST, add returns the server's record, puts it in front
      of the cached list (when storage accepts the write) and leaves the outbox alone. */
  lemma OnlineAddCaches(entries: Entries, writable: bool, exp: Expense, res: Expense, t: Tickets, now: int)
    ensures var a := AddSpec(entries, writable, exp, true, Fetched(res), t, now);
            && a.record == Some(res)
            && OutboxOf(a.entries) == OutboxOf(entries)
            && CachedListOf(a.entries) == if writable then [res] + CachedListOf(entries) else CachedListOf(entries)
  {
  }

  /** A failed POST takes exactly the offline path. */
  lemma FailedPostIsOfflinePath(entries: Entries, writable: bool, exp: Expense, post: Fetch<Expense>, t: Tickets, now: int)
    ensures AddSpec(entries, writable, exp, true, Failed, t, now) == AddSpec(entries, writable, exp, false, post, t, now)
  {
  }

  /** add rejects exactly when it has to enqueue and storage refuses the write. */
  lemma AddRejectsOnlyOnStorageFailure(entries: Entries, writable: bool, exp: Expense, online: bool, post: Fetch<Expense>, t: Tickets, now: int)
    ensures AddSpec(entries, writable, exp, online, post, t, now).record.None? <==> !writable && (!online || post.Failed?)
  {
  }

  // ---------------------------------------------------------------------------
  // Outbox replay

  /** `cached.map((c) => (c.id === localId ? res : c))`. */
  function Reconcile(cached: seq<Expense>, localId: string, res: Expense): (r: seq<Expense>)
    ensures |r| == |cached|
    ensures forall i :: 0 <= i < |cached| && cached[i].id != Some(Str(localId)) ==> r[i] == cached[i]
    ensures forall i :: 0 <= i < |cached| && cached[i].id == Some(Str(localId)) ==> r[i] == res
    ensures res.id != Some(Str(localId)) ==> forall i :: 0 <= i < |r| ==> r[i].id != Some(Str(localId))
  {
    Map(cached, (c: Expense) => if c.id == Some(Str(localId)) then res else c)
  }

  /** A single placeholder is replaced in place: same length, same position, nothing duplicated. */
  lemma ReconcileSinglePlaceholder(cached: seq<Expense>, localId: string, res: Expense, p: nat)
    requires p < |cached| && cached[p].id == Some(Str(localId))
    requires forall i :: 0 <= i < |cached| && i != p ==> cached[i].id != Some(Str(localId))
    ensures Reconcile(cached, localId, res) == cached[p := res]
  {
  }

  /** `it.body && it.body._localId`, kept only when truthy. */
  function LocalIdOf(item: OutboxItem): (id: Option<string>)
    ensures id.Some? ==> id.value != "" && item.body.Some? && item.body.value.localId == id
    ensures item.body.Some? && item.body.value.localId.Some? && item.body.value.localId.value != "" ==>
              id == item.body.value.localId
  {
    if item.body.Some? && item.body.value.localId.Some? && item.body.value.localId.value != ""
    then item.body.value.localId
    else None
  }

  /** `localId && res && res.id`: the response confirms a local placeholder. */
  predicate Confirms(item: OutboxItem, res: Expense)
  {
    LocalIdOf(item).Some? && res.id.Some? && TruthyIdent(res.id.value)
  }

  /** Storage after the reconciliation of a successful POST of `item` answered by `res`. */
  function AfterPost(entries: Entries, writable: bool, item: OutboxItem, res: Expense): (r: Entries)
    ensures forall k :: k != CacheExpenses ==> Get(r, k) == Get(entries, k)
    ensures writable && Confirms(item, res) ==> CachedListOf(r) == Reconcile(CachedListOf(entries), LocalIdOf(item).value, res)
    ensures !(writable && Confirms(item, res)) ==> r == entries
  {
    if writable && Confirms(item, res)
    then entries[CacheExpenses := ExpensesJson(Reconcile(CachedListOf(entries), LocalIdOf(item).value, res))]
    else entries
  }

  predicate IsPost(item: OutboxItem) { item.verb == POST }

  /** Storage once item `it`, answered by `answer`, has been sent and not failed:
      reconciled after a POST, untouched otherwise. The outbox itself is not touched. */
  function Settle(entries: Entries, writable: bool, it: OutboxItem, answer: Fetch<Expense>): (r: Entries)
    ensures OutboxOf(r) == OutboxOf(entries)
  {
    if IsPost(it) && answer.Fetched? then
      var r := AfterPost(entries, writable, it, answer.value);
      assert Get(r, OfflineOutbox) == Get(entries, OfflineOutbox);
      r
    else entries
  }

  /** The request sent for item `it`, if it sends one. */
  function Sent(it: OutboxItem): seq<OutboxItem>
  {
    if IsPost(it) then [it] else []
  }

  /** What one replay leaves: the storage, the index where it stopped (|items| when it
      went through), and the POST requests it sent, in order. */
  datatype SyncResult = SyncResult(entries: Entries, stop: nat, posted: seq<OutboxItem>)

  function After(sent: seq<OutboxItem>, rest: SyncResult): SyncResult
  {
    SyncResult(rest.entries, rest.stop, sent + rest.posted)
  }

  lemma AfterAfter(a: seq<OutboxItem>, b: seq<OutboxItem>, r: SyncResult)
    ensures After(a, After(b, r)) == After(a + b, r)
  {
    assert a + (b + r.posted) == (a + b) + r.posted;
  }

  /** Nothing sent before, or nothing sent after: the other part alone. */
  lemma AfterEmpty(a: seq<OutboxItem>, r: SyncResult)
    ensures After([], r) == r
    ensures After(a, SyncResult(r.entries, r.stop, [])) == SyncResult(r.entries, r.stop, a)
  {
    assert [] + r.posted == r.posted;
    assert a + [] == a;
  }

  /** The replay loop from item k of the snapshot `items`; `reply(k)` answers the POST
      of item k. It stops at a failed POST, and also when removeItem's write throws. */
  function SyncFrom(items: seq<OutboxItem>, k: nat, entries: Entries, writable: bool, reply: nat -> Fetch<Expense>): (r: SyncResult)
    requires k <= |items|
    ensures k <= r.stop <= |items|
    decreases |items| - k
  {
    if k == |items| then SyncResult(entries, k, [])
    else if IsPost(items[k]) && reply(k).Failed? then SyncResult(entries, k, [items[k]])
    else if !writable then SyncResult(Settle(entries, writable, items[k], reply(k)), k, Sent(items[k]))
    else After(Sent(items[k]), SyncFrom(items, k + 1, Removed(Settle(entries, writable, items[k], reply(k)), items[k].id), writable, reply))
  }

  /** `syncOutbox()` as one atomic step. */
  function Sync(entries: Entries, writable: bool, reply: nat -> Fetch<Expense>): SyncResult
  {
    SyncFrom(OutboxOf(entries), 0, entries, writable, reply)
  }

  /** Reference definition: the first index at or after k whose POST fails. */
  function FirstFailure(items: seq<OutboxItem>, k: nat, reply: nat -> Fetch<Expense>): (f: nat)
    requires k <= |items|
    ensures k <= f <= |items|
    decreases |items| - k
  {
    if k == |items| then k
    else if IsPost(items[k]) && reply(k).Failed? then k
    else FirstFailure(items, k + 1, reply)
  }

  /** FirstFailure is the first index from k on whose POST fails, or |items| when none does. */
  lemma {:induction false} FirstFailureIsFirst(items: seq<OutboxItem>, k: nat, reply: nat -> Fetch<Expense>)
    requires k <= |items|
    ensures var f := FirstFailure(items, k, reply);
            && (forall j :: k <= j < f ==> !(IsPost(items[j]) && reply(j).Failed?))
            && (f < |items| ==> IsPost(items[f]) && reply(f).Failed?)
    decreases |items| - k
  {
    if k < |items| && !(IsPost(items[k]) && reply(k).Failed?) {
      FirstFailureIsFirst(items, k + 1, reply);
    }
  }

  ghost predicate DistinctIds(items: seq<OutboxItem>)
  {
    forall i, j :: 0 <= i < j < |items| ==> items[i].id != items[j].id
  }

  /** With distinct ids, removing the head's id from a suffix leaves the rest of it. */
  lemma {:induction false} RemoveHead(items: seq<OutboxItem>, k: nat)
    requires k < |items| && DistinctIds(items)
    ensures WithoutId(items[k..], items[k].id) == items[k + 1..]
  {
    var s := items[k..];
    var keep := (i: OutboxItem) => i.id != items[k].id;
    forall x | x in s[1..] ensures keep(x) {
      var m :| 0 <= m < |s[1..]| && s[1..][m] == x;
      assert x == items[k + 1 + m];
    }
    FilterKeepsAll(s[1..], keep);
    assert s[1..] == items[k + 1..];
    assert Filter(s, keep) == Filter(s[1..], keep);
  }

  /** The POST requests among items[from..to], in order. */
  function Posts(items: seq<OutboxItem>, from: nat, to: nat): seq<OutboxItem>
    requires from <= to <= |items|
    decreases |items| - from
  {
    if from == to then [] else Sent(items[from]) + Posts(items, from + 1, to)
  }

  /** With storage writable, replay from item k stops at the first failed POST. */
  lemma {:induction false} SyncFromStop(items: seq<OutboxItem>, k: nat, entries: Entries, reply: nat -> Fetch<Expense>)
    requires k <= |items|
    ensures SyncFrom(items, k, entries, true, reply).stop == FirstFailure(items, k, reply)
    decreases |items| - k
  {
    if k < |items| && !(IsPost(items[k]) && reply(k).Failed?) {
      var next := Removed(Settle(entries, true, items[k], reply(k)), items[k].id);
      SyncFromStop(items, k + 1, next, reply);
    }
  }

  /** The POST requests of items k up to and including the first failed one. */
  function PostsThrough(items: seq<OutboxItem>, k: nat, reply: nat -> Fetch<Expense>): seq<OutboxItem>
    requires k <= |items|
    decreases |items| - k
  {
    if k == |items| then []
    else if IsPost(items[k]) && reply(k).Failed? then [items[k]]
    else Sent(items[k]) + PostsThrough(items, k + 1, reply)
  }

  /** The requests among items k up to m, m past k, start with item k's own. */
  lemma PostsStep(items: seq<OutboxItem>, k: nat, m: nat)
    requires k < m <= |items|
    ensures Posts(items, k, m) == Sent(items[k]) + Posts(items, k + 1, m)
  {
  }

  /** PostsThrough at a failing item k is Posts of k alone. */
  lemma PostsThroughAtFailure(items: seq<OutboxItem>, k: nat, reply: nat -> Fetch<Expense>)
    requires k < |items| && IsPost(items[k]) && reply(k).Failed?
    ensures PostsThrough(items, k, reply) == Posts(items, k, Min(FirstFailure(items, k, reply) + 1, |items|))
  {
    PostsStep(items, k, k + 1);
    assert [items[k]] + [] == [items[k]];
  }

  /** PostsThrough past an item that goes through, given the fact one item further on. */
  lemma PostsThroughPast(items: seq<OutboxItem>, k: nat, reply: nat -> Fetch<Expense>)
    requires k < |items| && !(IsPost(items[k]) && reply(k).Failed?)
    requires PostsThrough(items, k + 1, reply) == Posts(items, k + 1, Min(FirstFailure(items, k + 1, reply) + 1, |items|))
    ensures PostsThrough(items, k, reply) == Posts(items, k, Min(FirstFailure(items, k, reply) + 1, |items|))
  {
    var m := Min(FirstFailure(items, k + 1, reply) + 1, |items|);
    assert Min(FirstFailure(items, k, reply) + 1, |items|) == m;
    PostsStep(items, k, m);
    calc {
      PostsThrough(items, k, reply);
      Sent(items[k]) + PostsThrough(items, k + 1, reply);
      Sent(items[k]) + Posts(items, k + 1, m);
      Posts(items, k, m);
    }
  }

  /** PostsThrough is the run of Posts that ends just past the first failure. */
  lemma {:induction false} PostsThroughFirstFailure(items: seq<OutboxItem>, k: nat, reply: nat -> Fetch<Expense>)
    requires k <= |items|
    ensures PostsThrough(items, k, reply) == Posts(items, k, Min(FirstFailure(items, k, reply) + 1, |items|))
    decreases |items| - k
  {
    if k < |items| {
      if IsPost(items[k]) && reply(k).Failed? {
        PostsThroughAtFailure(items, k, reply);
      } else {
        PostsThroughFirstFailure(items, k + 1, reply);
        PostsThroughPast(items, k, reply);
      }
    }
  }

  /** With storage writable, the requests replay from item k sends are the POSTs of
      items k up to and including the first failed one. */
  lemma {:induction false} SyncFromPosted(items: seq<OutboxItem>, k: nat, entries: Entries, reply: nat -> Fetch<Expense>)
    requires k <= |items|
    ensures SyncFrom(items, k, entries, true, reply).posted == PostsThrough(items, k, reply)
    decreases |items| - k
  {
    if k < |items| && !(IsPost(items[k]) && reply(k).Failed?) {
      var next := Removed(Settle(entries, true, items[k], reply(k)), items[k].id);
      SyncFromPosted(items, k + 1, next, reply);
    }
  }

  /** With storage writable and distinct outbox ids, once replay from item k stops,
      the outbox is exactly the items from the stopping point on, in their order. */
  lemma {:induction false} SyncFromDrainsPrefix(items: seq<OutboxItem>, k: nat, entries: Entries, reply: nat -> Fetch<Expense>)
    requires k <= |items| && DistinctIds(items)
    requires OutboxOf(entries) == items[k..]
    ensures var r := SyncFrom(items, k, entries, true, reply);
            OutboxOf(r.entries) == items[r.stop..]
    decreases |items| - k
  {
    if k < |items| && !(IsPost(items[k]) && reply(k).Failed?) {
      RemoveHead(items, k);
      var next := Removed(Settle(entries, true, items[k], reply(k)), items[k].id);
      assert OutboxOf(next) == items[k + 1..];
      SyncFromDrainsPrefix(items, k + 1, next, reply);
    }
  }

  /** syncOutbox replays the outbox in stored order and stops at the first failure:
      when item f fails, items 0..f-1 are gone and items f.. remain, in order. */
  lemma SyncKeepsFailedSuffix(entries: Entries, reply: nat -> Fetch<Expense>)
    requires DistinctIds(OutboxOf(entries))
    ensures var items := OutboxOf(entries);
            var r := Sync(entries, true, reply);
            var f := FirstFailure(items, 0, reply);
            && r.stop == f
            && OutboxOf(r.entries) == items[f..]
            && r.posted == Posts(items, 0, Min(f + 1, |items|))
  {
    var items := OutboxOf(entries);
    assert items[0..] == items;
    SyncFromStop(items, 0, entries, reply);
    SyncFromPosted(items, 0, entries, reply);
    PostsThroughFirstFailure(items, 0, reply);
    SyncFromDrainsPrefix(items, 0, entries, reply);
  }

  /** Item j is a POST whose response confirms its local placeholder. */
  predicate Confirmed(items: seq<OutboxItem>, j: nat, reply: nat -> Fetch<Expense>)
    requires j < |items|
  {
    IsPost(items[j]) && reply(j).Fetched? && Confirms(items[j], reply(j).value)
  }

  /** The cache entry e carries none of the local ids confirmed by items from..to-1. */
  ghost predicate Unconfirmed(items: seq<OutboxItem>, from: nat, to: nat, reply: nat -> Fetch<Expense>, e: Expense)
    requires from <= to <= |items|
  {
    forall j :: from <= j < to && Confirmed(items, j, reply) ==> e.id != Some(Str(LocalIdOf(items[j]).value))
  }

  /** One replayed item keeps the cache's length, and every entry without that item's
      confirmed local id stays where it is. */
  lemma SettleKeepsCache(entries: Entries, items: seq<OutboxItem>, k: nat, reply: nat -> Fetch<Expense>)
    requires k < |items|
    ensures var next := Removed(Settle(entries, true, items[k], reply(k)), items[k].id);
            var before, after := CachedListOf(entries), CachedListOf(next);
            && |after| == |before|
            && forall i :: 0 <= i < |before| && !(Confirmed(items, k, reply) && before[i].id == Some(Str(LocalIdOf(items[k]).value)))
                 ==> after[i] == before[i]
  {
    var settled := Settle(entries, true, items[k], reply(k));
    var next := Removed(settled, items[k].id);
    assert Get(next, CacheExpenses) == Get(settled, CacheExpenses);
    assert CachedListOf(next) == CachedListOf(settled);
    if !Confirmed(items, k, reply) {
      assert settled == entries;
    }
  }

  /** With storage writable, replay from item k keeps the cache's length, and every
      cached entry whose id is not the local id of a POST confirmed before the stop
      keeps its position and value. */
  lemma {:induction false} SyncFromKeepsCache(items: seq<OutboxItem>, k: nat, entries: Entries, reply: nat -> Fetch<Expense>)
    requires k <= |items|
    ensures var r := SyncFrom(items, k, entries, true, reply);
            var before, after := CachedListOf(entries), CachedListOf(r.entries);
            && |after| == |before|
            && forall i :: 0 <= i < |before| && Unconfirmed(items, k, r.stop, reply, before[i]) ==> after[i] == before[i]
    decreases |items| - k
  {
    if k < |items| && !(IsPost(items[k]) && reply(k).Failed?) {
      var next := Removed(Settle(entries, true, items[k], reply(k)), items[k].id);
      SettleKeepsCache(entries, items, k, reply);
      SyncFromKeepsCache(items, k + 1, next, reply);
      var r := SyncFrom(items, k, entries, true, reply);
      var rest := SyncFrom(items, k + 1, next, true, reply);
      assert r.entries == rest.entries && r.stop == rest.stop;
      var before, mid := CachedListOf(entries), CachedListOf(next);
      forall i | 0 <= i < |before| && Unconfirmed(items, k, r.stop, reply, before[i])
        ensures CachedListOf(r.entries)[i] == before[i]
      {
        assert mid[i] == before[i];
        assert Unconfirmed(items, k + 1, rest.stop, reply, mid[i]);
      }
    }
  }

  /** What a whole `syncOutbox` run does to `cache:expenses`: the list keeps its length,
      and only entries carrying a local id that a POST before the stop confirmed change. */
  lemma SyncKeepsUnconfirmedCache(entries: Entries, reply: nat -> Fetch<Expense>)
    ensures var items := OutboxOf(entries);
            var r := Sync(entries, true, reply);
            var before, after := CachedListOf(entries), CachedListOf(r.entries);
            && |after| == |before|
            && forall i :: 0 <= i < |before| && Unconfirmed(items, 0, r.stop, reply, before[i]) ==> after[i] == before[i]
  {
    SyncFromKeepsCache(OutboxOf(entries), 0, entries, reply);
  }

  /** When storage refuses writes, replay changes nothing stored and sends at most one request. */
  lemma SyncWithoutStorageChangesNothing(entries: Entries, reply: nat -> Fetch<Expense>)
    ensures var r := Sync(entries, false, reply);
            r.entries == entries && r.stop == 0 && |r.posted| <= 1
  {
  }

  /** Three queued POSTs A, B, C where A and B go through and C fails: only C is left. */
  lemma SyncScenarioThirdFails(entries: Entries, a: OutboxItem, b: OutboxItem, c: OutboxItem, reply: nat -> Fetch<Expense>)
    requires OutboxOf(entries) == [a, b, c]
    requires a.verb == POST && b.verb == POST && c.verb == POST
    requires a.id != b.id && a.id != c.id && b.id != c.id
    requires reply(0).Fetched? && reply(1).Fetched? && reply(2).Failed?
    ensures OutboxOf(Sync(entries, true, reply).entries) == [c]
    ensures Sync(entries, true, reply).posted == [a, b, c]
  {
    var items := [a, b, c];
    assert DistinctIds(items);
    SyncKeepsFailedSuffix(entries, reply);
    assert FirstFailure(items, 2, reply) == 2;
    assert FirstFailure(items, 0, reply) == FirstFailure(items, 1, reply) == 2;
    assert Posts(items, 2, 3) == [c];
    assert Posts(items, 0, 3) == [a, b] + Posts(items, 2, 3);
  }

  /** An expense added offline, then confirmed by the first replayed POST: the server's
      record takes the placeholder's place at the head of the cache, the local id is
      gone, and the outbox is empty. */
  lemma AddThenSyncReconciles(entries: Entries, exp: Expense, post: Fetch<Expense>, t: Tickets, now: int,
                              res: Expense, reply: nat -> Fetch<Expense>)
    requires OutboxOf(entries) == []
    requires forall i :: 0 <= i < |CachedListOf(entries)| ==> CachedListOf(entries)[i].id != Some(Str(LocalId(t)))
    requires reply(0) == Fetched(res) && res.id.Some? && TruthyIdent(res.id.value) && res.id != Some(Str(LocalId(t)))
    ensures var added := AddSpec(entries, true, exp, false, post, t, now);
            var synced := Sync(added.entries, true, reply);
            && CachedListOf(synced.entries) == [res] + CachedListOf(entries)
            && OutboxOf(synced.entries) == []
            && synced.posted == OutboxOf(added.entries)
  {
    var added := AddSpec(entries, true, exp, false, post, t, now);
    OfflineAddDefers(entries, exp, post, t, now);
    var items := OutboxOf(added.entries);
    assert |items| == 1;
    var it := items[0];
    assert LocalIdOf(it) == Some(LocalId(t));
    var cached := CachedListOf(added.entries);
    var reconciled := Reconcile(cached, LocalId(t), res);
    assert reconciled == [res] + CachedListOf(entries) by {
      assert cached == [exp.(id := Some(Str(LocalId(t))))] + CachedListOf(entries);
    }
    var afterPost := Settle(added.entries, true, it, reply(0));
    assert afterPost == AfterPost(added.entries, true, it, res);
    var next := Removed(afterPost, it.id);
    assert CachedListOf(next) == reconciled by {
      assert Get(next, CacheExpenses) == Get(afterPost, CacheExpenses);
    }
    assert OutboxOf(next) == [] by {
      assert OutboxOf(afterPost) == items by {
        assert Get(afterPost, OfflineOutbox) == Get(added.entries, OfflineOutbox);
      }
      assert WithoutId(items, it.id) == [] by {
        assert items[1..] == [];
      }
    }
    assert SyncFrom(items, 1, next, true, reply) == SyncResult(next, 1, []);
  }

  // ---------------------------------------------------------------------------
  // The service

  class ExpensesService {
    const store: LocalStorage
    const offline: OfflineService
    /** `dummyExpenses`, dated from the day the service was created. */
    const seed: seq<Expense>

    predicate Valid() { offline.store == store }

    constructor (store: LocalStorage, offline: OfflineService, today: int)
      requires offline.store == store
      ensures Valid() && this.store == store && this.offline == offline
      ensures seed == SeedExpenses(today)
    {
      this.store := store;
      this.offline := offline;
      this.seed := SeedExpenses(today);
    }

    method GetCachedList() returns (list: seq<Expense>)
      ensures list == CachedListOf(store.entries)
    {
      var raw := store.GetItem(CacheExpenses);
      match Parse(raw)
      case Parsed(ExpensesJson(l)) => list := l;
      case _ => list := [];
    }

    /** `cacheList(list)`: a write whose failure is swallowed. */
    method CacheList(list: seq<Expense>)
      modifies store`entries
      ensures store.entries == if store.writable then old(store.entries)[CacheExpenses := ExpensesJson(list)] else old(store.entries)
      ensures store.writable ==> CachedListOf(store.entries) == list
    {
      var _ := store.SetItem(CacheExpenses, ExpensesJson(list));
    }

    /** `paginatedList(page, limit)`; `get` is the outcome of the GET when one is made. */
    method PaginatedList(page: int, limit: int, nav: Navigator, get: Fetch<seq<Expense>>) returns (r: seq<Expense>)
      modifies store`entries
      ensures !IsOnline(nav) || get.Failed? ==>
                r == PageOf(DataSource(CachedListOf(old(store.entries)), seed), page, limit)
                && store.entries == old(store.entries)
      ensures IsOnline(nav) && get.Fetched? ==> r == get.value
      ensures IsOnline(nav) && get.Fetched? ==>
                store.entries == if page == 1 && store.writable then old(store.entries)[CacheExpenses := ExpensesJson(get.value)] else old(store.entries)
    {
      var cached := GetCachedList();
      var dataSource := if |cached| > 0 then cached else seed;
      if !IsOnline(nav) {
        return Slice(dataSource, (page - 1) * limit, page * limit);
      }
      match get
      case Fetched(v) =>
        if page == 1 {
          CacheList(v);
        }
        r := v;
      case Failed =>
        r := Slice(dataSource, (page - 1) * limit, page * limit);
    }

    /** The deprecated `list()`: the first page of ten. */
    method List(nav: Navigator, get: Fetch<seq<Expense>>) returns (r: seq<Expense>)
      modifies store`entries
      ensures !IsOnline(nav) || get.Failed? ==>
                r == PageOf(DataSource(CachedListOf(old(store.entries)), seed), 1, 10)
                && store.entries == old(store.entries)
      ensures IsOnline(nav) && get.Fetched? ==> r == get.value
      ensures IsOnline(nav) && get.Fetched? ==>
                store.entries == if store.writable then old(store.entries)[CacheExpenses := ExpensesJson(get.value)] else old(store.entries)
    {
      r := PaginatedList(1, 10, nav, get);
    }

    /** The local fallback of `add`: enqueue a tagged POST, then cache the placeholder
        in front of `current`. */
    method EnqueueAndReturnLocal(exp: Expense, current: seq<Expense>, t: Tickets, now: int) returns (r: Option<Expense>)
      requires Valid()
      modifies store`entries
      ensures AddResult(store.entries, r) == EnqueueLocal(old(store.entries), store.writable, exp, current, t, now)
    {
      var localId := "local-" + t.localSuffix;
      var item := OutboxItem(None, Base, POST, Some(Body(exp, Some(localId))), now);
      var ok := offline.Push(item, t.outboxId);
      if !ok {
        return None;
      }
      var toSave := exp.(id := Some(Str(localId)));
      CacheList([toSave] + current);
      r := Some(toSave);
    }

    /** `add(expense)`; r is None when the returned promise rejects. */
    method Add(exp: Expense, nav: Navigator, post: Fetch<Expense>, t: Tickets, now: int) returns (r: Option<Expense>)
      requires Valid()
      modifies store`entries
      ensures AddResult(store.entries, r) == AddSpec(old(store.entries), store.writable, exp, IsOnline(nav), post, t, now)
    {
      var current := GetCachedList();
      if !IsOnline(nav) {
        r := EnqueueAndReturnLocal(exp, current, t, now);
        return;
      }
      match post
      case Fetched(res) =>
        var currentAfter := GetCachedList();
        CacheList([res] + currentAfter);
        r := Some(res);
      case Failed =>
        r := EnqueueAndReturnLocal(exp, current, t, now);
    }

    /** The reconciliation after item `it` was sent and answered by `answer`: replace
        the placeholder in the cached list when the response confirms it. */
    method SettleItem(it: OutboxItem, answer: Fetch<Expense>)
      modifies store`entries
      ensures store.entries == Settle(old(store.entries), store.writable, it, answer)
    {
      if IsPost(it) && answer.Fetched? {
        var localId := if it.body.Some? && it.body.value.localId.Some? then it.body.value.localId.value else "";
        var res := answer.value;
        if localId != "" && res.id.Some? && TruthyIdent(res.id.value) {
          var cached := GetCachedList();
          CacheList(Reconcile(cached, localId, res));
        }
      }
    }

    /** One pass of the replay loop over item k: send it when it is a POST, reconcile,
        and drop it from the outbox. `more` says whether the loop goes on. */
    method ReplayOne(items: seq<OutboxItem>, k: nat, reply: nat -> Fetch<Expense>) returns (batch: seq<OutboxItem>, more: bool)
      requires Valid() && k < |items|
      modifies store`entries
      ensures more ==> SyncFrom(items, k, old(store.entries), store.writable, reply)
                       == After(batch, SyncFrom(items, k + 1, store.entries, store.writable, reply))
      ensures !more ==> SyncFrom(items, k, old(store.entries), store.writable, reply) == SyncResult(store.entries, k, batch)
    {
      var it := items[k];
      var answer := if IsPost(it) then reply(k) else Failed;
      if IsPost(it) && answer.Failed? {
        return [it], false;
      }
      SettleItem(it, answer);
      batch := Sent(it);
      more := offline.RemoveItem(it.id);
    }

    /** `syncOutbox()`; `reply(k)` answers the POST of the k-th queued item, and `sent`
        lists the POST requests made, in order. */
    method SyncOutbox(reply: nat -> Fetch<Expense>) returns (sent: seq<OutboxItem>)
      requires Valid()
      modifies store`entries
      ensures var s := Sync(old(store.entries), store.writable, reply);
              store.entries == s.entries && sent == s.posted
    {
      var items := offline.GetOutbox();
      ghost var whole := SyncFrom(items, 0, store.entries, store.writable, reply);
      AfterEmpty([], whole);
      sent := [];
      var k := 0;
      var more := true;
      while k < |items| && more
        invariant 0 <= k <= |items|
        invariant more ==> whole == After(sent, SyncFrom(items, k, store.entries, store.writable, reply))
        invariant !more ==> whole == SyncResult(store.entries, whole.stop, sent)
      {
        var batch;
        batch, more := ReplayOne(items, k, reply);
        if more {
          AfterAfter(sent, batch, SyncFrom(items, k + 1, store.entries, store.writable, reply));
        }
        sent := sent + batch;
        k := k + 1;
      }
      if more {
        AfterEmpty(sent, SyncFrom(items, k, store.entries, store.writable, reply));
      }
    }

    /** `getRates()`; `get` is the outcome of the rates request when one is made. */
    method GetRates(nav: Navigator, get: Fetch<Rates>) returns (r: Option<Rates>)
      modifies store`entries
      ensures RatesResult(store.entries, r) == RatesSpec(old(store.entries), store.writable, IsOnline(nav), get)
    {
      if IsOnline(nav) && get.Fetched? {
        var _ := store.SetItem(CacheRates, RatesJson(get.value));
        return Some(get.value);
      }
      var raw := store.GetItem(CacheRates);
      match Parse(raw)
      case Parsed(RatesJson(x)) => r := Some(x);
      case _ => r := None;
    }
  }
}
