/**
 * The admin order board (src/pages/AdminDashboard.tsx): it gathers every
 * registered user's stored orders, sorts them newest first, rewrites the
 * status of one order in one user's stored list, and shows counts, revenue
 * and a status filter. The buttons offered for each status form the order
 * life cycle.
 */
module Admin {
  import opened RamenTypes
  import opened Seqs
  import opened Storage

  // ---------------------------------------------------------------------------
  // Gathering the stored lists (`loadOrders`, first half)
  // ---------------------------------------------------------------------------

  /** The list stored under a user's key; a missing key contributes nothing. */
  function StoredFor(userId: string, lists: map<string, seq<Order>>): seq<Order>
  {
    if userId in lists then lists[userId] else []
  }

  /** The stored lists of `users`, one after another, in registration order. */
  function Gathered(users: seq<string>, lists: map<string, seq<Order>>): seq<Order>
  {
    if users == [] then []
    else Gathered(users[..|users| - 1], lists) + StoredFor(users[|users| - 1], lists)
  }

  /** How many orders are stored under the keys of `users`, counted user by user. */
  function StoredCount(users: seq<string>, lists: map<string, seq<Order>>): nat
  {
    if users == [] then 0 else |StoredFor(users[0], lists)| + StoredCount(users[1..], lists)
  }

  /** Every stored order of `users`, with multiplicity, counted user by user. */
  function StoredBag(users: seq<string>, lists: map<string, seq<Order>>): multiset<Order>
  {
    if users == [] then multiset{} else multiset(StoredFor(users[0], lists)) + StoredBag(users[1..], lists)
  }

  /** Gathering drops no stored order and repeats none: each appears as often as it is stored. */
  lemma {:induction false} GatheredBag(users: seq<string>, lists: map<string, seq<Order>>)
    ensures multiset(Gathered(users, lists)) == StoredBag(users, lists)
  {
    if users != [] {
      var init, last := users[..|users| - 1], users[|users| - 1];
      var g, tail := Gathered(init, lists), StoredFor(last, lists);
      assert Gathered(users, lists) == g + tail;
      assert multiset(g + tail) == multiset(g) + multiset(tail);
      GatheredBag(init, lists);
      StoredBagLast(users, lists);
    }
  }

  /** The cons-wise bag also splits off its last user. */
  lemma {:induction false} StoredBagLast(users: seq<string>, lists: map<string, seq<Order>>)
    requires users != []
    ensures StoredBag(users, lists)
            == StoredBag(users[..|users| - 1], lists) + multiset(StoredFor(users[|users| - 1], lists))
  {
    var init := users[..|users| - 1];
    if |users| == 1 {
      assert init == [];
    } else {
      var rest := users[1..];
      StoredBagLast(rest, lists);
      assert rest[..|rest| - 1] == init[1..];
      assert rest[|rest| - 1] == users[|users| - 1];
      assert init[0] == users[0];
    }
  }

  /** An order is gathered exactly when it is stored under some registered user's key. */
  lemma {:induction false} GatheredMembers(users: seq<string>, lists: map<string, seq<Order>>, o: Order)
    ensures o in Gathered(users, lists) <==>
      exists k :: 0 <= k < |users| && o in StoredFor(users[k], lists)
  {
    if users != [] {
      var init := users[..|users| - 1];
      GatheredMembers(init, lists, o);
      if o in Gathered(init, lists) {
        var k :| 0 <= k < |init| && o in StoredFor(init[k], lists);
        assert users[k] == init[k];
      }
      if exists k :: 0 <= k < |users| && o in StoredFor(users[k], lists) {
        var k :| 0 <= k < |users| && o in StoredFor(users[k], lists);
        if k < |init| {
          assert init[k] == users[k];
        }
      }
    }
  }

  /** The gathered list is as long as all stored lists together. */
  lemma {:induction false} GatheredLength(users: seq<string>, lists: map<string, seq<Order>>)
    ensures |Gathered(users, lists)| == StoredCount(users, lists)
  {
    if users != [] {
      var init := users[..|users| - 1];
      GatheredLength(init, lists);
      StoredCountSnoc(init, users[|users| - 1], lists);
      assert init + [users[|users| - 1]] == users;
    }
  }

  lemma {:induction false} StoredCountSnoc(users: seq<string>, u: string, lists: map<string, seq<Order>>)
    ensures StoredCount(users + [u], lists) == StoredCount(users, lists) + |StoredFor(u, lists)|
  {
    if users != [] {
      assert (users + [u])[1..] == users[1..] + [u];
      StoredCountSnoc(users[1..], u, lists);
    } else {
      assert [u][1..] == [];
    }
  }

  // ---------------------------------------------------------------------------
  // Sorting newest first (`loadOrders`, second half)
  // ---------------------------------------------------------------------------

  /** Every order is at least as recent as every order after it. */
  ghost predicate NewestFirst(s: seq<Order>)
  {
    forall i, j :: 0 <= i < j < |s| ==> s[i].createdAt >= s[j].createdAt
  }

  /** Inserts `o` before the first order that is not more recent than it. */
  function InsertNewest(o: Order, sorted: seq<Order>): (r: seq<Order>)
    ensures multiset(r) == multiset(sorted) + multiset{o}
  {
    if sorted == [] || o.createdAt >= sorted[0].createdAt then [o] + sorted
    else
      assert sorted == [sorted[0]] + sorted[1..];
      [sorted[0]] + InsertNewest(o, sorted[1..])
  }

  /**
   * The stable library sort ordering by creation time, most recent first,
   * written as an insertion sort: newest first, ties in their gathered order.
   */
  function SortNewestFirst(s: seq<Order>): (r: seq<Order>)
    ensures multiset(r) == multiset(s)
  {
    if s == [] then []
    else
      assert s == [s[0]] + s[1..];
      InsertNewest(s[0], SortNewestFirst(s[1..]))
  }

  lemma {:induction false} InsertKeepsOrder(o: Order, sorted: seq<Order>)
    requires NewestFirst(sorted)
    ensures NewestFirst(InsertNewest(o, sorted))
  {
    if sorted != [] && o.createdAt < sorted[0].createdAt {
      var tail := sorted[1..];
      var rest := InsertNewest(o, tail);
      InsertKeepsOrder(o, tail);
      assert forall i :: 0 <= i < |tail| ==> tail[i] == sorted[i + 1];
      InsertBounded(o, tail, sorted[0].createdAt);
      var r := [sorted[0]] + rest;
      forall i, j | 0 <= i < j < |r| ensures r[i].createdAt >= r[j].createdAt {
        assert r[j] == rest[j - 1];
        if i > 0 {
          assert r[i] == rest[i - 1];
        }
      }
    }
  }

  /** Inserting an order no newer than `t` into orders no newer than `t` gives orders no newer than `t`. */
  lemma {:induction false} InsertBounded(o: Order, s: seq<Order>, t: int)
    requires o.createdAt <= t
    requires forall i :: 0 <= i < |s| ==> s[i].createdAt <= t
    ensures forall i :: 0 <= i < |InsertNewest(o, s)| ==> InsertNewest(o, s)[i].createdAt <= t
  {
    if s != [] && o.createdAt < s[0].createdAt {
      InsertBounded(o, s[1..], t);
      var r := InsertNewest(o, s);
      assert forall i :: 0 < i < |r| ==> r[i] == InsertNewest(o, s[1..])[i - 1];
    }
  }

  /** The sorted list is newest first and is a permutation of its input. */
  lemma {:induction false} SortIsNewestFirst(s: seq<Order>)
    ensures NewestFirst(SortNewestFirst(s))
    ensures multiset(SortNewestFirst(s)) == multiset(s)
    ensures |SortNewestFirst(s)| == |s|
  {
    if s != [] {
      SortIsNewestFirst(s[1..]);
      InsertKeepsOrder(s[0], SortNewestFirst(s[1..]));
    }
    assert |multiset(SortNewestFirst(s))| == |multiset(s)|;
  }

  /** The orders created at time `t`. */
  function CreatedAt(t: int): Order -> bool
  {
    (o: Order) => o.createdAt == t
  }

  lemma {:induction false} InsertStable(o: Order, sorted: seq<Order>, t: int)
    ensures Filter(InsertNewest(o, sorted), CreatedAt(t)) == Filter([o] + sorted, CreatedAt(t))
  {
    var at := CreatedAt(t);
    if sorted != [] && o.createdAt < sorted[0].createdAt {
      var x, tail := sorted[0], sorted[1..];
      assert sorted == [x] + tail;
      assert InsertNewest(o, sorted) == [x] + InsertNewest(o, tail);
      InsertStable(o, tail, t);
      var hx := if at(x) then [x] else [];
      var ho := if at(o) then [o] else [];
      assert hx == [] || ho == [];
      FilterCons(x, InsertNewest(o, tail), at);
      FilterCons(o, tail, at);
      FilterCons(o, sorted, at);
      FilterCons(x, tail, at);
      assert Filter(InsertNewest(o, sorted), at) == hx + (ho + Filter(tail, at));
      assert Filter([o] + sorted, at) == ho + (hx + Filter(tail, at));
    }
  }

  /** Orders with equal timestamps keep their gathered order: the sort is stable. */
  lemma {:induction false} SortIsStable(s: seq<Order>, t: int)
    ensures Filter(SortNewestFirst(s), CreatedAt(t)) == Filter(s, CreatedAt(t))
  {
    if s != [] {
      SortIsStable(s[1..], t);
      InsertStable(s[0], SortNewestFirst(s[1..]), t);
      FilterCons(s[0], SortNewestFirst(s[1..]), CreatedAt(t));
      FilterCons(s[0], s[1..], CreatedAt(t));
      assert [s[0]] + s[1..] == s;
    }
  }

  /** What `loadOrders` shows: exactly the stored orders of registered users, newest first. */
  lemma LoadedOrders(users: seq<string>, lists: map<string, seq<Order>>)
    ensures NewestFirst(SortNewestFirst(Gathered(users, lists)))
    ensures multiset(SortNewestFirst(Gathered(users, lists))) == multiset(Gathered(users, lists))
    ensures multiset(SortNewestFirst(Gathered(users, lists))) == StoredBag(users, lists)
    ensures |SortNewestFirst(Gathered(users, lists))| == StoredCount(users, lists)
    ensures forall o :: o in SortNewestFirst(Gathered(users, lists)) <==>
      exists k :: 0 <= k < |users| && o in StoredFor(users[k], lists)
  {
    var g := Gathered(users, lists);
    SortIsNewestFirst(g);
    GatheredLength(users, lists);
    GatheredBag(users, lists);
    forall o ensures o in SortNewestFirst(g) <==> exists k :: 0 <= k < |users| && o in StoredFor(users[k], lists) {
      GatheredMembers(users, lists, o);
      assert o in SortNewestFirst(g) <==> o in multiset(SortNewestFirst(g));
      assert o in g <==> o in multiset(g);
    }
  }

  // ---------------------------------------------------------------------------
  // Rewriting one order's status (`updateOrderStatus`)
  // ---------------------------------------------------------------------------

  /** Each order whose id matches gets `newStatus`; the rest are kept, in place. */
  function WithStatus(list: seq<Order>, orderId: string, newStatus: Status): (r: seq<Order>)
    ensures |r| == |list|
    ensures forall i :: 0 <= i < |list| && list[i].id == orderId ==> r[i].status == newStatus
    ensures forall i :: 0 <= i < |list| && list[i].id != orderId ==> r[i] == list[i]
    ensures forall i :: 0 <= i < |list| ==> r[i].(status := list[i].status) == list[i]
  {
    if list == [] then []
    else [if list[0].id == orderId then list[0].(status := newStatus) else list[0]]
         + WithStatus(list[1..], orderId, newStatus)
  }

  /** An id that is not in the list leaves it as it was. */
  lemma WithStatusAbsent(list: seq<Order>, orderId: string, newStatus: Status)
    requires forall i :: 0 <= i < |list| ==> list[i].id != orderId
    ensures WithStatus(list, orderId, newStatus) == list
  {
  }

  /** "Reject" writes `pending` over a pending order, so the list does not change. */
  lemma RejectChangesNothing(list: seq<Order>, orderId: string)
    requires forall i :: 0 <= i < |list| && list[i].id == orderId ==> list[i].status == Pending
    ensures WithStatus(list, orderId, Pending) == list
  {
    var r := WithStatus(list, orderId, Pending);
    forall i | 0 <= i < |list| ensures r[i] == list[i] {
      if list[i].id == orderId {
        assert r[i].(status := list[i].status) == list[i];
      }
    }
  }

  // ---------------------------------------------------------------------------
  // Counts, revenue and the status filter
  // ---------------------------------------------------------------------------

  predicate IsPending(o: Order) { o.status == Pending }
  /** Confirmed orders are counted with the ones in processing. */
  predicate InProgress(o: Order) { o.status == Processing || o.status == Confirmed }
  /** Delivered orders are counted with the completed ones. */
  predicate IsDone(o: Order) { o.status == Completed || o.status == Delivered }
  predicate NotPending(o: Order) { o.status != Pending }

  /** The orders' prices, in order. */
  function Totals(orders: seq<Order>): (prices: seq<int>)
    ensures |prices| == |orders|
    ensures forall i :: 0 <= i < |orders| ==> prices[i] == orders[i].totalPrice
  {
    if orders == [] then [] else [orders[0].totalPrice] + Totals(orders[1..])
  }

  /** The prices of the orders that are no longer pending, added up. */
  function Revenue(orders: seq<Order>): int
  {
    Sum(Totals(Filter(orders, NotPending)))
  }

  datatype Stats = Stats(total: nat, pending: nat, processing: nat, completed: nat, revenue: int)

  function ComputeStats(orders: seq<Order>): Stats
  {
    Stats(|orders|,
          |Filter(orders, IsPending)|,
          |Filter(orders, InProgress)|,
          |Filter(orders, IsDone)|,
          Revenue(orders))
  }

  /** The three status counters split the orders between them. */
  lemma {:induction false} StatsPartition(orders: seq<Order>)
    ensures ComputeStats(orders).pending + ComputeStats(orders).processing + ComputeStats(orders).completed
            == ComputeStats(orders).total
  {
    if orders != [] {
      StatsPartition(orders[1..]);
    }
  }

  /**
   * Changing the status of order `i` changes revenue by its price exactly when
   * the change crosses the pending line, and not at all otherwise.
   */
  lemma {:induction false} RevenueOnStatusChange(orders: seq<Order>, i: nat, s: Status)
    requires i < |orders|
    ensures Revenue(orders[i := orders[i].(status := s)])
            == Revenue(orders)
               + (if s != Pending then orders[i].totalPrice else 0)
               - (if orders[i].status != Pending then orders[i].totalPrice else 0)
  {
    var changed := orders[i := orders[i].(status := s)];
    RevenueCons(orders[0], orders[1..]);
    RevenueCons(changed[0], changed[1..]);
    assert orders == [orders[0]] + orders[1..];
    assert changed == [changed[0]] + changed[1..];
    if i == 0 {
      assert changed[1..] == orders[1..];
    } else {
      assert changed[1..] == orders[1..][i - 1 := orders[i].(status := s)];
      RevenueOnStatusChange(orders[1..], i - 1, s);
    }
  }

  lemma RevenueCons(x: Order, s: seq<Order>)
    ensures Revenue([x] + s) == (if NotPending(x) then x.totalPrice else 0) + Revenue(s)
  {
    FilterCons(x, s, NotPending);
    var f := Filter(s, NotPending);
    if NotPending(x) {
      assert ([x] + f)[0] == x && ([x] + f)[1..] == f;
      assert Totals([x] + f) == [x.totalPrice] + Totals(f);
      SumCons(x.totalPrice, Totals(f));
    } else {
      assert [] + f == f;
    }
  }

  /** Confirming a pending order raises revenue by exactly its price. */
  lemma ConfirmRaisesRevenue(orders: seq<Order>, i: nat)
    requires i < |orders| && orders[i].status == Pending
    ensures Revenue(orders[i := orders[i].(status := Confirmed)]) == Revenue(orders) + orders[i].totalPrice
  {
    RevenueOnStatusChange(orders, i, Confirmed);
  }

  /** The orders whose status is stored under this name. */
  function HasStatusName(name: string): Order -> bool
  {
    (o: Order) => StatusName(o.status) == name
  }

  /** `filteredOrders`: everything for 'all', else the orders with that status. */
  function FilterOrders(orders: seq<Order>, filter: string): seq<Order>
  {
    if filter == "all" then orders else Filter(orders, HasStatusName(filter))
  }

  /**
   * 'all' shows every order; any other filter shows exactly the orders with
   * that status, each as often as it occurs, in the board's order.
   */
  lemma FilterOrdersShows(orders: seq<Order>, filter: string)
    ensures filter == "all" ==> FilterOrders(orders, filter) == orders
    ensures filter != "all" ==> forall o :: o in FilterOrders(orders, filter) ==> StatusName(o.status) == filter
    ensures filter != "all" ==>
      forall o ::
        multiset(FilterOrders(orders, filter))[o] == (if StatusName(o.status) == filter then multiset(orders)[o] else 0)
    ensures IsSubsequence(FilterOrders(orders, filter), orders)
  {
    if filter == "all" {
      FilterKeepsAll(orders, (o: Order) => true);
      FilterIsSubsequence(orders, (o: Order) => true);
    } else {
      FilterCounts(orders, HasStatusName(filter));
      FilterIsSubsequence(orders, HasStatusName(filter));
    }
  }

  // ---------------------------------------------------------------------------
  // The per-status buttons
  // ---------------------------------------------------------------------------

  /**
   * The user id a status button passes for an order. An order placed at
   * checkout has no owner, and the key then built from it names the user id
   * "undefined".
   */
  function OwnerKey(o: Order): string
  {
    match o.userId
    case Some(u) => u
    case None => "undefined"
  }

  /** The statuses the buttons of an order with status `s` write. */
  function AdminActions(s: Status): seq<Status>
  {
    match s
    case Pending => [Confirmed, Pending]
    case Confirmed => [Processing]
    case Processing => [Completed]
    case Completed => [Delivered]
    case Delivered => []
  }

  /** The position of a status along the life cycle. */
  function Rank(s: Status): nat
  {
    match s
    case Pending => 0
    case Confirmed => 1
    case Processing => 2
    case Completed => 3
    case Delivered => 4
  }

  /** Each button moves one step forward, except "reject", which stays at pending; delivered offers none. */
  lemma ActionsAdvanceOneStep(s: Status)
    ensures forall t :: t in AdminActions(s) ==> Rank(t) == Rank(s) + 1 || (s == Pending && t == Pending)
    ensures s != Delivered ==> exists t :: t in AdminActions(s) && Rank(t) == Rank(s) + 1
    ensures AdminActions(s) == [] <==> s == Delivered
  {
    match s
    case Pending => assert Confirmed in AdminActions(s);
    case Confirmed => assert Processing in AdminActions(s);
    case Processing => assert Completed in AdminActions(s);
    case Completed => assert Delivered in AdminActions(s);
    case Delivered =>
  }

  /** A sequence of statuses an order passes through by pressing offered buttons. */
  ghost predicate ButtonTrace(trace: seq<Status>)
  {
    |trace| > 0 && forall i :: 0 <= i < |trace| - 1 ==> trace[i + 1] in AdminActions(trace[i])
  }

  /** Pressing buttons never moves an order back. */
  lemma {:induction false} TraceNeverGoesBack(trace: seq<Status>, i: nat, j: nat)
    requires ButtonTrace(trace) && i <= j < |trace|
    ensures Rank(trace[i]) <= Rank(trace[j])
  {
    if i < j {
      TraceNeverGoesBack(trace, i, j - 1);
      ActionsAdvanceOneStep(trace[j - 1]);
    }
  }

  /** Pressing buttons skips no status between where the order started and where it is. */
  lemma {:induction false} TraceSkipsNothing(trace: seq<Status>, s: Status)
    requires ButtonTrace(trace)
    requires Rank(trace[0]) <= Rank(s) <= Rank(trace[|trace| - 1])
    ensures s in trace
  {
    if Rank(s) == Rank(trace[0]) {
      assert s == trace[0];
    } else {
      assert |trace| > 1;
      ActionsAdvanceOneStep(trace[0]);
      assert Rank(trace[1]) <= Rank(s);
      var rest := trace[1..];
      assert ButtonTrace(rest) by {
        forall i | 0 <= i < |rest| - 1 ensures rest[i + 1] in AdminActions(rest[i]) {
          assert rest[i] == trace[i + 1] && rest[i + 1] == trace[i + 2];
        }
      }
      TraceSkipsNothing(rest, s);
    }
  }

  // ---------------------------------------------------------------------------
  // The board itself
  // ---------------------------------------------------------------------------

  class AdminDashboard {
    var orders: seq<Order>
    var filter: string

    constructor ()
      ensures orders == [] && filter == "all"
    {
      orders := [];
      filter := "all";
    }

    /** `loadOrders`: gathers the registered users' stored lists in a loop, then sorts newest first. */
    method LoadOrders(store: BrowserStore)
      modifies this
      ensures orders == SortNewestFirst(Gathered(store.registeredUsers, store.orderLists))
      ensures NewestFirst(orders)
      ensures multiset(orders) == StoredBag(store.registeredUsers, store.orderLists)
      ensures filter == old(filter)
    {
      var users := store.registeredUsers;
      var lists := store.orderLists;
      var allOrders: seq<Order> := [];
      var i := 0;
      while i < |users|
        invariant 0 <= i <= |users|
        invariant allOrders == Gathered(users[..i], lists)
      {
        assert users[..i + 1][..i] == users[..i];
        if users[i] in lists {
          allOrders := allOrders + lists[users[i]];
        }
        i := i + 1;
      }
      assert users[..|users|] == users;
      orders := SortNewestFirst(allOrders);
      LoadedOrders(users, lists);
    }

    /**
     * `updateOrderStatus`: rewrites the status of the orders with `orderId`
     * in the list stored under `userId` (an absent key is read as the empty
     * list and written back as one), touches no other key, and reloads.
     */
    method UpdateOrderStatus(store: BrowserStore, orderId: string, userId: string, newStatus: Status)
      modifies store, this
      ensures store.orderLists ==
        old(store.orderLists)[userId := WithStatus(StoredFor(userId, old(store.orderLists)), orderId, newStatus)]
      ensures forall k :: k != userId ==>
        (k in store.orderLists <==> k in old(store.orderLists)) &&
        (k in store.orderLists ==> store.orderLists[k] == old(store.orderLists)[k])
      ensures store.registeredUsers == old(store.registeredUsers)
      ensures store.savedUser == old(store.savedUser)
      ensures orders == SortNewestFirst(Gathered(store.registeredUsers, store.orderLists))
      ensures filter == old(filter)
    {
      var updated := WithStatus(StoredFor(userId, store.orderLists), orderId, newStatus);
      store.orderLists := store.orderLists[userId := updated];
      LoadOrders(store);
    }

    /**
     * A status button on the card of `order`: it writes one of the statuses
     * `AdminActions` offers for the order's status, under the order's owner key,
     * through `UpdateOrderStatus`; so a run of presses on one order is a
     * `ButtonTrace`.
     */
    method PressStatusButton(store: BrowserStore, order: Order, next: Status)
      requires next in AdminActions(order.status)
      modifies store, this
      ensures store.orderLists ==
        old(store.orderLists)[OwnerKey(order) :=
          WithStatus(StoredFor(OwnerKey(order), old(store.orderLists)), order.id, next)]
      ensures Rank(next) == Rank(order.status) + 1 || (order.status == Pending && next == Pending)
      ensures store.registeredUsers == old(store.registeredUsers)
      ensures store.savedUser == old(store.savedUser)
      ensures orders == SortNewestFirst(Gathered(store.registeredUsers, store.orderLists))
      ensures filter == old(filter)
    {
      ActionsAdvanceOneStep(order.status);
      UpdateOrderStatus(store, order.id, OwnerKey(order), next);
    }

    method SetFilter(f: string)
      modifies this
      ensures filter == f && orders == old(orders)
    {
      filter := f;
    }

    function FilteredOrders(): seq<Order>
      reads this
    {
      FilterOrders(orders, filter)
    }

    /** `stats` */
    function Statistics(): (s: Stats)
      reads this
      ensures s.pending + s.processing + s.completed == s.total
    {
      StatsPartition(orders);
      ComputeStats(orders)
    }
  }
}
