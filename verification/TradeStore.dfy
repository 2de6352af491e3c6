/** The second inventory implementation, kept by the web client
    (frontend/lib/trades/tradeStore.ts). Amounts are integer micro-USDC, rates are kobo per USDC. */
module TradeStore {
  import opened Core

  datatype Status = Queued | Eligible | ActiveSlot | Completed | CancelledByBuyer | Expired

  datatype Item = Item(
    listing: TradeId,
    buyer: Address,
    units: nat,
    position: nat,
    status: Status,
    trade: Option<TradeId>,
    createdAt: Time)

  datatype Inventory = Inventory(
    total: int,
    available: int,
    allotted: int,
    reserved: int,
    filled: int,
    active: Option<TradeId>,
    rateKobo: nat)

  datatype Shared = Shared(seller: Address, units: int)

  type Queue = map<QueueRef, Item>

  /** The store's maps; `parents` leads from a child trade to its listing. */
  datatype Store = Store(
    inventory: map<TradeId, Inventory>,
    trades: map<TradeId, Shared>,
    parents: map<TradeId, TradeId>,
    queue: Queue)

  /** What the trust summary says about a buyer. */
  datatype TrustView = TrustView(coolingDown: bool, atCap: bool, maxUnits: int)

  datatype Outcome = TookSlot(trade: TradeId) | JoinedQueue(entry: QueueRef) | Thrown(error: Error)

  // ---- Taking an offer -------------------------------------------------------------------------------

  /** Kobo for an amount, rounded to the nearest. */
  function Kobo(units: int, rateKobo: nat): int { (units * rateKobo + 500_000) / 1_000_000 }

  predicate Waiting(e: Item, l: TradeId) { e.listing == l && e.status in {Queued, Eligible} }

  function WaitingRefs(q: Queue, l: TradeId): set<QueueRef> { set k | k in q && Waiting(q[k], l) }

  /** Why an order of `units` is turned away, if it is. */
  function Objection(inv: Inventory, seller: Address, buyer: Address, units: int, trust: TrustView): Option<Error> {
    if seller == buyer then Some(OwnListing)
    else if trust.coolingDown then Some(BuyerCooldown)
    else if trust.atCap then Some(BuyerAtCap)
    else if units <= 0 then Some(BadRequest)
    else if units > inv.available then Some(ExceedsAvailable)
    else if units > trust.maxUnits then Some(TrustLimitExceeded)
    else if Kobo(units, inv.rateKobo) < 100 then Some(BadRequest)
    else None
  }

  /** A requested amount of zero means everything available. */
  function Take(
    s: Store, buyer: Address, l: TradeId, requested: nat, trust: TrustView, child: TradeId, ref: QueueRef, now: Time)
    : (Store, Outcome)
  {
    if l !in s.trades || l !in s.inventory then (s, Thrown(ListingNotFound)) else
    var inv, seller := s.inventory[l], s.trades[l].seller;
    var units := if requested != 0 then requested else inv.available;
    var objection := Objection(inv, seller, buyer, units, trust);
    if objection.Some? then (s, Thrown(objection.value))
    else if inv.active.Some? then
      (s.(inventory := s.inventory[l := inv.(available := inv.available - units, reserved := inv.reserved + units)],
          queue := s.queue[ref := Item(l, buyer, units, |WaitingRefs(s.queue, l)| + 1, Queued, None, now)]),
       JoinedQueue(ref))
    else
      var partial := units < inv.total || inv.filled > 0 || inv.reserved > 0;
      var id := if partial then child else l;
      (s.(inventory := s.inventory[l := inv.(available := inv.available - units, allotted := inv.allotted + units,
                                             active := Some(id))],
          parents := s.parents[id := l],
          trades := s.trades[id := Shared(seller, units)]),
       TookSlot(id))
  }

  // ---- Leaving the queue -----------------------------------------------------------------------------

  /** The entry at place `i` of the renumbered queue; the first becomes eligible if the slot is free. */
  function Placed(e: Item, i: nat, free: bool): Item {
    e.(position := i, status := if i == 1 && free then Eligible else e.status)
  }

  /** The queue with the listed entries numbered from 1. */
  function Renumbered(q: Queue, order: seq<QueueRef>, free: bool): Queue {
    if order == [] then q else
    var n := |order|;
    var k := order[n - 1];
    var r := Renumbered(q, order[..n - 1], free);
    if k in r then r[k := Placed(r[k], n, free)] else r
  }

  function Cancel(s: Store, ref: QueueRef, buyer: Address, order: seq<QueueRef>): (Store, Outcome) {
    if ref !in s.queue then (s, Thrown(EntryNotFound)) else
    var e := s.queue[ref];
    if e.buyer != buyer then (s, Thrown(NotEntryOwner))
    else if e.status !in {Queued, Eligible} then (s, Thrown(EntryNotCancellable))
    else
      var returned :=
        if e.listing in s.inventory && s.inventory[e.listing].reserved >= e.units then
          var inv := s.inventory[e.listing];
          s.inventory[e.listing := inv.(reserved := inv.reserved - e.units, available := inv.available + e.units)]
        else s.inventory;
      var free := e.listing in returned && returned[e.listing].active.None?;
      (s.(inventory := returned, queue := Renumbered(s.queue[ref := e.(status := CancelledByBuyer)], order, free)),
       JoinedQueue(ref))
  }

  // ---- Activation ------------------------------------------------------------------------------------

  function Max(a: int, b: int): int { if a < b then b else a }

  predicate AtFront(e: Item) { e.status == Eligible || (e.status == Queued && e.position == 1) }

  /** The reservation goes back to the available pool and the entry is marked active, all before the
      offer is taken anew. */
  function GiveBack(s: Store, ref: QueueRef): Store
    requires ref in s.queue && s.queue[ref].listing in s.inventory
  {
    var e := s.queue[ref];
    var inv := s.inventory[e.listing];
    s.(inventory := s.inventory[e.listing :=
         inv.(reserved := Max(0, inv.reserved - e.units), available := inv.available + e.units)],
       queue := s.queue[ref := e.(status := ActiveSlot)])
  }

  function Activate(s: Store, ref: QueueRef, buyer: Address, trust: TrustView, child: TradeId, now: Time)
    : (Store, Outcome)
  {
    if ref !in s.queue then (s, Thrown(EntryNotFound)) else
    var e := s.queue[ref];
    if e.buyer != buyer then (s, Thrown(NotEntryOwner))
    else if !AtFront(e) then (s, Thrown(EntryNotAtFront))
    else if e.listing !in s.inventory || e.listing !in s.trades then (s, Thrown(ListingNotFound))
    else if s.inventory[e.listing].active.Some? then (s, Thrown(SlotBusy))
    else
      var (r, out) := Take(GiveBack(s, ref), buyer, e.listing, e.units, trust, child, ref, now);
      if out.TookSlot? && ref in r.queue
      then (r.(queue := r.queue[ref := r.queue[ref].(trade := Some(out.trade), position := 0)]), out)
      else (r, out)
  }

  // ---- Release ---------------------------------------------------------------------------------------

  function Closed(e: Item, t: TradeId, completed: bool): Item {
    if e.trade == Some(t) && e.status == ActiveSlot then e.(status := if completed then Completed else Expired) else e
  }

  function CloseItems(q: Queue, t: TradeId, completed: bool): Queue { map k | k in q :: Closed(q[k], t, completed) }

  function Promote(q: Queue, next: Option<QueueRef>): Queue {
    if next.Some? && next.value in q then q[next.value := q[next.value].(status := Eligible, position := 1)] else q
  }

  function Moved(inv: Inventory, units: int, completed: bool): Inventory {
    if inv.allotted < units then inv
    else if completed then inv.(allotted := inv.allotted - units, filled := inv.filled + units)
    else inv.(allotted := inv.allotted - units, available := inv.available + units)
  }

  function Release(s: Store, t: TradeId, completed: bool, next: Option<QueueRef>): Store {
    var l := if t in s.parents then s.parents[t] else t;
    if l !in s.inventory || t !in s.trades then s else
    var inv := Moved(s.inventory[l], s.trades[t].units, completed);
    var freed := if inv.active == Some(t) then inv.(active := None) else inv;
    s.(inventory := s.inventory[l := freed], queue := Promote(CloseItems(s.queue, t, completed), next))
  }

  // ---- Sums over the queue -----------------------------------------------------------------------------

  function Weight(e: Item, l: TradeId): nat { if Waiting(e, l) then e.units else 0 }

  ghost function Reserved(q: Queue, l: TradeId): nat
    decreases |q|
  {
    if q == map[] then 0 else
    var k :| k in q;
    Weight(q[k], l) + Reserved(q - {k}, l)
  }

  lemma {:induction false} ReservedRemove(q: Queue, k: QueueRef, l: TradeId)
    requires k in q
    ensures Reserved(q, l) == Weight(q[k], l) + Reserved(q - {k}, l)
    decreases |q|
  {
    var m :| m in q && Reserved(q, l) == Weight(q[m], l) + Reserved(q - {m}, l);
    if m != k {
      ReservedRemove(q - {m}, k, l);
      ReservedRemove(q - {k}, m, l);
      assert q - {m} - {k} == q - {k} - {m};
    }
  }

  lemma ReservedWrite(q: Queue, k: QueueRef, e: Item, l: TradeId)
    ensures Reserved(q[k := e], l) == Reserved(q, l) - (if k in q then Weight(q[k], l) else 0) + Weight(e, l)
  {
    var r := q[k := e];
    ReservedRemove(r, k, l);
    if k in q {
      ReservedRemove(q, k, l);
      assert r - {k} == q - {k};
    } else {
      assert r - {k} == q;
    }
  }

  lemma {:induction false} ReservedSame(q: Queue, r: Queue, l: TradeId)
    requires q.Keys == r.Keys && forall k :: k in q ==> Weight(q[k], l) == Weight(r[k], l)
    ensures Reserved(q, l) == Reserved(r, l)
    decreases |q|
  {
    if q == map[] {
      assert r == map[];
    } else {
      var k :| k in q;
      ReservedRemove(q, k, l);
      ReservedRemove(r, k, l);
      ReservedSame(q - {k}, r - {k}, l);
    }
  }

  // ---- Invariant -----------------------------------------------------------------------------------------

  /** No bucket is negative, the four add up to the deposit, and what is reserved covers every waiting
      entry. */
  ghost predicate InventoryOk(inv: Inventory, q: Queue, l: TradeId) {
    && inv.available >= 0 && inv.allotted >= 0 && inv.reserved >= 0 && inv.filled >= 0
    && inv.total == inv.available + inv.allotted + inv.reserved + inv.filled
    && inv.reserved >= Reserved(q, l)
  }

  ghost predicate StoreOk(s: Store) {
    && (forall l :: l in s.inventory ==> InventoryOk(s.inventory[l], s.queue, l))
    && (forall t :: t in s.trades ==> s.trades[t].units >= 0)
    && (forall k :: k in s.queue ==> s.queue[k].units > 0)
  }

  /** The reservation is exactly what waits. */
  ghost predicate Exact(s: Store) {
    forall l :: l in s.inventory ==> s.inventory[l].reserved == Reserved(s.queue, l)
  }

  /** Deposits stay, and reservations stay exact if they were. */
  ghost predicate Keeps(s: Store, r: Store, stillExact: bool) {
    && StoreOk(r) && r.inventory.Keys == s.inventory.Keys
    && (forall l :: l in s.inventory ==> r.inventory[l].total == s.inventory[l].total)
    && (stillExact && Exact(s) ==> Exact(r))
  }

  /** One listing and one entry of its queue are written. */
  lemma OneWrite(s: Store, r: Store, l: TradeId, ref: QueueRef)
    requires StoreOk(s) && l in s.inventory && l in r.inventory && ref in r.queue
    requires r.inventory == s.inventory[l := r.inventory[l]] && r.queue == s.queue[ref := r.queue[ref]]
    requires r.queue[ref].listing == l && r.queue[ref].units > 0
    requires forall t :: t in r.trades ==> r.trades[t].units >= 0
    requires InventoryOk(r.inventory[l], r.queue, l)
    ensures StoreOk(r)
    ensures (forall m :: m in s.inventory && m != l ==> Reserved(r.queue, m) <= Reserved(s.queue, m))
    ensures ref !in s.queue || s.queue[ref].listing == l ==>
              forall m :: m in s.inventory && m != l ==> Reserved(r.queue, m) == Reserved(s.queue, m)
  {
    forall m | m in s.inventory && m != l
      ensures Reserved(r.queue, m) <= Reserved(s.queue, m)
      ensures ref !in s.queue || s.queue[ref].listing == l ==> Reserved(r.queue, m) == Reserved(s.queue, m)
    {
      ReservedWrite(s.queue, ref, r.queue[ref], m);
    }
  }

  /** Only the queue changes, and no waiting amount does. */
  lemma SameWeights(s: Store, r: Store)
    requires StoreOk(s) && r == s.(queue := r.queue) && r.queue.Keys == s.queue.Keys
    requires forall k, l :: k in s.queue ==> Weight(r.queue[k], l) == Weight(s.queue[k], l)
    requires forall k :: k in s.queue ==> r.queue[k].units == s.queue[k].units
    ensures Keeps(s, r, true)
  {
    forall l | l in s.inventory
      ensures Reserved(r.queue, l) == Reserved(s.queue, l)
    {
      ReservedSame(s.queue, r.queue, l);
    }
  }

  lemma KeepsTwice(s: Store, m: Store, r: Store, exact: bool)
    requires Keeps(s, m, exact) && Keeps(m, r, exact)
    ensures Keeps(s, r, exact)
  {}

  lemma NothingChanges(s: Store)
    requires StoreOk(s)
    ensures Keeps(s, s, true)
  {}

  // ---- Steps ---------------------------------------------------------------------------------------------

  lemma TakeKeeps(
    s: Store, buyer: Address, l: TradeId, requested: nat, trust: TrustView, child: TradeId, ref: QueueRef, now: Time)
    requires StoreOk(s)
    ensures Keeps(s, Take(s, buyer, l, requested, trust, child, ref, now).0, ref !in s.queue)
  {
    hide Kobo;
    NothingChanges(s);
    var (r, out) := Take(s, buyer, l, requested, trust, child, ref, now);
    if out.JoinedQueue? {
      ReservedWrite(s.queue, ref, r.queue[ref], l);
      OneWrite(s, r, l, ref);
    }
  }

  lemma GiveBackKeeps(s: Store, ref: QueueRef)
    requires StoreOk(s) && ref in s.queue && s.queue[ref].listing in s.inventory
             && s.queue[ref].status in {Queued, Eligible}
    ensures Keeps(s, GiveBack(s, ref), true)
    ensures s.queue[ref].units <= s.inventory[s.queue[ref].listing].reserved
  {
    var l, r := s.queue[ref].listing, GiveBack(s, ref);
    ReservedRemove(s.queue, ref, l);
    ReservedWrite(s.queue, ref, r.queue[ref], l);
    OneWrite(s, r, l, ref);
  }

  lemma MarkKeeps(s: Store, ref: QueueRef, t: TradeId)
    requires StoreOk(s) && ref in s.queue
    ensures Keeps(s, s.(queue := s.queue[ref := s.queue[ref].(trade := Some(t), position := 0)]), true)
  {
    SameWeights(s, s.(queue := s.queue[ref := s.queue[ref].(trade := Some(t), position := 0)]));
  }

  /** A retaken offer with a free slot never joins the queue. */
  lemma RetakeNeverQueues(
    s: Store, buyer: Address, l: TradeId, requested: nat, trust: TrustView, child: TradeId, ref: QueueRef, now: Time)
    requires StoreOk(s) && l in s.inventory && s.inventory[l].active.None?
    ensures var (r, out) := Take(s, buyer, l, requested, trust, child, ref, now);
            !out.JoinedQueue? && r.queue == s.queue && Keeps(s, r, true) && (out.Thrown? ==> r == s)
  {
    hide Kobo;
    NothingChanges(s);
  }

  lemma ActivateKeeps(s: Store, ref: QueueRef, buyer: Address, trust: TrustView, child: TradeId, now: Time)
    requires StoreOk(s)
    ensures Keeps(s, Activate(s, ref, buyer, trust, child, now).0, true)
  {
    hide Keeps, Take, GiveBack;
    NothingChanges(s);
    if ref in s.queue && s.queue[ref].buyer == buyer && AtFront(s.queue[ref])
       && s.queue[ref].listing in s.inventory && s.queue[ref].listing in s.trades
    {
      var e := s.queue[ref];
      if s.inventory[e.listing].active.None? {
        var g := GiveBack(s, ref);
        GiveBackKeeps(s, ref);
        GiveBackShape(s, ref);
        RetakeNeverQueues(g, buyer, e.listing, e.units, trust, child, ref, now);
        var (r, out) := Take(g, buyer, e.listing, e.units, trust, child, ref, now);
        KeepsTwice(s, g, r, true);
        if out.TookSlot? {
          MarkKeeps(r, ref, out.trade);
          KeepsTwice(s, r, r.(queue := r.queue[ref := r.queue[ref].(trade := Some(out.trade), position := 0)]), true);
        }
      }
    }
  }

  lemma GiveBackShape(s: Store, ref: QueueRef)
    requires StoreOk(s) && ref in s.queue && s.queue[ref].listing in s.inventory
             && s.queue[ref].status in {Queued, Eligible}
    ensures var g, l := GiveBack(s, ref), s.queue[ref].listing;
            && StoreOk(g) && l in g.inventory && ref in g.queue && g.trades == s.trades
            && g.inventory[l] == s.inventory[l].(reserved := s.inventory[l].reserved - s.queue[ref].units,
                                                 available := s.inventory[l].available + s.queue[ref].units)
            && g.inventory == s.inventory[l := g.inventory[l]]
            && g.queue == s.queue[ref := s.queue[ref].(status := ActiveSlot)] && s.queue[ref].units > 0
  {
    GiveBackKeeps(s, ref);
  }

  lemma {:induction false} RenumberedWeights(q: Queue, order: seq<QueueRef>, free: bool)
    requires forall k :: k in order && k in q ==> q[k].status in {Queued, Eligible}
    ensures var r := Renumbered(q, order, free);
            r.Keys == q.Keys && forall k, l :: k in q ==> Weight(r[k], l) == Weight(q[k], l)
    ensures forall k :: k in q ==> Renumbered(q, order, free)[k].units == q[k].units
    ensures forall k :: k in q ==> Renumbered(q, order, free)[k].status == q[k].status || k in order
    ensures forall k :: k in order && k in q ==> Renumbered(q, order, free)[k].status in {Queued, Eligible}
  {
    if order == [] {
    } else {
      var before := order[..|order| - 1];
      assert order == before + [order[|order| - 1]];
      RenumberedWeights(q, before, free);
    }
  }

  /** The order lists waiting entries of the queue that is left. */
  predicate OnlyWaiting(s: Store, ref: QueueRef, order: seq<QueueRef>) {
    forall k :: k in order ==> k != ref && k in s.queue && s.queue[k].status in {Queued, Eligible}
  }

  lemma CancelKeeps(s: Store, ref: QueueRef, buyer: Address, order: seq<QueueRef>)
    requires StoreOk(s) && OnlyWaiting(s, ref, order)
    ensures Keeps(s, Cancel(s, ref, buyer, order).0, true)
  {
    NothingChanges(s);
    var (r, out) := Cancel(s, ref, buyer, order);
    if out.JoinedQueue? {
      var e := s.queue[ref];
      var left := s.queue[ref := e.(status := CancelledByBuyer)];
      var m := s.(inventory := r.inventory, queue := left);
      assert Keeps(s, m, true) by { WithdrawKeeps(s, m, ref); }
      hide Keeps, StoreOk;
      var free := e.listing in r.inventory && r.inventory[e.listing].active.None?;
      RenumberedWeights(left, order, free);
      assert StoreOk(m) by { KeepsStore(s, m, true); }
      SameWeights(m, r);
      KeepsTwice(s, m, r, true);
    }
  }

  lemma KeepsStore(s: Store, r: Store, exact: bool)
    requires Keeps(s, r, exact)
    ensures StoreOk(r)
  {}

  lemma WithdrawKeeps(s: Store, m: Store, ref: QueueRef)
    requires StoreOk(s) && ref in s.queue && s.queue[ref].status in {Queued, Eligible}
    requires var e := s.queue[ref];
             && m == s.(inventory := m.inventory, queue := s.queue[ref := e.(status := CancelledByBuyer)])
             && m.inventory == if e.listing in s.inventory && s.inventory[e.listing].reserved >= e.units then
                  s.inventory[e.listing := s.inventory[e.listing].(
                    reserved := s.inventory[e.listing].reserved - e.units,
                    available := s.inventory[e.listing].available + e.units)]
                else s.inventory
    ensures Keeps(s, m, true)
  {
    var l := s.queue[ref].listing;
    forall x | x in s.inventory
      ensures Reserved(m.queue, x) == Reserved(s.queue, x) - if x == l then s.queue[ref].units else 0
    {
      ReservedWrite(s.queue, ref, m.queue[ref], x);
      ReservedRemove(s.queue, ref, x);
    }
  }

  lemma ReleaseKeeps(s: Store, t: TradeId, completed: bool, next: Option<QueueRef>)
    requires StoreOk(s) && (next.Some? ==> next.value in s.queue && s.queue[next.value].status == Queued)
    ensures Keeps(s, Release(s, t, completed, next), true)
  {
    NothingChanges(s);
    var r := Release(s, t, completed, next);
    var m := s.(queue := r.queue);
    CloseWeights(s.queue, t, completed, next);
    SameWeights(s, m);
    hide CloseItems, Promote, Reserved;
    if r != s {
      BucketsMove(m, r, t, completed);
      KeepsTwice(s, m, r, true);
    }
  }

  lemma CloseWeights(q: Queue, t: TradeId, completed: bool, next: Option<QueueRef>)
    requires next.Some? ==> next.value in q && q[next.value].status == Queued
    ensures var r := Promote(CloseItems(q, t, completed), next);
            && r.Keys == q.Keys
            && forall k :: k in q ==> r[k].units == q[k].units && forall l :: Weight(r[k], l) == Weight(q[k], l)
  {}

  /** Units move between buckets of one listing. */
  lemma BucketsMove(m: Store, r: Store, t: TradeId, completed: bool)
    requires StoreOk(m) && t in m.trades
    requires var l := if t in m.parents then m.parents[t] else t;
             && l in m.inventory && r == m.(inventory := r.inventory)
             && var inv := Moved(m.inventory[l], m.trades[t].units, completed);
                r.inventory == m.inventory[l := if inv.active == Some(t) then inv.(active := None) else inv]
    ensures Keeps(m, r, true)
  {}

  // ---- Runs ------------------------------------------------------------------------------------------------

  datatype Act =
    | TakeAct(buyer: Address, listing: TradeId, requested: nat, trust: TrustView, child: TradeId, ref: QueueRef)
    | CancelAct(ref: QueueRef, buyer: Address, order: seq<QueueRef>)
    | ActivateAct(ref: QueueRef, buyer: Address, trust: TrustView, child: TradeId)
    | ReleaseAct(trade: TradeId, completed: bool, next: Option<QueueRef>)

  function Step(s: Store, a: Act, now: Time): Store {
    match a
    case TakeAct(buyer, l, requested, trust, child, ref) => Take(s, buyer, l, requested, trust, child, ref, now).0
    case CancelAct(ref, buyer, order) => Cancel(s, ref, buyer, order).0
    case ActivateAct(ref, buyer, trust, child) => Activate(s, ref, buyer, trust, child, now).0
    case ReleaseAct(t, completed, next) => Release(s, t, completed, next)
  }

  /** Renumbering visits waiting entries only, and only a queued one is promoted. */
  predicate Possible(s: Store, a: Act) {
    match a
    case CancelAct(ref, _, order) => OnlyWaiting(s, ref, order)
    case ReleaseAct(_, _, next) => next.Some? ==> next.value in s.queue && s.queue[next.value].status == Queued
    case _ => true
  }

  predicate FreshRef(s: Store, a: Act) { a.TakeAct? ==> a.ref !in s.queue }

  ghost predicate IsRun(stores: seq<Store>, acts: seq<Act>, times: seq<Time>) {
    && |stores| == |acts| + 1 && |times| == |acts|
    && forall i :: 0 <= i < |acts| ==>
         Possible(stores[i], acts[i]) && stores[i + 1] == Step(stores[i], acts[i], times[i])
  }

  lemma StepKeeps(s: Store, a: Act, now: Time)
    requires StoreOk(s) && Possible(s, a)
    ensures Keeps(s, Step(s, a, now), FreshRef(s, a))
  {
    hide StoreOk, Keeps, Take, Cancel, Activate, Release;
    match a
    case TakeAct(buyer, l, requested, trust, child, ref) => TakeKeeps(s, buyer, l, requested, trust, child, ref, now);
    case CancelAct(ref, buyer, order) => CancelKeeps(s, ref, buyer, order);
    case ActivateAct(ref, buyer, trust, child) => ActivateKeeps(s, ref, buyer, trust, child, now);
    case ReleaseAct(t, completed, next) => ReleaseKeeps(s, t, completed, next);
  }

  /** Over any run, with releases repeated on any trade, every listing's four buckets are never negative
      and add up to its deposit, and the reservation covers the waiting entries; it equals their sum if
      no order reused a queue reference. */
  lemma {:induction false} RunConserves(stores: seq<Store>, acts: seq<Act>, times: seq<Time>, n: nat)
    requires IsRun(stores, acts, times) && n <= |acts| && StoreOk(stores[0])
    ensures StoreOk(stores[n]) && stores[n].inventory.Keys == stores[0].inventory.Keys
    ensures forall l :: l in stores[0].inventory ==> stores[n].inventory[l].total == stores[0].inventory[l].total
    ensures Exact(stores[0]) && (forall i :: 0 <= i < n ==> FreshRef(stores[i], acts[i])) ==> Exact(stores[n])
    decreases n
  {
    hide StoreOk, Exact, Step, FreshRef;
    if n == 0 {
    } else {
      RunConserves(stores, acts, times, n - 1);
      StepKeeps(stores[n - 1], acts[n - 1], times[n - 1]);
    }
  }

  /** Listings that nobody has ordered from are in order. */
  lemma UntouchedIsOk(s: Store)
    requires s.queue == map[] && forall t :: t in s.trades ==> s.trades[t].units >= 0
    requires forall l :: l in s.inventory ==>
               var inv := s.inventory[l];
               inv.available == inv.total >= 0 && inv.allotted == inv.reserved == inv.filled == 0
    ensures StoreOk(s) && Exact(s)
  {
    forall l | l in s.inventory
      ensures Reserved(s.queue, l) == 0
    {
      assert Reserved(map[], l) == 0;
    }
  }

  // ---- What activation really does ---------------------------------------------------------------------------

  /** In every good state the clamp at zero never takes effect, and giving the reservation back only to
      take it again amounts to one direct move from reserved to allotted. */
  lemma ActivationIsDirectMove(s: Store, ref: QueueRef, buyer: Address, trust: TrustView, child: TradeId, now: Time)
    requires StoreOk(s) && Activate(s, ref, buyer, trust, child, now).1.TookSlot?
    ensures var (r, out) := Activate(s, ref, buyer, trust, child, now);
            var e, l := s.queue[ref], s.queue[ref].listing;
            var inv := s.inventory[l];
            && inv.reserved >= e.units
            && r.inventory == s.inventory[l := inv.(
                 reserved := inv.reserved - e.units, allotted := inv.allotted + e.units, active := Some(out.trade))]
            && r.queue == s.queue[ref := e.(status := ActiveSlot, trade := Some(out.trade), position := 0)]
            && r.trades == s.trades[out.trade := Shared(s.trades[l].seller, e.units)]
  {
    hide Kobo, GiveBack;
    GiveBackShape(s, ref);
    var (r, out) := Activate(s, ref, buyer, trust, child, now);
    var e := s.queue[ref];
    var g := GiveBack(s, ref);
    assert r.inventory == g.inventory[e.listing := r.inventory[e.listing]];
    assert r.inventory == s.inventory[e.listing := r.inventory[e.listing]];
    assert r.queue == s.queue[ref := r.queue[ref]];
  }

  /** The entry may be activated, as far as the queue and the listing go. */
  predicate MayActivate(s: Store, ref: QueueRef, buyer: Address) {
    && ref in s.queue && s.queue[ref].buyer == buyer && AtFront(s.queue[ref])
    && s.queue[ref].listing in s.inventory && s.queue[ref].listing in s.trades
    && s.inventory[s.queue[ref].listing].active.None?
  }

  /** The buyer's side of the second taking: own offer, cooldown, cap, limit, minimum amount. */
  predicate StillWelcome(s: Store, ref: QueueRef, buyer: Address, trust: TrustView)
    requires MayActivate(s, ref, buyer)
  {
    var e := s.queue[ref];
    && s.trades[e.listing].seller != buyer && !trust.coolingDown && !trust.atCap
    && e.units <= trust.maxUnits && Kobo(e.units, s.inventory[e.listing].rateKobo) >= 100
  }

  /** Activation succeeds exactly when the entry may be activated and its buyer is still welcome. If the
      buyer no longer is, the reservation is already gone: the units are back in the pool and the entry
      is marked active without a trade. */
  lemma ActivationExactly(s: Store, ref: QueueRef, buyer: Address, trust: TrustView, child: TradeId, now: Time)
    requires StoreOk(s)
    ensures var (r, out) := Activate(s, ref, buyer, trust, child, now);
            && (out.TookSlot? <==> MayActivate(s, ref, buyer) && StillWelcome(s, ref, buyer, trust))
            && (!MayActivate(s, ref, buyer) ==> r == s)
            && (MayActivate(s, ref, buyer) && !StillWelcome(s, ref, buyer, trust) ==>
                  && r == GiveBack(s, ref)
                  && r.queue[ref].status == ActiveSlot && r.queue[ref].trade == s.queue[ref].trade)
  {
    hide Kobo;
    if MayActivate(s, ref, buyer) { GiveBackShape(s, ref); }
  }

  // ---- Repeated release --------------------------------------------------------------------------------------

  /** A release looks only at the listing's allocation, not at whose slot it is: it takes units away
      exactly when enough are allotted, even for a trade released before. */
  lemma ReleaseTakesExactly(s: Store, t: TradeId, completed: bool, next: Option<QueueRef>)
    requires t in s.trades && s.trades[t].units > 0
    ensures var l := if t in s.parents then s.parents[t] else t;
            l in s.inventory ==>
              var x, y := s.inventory[l], Release(s, t, completed, next).inventory[l];
              (y.allotted != x.allotted <==> x.allotted >= s.trades[t].units)
              && (y.active != x.active <==> x.active == Some(t))
  {}

  /** Nobody has ordered from listing 7 yet. */
  function NewShop(): Store {
    Store(map[7 := Inventory(3_000_000, 3_000_000, 0, 0, 0, None, 163_000)], map[7 := Shared(1, 3_000_000)], map[],
          map[])
  }

  /** The shop with `units` allotted to the child in the slot. */
  function Serving(s: Store, units: nat, child: Option<TradeId>): Store {
    s.(inventory := map[7 := Inventory(3_000_000, 3_000_000 - units, units, 0, 0, child, 163_000)])
  }

  function WithChild(s: Store, child: TradeId): Store {
    s.(trades := s.trades[child := Shared(1, 1_000_000)], parents := s.parents[child := 7])
  }

  function BuysOne(buyer: Address, child: TradeId): Act {
    TakeAct(buyer, 7, 1_000_000, TrustView(false, false, 1_000_000), child, 0)
  }

  lemma BuyerServed(s: Store, buyer: Address, child: TradeId)
    requires s.inventory == NewShop().inventory && 7 in s.trades && s.trades[7].seller == 1 && buyer != 1
    ensures Step(s, BuysOne(buyer, child), 0) == Serving(WithChild(s, child), 1_000_000, Some(child))
  {
    assert Kobo(1_000_000, 163_000) == 163_000;
  }

  lemma TradeReleased(s: Store, child: TradeId, active: Option<TradeId>, completed: bool)
    requires child in s.trades && s.trades[child].units == 1_000_000 && child in s.parents && s.parents[child] == 7
    requires s.queue == map[]
    ensures Step(Serving(s, 1_000_000, active), ReleaseAct(child, false, None), 0)
         == Serving(s, 0, if active == Some(child) then None else active)
    ensures Step(Serving(s, 0, active), ReleaseAct(child, completed, None), 0)
         == Serving(s, 0, if active == Some(child) then None else active)
  {}

  /** A run on a new listing: trade 71 is released, trade 72 of the same size takes the slot, and releasing
      71 again empties the allocation of 72. Completing 72 then fills nothing, and all units are on offer. */
  lemma SecondReleaseTakesAnothersUnits() returns (stores: seq<Store>, acts: seq<Act>)
    ensures acts == [BuysOne(5, 71), ReleaseAct(71, false, None), BuysOne(6, 72), ReleaseAct(71, false, None),
                     ReleaseAct(72, true, None)]
    ensures IsRun(stores, acts, [0, 0, 0, 0, 0]) && StoreOk(stores[0]) && Exact(stores[0])
    ensures stores[3].inventory == map[7 := Inventory(3_000_000, 2_000_000, 1_000_000, 0, 0, Some(72), 163_000)]
    ensures stores[4].inventory == map[7 := Inventory(3_000_000, 3_000_000, 0, 0, 0, Some(72), 163_000)]
    ensures stores[5].inventory == map[7 := Inventory(3_000_000, 3_000_000, 0, 0, 0, None, 163_000)]
  {
    hide Step, StoreOk, Exact;
    var s := NewShop();
    UntouchedIsOk(s);
    var one := WithChild(s, 71);
    var two := WithChild(one, 72);
    BuyerServed(s, 5, 71);
    TradeReleased(one, 71, Some(71), false);
    BuyerServed(Serving(one, 0, None), 6, 72);
    TradeReleased(two, 71, Some(72), false);
    TradeReleased(two, 72, Some(72), true);
    stores := [s, Serving(one, 1_000_000, Some(71)), Serving(one, 0, None), Serving(two, 1_000_000, Some(72)),
               Serving(two, 0, Some(72)), Serving(two, 0, None)];
    acts := [BuysOne(5, 71), ReleaseAct(71, false, None), BuysOne(6, 72), ReleaseAct(71, false, None),
             ReleaseAct(72, true, None)];
  }

  // ---- Reused queue references ---------------------------------------------------------------------------------

  /** An order that overwrites an entry keeps the reservation of whoever waited there: the surplus of a
      listing's reservation grows by exactly the units of the lost entry. */
  lemma OverwrittenEntryStrandsUnits(
    s: Store, buyer: Address, l: TradeId, requested: nat, trust: TrustView, child: TradeId, ref: QueueRef, now: Time,
    m: TradeId)
    requires Take(s, buyer, l, requested, trust, child, ref, now).1.JoinedQueue? && m in s.inventory
    ensures var r := Take(s, buyer, l, requested, trust, child, ref, now).0;
            var lost := if ref in s.queue then Weight(s.queue[ref], m) else 0;
            r.inventory[m].reserved - Reserved(r.queue, m) == s.inventory[m].reserved - Reserved(s.queue, m) + lost
  {
    hide Kobo;
    var r := Take(s, buyer, l, requested, trust, child, ref, now).0;
    ReservedWrite(s.queue, ref, r.queue[ref], m);
  }

  // ---- The store itself, updated in place ------------------------------------------------------------------------

  /** `order` lists the waiting entries of `l`, each once, by creation time. */
  ghost predicate ByArrival(q: Queue, l: TradeId, order: seq<QueueRef>) {
    && (forall i :: 0 <= i < |order| ==> order[i] in q)
    && (forall k :: k in order <==> k in WaitingRefs(q, l))
    && (forall i, j :: 0 <= i < j < |order| ==> order[i] != order[j])
    && (forall i, j :: 0 <= i < j < |order| ==> q[order[i]].createdAt <= q[order[j]].createdAt)
  }

  predicate QueuedFor(q: Queue, l: TradeId, k: QueueRef) { k in q && q[k].listing == l && q[k].status == Queued }

  /** The queued entry of `l` with the lowest position, if any. */
  ghost predicate LowestQueued(q: Queue, l: TradeId, next: Option<QueueRef>) {
    match next
    case None => forall k :: !QueuedFor(q, l, k)
    case Some(n) => QueuedFor(q, l, n) && forall k :: QueuedFor(q, l, k) ==> q[n].position <= q[k].position
  }

  class PeerStore {
    var inventory: map<TradeId, Inventory>
    var trades: map<TradeId, Shared>
    var parents: map<TradeId, TradeId>
    var queue: Queue

    ghost function Model(): Store
      reads this
    {
      Store(inventory, trades, parents, queue)
    }

    constructor (inventory: map<TradeId, Inventory>, trades: map<TradeId, Shared>)
      ensures Model() == Store(inventory, trades, map[], map[])
    {
      this.inventory, this.trades, parents, queue := inventory, trades, map[], map[];
    }

    method CountWaiting(l: TradeId) returns (n: nat)
      ensures n == |WaitingRefs(queue, l)|
    {
      var left := queue.Keys;
      ghost var seen: set<QueueRef> := {};
      n := 0;
      while left != {}
        invariant left <= queue.Keys
        invariant seen == (set k | k in queue && k !in left && Waiting(queue[k], l))
        invariant n == |seen|
        decreases |left|
      {
        var k :| k in left;
        left := left - {k};
        if Waiting(queue[k], l) {
          n := n + 1;
          seen := seen + {k};
        }
      }
      assert seen == WaitingRefs(queue, l);
    }

    method TakePeerOffer(
      buyer: Address, l: TradeId, requested: nat, trust: TrustView, child: TradeId, ref: QueueRef, now: Time)
      returns (out: Outcome)
      modifies this`inventory, this`trades, this`parents, this`queue
      ensures (Model(), out) == Take(old(Model()), buyer, l, requested, trust, child, ref, now)
    {
      hide Kobo, WaitingRefs;
      if l !in trades || l !in inventory { return Thrown(ListingNotFound); }
      var inv := inventory[l];
      var seller := trades[l].seller;
      if seller == buyer { return Thrown(OwnListing); }
      if trust.coolingDown { return Thrown(BuyerCooldown); }
      if trust.atCap { return Thrown(BuyerAtCap); }
      var units: int := requested;
      if requested == 0 { units := inv.available; }
      if units <= 0 { return Thrown(BadRequest); }
      if units > inv.available { return Thrown(ExceedsAvailable); }
      if units > trust.maxUnits { return Thrown(TrustLimitExceeded); }
      if Kobo(units, inv.rateKobo) < 100 { return Thrown(BadRequest); }
      if inv.active.Some? {
        inv := inv.(available := inv.available - units);
        inv := inv.(reserved := inv.reserved + units);
        inventory := inventory[l := inv];
        var waiting := CountWaiting(l);
        queue := queue[ref := Item(l, buyer, units, waiting + 1, Queued, None, now)];
        return JoinedQueue(ref);
      }
      var id := if units < inv.total || inv.filled > 0 || inv.reserved > 0 then child else l;
      inv := inv.(available := inv.available - units);
      inv := inv.(allotted := inv.allotted + units);
      inv := inv.(active := Some(id));
      inventory := inventory[l := inv];
      parents := parents[id := l];
      trades := trades[id := Shared(seller, units)];
      out := TookSlot(id);
    }

    method SortedByArrival(l: TradeId) returns (order: seq<QueueRef>)
      ensures ByArrival(queue, l, order)
    {
      var keys := set k | k in queue && Waiting(queue[k], l);
      var left := keys;
      order := [];
      while left != {}
        invariant left <= keys
        invariant forall i :: 0 <= i < |order| ==> order[i] in queue
        invariant forall k :: k in order <==> k in keys - left
        invariant forall i, j :: 0 <= i < j < |order| ==> order[i] != order[j]
        invariant forall i, j :: 0 <= i < j < |order| ==> queue[order[i]].createdAt <= queue[order[j]].createdAt
        invariant forall i, k :: 0 <= i < |order| && k in left ==> queue[order[i]].createdAt <= queue[k].createdAt
        decreases |left|
      {
        var first :| first in left;
        var rest := left - {first};
        while rest != {}
          invariant rest <= left && first in left && first !in rest
          invariant forall k :: k in left && k !in rest ==> queue[first].createdAt <= queue[k].createdAt
          decreases |rest|
        {
          var k :| k in rest;
          rest := rest - {k};
          if queue[k].createdAt < queue[first].createdAt {
            first := k;
          }
        }
        assert first !in order;
        left := left - {first};
        order := order + [first];
      }
    }

    method Renumber(order: seq<QueueRef>, free: bool)
      requires forall i :: 0 <= i < |order| ==> order[i] in queue
      modifies this`queue
      ensures queue == Renumbered(old(queue), order, free)
    {
      ghost var q0 := queue;
      for i := 0 to |order|
        invariant queue.Keys == q0.Keys && queue == Renumbered(q0, order[..i], free)
      {
        assert order[..i + 1][..i] == order[..i];
        var e := queue[order[i]];
        e := e.(position := i + 1);
        if i == 0 && free {
          e := e.(status := Eligible);
        }
        queue := queue[order[i] := e];
      }
      assert order[..|order|] == order;
    }

    method CancelBuyerQueueEntry(ref: QueueRef, buyer: Address) returns (out: Outcome, ghost order: seq<QueueRef>)
      modifies this`inventory, this`queue
      ensures (Model(), out) == Cancel(old(Model()), ref, buyer, order)
      ensures out.JoinedQueue? ==>
                ByArrival(old(queue)[ref := old(queue)[ref].(status := CancelledByBuyer)], old(queue)[ref].listing,
                          order)
      ensures Possible(old(Model()), CancelAct(ref, buyer, order))
    {
      hide Renumbered;
      order := [];
      if ref !in queue { return Thrown(EntryNotFound), []; }
      var e := queue[ref];
      if e.buyer != buyer { return Thrown(NotEntryOwner), []; }
      if e.status != Queued && e.status != Eligible { return Thrown(EntryNotCancellable), []; }
      queue := queue[ref := e.(status := CancelledByBuyer)];
      if e.listing in inventory && inventory[e.listing].reserved >= e.units {
        var inv := inventory[e.listing];
        inv := inv.(reserved := inv.reserved - e.units);
        inv := inv.(available := inv.available + e.units);
        inventory := inventory[e.listing := inv];
      }
      var remaining := SortedByArrival(e.listing);
      order := remaining;
      Renumber(remaining, e.listing in inventory && inventory[e.listing].active.None?);
      out := JoinedQueue(ref);
    }

    method ActivateBuyerQueueEntry(ref: QueueRef, buyer: Address, trust: TrustView, child: TradeId, now: Time)
      returns (out: Outcome)
      modifies this`inventory, this`trades, this`parents, this`queue
      ensures (Model(), out) == Activate(old(Model()), ref, buyer, trust, child, now)
    {
      hide Take;
      if ref !in queue { return Thrown(EntryNotFound); }
      var e := queue[ref];
      if e.buyer != buyer { return Thrown(NotEntryOwner); }
      if e.status != Eligible && !(e.status == Queued && e.position == 1) { return Thrown(EntryNotAtFront); }
      if e.listing !in inventory || e.listing !in trades { return Thrown(ListingNotFound); }
      var inv := inventory[e.listing];
      if inv.active.Some? { return Thrown(SlotBusy); }
      inv := inv.(reserved := Max(0, inv.reserved - e.units));
      inv := inv.(available := inv.available + e.units);
      inventory := inventory[e.listing := inv];
      queue := queue[ref := e.(status := ActiveSlot)];
      out := TakePeerOffer(buyer, e.listing, e.units, trust, child, ref, now);
      if out.TookSlot? && ref in queue {
        queue := queue[ref := queue[ref].(trade := Some(out.trade), position := 0)];
      }
    }

    method CloseActiveItems(t: TradeId, completed: bool)
      modifies this`queue
      ensures queue == CloseItems(old(queue), t, completed)
    {
      ghost var q0 := queue;
      var left := queue.Keys;
      while left != {}
        invariant left <= q0.Keys && queue.Keys == q0.Keys
        invariant forall k :: k in left ==> queue[k] == q0[k]
        invariant forall k :: k in q0 && k !in left ==> queue[k] == Closed(q0[k], t, completed)
        decreases |left|
      {
        var k :| k in left;
        left := left - {k};
        if queue[k].trade == Some(t) && queue[k].status == ActiveSlot {
          queue := queue[k := queue[k].(status := if completed then Completed else Expired)];
        }
      }
    }

    method FirstQueued(l: TradeId) returns (next: Option<QueueRef>)
      ensures LowestQueued(queue, l, next)
    {
      next := None;
      var left := queue.Keys;
      while left != {}
        invariant left <= queue.Keys
        invariant next.None? ==> forall k :: k in queue && k !in left ==> !QueuedFor(queue, l, k)
        invariant next.Some? ==> QueuedFor(queue, l, next.value) && next.value !in left
        invariant next.Some? ==> forall k :: k !in left && QueuedFor(queue, l, k) ==>
                                   queue[next.value].position <= queue[k].position
        decreases |left|
      {
        var k :| k in left;
        left := left - {k};
        if queue[k].listing == l && queue[k].status == Queued {
          if next.None? || queue[k].position < queue[next.value].position {
            next := Some(k);
          }
        }
      }
    }

    method ReleaseSellerSlotAndAdvanceQueue(t: TradeId, completed: bool) returns (ghost next: Option<QueueRef>)
      modifies this`inventory, this`queue
      ensures Model() == Release(old(Model()), t, completed, next)
      ensures var l := if t in old(parents) then old(parents)[t] else t;
              l in old(inventory) && t in trades ==> LowestQueued(CloseItems(old(queue), t, completed), l, next)
      ensures Possible(old(Model()), ReleaseAct(t, completed, next))
    {
      next := None;
      var l := t;
      if t in parents { l := parents[t]; }
      if l !in inventory || t !in trades { return; }
      var units := trades[t].units;
      var inv := inventory[l];
      if inv.allotted >= units {
        inv := inv.(allotted := inv.allotted - units);
        if completed {
          inv := inv.(filled := inv.filled + units);
        } else {
          inv := inv.(available := inv.available + units);
        }
      }
      if inv.active == Some(t) {
        inv := inv.(active := None);
      }
      inventory := inventory[l := inv];
      CloseActiveItems(t, completed);
      var first := FirstQueued(l);
      next := first;
      if first.Some? {
        queue := queue[first.value := queue[first.value].(status := Eligible, position := 1)];
      }
    }
  }
}
