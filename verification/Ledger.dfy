/** Seller listings with their inventory buckets, the queue table, and the steps on them
    (rust/src/payments_api.rs, rust/src/state.rs). */
module Ledger {
  import opened Core

  datatype ListingStatus = Active | Paused | Depleted | Closed

  datatype Listing = Listing(
    seller: Address,
    total: U128,
    available: U128,
    allotted: U128,
    reserved: U128,
    filled: U128,
    withdrawn: U128,
    currency: string,
    rateMinor: U128,
    status: ListingStatus,
    active: Option<TradeId>,
    leaseOwner: Option<Address>,
    leaseExpires: Option<Time>)

  datatype EntryStatus =
    Queued | Eligible | ActiveSlot | EntryCompleted | CancelledByBuyer | EntryExpired | EntryRejected

  datatype Entry = Entry(
    listing: ListingRef,
    buyer: Address,
    units: U128,
    quoted: U128,
    rateMinor: U128,
    position: nat,
    status: EntryStatus,
    tradeId: Option<TradeId>,
    consentDeadline: Option<Time>,
    createdAt: Time)

  type Listings = map<ListingRef, Listing>
  type Queue = map<QueueRef, Entry>

  const CONSENT_WINDOW := 300

  /** The total as the source checks it, bucket by bucket, with checked additions. */
  function CheckedTotal(l: Listing): Option<U128> {
    match CheckedAdd(l.available, l.allotted)
    case None => None
    case Some(a) =>
      match CheckedAdd(a, l.reserved)
      case None => None
      case Some(b) =>
        match CheckedAdd(b, l.filled)
        case None => None
        case Some(c) => CheckedAdd(c, l.withdrawn)
  }

  /** The run-time conservation check. */
  predicate Conserves(l: Listing) { CheckedTotal(l) == Some(l.total) }

  predicate HasActiveSlot(l: Listing, now: Time) {
    l.active.Some? || (l.leaseExpires.Some? && l.leaseExpires.value > now)
  }

  // ---- Bucket moves --------------------------------------------------------------------------

  function Reserve(l: Listing, units: U128): Listing
    requires units <= l.available
  {
    l.(available := l.available - units, reserved := WrapAdd(l.reserved, units))
  }

  function Seat(l: Listing, units: U128, tid: TradeId, buyer: Address, lease: Option<Time>): Listing
    requires units <= l.available
  {
    l.(available := l.available - units, allotted := WrapAdd(l.allotted, units),
       active := Some(tid), leaseOwner := Some(buyer), leaseExpires := lease)
  }

  function SeatReserved(l: Listing, units: U128, tid: TradeId, buyer: Address, lease: Option<Time>): Listing
    requires units <= l.reserved
  {
    l.(reserved := l.reserved - units, allotted := WrapAdd(l.allotted, units),
       active := Some(tid), leaseOwner := Some(buyer), leaseExpires := lease)
  }

  function ReturnReserved(l: Listing, units: U128): Listing {
    if l.reserved < units then l else
    var m := l.(reserved := l.reserved - units, available := WrapAdd(l.available, units));
    if m.status == Depleted && m.available > 0 then m.(status := Active) else m
  }

  function FreeSlot(l: Listing, amount: U128, completed: bool): Listing {
    var moved :=
      if l.allotted < amount then l
      else if completed then l.(allotted := l.allotted - amount, filled := SaturatingAdd(l.filled, amount))
      else l.(allotted := l.allotted - amount, available := SaturatingAdd(l.available, amount));
    var cleared := moved.(active := None, leaseOwner := None, leaseExpires := None);
    if cleared.available == 0 && cleared.allotted == 0 && cleared.reserved == 0
    then cleared.(status := Depleted) else cleared
  }

  // ---- Queue order ---------------------------------------------------------------------------

  predicate IsWaiting(e: Entry, l: ListingRef) { e.listing == l && e.status in {Queued, Eligible} }

  predicate IsQueued(e: Entry, l: ListingRef) { e.listing == l && e.status == Queued }

  function WaitingKeys(q: Queue, l: ListingRef): set<QueueRef> { set k | k in q && IsWaiting(q[k], l) }

  function QueuedKeys(q: Queue, l: ListingRef): set<QueueRef> { set k | k in q && IsQueued(q[k], l) }

  /** The sort key (position, creation time), ties allowed. */
  predicate Precedes(a: Entry, b: Entry) {
    a.position < b.position || (a.position == b.position && a.createdAt <= b.createdAt)
  }

  /** `order` lists exactly `keys`, each once, sorted. Entries that tie may come in either order, as
      the hash table's iteration decides. */
  ghost predicate IsOrder(q: Queue, keys: set<QueueRef>, order: seq<QueueRef>)
    requires keys <= q.Keys
  {
    && (forall k :: k in order <==> k in keys)
    && (forall i, j :: 0 <= i < j < |order| ==> order[i] != order[j])
    && (forall i, j :: 0 <= i < j < |order| ==> Precedes(q[order[i]], q[order[j]]))
  }

  ghost predicate IsFirst(q: Queue, keys: set<QueueRef>, k: QueueRef)
    requires keys <= q.Keys
  {
    k in keys && forall m :: m in keys ==> Precedes(q[k], q[m])
  }

  lemma {:induction false} FirstExists(q: Queue, keys: set<QueueRef>) returns (k: QueueRef)
    requires keys != {} && keys <= q.Keys
    ensures IsFirst(q, keys, k)
    decreases |keys|
  {
    k :| k in keys;
    if keys != {k} {
      var rest := keys - {k};
      var m := FirstExists(q, rest);
      assert keys == rest + {k};
      if !Precedes(q[k], q[m]) {
        k := m;
      }
    }
  }

  lemma {:induction false} OrderExists(q: Queue, keys: set<QueueRef>) returns (order: seq<QueueRef>)
    requires keys <= q.Keys
    ensures IsOrder(q, keys, order)
    decreases |keys|
  {
    if keys == {} {
      order := [];
    } else {
      var k := FirstExists(q, keys);
      var rest := OrderExists(q, keys - {k});
      order := [k] + rest;
    }
  }

  /** The sorted order in which the entries are visited: the hinted one if it is one. */
  ghost function OrderOf(q: Queue, keys: set<QueueRef>, hint: seq<QueueRef>): (order: seq<QueueRef>)
    requires keys <= q.Keys
    ensures IsOrder(q, keys, order)
    ensures IsOrder(q, keys, hint) ==> order == hint
  {
    if IsOrder(q, keys, hint) then hint else
      OrderSomewhere(q, keys);
      var order :| IsOrder(q, keys, order);
      order
  }

  lemma OrderSomewhere(q: Queue, keys: set<QueueRef>)
    requires keys <= q.Keys
    ensures exists order :: IsOrder(q, keys, order)
  {
    var order := OrderExists(q, keys);
  }

  /** The queued entry that comes next: the hinted one if it is first. */
  ghost function NextQueued(q: Queue, l: ListingRef, hint: QueueRef): (next: Option<QueueRef>)
    ensures next.Some? ==> IsFirst(q, QueuedKeys(q, l), next.value)
    ensures next.None? <==> QueuedKeys(q, l) == {}
    ensures IsFirst(q, QueuedKeys(q, l), hint) ==> next == Some(hint)
  {
    if QueuedKeys(q, l) == {} then None
    else if IsFirst(q, QueuedKeys(q, l), hint) then Some(hint)
    else
      FirstSomewhere(q, QueuedKeys(q, l));
      var k :| IsFirst(q, QueuedKeys(q, l), k);
      Some(k)
  }

  lemma FirstSomewhere(q: Queue, keys: set<QueueRef>)
    requires keys != {} && keys <= q.Keys
    ensures exists k :: IsFirst(q, keys, k)
  {
    var k := FirstExists(q, keys);
  }

  // ---- Queue steps ---------------------------------------------------------------------------

  function SettledEntry(e: Entry, tid: TradeId, completed: bool): Entry {
    if e.tradeId == Some(tid) && e.status == ActiveSlot
    then e.(status := if completed then EntryCompleted else EntryExpired) else e
  }

  /** Closes the active entry of a resolved trade. */
  function SettleEntries(q: Queue, tid: TradeId, completed: bool): Queue {
    map k | k in q :: SettledEntry(q[k], tid, completed)
  }

  function Promoted(e: Entry, now: Time): Entry {
    e.(status := Eligible, consentDeadline := Some(now + CONSENT_WINDOW), position := 1)
  }

  function Promote(q: Queue, next: Option<QueueRef>, now: Time): Queue {
    if next.Some? && next.value in q then q[next.value := Promoted(q[next.value], now)] else q
  }

  /** The entry once it stands at position `i` after a renumbering. */
  function Numbered(e: Entry, i: nat, busy: bool, now: Time): Entry {
    if i == 1 && e.status == Queued && !busy
    then e.(position := i, status := Eligible, consentDeadline := Some(now + CONSENT_WINDOW))
    else e.(position := i)
  }

  /** Where `k` first stands in `order`. */
  function IndexOf(order: seq<QueueRef>, k: QueueRef): (i: nat)
    requires k in order
    ensures i < |order| && order[i] == k
  {
    if order[0] == k then 0 else 1 + IndexOf(order[1..], k)
  }

  /** The queue with the entries of `order` renumbered from 1. */
  function Renumbered(q: Queue, order: seq<QueueRef>, busy: bool, now: Time): Queue {
    map k | k in q :: if k in order then Numbered(q[k], IndexOf(order, k) + 1, busy, now) else q[k]
  }

  /** What a hash table's iteration meets first where the order matters: a listing serving the trade,
      and a next entry among those that tie. */
  datatype Visit = Visit(listing: ListingRef, entry: QueueRef)

  /** The seller's listing that serves this trade, if any: the visited one if it does. */
  ghost function ServingListing(ls: Listings, tid: TradeId, hint: ListingRef): (l: Option<ListingRef>)
    ensures l.Some? ==> l.value in ls && ls[l.value].active == Some(tid)
    ensures l.None? ==> forall k :: k in ls ==> ls[k].active != Some(tid)
    ensures hint in ls && ls[hint].active == Some(tid) ==> l == Some(hint)
  {
    if hint in ls && ls[hint].active == Some(tid) then Some(hint)
    else if exists k :: k in ls && ls[k].active == Some(tid) then
      var k :| k in ls && ls[k].active == Some(tid); Some(k)
    else None
  }

  // ---- Sums over the queue table ---------------------------------------------------------------

  datatype Bucket = InReserve | InSlot | Sold

  function Weight(e: Entry, l: ListingRef, b: Bucket): nat {
    if e.listing != l then 0 else
    match b
    case InReserve => if e.status in {Queued, Eligible} then e.units else 0
    case InSlot => if e.status == ActiveSlot then e.units else 0
    case Sold => if e.status == EntryCompleted then e.units else 0
  }

  ghost function Sum(q: Queue, l: ListingRef, b: Bucket): nat
    decreases |q|
  {
    if q == map[] then 0 else
    var k :| k in q;
    Weight(q[k], l, b) + Sum(q - {k}, l, b)
  }

  lemma {:induction false} SumRemove(q: Queue, k: QueueRef, l: ListingRef, b: Bucket)
    requires k in q
    ensures Sum(q, l, b) == Weight(q[k], l, b) + Sum(q - {k}, l, b)
    decreases |q|
  {
    var m :| m in q && Sum(q, l, b) == Weight(q[m], l, b) + Sum(q - {m}, l, b);
    if m != k {
      SumRemove(q - {m}, k, l, b);
      SumRemove(q - {k}, m, l, b);
      assert q - {m} - {k} == q - {k} - {m};
    }
  }

  /** Adding or replacing one entry shifts a sum by the difference of the weights. */
  lemma SumWrite(q: Queue, k: QueueRef, e: Entry, l: ListingRef, b: Bucket)
    ensures Sum(q[k := e], l, b)
         == Sum(q, l, b) - (if k in q then Weight(q[k], l, b) else 0) + Weight(e, l, b)
  {
    var r := q[k := e];
    SumRemove(r, k, l, b);
    if k in q {
      SumRemove(q, k, l, b);
      assert r - {k} == q - {k};
    } else {
      assert r - {k} == q;
    }
  }

  lemma {:induction false} SumSame(q: Queue, r: Queue, l: ListingRef, b: Bucket)
    requires q.Keys == r.Keys
    requires forall k :: k in q ==> Weight(q[k], l, b) == Weight(r[k], l, b)
    ensures Sum(q, l, b) == Sum(r, l, b)
    decreases |q|
  {
    if q == map[] {
      assert r == map[];
    } else {
      var k :| k in q;
      SumRemove(q, k, l, b);
      SumRemove(r, k, l, b);
      SumSame(q - {k}, r - {k}, l, b);
    }
  }

  lemma SumContains(q: Queue, k: QueueRef, l: ListingRef, b: Bucket)
    requires k in q
    ensures Weight(q[k], l, b) <= Sum(q, l, b)
  {
    SumRemove(q, k, l, b);
  }

  // ---- Renumbering -----------------------------------------------------------------------------

  /** A renumbered entry is the same entry: only position, eligibility and consent window differ. */
  lemma RenumberedSame(q: Queue, order: seq<QueueRef>, busy: bool, now: Time, k: QueueRef)
    requires k in q
    ensures var r := Renumbered(q, order, busy, now);
            && r[k] == q[k].(position := r[k].position, status := r[k].status, consentDeadline := r[k].consentDeadline)
            && (r[k].status == q[k].status || (k in order && q[k].status == Queued && r[k].status == Eligible && !busy))
            && (k !in order ==> r[k] == q[k])
            && (k in order ==> 1 <= r[k].position <= |order| && order[r[k].position - 1] == k)
  {}

  lemma RenumberedWaiting(q: Queue, order: seq<QueueRef>, busy: bool, now: Time, l: ListingRef)
    ensures var r := Renumbered(q, order, busy, now);
            r.Keys == q.Keys && WaitingKeys(r, l) == WaitingKeys(q, l)
  {
    var r := Renumbered(q, order, busy, now);
    forall k | k in q
      ensures IsWaiting(r[k], l) <==> IsWaiting(q[k], l)
    {
      RenumberedSame(q, order, busy, now, k);
    }
  }

  /** A cancelled queue's waiting entries come out numbered exactly 1..n, in the order they stood. */
  lemma RenumberingIsExact(q: Queue, l: ListingRef, hint: seq<QueueRef>, busy: bool, now: Time)
    ensures var keys := WaitingKeys(q, l);
            var r := Renumbered(q, OrderOf(q, keys, hint), busy, now);
            && r.Keys == q.Keys
            && WaitingKeys(r, l) == keys
            && (forall k :: k in keys ==> 1 <= r[k].position <= |keys|)
            && (forall a, b :: a in keys && b in keys && a != b ==> r[a].position != r[b].position)
            && (forall a, b :: a in keys && b in keys && r[a].position < r[b].position ==> Precedes(q[a], q[b]))
  {
    hide Renumbered, Precedes;
    var keys := WaitingKeys(q, l);
    var order := OrderOf(q, keys, hint);
    RenumberedWaiting(q, order, busy, now, l);
    DistinctSize(order, keys);
    var r := Renumbered(q, order, busy, now);
    forall k | k in keys
      ensures 1 <= r[k].position <= |keys| && order[r[k].position - 1] == k
    {
      RenumberedSame(q, order, busy, now, k);
    }
    forall a, b | a in keys && b in keys && r[a].position < r[b].position
      ensures Precedes(q[a], q[b])
    {
      assert Precedes(q[order[r[a].position - 1]], q[order[r[b].position - 1]]);
    }
  }

  /** One step of the renumbering loop. */
  lemma RenumberStep(q: Queue, order: seq<QueueRef>, n: nat, busy: bool, now: Time)
    requires n < |order| && order[n] in q
    requires forall i, j :: 0 <= i < j < |order| ==> order[i] != order[j]
    ensures Renumbered(q, order[..n + 1], busy, now)
         == Renumbered(q, order[..n], busy, now)[order[n] := Numbered(q[order[n]], n + 1, busy, now)]
  {
    var before, after := order[..n], order[..n + 1];
    assert after == before + [order[n]];
    forall k | k in after
      ensures k in before ==> IndexOf(after, k) == IndexOf(before, k)
      ensures k == order[n] ==> IndexOf(after, k) == n && k !in before
    {
      assert order[IndexOf(after, k)] == k;
    }
  }

  lemma {:induction false} DistinctSize(order: seq<QueueRef>, keys: set<QueueRef>)
    requires forall k :: k in order <==> k in keys
    requires forall i, j :: 0 <= i < j < |order| ==> order[i] != order[j]
    ensures |order| == |keys|
  {
    if order == [] {
      assert keys == {};
    } else {
      var rest := order[1..];
      assert order == [order[0]] + rest;
      assert order[0] !in rest;
      DistinctSize(rest, keys - {order[0]});
    }
  }
}
