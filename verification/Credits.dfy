/** A buyer's standing is earned: the completion counters are what the run's completed trades add up to. */
module Credits {
  import opened Core
  import opened Lifecycle
  import opened Payments
  import opened Settlement
  import opened Trust
  import opened System
  import opened Invariant
  import opened Reconciliation
  import opened Runs
  import opened Safety
  import opened Obligations

  type Trades = map<TradeId, Trade>

  function CompletedOf(s: Sys, b: Address): set<TradeId> {
    set t | t in s.pay.trades && s.pay.trades[t].stage == Completed && s.pay.trades[t].buyer == Some(b)
  }

  ghost function UnitsOf(ts: Trades, keys: set<TradeId>): nat
    requires keys <= ts.Keys
    decreases |keys|
  {
    if keys == {} then 0 else
    var t :| t in keys;
    ts[t].units + UnitsOf(ts, keys - {t})
  }

  lemma {:induction false} UnitsRemove(ts: Trades, keys: set<TradeId>, t: TradeId)
    requires keys <= ts.Keys && t in keys
    ensures UnitsOf(ts, keys) == ts[t].units + UnitsOf(ts, keys - {t})
    decreases |keys|
  {
    var m :| m in keys && UnitsOf(ts, keys) == ts[m].units + UnitsOf(ts, keys - {m});
    if m != t {
      UnitsRemove(ts, keys - {m}, t);
      UnitsRemove(ts, keys - {t}, m);
      assert keys - {m} - {t} == keys - {t} - {m};
    }
  }

  lemma {:induction false} UnitsSame(ts: Trades, us: Trades, keys: set<TradeId>)
    requires keys <= ts.Keys && keys <= us.Keys && forall t :: t in keys ==> us[t].units == ts[t].units
    ensures UnitsOf(us, keys) == UnitsOf(ts, keys)
    decreases |keys|
  {
    if keys != {} {
      var t :| t in keys;
      UnitsRemove(ts, keys, t);
      UnitsRemove(us, keys, t);
      UnitsSame(ts, us, keys - {t});
    }
  }

  lemma {:induction false} UnitsBounded(ts: Trades, keys: set<TradeId>)
    requires keys <= ts.Keys && forall t :: t in keys ==> ts[t].units <= HIGH_LIMIT
    ensures UnitsOf(ts, keys) <= HIGH_LIMIT * |keys|
    decreases |keys|
  {
    if keys != {} {
      var t :| t in keys;
      UnitsRemove(ts, keys, t);
      UnitsBounded(ts, keys - {t});
    }
  }

  // ---- One step ------------------------------------------------------------------------------------------

  /** The action completes a trade of `b`. */
  predicate CompletesFor(s: Sys, a: Timed, b: Address) {
    a.act.ConfirmOnChain? && Completes(s.pay, a.act.tid, a.act.txHash) && s.pay.trades[a.act.tid].buyer == Some(b)
  }

  /** The trade of `b` that the action completes, if any. */
  function Gained(s: Sys, a: Timed, b: Address): set<TradeId> { if CompletesFor(s, a, b) then {a.act.tid} else {} }

  function UnitsCompleted(s: Sys, a: Timed, b: Address): U128
    requires CompletesFor(s, a, b)
  {
    s.pay.trades[a.act.tid].units
  }

  lemma {:induction false} PenaltiesSpareCompletions(p: Profile, n: nat, now: Time)
    ensures var q := Penalised(p, n, now);
            q.counters.completed == p.counters.completed && q.counters.volume == p.counters.volume
  {
    hide PolicyOf, CooldownSeconds;
    if n == 0 {
    } else {
      PenaltiesSpareCompletions(p, n - 1, now);
    }
  }

  lemma CountersAfter(s: Sys, a: Timed, b: Address)
    ensures var c, d := ProfileOf(s, b).counters, ProfileAfter(s, a, b).counters;
            if CompletesFor(s, a, b)
            then && d.completed == WrapAdd32(c.completed, 1)
                 && d.volume == SaturatingAdd(c.volume, UnitsCompleted(s, a, b))
            else d.completed == c.completed && d.volume == c.volume
  {
    hide PolicyOf, ProfileOf, LapsedOf, Penalised;
    if a.act.Reconcile? { PenaltiesSpareCompletions(ProfileOf(s, b), |LapsedOf(s.pay, b, a.now)|, a.now); }
  }

  /** A trade is completed by a confirmation that goes through, and only then. */
  lemma CompletionStep(s: Sys, a: Timed, r: Sys, t: TradeId)
    requires GoodStep(s, a, r) && t in s.pay.trades
    ensures t in r.pay.trades && Moves(s.pay.trades[t], r.pay.trades[t])
    ensures s.pay.trades[t].stage == Completed ==> r.pay.trades[t].stage == Completed
    ensures s.pay.trades[t].stage != Completed && r.pay.trades[t].stage == Completed ==>
              && a.act.ConfirmOnChain? && a.act.tid == t
              && s.pay.trades[t].stage in {ReleasePending, ReleaseOnHold}
  {
    hide Inv, RecordsKept, NoOldTradeSeated, SameOffers;
    assert Moves(s.pay.trades[t], r.pay.trades[t]);
    if s.pay.trades[t].stage != r.pay.trades[t].stage { assert Moved(s.pay, r.pay, t); }
  }

  lemma ConfirmationExact(s: Sys, tid: TradeId, txHash: Option<Hash>, hint: Ledger.Visit, now: Time)
    requires tid in s.pay.trades
    ensures var r := ConfirmRelease(s, tid, txHash, hint, now).0;
            if Completes(s.pay, tid, txHash)
            then tid in r.pay.trades && r.pay.trades[tid].stage == Completed
            else r == s
  {
    hide Resolve, AfterCompletion, WrapAdd32;
    var (p1, reply) := ReleaseComplete(s.pay, tid, txHash);
    if reply == Done { SparedPayments(Credit(s.(pay := p1), p1.trades[tid]), tid, hint, now); }
  }

  lemma SparedPayments(s: Sys, tid: TradeId, hint: Ledger.Visit, now: Time)
    ensures Resolve(s, tid, true, hint, now).pay == s.pay
  {
    hide Ledger.FreeSlot, Ledger.SettleEntries, Ledger.Promote;
  }

  /** The completed trades of a buyer after an action. */
  lemma CompletedAfter(s: Sys, a: Timed, b: Address)
    requires Inv(s) && Possible(s, a.act)
    ensures CompletedOf(Step(s, a), b) == CompletedOf(s, b) + Gained(s, a, b)
    ensures CompletedOf(s, b) * Gained(s, a, b) == {}
  {
    hide Inv, GoodStep, ConfirmRelease, Moves;
    var r := Step(s, a);
    StepKeeps(s, a);
    hide Step, Possible;
    if a.act.ConfirmOnChain? && a.act.tid in s.pay.trades { ConfirmedStep(s, a); }
    forall t | t in r.pay.trades
      ensures t in CompletedOf(r, b) <==> t in CompletedOf(s, b) || (CompletesFor(s, a, b) && t == a.act.tid)
    {
      if t in s.pay.trades {
        CompletionStep(s, a, r, t);
        SameBuyerMoves(s.pay.trades[t], r.pay.trades[t]);
      } else {
        OldOrWaiting(s, a, r, t);
      }
    }
    forall t | t in s.pay.trades
      ensures t in r.pay.trades
    {
      CompletionStep(s, a, r, t);
    }
  }

  lemma ConfirmedStep(s: Sys, a: Timed)
    requires a.act.ConfirmOnChain? && a.act.tid in s.pay.trades
    ensures var r := Step(s, a);
            if Completes(s.pay, a.act.tid, a.act.txHash)
            then a.act.tid in r.pay.trades && r.pay.trades[a.act.tid].stage == Completed else r == s
  {
    hide ConfirmRelease, Completes;
    ConfirmationExact(s, a.act.tid, a.act.txHash, a.act.hint, a.now);
  }

  lemma SameBuyerMoves(t: Trade, u: Trade)
    requires Moves(t, u)
    ensures u.buyer == t.buyer && u.units == t.units
  {}

  // ---- Runs ------------------------------------------------------------------------------------------------

  lemma CompletedUnits(s: Sys, b: Address)
    requires Inv(s)
    ensures UnitsOf(s.pay.trades, CompletedOf(s, b)) <= HIGH_LIMIT * |CompletedOf(s, b)|
  {
    hide Ledger.Sum, Inventory.LedgerOk, ProfilesOk, ColumnsOk, RowsOk, AttemptOk, Convert;
    UnitsBounded(s.pay.trades, CompletedOf(s, b));
  }

  lemma UnitsAfter(s: Sys, a: Timed, r: Sys, b: Address)
    requires GoodStep(s, a, r)
    requires forall t :: t in CompletedOf(s, b) ==> t in r.pay.trades
    ensures UnitsOf(r.pay.trades, CompletedOf(s, b)) == UnitsOf(s.pay.trades, CompletedOf(s, b))
  {
    hide GoodStep;
    forall t | t in CompletedOf(s, b)
      ensures r.pay.trades[t].units == s.pay.trades[t].units
    {
      CompletionStep(s, a, r, t);
    }
    UnitsSame(s.pay.trades, r.pay.trades, CompletedOf(s, b));
  }

  function Saturated(n: nat): U128 { if n < U128_SIZE then n else U128_SIZE - 1 }

  lemma CountedOn(n: nat, sum: nat, units: U128)
    ensures WrapAdd32(n % 0x1_0000_0000, 1) == (n + 1) % 0x1_0000_0000
    ensures SaturatingAdd(Saturated(sum), units) == Saturated(sum + units)
  {}

  /** On every run a buyer's completion counter is the number of their completed trades, in 32 bits, and the
      volume the sum of those trades' units; both are exact as long as there are fewer than 2^32 of them. */
  lemma {:induction false} CreditIsEarned(states: seq<Sys>, acts: seq<Timed>, n: nat, b: Address)
    requires IsRun(states, acts) && n <= |acts|
    ensures var c, done := ProfileOf(states[n], b).counters, CompletedOf(states[n], b);
            && c.completed == |done| % 0x1_0000_0000
            && c.volume == Saturated(UnitsOf(states[n].pay.trades, done))
            && (|done| < 0x1_0000_0000 ==> c.completed == |done| && c.volume == UnitsOf(states[n].pay.trades, done))
    decreases n
  {
    hide Inv, Empty, Step, Possible, ProfileOf, CompletedOf, CompletesFor, GoodStep, ProfileAfter, UnitsOf, Gained,
         WrapAdd32, SaturatingAdd;
    RunKeeps(states, acts, n);
    CompletedUnits(states[n], b);
    if n == 0 {
      NothingEarned(states[0].pay.config, b);
    } else {
      var s, a, r := states[n - 1], acts[n - 1], states[n];
      assert Next(s, a, r);
      RunKeeps(states, acts, n - 1);
      RunStep(states, acts, n - 1);
      CompletedAfter(s, a, b);
      CreditIsEarned(states, acts, n - 1, b);
      StepProfiles(s, a, b);
      CountersAfter(s, a, b);
      CreditStep(s, a, r, b);
      if CompletesFor(s, a, b) {
        CompletedAreTrades(s, b);
        CountedOn(|CompletedOf(s, b)|, UnitsOf(s.pay.trades, CompletedOf(s, b)), UnitsCompleted(s, a, b));
      }
    }
  }

  lemma CompletedAreTrades(s: Sys, b: Address)
    ensures CompletedOf(s, b) <= s.pay.trades.Keys
  {}

  lemma NothingEarned(config: Config, b: Address)
    ensures CompletedOf(Empty(config), b) == {} && ProfileOf(Empty(config), b).counters.completed == 0
    ensures ProfileOf(Empty(config), b).counters.volume == 0
    ensures UnitsOf(Empty(config).pay.trades, CompletedOf(Empty(config), b)) == 0
  {}

  lemma CreditStep(s: Sys, a: Timed, r: Sys, b: Address)
    requires GoodStep(s, a, r)
    requires CompletedOf(r, b) == CompletedOf(s, b) + Gained(s, a, b)
    requires CompletedOf(s, b) * Gained(s, a, b) == {}
    ensures |CompletedOf(r, b)| == |CompletedOf(s, b)| + if CompletesFor(s, a, b) then 1 else 0
    ensures UnitsOf(r.pay.trades, CompletedOf(r, b)) == UnitsOf(s.pay.trades, CompletedOf(s, b))
              + if CompletesFor(s, a, b) then UnitsCompleted(s, a, b) else 0
  {
    hide GoodStep, Completes, Moves;
    forall t | t in CompletedOf(s, b)
      ensures t in r.pay.trades
    {
      CompletionStep(s, a, r, t);
    }
    UnitsAfter(s, a, r, b);
    if CompletesFor(s, a, b) {
      var t := a.act.tid;
      assert t in CompletedOf(r, b) && t !in CompletedOf(s, b);
      UnitsRemove(r.pay.trades, CompletedOf(r, b), t);
      assert CompletedOf(r, b) - {t} == CompletedOf(s, b);
      CompletesThere(s, t, a.act.txHash);
      CompletionStep(s, a, r, t);
      SameBuyerMoves(s.pay.trades[t], r.pay.trades[t]);
    } else {
      assert CompletedOf(r, b) == CompletedOf(s, b);
    }
  }

  lemma CompletesThere(s: Sys, t: TradeId, txHash: Option<Hash>)
    requires Completes(s.pay, t, txHash)
    ensures t in s.pay.trades
  {}
}
