/** Buyer trust: score, tier, limits and progressive cooldowns (rust/src/lifecycle.rs). */
module Trust {
  import opened Core

  datatype Tier = Restricted | New | Standard | Established | HighLimit

  datatype Verification = Unverified | PendingReview | Verified | Rejected

  const RESTRICTED_LIMIT: U128 := 50_000_000
  const NEW_BUYER_LIMIT: U128 := 150_000_000
  const STANDARD_LIMIT: U128 := 500_000_000
  const ESTABLISHED_LIMIT: U128 := 2_500_000_000
  const HIGH_LIMIT: U128 := 10_000_000_000
  const LARGE_TRADE_THRESHOLD: U128 := 1_000_000_000
  const COOLDOWN_STEPS: seq<nat> := [300, 900, 3600, 21600, 86400]

  /** The counters that a buyer's policy depends on. */
  datatype Counters = Counters(
    completed: U32,
    volume: U128,
    expiries: U32,
    streak: U32,
    cancelledQueue: U32,
    rapidCancels: U32,
    disputeLosses: U32,
    verification: Verification)

  /** What the counters entitle the buyer to. */
  datatype Policy = Policy(score: nat, tier: Tier, limit: U128, concurrent: nat)

  datatype Profile = Profile(
    counters: Counters,
    onTime: U32,
    policy: Policy,
    cooldownUntil: Option<Time>)

  // ---- Policy ------------------------------------------------------------------------------

  predicate FitsI32(x: int) { -0x8000_0000 <= x < 0x8000_0000 }

  /** A value as it is after truncation to a signed 32-bit register. */
  function I32(x: int): (r: int)
    ensures FitsI32(r)
    decreases if FitsI32(x) then 0 else if x < 0 then -x else x
  {
    if FitsI32(x) then x
    else if x > 0 then I32(x - 0x1_0000_0000)
    else I32(x + 0x1_0000_0000)
  }

  function Min(a: int, b: int): int { if a < b then a else b }

  function Clamp(x: int, lo: int, hi: int): int {
    if x < lo then lo else if x > hi then hi else x
  }

  const VOLUME_STEP := 50_000_000

  function CompletedBonus(c: Counters): int { Min(I32(I32(c.completed) * 12), 240) }

  function VolumeBonus(c: Counters): int { Min(I32(I32(c.volume / VOLUME_STEP) * 5), 150) }

  function VerificationBonus(c: Counters): int { if c.verification == Verified then 60 else 0 }

  function ExpiryPenalty(c: Counters): int { I32(I32(I32(c.expiries) * 25) + I32(I32(c.streak) * 20)) }

  function DisputePenalty(c: Counters): int { I32(I32(c.disputeLosses) * 120) }

  function ChurnPenalty(c: Counters): int {
    I32(I32(I32(c.rapidCancels) * 15) + I32(I32(c.cancelledQueue) * 2))
  }

  /** The running total, truncated after every addition and subtraction. */
  function Total(completed: int, volume: int, verified: int, expiry: int, dispute: int, churn: int): int {
    I32(I32(I32(I32(I32(I32(50 + completed) + volume) + verified) - expiry) - dispute) - churn)
  }

  function RawScore(c: Counters): int {
    Total(CompletedBonus(c), VolumeBonus(c), VerificationBonus(c), ExpiryPenalty(c), DisputePenalty(c), ChurnPenalty(c))
  }

  function Score(c: Counters): (s: nat)
    ensures s <= 1000
  {
    Clamp(RawScore(c), 0, 1000)
  }

  function TierOf(c: Counters, score: nat): Tier {
    if c.disputeLosses >= 2 || c.streak >= 4 || score < 25 then Restricted
    else if c.completed >= 20 && c.volume >= 5_000_000_000 && score >= 300 then HighLimit
    else if c.completed >= 5 && c.volume >= 500_000_000 && score >= 140 then Established
    else if c.completed >= 1 && score >= 60 then Standard
    else New
  }

  function LimitOf(t: Tier): (l: U128)
    ensures l <= HIGH_LIMIT
  {
    match t
    case Restricted => RESTRICTED_LIMIT
    case New => NEW_BUYER_LIMIT
    case Standard => STANDARD_LIMIT
    case Established => ESTABLISHED_LIMIT
    case HighLimit => HIGH_LIMIT
  }

  function ConcurrentOf(t: Tier): nat {
    match t
    case HighLimit => 3
    case Established => 2
    case _ => 1
  }

  function PolicyOf(c: Counters): Policy {
    var score := Score(c);
    var tier := TierOf(c, score);
    Policy(score, tier, LimitOf(tier), ConcurrentOf(tier))
  }

  /** The stored policy is the one its counters determine. */
  predicate Consistent(p: Profile) { p.policy == PolicyOf(p.counters) }

  // ---- Profile steps -----------------------------------------------------------------------

  function NewProfile(): Profile {
    Profile(Counters(0, 0, 0, 0, 0, 0, 0, Unverified), 0, Policy(50, New, NEW_BUYER_LIMIT, 1), None)
  }

  function Recalculated(p: Profile): Profile { p.(policy := PolicyOf(p.counters)) }

  function CooldownSeconds(streak: nat): nat {
    var idx := if streak == 0 then 0 else streak - 1;
    COOLDOWN_STEPS[Min(idx, 4)]
  }

  function CountExpiry(c: Counters): Counters {
    c.(expiries := WrapAdd32(c.expiries, 1), streak := WrapAdd32(c.streak, 1))
  }

  function CountCompletion(c: Counters, units: U128): Counters {
    c.(completed := WrapAdd32(c.completed, 1), volume := SaturatingAdd(c.volume, units), streak := 0)
  }

  function CountQueueCancel(c: Counters, rapid: bool): Counters {
    c.(cancelledQueue := WrapAdd32(c.cancelledQueue, 1),
       rapidCancels := if rapid then WrapAdd32(c.rapidCancels, 1) else c.rapidCancels)
  }

  function Override(c: Counters, clear: bool, verification: Option<Verification>): Counters {
    c.(streak := if clear then 0 else c.streak,
       verification := if verification.Some? then verification.value else c.verification)
  }

  function AfterExpiration(p: Profile, outage: bool, now: Time): Profile {
    if outage then p else
    var c := CountExpiry(p.counters);
    Recalculated(p.(counters := c, cooldownUntil := Some(now + CooldownSeconds(c.streak))))
  }

  function AfterCompletion(p: Profile, units: U128): Profile {
    Recalculated(p.(counters := CountCompletion(p.counters, units), onTime := WrapAdd32(p.onTime, 1)))
  }

  function AfterQueueCancel(p: Profile, rapid: bool): Profile {
    Recalculated(p.(counters := CountQueueCancel(p.counters, rapid)))
  }

  function AfterOverride(p: Profile, clear: bool, verification: Option<Verification>): Profile {
    Recalculated(p.(
      counters := Override(p.counters, clear, verification),
      cooldownUntil := if clear then None else p.cooldownUntil))
  }

  predicate CoolingDown(p: Profile, now: Time) {
    p.cooldownUntil.Some? && p.cooldownUntil.value > now
  }

  /** The profile record itself, updated in place. */
  class TrustProfile {
    var counters: Counters
    var onTime: U32
    var policy: Policy
    var cooldownUntil: Option<Time>

    ghost function Model(): Profile
      reads this
    {
      Profile(counters, onTime, policy, cooldownUntil)
    }

    constructor ()
      ensures Model() == NewProfile() && Consistent(Model())
    {
      counters := Counters(0, 0, 0, 0, 0, 0, 0, Unverified);
      onTime := 0;
      policy := Policy(50, New, NEW_BUYER_LIMIT, 1);
      cooldownUntil := None;
      new;
      NewProfileConsistent();
    }

    method RecalculatePolicy()
      modifies this`policy
      ensures Consistent(Model())
    {
      hide Score;
      var score := Score(counters);
      if counters.disputeLosses >= 2 || counters.streak >= 4 || score < 25 {
        policy := Policy(score, Restricted, RESTRICTED_LIMIT, 1);
      } else if counters.completed >= 20 && counters.volume >= 5_000_000_000 && score >= 300 {
        policy := Policy(score, HighLimit, HIGH_LIMIT, 3);
      } else if counters.completed >= 5 && counters.volume >= 500_000_000 && score >= 140 {
        policy := Policy(score, Established, ESTABLISHED_LIMIT, 2);
      } else if counters.completed >= 1 && score >= 60 {
        policy := Policy(score, Standard, STANDARD_LIMIT, 1);
      } else {
        policy := Policy(score, New, NEW_BUYER_LIMIT, 1);
      }
    }

    method ApplyTradeExpiration(outage: bool, now: Time)
      modifies this
      ensures Model() == AfterExpiration(old(Model()), outage, now)
    {
      if outage {
        return;
      }
      counters := counters.(expiries := WrapAdd32(counters.expiries, 1));
      counters := counters.(streak := WrapAdd32(counters.streak, 1));
      cooldownUntil := Some(now + CooldownSeconds(counters.streak));
      RecalculatePolicy();
    }

    method RecordCompletedTrade(units: U128)
      modifies this
      ensures Model() == AfterCompletion(old(Model()), units)
    {
      counters := counters.(
        completed := WrapAdd32(counters.completed, 1),
        volume := SaturatingAdd(counters.volume, units));
      onTime := WrapAdd32(onTime, 1);
      counters := counters.(streak := 0);
      RecalculatePolicy();
    }
  }

  lemma NewProfileConsistent()
    ensures Consistent(NewProfile())
  {
    UntouchedCounters(NewProfile().counters);
  }

  lemma UntouchedCounters(c: Counters)
    requires c.completed == 0 && c.volume == 0 && c.verification == Unverified && Penalties(c) == 0
    requires c.disputeLosses == 0 && c.streak == 0
    ensures PolicyOf(c) == Policy(50, New, NEW_BUYER_LIMIT, 1)
  {
    ScoreIsTrueScore(c);
    assert Bonuses(c) == 50;
  }

  /** Every profile step leaves the stored policy determined by the counters. */
  lemma StepsKeepConsistent(
    p: Profile, outage: bool, now: Time, units: U128, rapid: bool, clear: bool, v: Option<Verification>)
    requires Consistent(p)
    ensures Consistent(AfterExpiration(p, outage, now))
    ensures Consistent(AfterCompletion(p, units))
    ensures Consistent(AfterQueueCancel(p, rapid))
    ensures Consistent(AfterOverride(p, clear, v))
  {}

  // ---- Integer width -------------------------------------------------------------------------

  /** No cast, product or sum of the score computation leaves the 32-bit range. */
  predicate NoWrap(c: Counters) {
    && FitsI32(c.completed) && FitsI32(c.completed * 12)
    && FitsI32(c.volume / VOLUME_STEP) && FitsI32((c.volume / VOLUME_STEP) * 5)
    && FitsI32(c.expiries) && FitsI32(c.expiries * 25)
    && FitsI32(c.streak) && FitsI32(c.streak * 20)
    && FitsI32(c.expiries * 25 + c.streak * 20)
    && FitsI32(c.disputeLosses) && FitsI32(c.disputeLosses * 120)
    && FitsI32(c.rapidCancels) && FitsI32(c.rapidCancels * 15)
    && FitsI32(c.cancelledQueue) && FitsI32(c.cancelledQueue * 2)
    && FitsI32(c.rapidCancels * 15 + c.cancelledQueue * 2)
    && FitsI32(Bonuses(c) - (c.expiries * 25 + c.streak * 20))
    && FitsI32(Bonuses(c) - (c.expiries * 25 + c.streak * 20) - c.disputeLosses * 120)
    && FitsI32(TrueRawScore(c))
  }

  /** The same arithmetic over the integers. */
  function Bonuses(c: Counters): int {
    50 + Min(c.completed * 12, 240) + Min((c.volume / VOLUME_STEP) * 5, 150) + VerificationBonus(c)
  }

  function Penalties(c: Counters): nat {
    c.expiries * 25 + c.streak * 20 + c.disputeLosses * 120 + c.rapidCancels * 15 + c.cancelledQueue * 2
  }

  function TrueRawScore(c: Counters): int { Bonuses(c) - Penalties(c) }

  const MAX_COMPLETED := 178_956_970
  const MAX_VOLUME := 21_474_836_499_999_999

  /** Exactly when the 32-bit score computation is free of wrap-around. */
  lemma NoWrapExactly(c: Counters)
    ensures NoWrap(c)
        <==> && c.completed <= MAX_COMPLETED
             && c.volume <= MAX_VOLUME
             && c.expiries * 25 + c.streak * 20 < 0x8000_0000
             && c.disputeLosses * 120 < 0x8000_0000
             && c.rapidCancels * 15 + c.cancelledQueue * 2 < 0x8000_0000
             && Penalties(c) <= 0x8000_0000 + Bonuses(c)
  {}

  lemma TermsAreTrue(c: Counters)
    requires NoWrap(c)
    ensures CompletedBonus(c) == Min(c.completed * 12, 240)
    ensures VolumeBonus(c) == Min((c.volume / VOLUME_STEP) * 5, 150)
    ensures ExpiryPenalty(c) == c.expiries * 25 + c.streak * 20
    ensures DisputePenalty(c) == c.disputeLosses * 120
    ensures ChurnPenalty(c) == c.rapidCancels * 15 + c.cancelledQueue * 2
  {}

  lemma TotalIsSum(completed: int, volume: int, verified: int, expiry: int, dispute: int, churn: int)
    requires 0 <= completed <= 240 && 0 <= volume <= 150 && 0 <= verified <= 60
    requires expiry >= 0 && dispute >= 0 && churn >= 0
    requires FitsI32(50 + completed + volume + verified - expiry - dispute - churn)
    ensures Total(completed, volume, verified, expiry, dispute, churn)
         == 50 + completed + volume + verified - expiry - dispute - churn
  {}

  /** Without wrap-around the score is the intended sum, clamped; and then it never exceeds 500. */
  lemma ScoreIsTrueScore(c: Counters)
    requires NoWrap(c)
    ensures Score(c) == Clamp(TrueRawScore(c), 0, 1000) <= 500
  {
    TermsAreTrue(c);
    TotalIsSum(Min(c.completed * 12, 240), Min((c.volume / VOLUME_STEP) * 5, 150), VerificationBonus(c),
               c.expiries * 25 + c.streak * 20, c.disputeLosses * 120,
               c.rapidCancels * 15 + c.cancelledQueue * 2);
  }

  /** 2,147,483 completed trades of at most 10,000 USDC each stay inside the range ... */
  lemma CompletionsStayInRange(c: Counters)
    requires c.completed <= 2_147_483 && c.volume <= c.completed * HIGH_LIMIT
    requires Penalties(c) <= 0x7FFF_FFFF
    ensures NoWrap(c)
  {
    assert c.volume <= 2_147_483 * HIGH_LIMIT;
    NoWrapExactly(c);
  }

  /** ... and one more wraps the volume bonus to a large negative number: a buyer with 2,147,484
      completed trades of 10,000 USDC, and nothing against them, drops to the Restricted tier. */
  lemma VolumeBonusWraps()
    ensures var c := Counters(2_147_484, 2_147_484 * HIGH_LIMIT, 0, 0, 0, 0, 0, Unverified);
            !NoWrap(c) && PolicyOf(c).score == 0 && PolicyOf(c).tier == Restricted
  {
    var c := Counters(2_147_484, 2_147_484 * HIGH_LIMIT, 0, 0, 0, 0, 0, Unverified);
    assert c.volume / VOLUME_STEP == 429_496_800;
    assert I32(429_496_800 * 5) == -2_147_483_296;
  }

  // ---- Monotonicity --------------------------------------------------------------------------

  function Rank(t: Tier): nat {
    match t
    case Restricted => 0
    case New => 1
    case Standard => 2
    case Established => 3
    case HighLimit => 4
  }

  /** `b` has at least the merits and at most the demerits of `a`. */
  predicate AtLeastAsGood(a: Counters, b: Counters) {
    && a.completed <= b.completed && a.volume <= b.volume
    && (a.verification == Verified ==> b.verification == Verified)
    && b.expiries <= a.expiries && b.streak <= a.streak && b.disputeLosses <= a.disputeLosses
    && b.rapidCancels <= a.rapidCancels && b.cancelledQueue <= a.cancelledQueue
  }

  lemma DivisionMonotone(a: nat, b: nat)
    requires a <= b
    ensures a / VOLUME_STEP <= b / VOLUME_STEP
  {}

  lemma TrueScoreMonotone(a: Counters, b: Counters)
    requires AtLeastAsGood(a, b)
    ensures TrueRawScore(a) <= TrueRawScore(b)
  {
    DivisionMonotone(a.volume, b.volume);
    assert Bonuses(a) <= Bonuses(b);
    assert Penalties(b) <= Penalties(a);
  }

  lemma ScoreMonotone(a: Counters, b: Counters)
    requires AtLeastAsGood(a, b) && NoWrap(a) && NoWrap(b)
    ensures Score(a) <= Score(b)
  {
    hide Score, TrueRawScore, NoWrap;
    TrueScoreMonotone(a, b);
    ScoreIsTrueScore(a);
    ScoreIsTrueScore(b);
  }

  /** Better counters never mean a lower score, tier, limit or number of open trades. */
  lemma PolicyMonotone(a: Counters, b: Counters)
    requires AtLeastAsGood(a, b) && NoWrap(a) && NoWrap(b)
    ensures PolicyOf(a).score <= PolicyOf(b).score
    ensures Rank(PolicyOf(a).tier) <= Rank(PolicyOf(b).tier)
    ensures PolicyOf(a).limit <= PolicyOf(b).limit
    ensures PolicyOf(a).concurrent <= PolicyOf(b).concurrent
  {
    hide Score;
    var sa, sb := Score(a), Score(b);
    assert sa <= sb by { ScoreMonotone(a, b); }
    TierMonotone(a, b, Score(a), Score(b));
  }

  lemma TierMonotone(a: Counters, b: Counters, sa: nat, sb: nat)
    requires AtLeastAsGood(a, b) && sa <= sb
    ensures Rank(TierOf(a, sa)) <= Rank(TierOf(b, sb))
    ensures LimitOf(TierOf(a, sa)) <= LimitOf(TierOf(b, sb))
    ensures ConcurrentOf(TierOf(a, sa)) <= ConcurrentOf(TierOf(b, sb))
  {}

  /** What leaving the queue takes off the score: two points, and fifteen more within a minute of joining. */
  function QueueCancelCost(rapid: bool): nat { if rapid then 17 else 2 }

  lemma QueueCancelScore(c: Counters, rapid: bool)
    requires NoWrap(c) && NoWrap(CountQueueCancel(c, rapid))
    ensures Score(CountQueueCancel(c, rapid)) == Clamp(Score(c) - QueueCancelCost(rapid), 0, 1000)
  {
    hide Score;
    ScoreIsTrueScore(c);
    ScoreIsTrueScore(CountQueueCancel(c, rapid));
    NoWrapExactly(c);
  }

  /** The least score with which a buyer keeps the tier, all else equal. */
  function ScoreNeededFor(t: Tier): nat {
    match t
    case Restricted => 0
    case New => 25
    case Standard => 60
    case Established => 140
    case HighLimit => 300
  }

  lemma LowerScoreTier(c: Counters, rapid: bool, before: nat, after: nat)
    requires after <= before
    ensures TierOf(CountQueueCancel(c, rapid), after) == TierOf(c, after)
    ensures TierOf(c, after) != TierOf(c, before) <==> after < ScoreNeededFor(TierOf(c, before))
  {}

  /** Leaving the queue is not free: the score falls by exactly that cost, though not below zero. It stays
      the same exactly when it was zero, and tier, limit and cap stay the same exactly when what is left of
      the score still suffices for the tier. */
  lemma QueueCancelCostsExactly(p: Profile, rapid: bool)
    requires Consistent(p) && NoWrap(p.counters) && NoWrap(CountQueueCancel(p.counters, rapid))
    ensures var q := AfterQueueCancel(p, rapid);
            && q.policy.score == Clamp(p.policy.score - QueueCancelCost(rapid), 0, 1000)
            && (q.policy.score == p.policy.score <==> p.policy.score == 0)
            && (q.policy.tier == p.policy.tier <==> q.policy.score >= ScoreNeededFor(p.policy.tier))
            && (q.policy.limit == p.policy.limit <==> q.policy.tier == p.policy.tier)
            && q.policy.limit <= p.policy.limit && q.policy.concurrent <= p.policy.concurrent
  {
    hide Score, NoWrap, TierOf;
    var c := p.counters;
    QueueCancelScore(c, rapid);
    LowerScoreTier(c, rapid, Score(c), Score(CountQueueCancel(c, rapid)));
    TierFalls(c, Score(c), Score(CountQueueCancel(c, rapid)));
  }

  lemma TierFalls(c: Counters, before: nat, after: nat)
    requires after <= before
    ensures LimitOf(TierOf(c, after)) <= LimitOf(TierOf(c, before))
    ensures ConcurrentOf(TierOf(c, after)) <= ConcurrentOf(TierOf(c, before))
  {}

  /** Leaving the queue takes at most one from the cap: the score it costs spans at most one tier. */
  lemma QueueCancelCap(p: Profile, rapid: bool)
    requires Consistent(p) && NoWrap(p.counters) && NoWrap(CountQueueCancel(p.counters, rapid))
    ensures AfterQueueCancel(p, rapid).policy.concurrent >= p.policy.concurrent - 1
  {
    hide Score, NoWrap;
    QueueCancelScore(p.counters, rapid);
  }

  /** What an override by an administrator adds to the score. */
  function OverrideGain(c: Counters, clear: bool, v: Option<Verification>): int {
    (if clear then c.streak * 20 else 0) + VerificationBonus(Override(c, clear, v)) - VerificationBonus(c)
  }

  lemma OverrideScore(c: Counters, clear: bool, v: Option<Verification>)
    requires NoWrap(c) && NoWrap(Override(c, clear, v)) && Score(c) > 0
    ensures Score(Override(c, clear, v)) == Clamp(Score(c) + OverrideGain(c, clear, v), 0, 1000)
  {
    hide Score, NoWrap;
    ScoreIsTrueScore(c);
    ScoreIsTrueScore(Override(c, clear, v));
    assert TrueRawScore(Override(c, clear, v)) == TrueRawScore(c) + OverrideGain(c, clear, v);
  }

  /** For a buyer whose cap is above one: an override takes the cap below two, or below three, exactly when
      it leaves too low a score for Established, or for HighLimit. */
  lemma OverrideCap(p: Profile, clear: bool, v: Option<Verification>)
    requires Consistent(p) && NoWrap(p.counters) && NoWrap(Override(p.counters, clear, v))
    requires p.policy.concurrent >= 2
    ensures var q, score := AfterOverride(p, clear, v).policy, p.policy.score + OverrideGain(p.counters, clear, v);
            && (q.concurrent < 2 <==> score < ScoreNeededFor(Established))
            && (p.policy.concurrent == 3 ==> (q.concurrent < 3 <==> score < ScoreNeededFor(HighLimit)))
  {
    hide Score, NoWrap, OverrideGain;
    OverrideScore(p.counters, clear, v);
  }

  /** A completed trade never lowers the buyer's standing; an unexplained expiry never raises it. */
  lemma CompletionHelpsExpiryHurts(p: Profile, units: U128, now: Time)
    requires Consistent(p) && NoWrap(p.counters)
    ensures var q := AfterCompletion(p, units);
            NoWrap(q.counters) ==>
              && Rank(p.policy.tier) <= Rank(q.policy.tier)
              && p.policy.limit <= q.policy.limit && p.policy.score <= q.policy.score
              && p.policy.concurrent <= q.policy.concurrent
    ensures var q := AfterExpiration(p, false, now);
            NoWrap(q.counters) ==>
              && Rank(q.policy.tier) <= Rank(p.policy.tier)
              && q.policy.limit <= p.policy.limit && q.policy.score <= p.policy.score
  {
    NoWrapExactly(p.counters);
    var q := AfterCompletion(p, units);
    if NoWrap(q.counters) {
      PolicyMonotone(p.counters, q.counters);
    }
    var r := AfterExpiration(p, false, now);
    if NoWrap(r.counters) {
      PolicyMonotone(r.counters, p.counters);
    }
  }

  // ---- Several expiries at once ----------------------------------------------------------------

  /** `n` non-exempt expiries in a row. */
  function Penalised(p: Profile, n: nat, now: Time): Profile {
    if n == 0 then p else AfterExpiration(Penalised(p, n - 1, now), false, now)
  }

  /** Repeated expiries raise the counter and the streak by their number. */
  lemma {:induction false} PenaltiesCount(p: Profile, n: nat, now: Time)
    requires p.counters.expiries + n < 0x1_0000_0000 && p.counters.streak + n < 0x1_0000_0000
    ensures var q := Penalised(p, n, now);
            && q.counters == p.counters.(expiries := p.counters.expiries + n, streak := p.counters.streak + n)
            && (n > 0 ==> q.cooldownUntil == Some(now + CooldownSeconds(p.counters.streak + n)))
  {
    hide PolicyOf, CooldownSeconds;
    if n == 0 {
    } else {
      PenaltiesCount(p, n - 1, now);
    }
  }

  function CountExpiries(c: Counters, n: nat): Counters
    requires c.expiries + n < 0x1_0000_0000 && c.streak + n < 0x1_0000_0000
  {
    c.(expiries := c.expiries + n, streak := c.streak + n)
  }

  const EXPIRY_COST := 45

  lemma ExpiriesScore(c: Counters, n: nat)
    requires c.expiries + n < 0x1_0000_0000 && c.streak + n < 0x1_0000_0000
    requires NoWrap(c) && NoWrap(CountExpiries(c, n))
    ensures Score(CountExpiries(c, n)) == Clamp(Score(c) - EXPIRY_COST * n, 0, 1000)
  {
    hide Score, NoWrap;
    ScoreIsTrueScore(c);
    ScoreIsTrueScore(CountExpiries(c, n));
    assert Penalties(CountExpiries(c, n)) == Penalties(c) + EXPIRY_COST * n;
  }

  /** The buyer loses the right to any tier: two lost disputes, four expiries in a row, or too low a score. */
  predicate FallsToRestricted(p: Profile, n: nat) {
    p.counters.disputeLosses >= 2 || p.counters.streak + n >= 4 || p.policy.score < 25 + EXPIRY_COST * n
  }

  /** The best tier not above `t` that a score suffices for. */
  function TierWithin(t: Tier, score: int): Tier {
    if t == HighLimit && score >= 300 then HighLimit
    else if t in {Established, HighLimit} && score >= 140 then Established
    else if t in {Standard, Established, HighLimit} && score >= 60 then Standard
    else New
  }

  lemma TierFromBefore(c: Counters, d: Counters, before: nat, after: nat)
    requires after <= before && d == c.(expiries := d.expiries, streak := d.streak) && d.streak >= c.streak
    ensures TierOf(d, after) == if c.disputeLosses >= 2 || d.streak >= 4 || after < 25 then Restricted
                                else TierWithin(TierOf(c, before), after)
  {}

  /** What `n` unexplained expiries at once do to a buyer's standing: the score falls by 45 points each,
      though not below zero; the buyer is Restricted exactly in the three cases above; and otherwise keeps
      the best tier, not above the old one, that the rest of the score suffices for. */
  lemma ExpiriesCostExactly(p: Profile, n: nat, now: Time)
    requires n >= 1 && p.counters.expiries + n < 0x1_0000_0000 && p.counters.streak + n < 0x1_0000_0000
    requires Consistent(p) && NoWrap(p.counters) && NoWrap(CountExpiries(p.counters, n))
    ensures var q := Penalised(p, n, now).policy;
            && q.score == Clamp(p.policy.score - EXPIRY_COST * n, 0, 1000)
            && (q.tier == Restricted <==> FallsToRestricted(p, n))
            && (q.tier != Restricted ==> q.tier == TierWithin(p.policy.tier, p.policy.score - EXPIRY_COST * n))
            && q.limit == LimitOf(q.tier) && q.concurrent == ConcurrentOf(q.tier)
  {
    hide Score, NoWrap, TierOf;
    var c, d := p.counters, CountExpiries(p.counters, n);
    PenaltiesCount(p, n, now);
    PenalisedConsistent(p, n, now);
    ExpiriesScore(c, n);
    TierFromBefore(c, d, Score(c), Score(d));
  }

  /** The same for `n` expiries, four in a row counting as no score at all. */
  lemma ExpiriesCap(p: Profile, n: nat, now: Time)
    requires n >= 1 && p.counters.expiries + n < 0x1_0000_0000 && p.counters.streak + n < 0x1_0000_0000
    requires Consistent(p) && NoWrap(p.counters) && NoWrap(CountExpiries(p.counters, n))
    requires p.policy.concurrent >= 2
    ensures var q, score := Penalised(p, n, now).policy, ScoreAfterExpiries(p, n);
            && (q.concurrent < 2 <==> score < ScoreNeededFor(Established))
            && (p.policy.concurrent == 3 ==> (q.concurrent < 3 <==> score < ScoreNeededFor(HighLimit)))
            && q.concurrent <= p.policy.concurrent
  {
    hide Score, NoWrap, Penalised;
    ExpiriesCostExactly(p, n, now);
  }

  function ScoreAfterExpiries(p: Profile, n: nat): int {
    if p.counters.streak + n >= 4 then 0 else p.policy.score - EXPIRY_COST * n
  }

  lemma PenalisedConsistent(p: Profile, n: nat, now: Time)
    requires n >= 1
    ensures Consistent(Penalised(p, n, now))
  {
    hide PolicyOf;
  }

  /** The next unexplained expiry leaves a buyer Restricted exactly when the buyer has lost two disputes,
      has three expiries in a row already, or scores below 70. */
  lemma RestrictedByExpiryExactly(p: Profile, now: Time)
    requires Consistent(p) && NoWrap(p.counters) && NoWrap(CountExpiry(p.counters))
    ensures AfterExpiration(p, false, now).policy.tier == Restricted
       <==> p.counters.disputeLosses >= 2 || p.counters.streak >= 3 || p.policy.score < 70
  {
    hide Score, PolicyOf;
    NoWrapExactly(p.counters);
    assert Penalised(p, 1, now) == AfterExpiration(Penalised(p, 0, now), false, now);
    assert CountExpiries(p.counters, 1) == CountExpiry(p.counters);
    ExpiriesCostExactly(p, 1, now);
  }

  /** A new buyer is Restricted by the very first expiry, with a score of five. */
  lemma FirstExpiryRestricts(now: Time)
    ensures var q := AfterExpiration(NewProfile(), false, now);
            q.policy == Policy(5, Restricted, RESTRICTED_LIMIT, 1) && q.cooldownUntil == Some(now + 300)
  {
    ScoreIsTrueScore(CountExpiry(NewProfile().counters));
  }

  // ---- Histories of one buyer ----------------------------------------------------------------

  datatype Event =
    | TradeCompleted(units: U128)
    | TradeExpired(outage: bool, at: Time)
    | QueueCancelled(rapid: bool)
    | Overridden(clear: bool, verification: Option<Verification>)

  function Apply(p: Profile, e: Event): Profile {
    match e
    case TradeCompleted(units) => AfterCompletion(p, units)
    case TradeExpired(outage, at) => AfterExpiration(p, outage, at)
    case QueueCancelled(rapid) => AfterQueueCancel(p, rapid)
    case Overridden(clear, v) => AfterOverride(p, clear, v)
  }

  function History(events: seq<Event>): Profile {
    if events == [] then NewProfile()
    else Apply(History(events[..|events| - 1]), events[|events| - 1])
  }

  /** Events after which the streak starts again. */
  predicate Resets(e: Event) { e.TradeCompleted? || (e.Overridden? && e.clear) }

  predicate Counts(e: Event) { e.TradeExpired? && !e.outage }

  /** The non-exempt expiries that no later completion or clearing has wiped out. */
  ghost function LiveExpiries(events: seq<Event>): set<int> {
    set i | 0 <= i < |events| && Counts(events[i]) && !ResetAfter(events, i)
  }

  predicate ResetAfter(events: seq<Event>, i: int) {
    exists j :: 0 <= j < |events| && i < j && Resets(events[j])
  }

  lemma {:induction false} LiveExpiriesBounded(events: seq<Event>)
    ensures |LiveExpiries(events)| <= |events|
  {
    if events == [] {
    } else {
      var before, e := events[..|events| - 1], events[|events| - 1];
      LiveExpiriesBounded(before);
      assert events == before + [e];
      LiveExpiriesStep(before, e);
    }
  }

  lemma LiveExpiriesStep(events: seq<Event>, e: Event)
    ensures LiveExpiries(events + [e])
         == if Resets(e) then {} else LiveExpiries(events) + (if Counts(e) then {|events|} else {})
  {
    var longer := events + [e];
    if Resets(e) {
      assert forall i :: 0 <= i < |longer| && Counts(longer[i]) ==> i < |events| && Resets(longer[|events|]);
    } else {
      forall i | 0 <= i < |events|
        ensures ResetAfter(longer, i) <==> ResetAfter(events, i)
      {
        if j :| i < j < |longer| && Resets(longer[j]) {
          assert j < |events| && Resets(events[j]);
        }
        if j :| i < j < |events| && Resets(events[j]) {
          assert Resets(longer[j]);
        }
      }
    }
  }

  /** The counters alone, along a history. */
  function Count(c: Counters, e: Event): Counters {
    match e
    case TradeCompleted(units) => CountCompletion(c, units)
    case TradeExpired(outage, _) => if outage then c else CountExpiry(c)
    case QueueCancelled(rapid) => CountQueueCancel(c, rapid)
    case Overridden(clear, v) => Override(c, clear, v)
  }

  function Tally(events: seq<Event>): Counters {
    if events == [] then NewProfile().counters
    else Count(Tally(events[..|events| - 1]), events[|events| - 1])
  }

  lemma {:induction false} HistoryTallies(events: seq<Event>)
    ensures History(events).counters == Tally(events)
  {
    if events == [] {
    } else {
      HistoryTallies(events[..|events| - 1]);
    }
  }

  lemma {:induction false} StreakCounts(events: seq<Event>)
    requires |events| < 0x1_0000_0000
    ensures Tally(events).streak == |LiveExpiries(events)|
  {
    if events == [] {
    } else {
      var before, e := events[..|events| - 1], events[|events| - 1];
      StreakCounts(before);
      assert events == before + [e];
      LiveExpiriesStep(before, e);
      LiveExpiriesBounded(before);
    }
  }

  lemma {:induction false} HistoryConsistent(events: seq<Event>)
    ensures Consistent(History(events))
  {
    if events == [] {
      NewProfileConsistent();
    } else {
      HistoryConsistent(events[..|events| - 1]);
    }
  }

  lemma {:induction false} NoDisputesLost(events: seq<Event>)
    ensures Tally(events).disputeLosses == 0
  {
    if events == [] {
    } else {
      NoDisputesLost(events[..|events| - 1]);
    }
  }

  /** On every history the stored streak is the number of unexplained expiries since the last
      completion or clearing, the stored policy is the function of the counters, and the buyer is Restricted
      exactly while there are four such expiries or the score is below 25. */
  lemma StreakMeaning(events: seq<Event>)
    requires |events| < 0x1_0000_0000
    ensures History(events).counters.streak == |LiveExpiries(events)|
    ensures Consistent(History(events))
    ensures History(events).policy.tier == Restricted
       <==> |LiveExpiries(events)| >= 4 || History(events).policy.score < 25
    ensures NoWrap(History(events).counters) ==>
              History(events).policy.score == Clamp(TrueRawScore(History(events).counters), 0, 1000)
  {
    hide Score, NoWrap, TrueRawScore;
    HistoryTallies(events);
    StreakCounts(events);
    HistoryConsistent(events);
    NoDisputesLost(events);
    if NoWrap(History(events).counters) { ScoreIsTrueScore(History(events).counters); }
  }

  lemma ExpirationCooldown(p: Profile, k: U32, at: Time)
    requires p.counters.streak + 1 == k
    ensures var q := AfterExpiration(p, false, at);
            && q.cooldownUntil == Some(at + CooldownSeconds(k))
            && q.counters.expiries == WrapAdd32(p.counters.expiries, 1)
  {}

  lemma CooldownTable(k: nat)
    requires k >= 1
    ensures CooldownSeconds(k) == COOLDOWN_STEPS[Min(k, 5) - 1]
  {}

  /** The k-th unexplained expiry in a row starts cooldown step min(k, 5), counted from its time;
      an outage changes nothing at all. */
  lemma CooldownStep(events: seq<Event>, at: Time)
    requires |events| + 1 < 0x1_0000_0000
    ensures AfterExpiration(History(events), true, at) == History(events)
    ensures AfterExpiration(History(events), false, at).cooldownUntil
         == Some(at + COOLDOWN_STEPS[Min(|LiveExpiries(events)| + 1, 5) - 1])
  {
    hide PolicyOf;
    CooldownTable(|LiveExpiries(events)| + 1);
    HistoryTallies(events);
    StreakCounts(events);
    LiveExpiriesBounded(events);
    ExpirationCooldown(History(events), |LiveExpiries(events)| + 1, at);
  }

  /** Within a streak the cooldown steps never get shorter. */
  lemma CooldownsNeverShrink(j: nat, k: nat)
    requires j <= k
    ensures CooldownSeconds(j) <= CooldownSeconds(k)
  {}
}
