/** The fixed-window request limiter of the service state (rust/src/state.rs). */
module RateLimiter {
  import opened Core

  const WINDOW := 60

  datatype Window = Window(count: nat, resetAt: Time)

  /** One request against one key's window: the window afterwards, and whether it was accepted. */
  function Check(w: Option<Window>, max: nat, now: Time): (Window, bool) {
    var cur := if w.Some? then w.value else Window(0, now + WINDOW);
    if now >= cur.resetAt then (Window(1, now + WINDOW), true)
    else if cur.count >= max then (cur, false)
    else (cur.(count := cur.count + 1), true)
  }

  class Limiter {
    var limits: map<string, Window>

    constructor ()
      ensures limits == map[]
    {
      limits := map[];
    }

    ghost function Of(key: string): Option<Window>
      reads this
    {
      if key in limits then Some(limits[key]) else None
    }

    method CheckRateLimit(key: string, max: nat, now: Time) returns (accepted: bool)
      modifies this
      ensures (Of(key), accepted) == var r := Check(old(Of(key)), max, now); (Some(r.0), r.1)
      ensures forall k :: k != key ==> Of(k) == old(Of(k))
    {
      if key !in limits {
        limits := limits[key := Window(0, now + WINDOW)];
      }
      var entry := limits[key];
      if now >= entry.resetAt {
        limits := limits[key := Window(1, now + WINDOW)];
        return true;
      }
      if entry.count >= max {
        return false;
      }
      limits := limits[key := entry.(count := entry.count + 1)];
      return true;
    }
  }

  // ---- Histories of one key ---------------------------------------------------------------

  /** The window after calls at the given times. */
  function After(times: seq<Time>, max: nat): Option<Window> {
    if times == [] then None
    else Some(Check(After(times[..|times| - 1], max), max, times[|times| - 1]).0)
  }

  predicate Accepted(times: seq<Time>, max: nat, i: nat)
    requires i < |times|
  {
    Check(After(times[..i], max), max, times[i]).1
  }

  /** How many of the calls i..j were accepted. */
  function AcceptedIn(times: seq<Time>, max: nat, i: nat, j: nat): nat
    requires i <= j <= |times|
  {
    if i == j then 0
    else AcceptedIn(times, max, i, j - 1) + (if Accepted(times, max, j - 1) then 1 else 0)
  }

  predicate NonDecreasing(times: seq<Time>) {
    forall i, j :: 0 <= i <= j < |times| ==> times[i] <= times[j]
  }

  /** The call that opened the window in force after the first n calls. */
  function Opener(times: seq<Time>, max: nat, n: nat): (o: nat)
    requires 0 < n <= |times|
    ensures o < n
  {
    if n == 1 then 0
    else
      var w := After(times[..n - 1], max);
      if w.Some? && times[n - 1] >= w.value.resetAt then n - 1 else Opener(times, max, n - 1)
  }

  lemma AfterStep(times: seq<Time>, max: nat, n: nat)
    requires 0 < n <= |times|
    ensures After(times[..n], max) == Some(Check(After(times[..n - 1], max), max, times[n - 1]).0)
  {
    assert times[..n][..n - 1] == times[..n - 1];
  }

  lemma {:induction false} AcceptedInSplits(times: seq<Time>, max: nat, i: nat, j: nat, k: nat)
    requires i <= j <= k <= |times|
    ensures AcceptedIn(times, max, i, k) == AcceptedIn(times, max, i, j) + AcceptedIn(times, max, j, k)
    decreases k
  {
    if j == k {
    } else {
      AcceptedInSplits(times, max, i, j, k - 1);
    }
  }

  /** The window in force was opened by its opener 60 seconds before it resets, that call was
      accepted, and the stored count is exactly what was accepted since, never more than `max`. */
  lemma {:induction false} WindowMeaning(times: seq<Time>, max: nat, n: nat)
    requires max >= 1 && 0 < n <= |times|
    ensures var o := Opener(times, max, n);
            var w := After(times[..n], max).value;
            && After(times[..n], max).Some?
            && w.resetAt == times[o] + WINDOW
            && Accepted(times, max, o)
            && w.count == AcceptedIn(times, max, o, n) <= max
            && (forall i :: o < i < n ==> times[i] < w.resetAt)
  {
    AfterStep(times, max, n);
    if n == 1 {
      assert times[..0] == [];
      assert AcceptedIn(times, max, 0, 1) == AcceptedIn(times, max, 0, 0) + 1;
    } else {
      WindowMeaning(times, max, n - 1);
      var o := Opener(times, max, n);
      if o == n - 1 {
        assert AcceptedIn(times, max, o, n) == AcceptedIn(times, max, o, o) + 1;
      }
    }
  }

  /** A window that is reset was opened at least 60 seconds earlier. */
  lemma OpenersApart(times: seq<Time>, max: nat, n: nat)
    requires max >= 1 && 0 < n <= |times| && Opener(times, max, n) > 0
    ensures var o := Opener(times, max, n); times[Opener(times, max, o)] + WINDOW <= times[o]
    decreases n
  {
    var o := Opener(times, max, n);
    if o == n - 1 {
      WindowMeaning(times, max, n - 1);
    } else {
      assert o == Opener(times, max, n - 1);
      OpenersApart(times, max, n - 1);
    }
  }

  /** Each window it opens accepts at most `max` requests. */
  lemma PerWindowBound(times: seq<Time>, max: nat, n: nat)
    requires max >= 1 && 0 < n <= |times|
    ensures AcceptedIn(times, max, Opener(times, max, n), n) <= max
  {
    WindowMeaning(times, max, n);
  }

  /** Any 60-second half-open interval contains at most 2 * max - 1 accepted requests: it can meet
      two windows, but never the opening request of the first one. */
  lemma SlidingBound(times: seq<Time>, max: nat, i: nat, j: nat)
    requires max >= 1 && NonDecreasing(times)
    requires i < j <= |times| && times[j - 1] < times[i] + WINDOW
    ensures AcceptedIn(times, max, i, j) <= 2 * max - 1
  {
    var o := Opener(times, max, j);
    WindowMeaning(times, max, j);
    if o <= i {
      AcceptedInSplits(times, max, o, i, j);
    } else {
      OpenersApart(times, max, j);
      WindowMeaning(times, max, o);
      var o' := Opener(times, max, o);
      assert times[o'] < times[i];
      AcceptedInSplits(times, max, i, o, j);
      AcceptedInSplits(times, max, o', o' + 1, o);
      AcceptedInSplits(times, max, o' + 1, i, o);
      assert AcceptedIn(times, max, o', o' + 1) == AcceptedIn(times, max, o', o') + 1;
    }
  }

  // ---- The bound is attained --------------------------------------------------------------

  /** One call at 0, then max - 1 calls at 59, then max calls at 60. */
  function Burst(max: nat): seq<Time>
    requires max >= 1
  {
    seq(2 * max, i => if i == 0 then 0 else if i < max then 59 else 60)
  }

  lemma {:induction false} BurstWindow(max: nat, n: nat)
    requires max >= 1 && 0 < n <= 2 * max
    ensures After(Burst(max)[..n], max) == Some(if n <= max then Window(n, 60) else Window(n - max, 120))
    ensures Accepted(Burst(max), max, n - 1)
  {
    AfterStep(Burst(max), max, n);
    if n == 1 {
      assert Burst(max)[..0] == [];
    } else {
      BurstWindow(max, n - 1);
    }
  }

  lemma {:induction false} BurstCount(max: nat, i: nat, j: nat)
    requires max >= 1 && i <= j <= 2 * max
    ensures AcceptedIn(Burst(max), max, i, j) == j - i
    decreases j
  {
    if i == j {
    } else {
      BurstWindow(max, j);
      BurstCount(max, i, j - 1);
    }
  }

  /** For every limit some history accepts 2 * max - 1 requests within one second of each other. */
  lemma SlidingBoundTight(max: nat)
    requires max >= 1
    ensures NonDecreasing(Burst(max))
    ensures Burst(max)[2 * max - 1] < Burst(max)[1] + WINDOW
    ensures AcceptedIn(Burst(max), max, 1, 2 * max) == 2 * max - 1
  {
    BurstCount(max, 1, 2 * max);
  }

  /** A limit of zero does not refuse everything: the call that reopens an expired window passes. */
  lemma ZeroLimitLeaks()
    ensures !Accepted([0, 60], 0, 0) && Accepted([0, 60], 0, 1)
  {
    assert [0, 60][..0] == [];
    assert [0, 60][..1] == [0];
    assert [0][..0] == [];
  }

  /** The documented promise: no 60 seconds of any history contain more than `max` accepted requests. */
  ghost predicate SlidingPromise(max: nat) {
    forall times: seq<Time>, i: nat, j: nat ::
      NonDecreasing(times) && i < j <= |times| && times[j - 1] < times[i] + WINDOW ==>
        AcceptedIn(times, max, i, j) <= max
  }

  /** It holds for a limit of one only. */
  lemma SlidingPromiseExactly(max: nat)
    ensures SlidingPromise(max) <==> max == 1
  {
    if max == 0 {
      ZeroLimitLeaks();
      assert AcceptedIn([0, 60], 0, 1, 2) == AcceptedIn([0, 60], 0, 1, 1) + 1;
    } else if max == 1 {
      forall times: seq<Time>, i: nat, j: nat
        | NonDecreasing(times) && i < j <= |times| && times[j - 1] < times[i] + WINDOW
        ensures AcceptedIn(times, max, i, j) <= max
      {
        SlidingBound(times, max, i, j);
      }
    } else {
      SlidingBoundTight(max);
    }
  }
}
