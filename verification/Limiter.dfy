// The per-key rate limiter. It keeps only the tail of each key's calls and forgets
// idle keys, yet answers as a limiter that remembers every allowed call.
module Limiter {
  // Times are nanoseconds.
  const RATE_LIMIT_WINDOW: int := 60_000_000_000

  // How many calls lie in the closed interval from `a` to `b`.
  function CallsIn(times: seq<int>, a: int, b: int): nat {
    if times == [] then 0
    else CallsIn(times[..|times| - 1], a, b) + if a <= times[|times| - 1] <= b then 1 else 0
  }

  ghost predicate Ascending(times: seq<int>) {
    forall i, j | 0 <= i < j < |times| :: times[i] <= times[j]
  }

  ghost predicate Until(times: seq<int>, now: int) {
    forall i | 0 <= i < |times| :: times[i] <= now
  }

  // The calls in the closed one-minute window that opens at `a`.
  function InWindow(times: seq<int>, a: int): nat {
    CallsIn(times, a, a + RATE_LIMIT_WINDOW)
  }

  ghost predicate WithinRate(times: seq<int>, max: nat) {
    forall a :: InWindow(times, a) <= max
  }

  // The limiter that remembers everything.
  predicate Allows(log: seq<int>, now: int, max: nat) {
    CallsIn(log, now - RATE_LIMIT_WINDOW, now) < max
  }

  // `times` is what is left of `log` after a prefix older than the window.
  ghost predicate IsTail(times: seq<int>, log: seq<int>, now: int) {
    && |times| <= |log|
    && (forall i | 0 <= i < |times| :: times[i] == log[|log| - |times| + i])
    && (forall i | 0 <= i < |log| - |times| :: log[i] < now - RATE_LIMIT_WINDOW)
  }

  ghost function CallsBetween(times: seq<int>, a: int, b: int): set<nat> {
    set i: nat | i < |times| && a <= times[i] <= b
  }

  lemma {:induction false} CallsInIsExact(times: seq<int>, a: int, b: int)
    ensures CallsIn(times, a, b) == |CallsBetween(times, a, b)|
  {
    if times == [] {
      assert CallsBetween(times, a, b) == {};
    } else {
      var front, n := times[..|times| - 1], |times| - 1;
      CallsInIsExact(front, a, b);
      assert CallsBetween(times, a, b) == CallsBetween(front, a, b) + if a <= times[n] <= b then {n} else {};
    }
  }

  // The next call is allowed exactly when fewer than `max` were in the last minute.
  lemma AllowsExactly(log: seq<int>, now: int, max: nat)
    ensures Allows(log, now, max) <==> |CallsBetween(log, now - 60_000_000_000, now)| < max
  {
    CallsInIsExact(log, now - 60_000_000_000, now);
  }

  // No closed minute holds more than `max`.
  lemma WithinRateExactly(times: seq<int>, max: nat)
    ensures WithinRate(times, max) <==>
              forall a, b | b == a + 60_000_000_000 :: |CallsBetween(times, a, b)| <= max
  {
    forall a, b | b == a + 60_000_000_000
      ensures InWindow(times, a) == |CallsBetween(times, a, b)|
    {
      CallsInIsExact(times, a, b);
    }
    if forall a, b | b == a + 60_000_000_000 :: |CallsBetween(times, a, b)| <= max {
      forall a ensures InWindow(times, a) <= max {
        assert |CallsBetween(times, a, a + 60_000_000_000)| <= max;
      }
    }
  }

  lemma {:induction false} CallsInWider(times: seq<int>, a: int, b: int, a': int, b': int)
    requires a' <= a && Until(times, b')
    ensures CallsIn(times, a, b) <= CallsIn(times, a', b')
  {
    if times == [] {
    } else {
      CallsInWider(times[..|times| - 1], a, b, a', b');
    }
  }

  lemma {:induction false} CallsInAll(times: seq<int>, a: int, b: int)
    requires forall i | 0 <= i < |times| :: a <= times[i] <= b
    ensures CallsIn(times, a, b) == |times|
  {
    if times == [] {
    } else {
      CallsInAll(times[..|times| - 1], a, b);
    }
  }

  lemma {:induction false} CallsInSplit(early: seq<int>, late: seq<int>, a: int, b: int)
    ensures CallsIn(early + late, a, b) == CallsIn(early, a, b) + CallsIn(late, a, b)
  {
    if late == [] {
      assert early + late == early;
    } else {
      assert (early + late)[..|early + late| - 1] == early + late[..|late| - 1];
      CallsInSplit(early, late[..|late| - 1], a, b);
    }
  }

  lemma {:induction false} CallsInNone(times: seq<int>, a: int, b: int)
    requires forall i | 0 <= i < |times| :: times[i] < a
    ensures CallsIn(times, a, b) == 0
  {
    if times == [] {
    } else {
      CallsInNone(times[..|times| - 1], a, b);
    }
  }

  // A call the remembering limiter allows keeps every window within the rate.
  lemma AllowedKeepsRate(log: seq<int>, now: int, max: nat)
    requires WithinRate(log, max) && Until(log, now)
    requires Allows(log, now, max)
    ensures WithinRate(log + [now], max)
  {
    forall a ensures InWindow(log + [now], a) <= max {
      var b := a + RATE_LIMIT_WINDOW;
      assert (log + [now])[..|log|] == log;
      if a <= now <= b {
        CallsInWider(log, a, b, now - RATE_LIMIT_WINDOW, now);
      } else {
        assert InWindow(log, a) <= max;
      }
    }
  }

  // The rule bites exactly at `max`: of `n` calls at one instant already allowed,
  // the next is allowed if and only if n < max.
  lemma BurstIsCut(now: int, max: nat, n: nat)
    ensures Allows(seq(n, i => now), now, max) <==> n < max
  {
    CallsInAll(seq(n, i => now), now - RATE_LIMIT_WINDOW, now);
  }

  // What a limiter keeps for one key against every call it ever allowed.
  ghost predicate Tracks(times: seq<int>, log: seq<int>, now: int, max: nat) {
    && IsTail(times, log, now)
    && Ascending(log)
    && Until(log, now)
    && WithinRate(log, max)
  }

  lemma TracksLater(times: seq<int>, log: seq<int>, clock: int, now: int, max: nat)
    requires Tracks(times, log, clock, max) && clock <= now
    ensures Tracks(times, log, now, max)
  {}

  // Dropping the oldest calls once they are outside the window loses nothing.
  lemma TrimTracks(times: seq<int>, log: seq<int>, now: int, max: nat, start: nat)
    requires Tracks(times, log, now, max) && start <= |times|
    requires forall i | 0 <= i < start :: times[i] < now - RATE_LIMIT_WINDOW
    ensures Tracks(times[start..], log, now, max)
  {
    var was := |log| - |times|;
    forall i | 0 <= i < was + start ensures log[i] < now - RATE_LIMIT_WINDOW {
      if i >= was {
        assert log[i] == times[i - was];
      }
    }
  }

  predicate IsLive(times: seq<int>, now: int) {
    times != [] && times[0] >= now - RATE_LIMIT_WINDOW
  }

  // What is left after a full trim counts the calls of the last minute.
  lemma TrimmedCounts(times: seq<int>, log: seq<int>, now: int, max: nat)
    requires Tracks(times, log, now, max)
    requires times != [] ==> IsLive(times, now)
    ensures CallsIn(log, now - RATE_LIMIT_WINDOW, now) == |times|
  {
    var early := log[..|log| - |times|];
    assert log == early + times;
    if times != [] {
      LiveFromHere(times, log, now);
    }
    CallsInAll(times, now - RATE_LIMIT_WINDOW, now);
    CallsInNone(early, now - RATE_LIMIT_WINDOW, now);
    CallsInSplit(early, times, now - RATE_LIMIT_WINDOW, now);
  }

  lemma LiveFromHere(times: seq<int>, log: seq<int>, now: int)
    requires IsTail(times, log, now) && Ascending(log) && Until(log, now) && IsLive(times, now)
    ensures forall i | 0 <= i < |times| :: now - RATE_LIMIT_WINDOW <= times[i] <= now
  {
    var was := |log| - |times|;
    forall i | 0 <= i < |times| ensures now - RATE_LIMIT_WINDOW <= times[i] <= now {
      assert times[0] == log[was] && times[i] == log[was + i];
    }
  }

  lemma AscendingOn(log: seq<int>, now: int)
    requires Ascending(log) && Until(log, now)
    ensures Ascending(log + [now])
  {
    var log' := log + [now];
    forall i, j | 0 <= i < j < |log'| ensures log'[i] <= log'[j] {
      assert log'[i] == log[i];
    }
  }

  lemma AllowTracks(times: seq<int>, log: seq<int>, now: int, max: nat)
    requires Tracks(times, log, now, max) && Allows(log, now, max)
    ensures Tracks(times + [now], log + [now], now, max)
  {
    AllowedKeepsRate(log, now, max);
    AscendingOn(log, now);
  }

  // One call: the trimmed tail decides as the full log does, and tracks it again.
  lemma CallTracks(times: seq<int>, log: seq<int>, clock: int, now: int, max: nat, start: nat)
    requires Tracks(times, log, clock, max) && clock <= now && start <= |times|
    requires forall i | 0 <= i < start :: times[i] < now - RATE_LIMIT_WINDOW
    requires start < |times| ==> times[start] >= now - RATE_LIMIT_WINDOW
    ensures var ok := |times| - start < max;
            && ok == Allows(log, now, max)
            && Tracks(times[start..] + (if ok then [now] else []), log + (if ok then [now] else []), now, max)
  {
    TracksLater(times, log, clock, now, max);
    TrimTracks(times, log, now, max, start);
    TrimmedCounts(times[start..], log, now, max);
    if |times| - start < max {
      AllowTracks(times[start..], log, now, max);
    } else {
      assert times[start..] + [] == times[start..] && log + [] == log;
    }
  }

  // How many of the oldest calls lie before `cutoff`.
  method Stale(times: seq<int>, cutoff: int) returns (start: nat)
    ensures start <= |times|
    ensures forall i | 0 <= i < start :: times[i] < cutoff
    ensures start < |times| ==> times[start] >= cutoff
  {
    start := 0;
    while start < |times| && times[start] < cutoff
      invariant 0 <= start <= |times|
      invariant forall i | 0 <= i < start :: times[i] < cutoff
    {
      start := start + 1;
    }
  }

  class SenderLimiter {
    const max: nat
    var windows: map<string, seq<int>>
    ghost var log: map<string, seq<int>> // every allowed call, by key
    ghost var clock: int

    ghost function LogOf(key: string): seq<int>
      reads this
    {
      if key in log then log[key] else []
    }

    function TailOf(key: string): seq<int>
      reads this
    {
      if key in windows then windows[key] else []
    }

    ghost predicate Keeps(key: string)
      reads this
    {
      Tracks(TailOf(key), LogOf(key), clock, max)
    }

    ghost predicate Valid()
      reads this
    {
      forall key :: Keeps(key)
    }

    constructor (max: nat, ghost now: int)
      ensures Valid() && this.max == max && clock == now
      ensures forall key :: LogOf(key) == []
    {
      this.max := max;
      windows, log, clock := map[], map[], now;
    }

    method Allow(key: string, now: int) returns (ok: bool)
      requires Valid() && clock <= now
      modifies this
      ensures Valid() && clock == now
      ensures ok == Allows(old(LogOf(key)), now, max)
      ensures LogOf(key) == old(LogOf(key)) + if ok then [now] else []
      ensures forall k | k != key :: LogOf(k) == old(LogOf(k))
    {
      var cutoff := now - RATE_LIMIT_WINDOW;
      var times := TailOf(key);
      var start := Stale(times, cutoff);
      assert Keeps(key);
      CallTracks(times, LogOf(key), clock, now, max, start);
      times := times[start..];
      ok := |times| < max;
      windows := windows[key := times + if ok then [now] else []];
      log := log[key := LogOf(key) + if ok then [now] else []];
      clock := now;
      forall k ensures Keeps(k) {
        if k != key {
          assert old(Keeps(k));
          TracksLater(TailOf(k), LogOf(k), old(clock), now, max);
        }
      }
    }

    // The background sweep; it changes no answer.
    method Cleanup(now: int)
      requires Valid() && clock <= now
      modifies this
      ensures Valid() && clock == now && log == old(log)
      ensures forall key | key in windows :: IsLive(windows[key], now)
    {
      var cutoff := now - RATE_LIMIT_WINDOW;
      clock := now;
      forall k ensures Keeps(k) {
        assert old(Keeps(k));
        TracksLater(TailOf(k), LogOf(k), old(clock), now, max);
      }
      var todo := windows.Keys;
      while todo != {}
        invariant forall key | key in windows :: windows[key] == TailOf(key)
        invariant todo <= windows.Keys
        invariant Valid() && clock == now && log == old(log)
        invariant forall key | key in windows && key !in todo :: IsLive(windows[key], now)
        decreases |todo|
      {
        var key :| key in todo;
        todo := todo - {key};
        Trim(key, cutoff);
      }
    }

    // One key of the sweep.
    method Trim(key: string, cutoff: int)
      requires Valid() && key in windows && cutoff == clock - RATE_LIMIT_WINDOW
      modifies this
      ensures Valid() && clock == old(clock) && log == old(log)
      ensures windows.Keys == old(windows.Keys) || windows.Keys == old(windows.Keys) - {key}
      ensures forall k | k != key :: TailOf(k) == old(TailOf(k))
      ensures key in windows ==> IsLive(windows[key], clock)
    {
      var times := windows[key];
      var start := Stale(times, cutoff);
      assert Keeps(key);
      TrimTracks(times, LogOf(key), clock, max, start);
      if start == |times| {
        windows := windows - {key};
      } else {
        windows := windows[key := times[start..]];
      }
      assert TailOf(key) == times[start..];
      forall k ensures Keeps(k) {
        if k != key {
          assert old(Keeps(k));
        }
      }
    }
  }
}
