// Replay protection for POST /forward: the nonce cache, and the timestamp window
// in front of it. The cache forgets nonces yet answers as one that remembers
// every accepted use.
module Nonces {
  // Times are nanoseconds.
  const MINUTE: int := 60_000_000_000
  const TIMESTAMP_VALIDITY: int := 5 * MINUTE
  const REPLAY_WINDOW: int := 6 * MINUTE

  datatype NonceKey = NonceKey(sender: string, nonce: string)

  datatype Use = Use(key: NonceKey, at: int)

  // ---- The cache that remembers every accepted use ----

  ghost predicate Fresh(uses: seq<Use>, key: NonceKey, now: int, window: int) {
    forall i | 0 <= i < |uses| && uses[i].key == key :: now - uses[i].at >= window
  }

  // Two accepted uses of one nonce are at least the window apart.
  ghost predicate Spaced(uses: seq<Use>, window: int) {
    forall i, j | 0 <= i < j < |uses| && uses[i].key == uses[j].key :: uses[j].at - uses[i].at >= window
  }

  ghost predicate Until(uses: seq<Use>, now: int) {
    forall i | 0 <= i < |uses| :: uses[i].at <= now
  }

  // `seen` has every use that could still refuse one: the latest of its key.
  ghost predicate Remembers(seen: map<NonceKey, int>, uses: seq<Use>, now: int, window: int) {
    && (forall k | k in seen :: Use(k, seen[k]) in uses)
    && (forall i | 0 <= i < |uses| ::
          if uses[i].key in seen then uses[i].at <= seen[uses[i].key] else now - uses[i].at > window)
  }

  lemma RemembersLater(seen: map<NonceKey, int>, uses: seq<Use>, clock: int, now: int, window: int)
    requires Remembers(seen, uses, clock, window) && clock <= now
    ensures Remembers(seen, uses, now, window)
  {}

  // The map alone decides what the full history decides.
  lemma SeenDecides(seen: map<NonceKey, int>, uses: seq<Use>, now: int, window: int, key: NonceKey)
    requires Remembers(seen, uses, now, window)
    ensures Fresh(uses, key, now, window) <==> (key in seen ==> now - seen[key] >= window)
  {
    if key in seen {
      var i :| 0 <= i < |uses| && uses[i] == Use(key, seen[key]);
      assert Fresh(uses, key, now, window) ==> now - uses[i].at >= window;
    }
  }

  lemma StoreRemembers(seen: map<NonceKey, int>, uses: seq<Use>, now: int, window: int, key: NonceKey)
    requires Remembers(seen, uses, now, window) && Spaced(uses, window) && Until(uses, now)
    requires Fresh(uses, key, now, window)
    ensures var uses' := uses + [Use(key, now)];
            Remembers(seen[key := now], uses', now, window) && Spaced(uses', window) && Until(uses', now)
  {
    var seen', uses' := seen[key := now], uses + [Use(key, now)];
    forall k | k in seen' ensures Use(k, seen'[k]) in uses' {
      if k == key {
        assert uses'[|uses|] == Use(key, now);
      } else {
        assert Use(k, seen[k]) in uses;
      }
    }
  }

  // `seen` once every key but those in `todo` has been visited by the sweep.
  ghost function Sweep(seen: map<NonceKey, int>, todo: set<NonceKey>, now: int, window: int): map<NonceKey, int> {
    map k | k in seen && (k in todo || now - seen[k] <= window) :: seen[k]
  }

  // Forgetting nonces older than the window changes no answer.
  lemma SweepRemembers(seen: map<NonceKey, int>, uses: seq<Use>, todo: set<NonceKey>, now: int, window: int)
    requires Remembers(seen, uses, now, window)
    ensures Remembers(Sweep(seen, todo, now, window), uses, now, window)
  {}

  lemma SweepOne(seen: map<NonceKey, int>, todo: set<NonceKey>, now: int, window: int, key: NonceKey)
    requires key in todo && todo <= seen.Keys
    ensures var was := Sweep(seen, todo, now, window);
            var swept := Sweep(seen, todo - {key}, now, window);
            if now - seen[key] > window then swept == was - {key} && |swept| == |was| - 1 else swept == was
  {
    var was := Sweep(seen, todo, now, window);
    if now - seen[key] > window {
      assert (was - {key}).Keys == was.Keys - {key};
      assert Sweep(seen, todo - {key}, now, window) == was - {key};
    } else {
      assert Sweep(seen, todo - {key}, now, window) == was;
    }
  }

  class NonceCache {
    const window: int
    var seen: map<NonceKey, int>
    ghost var uses: seq<Use> // every accepted use, oldest first
    ghost var clock: int

    ghost predicate Valid()
      reads this
    {
      && Remembers(seen, uses, clock, window)
      && Spaced(uses, window)
      && Until(uses, clock)
    }

    constructor (window: int, ghost now: int)
      ensures Valid() && this.window == window && uses == [] && clock == now
    {
      this.window := window;
      seen, uses, clock := map[], [], now;
    }

    method CheckAndStore(sender: string, nonce: string, now: int) returns (unseen: bool)
      requires Valid() && clock <= now
      modifies this
      ensures Valid() && clock == now
      ensures unseen <==> Fresh(old(uses), NonceKey(sender, nonce), now, window)
      ensures uses == old(uses) + if unseen then [Use(NonceKey(sender, nonce), now)] else []
    {
      var key := NonceKey(sender, nonce);
      RemembersLater(seen, uses, clock, now, window);
      SeenDecides(seen, uses, now, window, key);
      clock := now;
      if key in seen && now - seen[key] < window {
        return false;
      }
      StoreRemembers(seen, uses, now, window, key);
      seen := seen[key := now];
      uses := uses + [Use(key, now)];
      return true;
    }

    // The background sweep; it changes no answer.
    method Cleanup(now: int) returns (removed: nat)
      requires Valid() && clock <= now
      modifies this
      ensures Valid() && clock == now && uses == old(uses)
      ensures seen == map k | k in old(seen) && now - old(seen)[k] <= window :: old(seen)[k]
      ensures removed == |old(seen)| - |seen|
    {
      RemembersLater(seen, uses, clock, now, window);
      clock, removed := now, 0;
      ghost var was := seen;
      var todo := seen.Keys;
      assert seen == Sweep(was, todo, now, window);
      while todo != {}
        invariant todo <= was.Keys && seen == Sweep(was, todo, now, window)
        invariant removed == |was| - |seen| && uses == old(uses) && clock == now
        decreases |todo|
      {
        var key :| key in todo;
        SweepOne(was, todo, now, window, key);
        todo := todo - {key};
        if now - seen[key] > window {
          seen := seen - {key};
          removed := removed + 1;
        }
      }
      SweepRemembers(was, uses, {}, now, window);
    }
  }

  // ---- A signed request: its timestamp and nonce cannot be changed ----

  datatype Request = Request(key: NonceKey, timestamp: int)

  // The handler reads the clock for the timestamp, and later again for the nonce.
  datatype Admission = Admission(request: Request, checked: int, at: int)

  predicate InTime(timestamp: int, now: int) {
    -TIMESTAMP_VALIDITY <= now - timestamp <= TIMESTAMP_VALIDITY
  }

  ghost predicate Admissible(log: seq<Admission>, request: Request, checked: int, now: int) {
    && InTime(request.timestamp, checked)
    && forall i | 0 <= i < |log| && log[i].request.key == request.key :: now - log[i].at >= REPLAY_WINDOW
  }

  // Not more than five minutes off the clock, on either side, and the nonce not used
  // in the last six.
  lemma AdmissibleExactly(log: seq<Admission>, request: Request, checked: int, now: int)
    ensures Admissible(log, request, checked, now) <==>
              && request.timestamp - checked <= 300_000_000_000
              && checked - request.timestamp <= 300_000_000_000
              && forall i | 0 <= i < |log| && log[i].request.key == request.key ::
                   now - log[i].at >= 360_000_000_000
  {
  }

  // What the gate lets through, in the order of the second readings.
  ghost predicate AdmittedInOrder(log: seq<Admission>) {
    && (forall i | 0 <= i < |log| :: log[i].checked <= log[i].at)
    && (forall i | 0 <= i < |log| :: Admissible(log[..i], log[i].request, log[i].checked, log[i].at))
    && (forall i, j | 0 <= i < j < |log| :: log[i].at <= log[j].at)
  }

  // No request spends more than `delay` between its two checks.
  ghost predicate Within(log: seq<Admission>, delay: nat) {
    forall i | 0 <= i < |log| :: log[i].at - log[i].checked <= delay
  }

  // Every request that was ever let through had a timestamp within five minutes of
  // the clock, and no other use of its nonce within six.
  lemma LoggedInBounds(log: seq<Admission>)
    requires AdmittedInOrder(log)
    ensures forall i | 0 <= i < |log| ::
              && log[i].request.timestamp - log[i].checked <= 300_000_000_000
              && log[i].checked - log[i].request.timestamp <= 300_000_000_000
    ensures forall i, j | 0 <= i < j < |log| && log[i].request.key == log[j].request.key ::
              log[j].at - log[i].at >= 360_000_000_000
  {
    forall j | 0 <= j < |log|
      ensures log[j].request.timestamp - log[j].checked <= 300_000_000_000
      ensures log[j].checked - log[j].request.timestamp <= 300_000_000_000
      ensures forall i | 0 <= i < j && log[i].request.key == log[j].request.key ::
                log[j].at - log[i].at >= 360_000_000_000
    {
      AdmissibleExactly(log[..j], log[j].request, log[j].checked, log[j].at);
      forall i | 0 <= i < j && log[i].request.key == log[j].request.key
        ensures log[j].at - log[i].at >= 360_000_000_000
      {
        assert log[..j][i] == log[i];
      }
    }
  }

  // A verbatim replay can get through after all exactly when the request was
  // accepted a minute before its own timestamp, less the time between the two
  // checks: the margin allows for no clock that runs behind the sender's by more.
  lemma ReplayWindow(request: Request, checked: int, at: int, delay: nat)
    requires InTime(request.timestamp, checked) && 0 <= at - checked <= delay
    ensures (exists again: Admission ::
               again.request == request && IsReplay(Admission(request, checked, at), again, delay))
            <==> request.timestamp - at >= 60_000_000_000 - delay
  {
    var first := Admission(request, checked, at);
    if request.timestamp - at >= MINUTE - delay {
      var later := at + REPLAY_WINDOW;
      var latest := request.timestamp + TIMESTAMP_VALIDITY;
      var again := Admission(request, if later <= latest then later else latest, later);
      assert [first, again][..0] == [] && [first, again][..1] == [first];
      assert IsReplay(first, again, delay);
    }
    forall again: Admission | again.request == request && IsReplay(first, again, delay)
      ensures request.timestamp - at >= MINUTE - delay
    {
      AcceptedOnce([first, again], delay, 0, 1);
    }
  }

  ghost predicate IsReplay(first: Admission, again: Admission, delay: nat) {
    AdmittedInOrder([first, again]) && Within([first, again], delay)
  }

  // In any history, a request accepted later than a minute before its timestamp,
  // less the time between the two checks, is accepted once.
  lemma AcceptedOnce(log: seq<Admission>, delay: nat, i: nat, j: nat)
    requires AdmittedInOrder(log) && Within(log, delay) && i < j < |log|
    requires log[i].request == log[j].request
    ensures log[i].request.timestamp - log[i].at >= 60_000_000_000 - delay
    ensures log[j].at - log[i].at >= 360_000_000_000
  {
    assert Admissible(log[..j], log[j].request, log[j].checked, log[j].at);
    assert log[..j][i] == log[i];
  }

  // What ties the admissions to the cache: they are its accepted uses.
  ghost predicate SameUses(log: seq<Admission>, uses: seq<Use>) {
    && |log| == |uses|
    && forall i | 0 <= i < |log| :: uses[i] == Use(log[i].request.key, log[i].at)
  }

  lemma SameUsesDecide(log: seq<Admission>, uses: seq<Use>, request: Request, checked: int, now: int)
    requires SameUses(log, uses)
    ensures Admissible(log, request, checked, now)
            <==> InTime(request.timestamp, checked) && Fresh(uses, request.key, now, REPLAY_WINDOW)
  {
    if Admissible(log, request, checked, now) {
      forall i | 0 <= i < |uses| && uses[i].key == request.key ensures now - uses[i].at >= REPLAY_WINDOW {
        assert log[i].request.key == request.key;
      }
    }
  }

  lemma AdmittedOn(log: seq<Admission>, request: Request, checked: int, now: int)
    requires AdmittedInOrder(log) && Admissible(log, request, checked, now) && checked <= now
    requires forall i | 0 <= i < |log| :: log[i].at <= now
    ensures AdmittedInOrder(log + [Admission(request, checked, now)])
  {
    var log' := log + [Admission(request, checked, now)];
    forall i | 0 <= i < |log'|
      ensures Admissible(log'[..i], log'[i].request, log'[i].checked, log'[i].at)
    {
      assert log'[..i] == log[..i];
      if i == |log| {
        assert log[..i] == log;
      }
    }
  }

  // The two checks of HandleForward, for requests whose signature has been verified.
  class Gate {
    const nonces: NonceCache
    ghost var log: seq<Admission>

    ghost predicate Valid()
      reads this, nonces
    {
      && nonces.Valid() && nonces.window == REPLAY_WINDOW
      && AdmittedInOrder(log)
      && SameUses(log, nonces.uses)
    }

    constructor (ghost now: int)
      ensures Valid() && fresh(nonces) && log == [] && nonces.clock == now
    {
      nonces := new NonceCache(REPLAY_WINDOW, now);
      log := [];
    }

    // `checked` is the clock at the timestamp check, `now` at the nonce check.
    method Admit(request: Request, checked: int, now: int) returns (ok: bool)
      requires Valid() && nonces.clock <= now && checked <= now
      modifies this, nonces
      ensures Valid()
      ensures ok <==> Admissible(old(log), request, checked, now)
      ensures ok <==>
                && request.timestamp - checked <= 300_000_000_000
                && checked - request.timestamp <= 300_000_000_000
                && forall i | 0 <= i < |old(log)| && old(log)[i].request.key == request.key ::
                     now - old(log)[i].at >= 360_000_000_000
      ensures log == old(log) + if ok then [Admission(request, checked, now)] else []
    {
      AdmissibleExactly(log, request, checked, now);
      ok := InTime(request.timestamp, checked);
      if ok {
        ok := Spend(request, checked, now);
      }
    }

    // The second half of the check, once the timestamp has passed.
    method Spend(request: Request, checked: int, now: int) returns (ok: bool)
      requires Valid() && nonces.clock <= now && checked <= now && InTime(request.timestamp, checked)
      modifies this, nonces
      ensures Valid()
      ensures ok <==> Admissible(old(log), request, checked, now)
      ensures log == old(log) + if ok then [Admission(request, checked, now)] else []
    {
      SameUsesDecide(log, nonces.uses, request, checked, now);
      ok := nonces.CheckAndStore(request.key.sender, request.key.nonce, now);
      if ok {
        forall i | 0 <= i < |log| ensures log[i].at <= now {
          assert old(nonces.uses)[i].at <= now;
        }
        AdmittedOn(log, request, checked, now);
        log := log + [Admission(request, checked, now)];
      }
    }
  }
}
