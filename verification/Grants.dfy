// The grant ledger and one claim run to its end without interruption, and the
// proof that the bound on the daily ceiling is reached.
module Grants {
  import opened Wrappers
  import opened Claims

  class Ledger {
    var rows: seq<Grant>

    constructor ()
      ensures rows == []
    {
      rows := [];
    }

    // The insert fails when the database does, or when the id is already there.
    method Insert(row: Grant, works: bool) returns (ok: bool)
      modifies this
      ensures ok == (works && forall r | r in old(rows) :: r.grantId != row.grantId)
      ensures rows == old(rows) + if ok then [row] else []
    {
      ok := works;
      for i := 0 to |rows|
        invariant rows == old(rows)
        invariant ok == (works && forall j | 0 <= j < i :: rows[j].grantId != row.grantId)
      {
        ok := ok && rows[i].grantId != row.grantId;
      }
      if ok {
        rows := rows + [row];
      }
    }

    method Count(since: int) returns (n: nat)
      ensures n == CountSince(rows, since) == |RowsSince(rows, since)|
    {
      n := 0;
      for i := 0 to |rows|
        invariant n == CountSince(rows[..i], since)
      {
        assert rows[..i + 1][..i] == rows[..i];
        if rows[i].grantedAt >= since {
          n := n + 1;
        }
      }
      assert rows[..|rows|] == rows;
      CountSinceIsExact(rows, since);
    }
  }

  // The attestation backend's bits, and the keys the provider handed out.
  class Backend {
    var claimed: set<Device>
    var keys: seq<string>

    constructor ()
      ensures claimed == {} && keys == []
    {
      claimed, keys := {}, [];
    }
  }

  // What the outside world does during one claim.
  datatype World = World(
    valid: Option<bool>,   // None: backend unavailable
    key: Option<string>,   // None: provisioning fails
    bitOk: bool, bitApplied: bool,
    ledgerWorks: bool, grantId: string,
    end: int)              // the clock at the insert

  method ProcessClaim(cfg: Config, ledger: Ledger, backend: Backend, body: Option<Request>, now: int, world: World)
    returns (outcome: Outcome)
    modifies ledger, backend
    ensures Refusal(cfg, old(ledger.rows), body, now).Some? ==>
              outcome == Refusal(cfg, old(ledger.rows), body, now).value
    ensures Refusal(cfg, old(ledger.rows), body, now).None? ==>
              outcome == Judged(body.value.device in old(backend.claimed), world)
    ensures !outcome.Granted? ==> backend.keys == old(backend.keys) && backend.claimed == old(backend.claimed)
                                  && ledger.rows == old(ledger.rows)
    ensures outcome.Granted? ==>
              && Refusal(cfg, old(ledger.rows), body, now).None?
              && backend.keys == old(backend.keys) + [outcome.key]
              && backend.claimed == old(backend.claimed) + (if world.bitApplied then {body.value.device} else {})
              && ledger.rows == old(ledger.rows) + Recorded(old(ledger.rows), body.value, world)
  {
    if body.None? { return BadRequest; }
    var req := body.value;
    if !(if req.platform.Ios? then cfg.enabledIos else cfg.enabledAndroid) { return PlatformDisabled; }
    if cfg.paused { return GrantsPaused; }
    if cfg.maxGrantsPerDay > 0 {
      var minted := ledger.Count(now - DAY_MS);
      if minted >= cfg.maxGrantsPerDay { return GrantsPaused; }
    }
    if req.kind.AppAttest? || !Attests(cfg, req) { return AttestationFailed; }
    if req.platform !in cfg.wired { return AttestationUnavailable; }
    if world.valid == Some(false) { return AttestationFailed; }
    if world.valid == None { return AttestationUnavailable; }
    if req.device in backend.claimed { return AlreadyClaimed; }
    if world.key.None? { return ProvisioningUnavailable; }
    backend.keys := backend.keys + [world.key.value];
    if world.bitApplied {
      backend.claimed := backend.claimed + {req.device};
    }
    var ok := ledger.Insert(Grant(world.grantId, req.platform, world.end), world.ledgerWorks);
    return Granted(world.key.value);
  }

  function Judged(claimed: bool, world: World): Outcome {
    match world.valid
    case None => AttestationUnavailable
    case Some(valid) =>
      if !valid then AttestationFailed
      else if claimed then AlreadyClaimed
      else if world.key.None? then ProvisioningUnavailable
      else Granted(world.key.value)
  }

  // A key goes only to a device that the backend vouches for and whose bit is clear;
  // trouble at the backend or the provider is told apart from a refusal.
  lemma JudgesExactly(claimed: bool, world: World)
    ensures var outcome := Judged(claimed, world);
            && (forall key :: outcome == Granted(key) <==>
                  world.valid == Some(true) && !claimed && world.key == Some(key))
            && (outcome == AlreadyClaimed <==> world.valid == Some(true) && claimed)
            && (outcome == AttestationFailed <==> world.valid == Some(false))
            && (outcome == AttestationUnavailable <==> world.valid == None)
            && (outcome == ProvisioningUnavailable <==>
                  world.valid == Some(true) && !claimed && world.key == None)
  {
  }

  function Inserts(rows: seq<Grant>, world: World): bool {
    world.ledgerWorks && forall r | r in rows :: r.grantId != world.grantId
  }

  function Recorded(rows: seq<Grant>, req: Request, world: World): seq<Grant> {
    if Inserts(rows, world) then [Grant(world.grantId, req.platform, world.end)] else []
  }

  // ---- The same claim, step by step and alone ----

  lemma Do(cfg: Config, run: seq<Label>, s: State, l: Label) returns (run': seq<Label>)
    requires After(cfg, run) == Some(s) && Enabled(s, l)
    ensures After(cfg, run') == Some(Next(cfg, s, l)) && run' == run + [l]
  {
    run' := run + [l];
    assert run'[..|run|] == run;
  }

  ghost function ReplyFor(claimed: bool, world: World): Check {
    match world.valid
    case None => Unavailable
    case Some(valid) => if valid then Known(claimed) else Invalid
  }

  // `run'` goes on from `run` with steps of claim `t` alone.
  ghost predicate GoesOnAlone(run: seq<Label>, run': seq<Label>, t: Tid) {
    run <= run' && forall i | |run| <= i < |run'| :: run'[i].t == t
  }

  // What a claim that nothing interrupts does, from the call of the attestation
  // backend to the reply.
  ghost predicate Finishes(s: State, s': State, t: Tid, world: World)
    requires t in s.claims
  {
    var req := s.claims[t].req;
    var outcome := Judged(req.device in s.claimed, world);
    && s'.past.replies == s.past.replies[t := outcome]
    && s'.claims == s.claims - {t}
    && s'.past.peak == s.past.peak
    && s'.rows == s.rows + (if outcome.Granted? then Recorded(s.rows, req, world) else [])
    && s'.claimed == s.claimed + (if outcome.Granted? && world.bitApplied then {req.device} else {})
    && s'.clock == (if outcome.Granted? then world.end else s.clock)
    && s'.past == if outcome.Granted? then GrantedPast(s, t, world) else s.past.(replies := s'.past.replies)
  }

  // What a grant leaves in the history.
  ghost function GrantedPast(s: State, t: Tid, world: World): History
    requires t in s.claims && world.key.Some?
  {
    var d := s.claims[t].req.device;
    s.past.(
      replies := s.past.replies[t := Granted(world.key.value)],
      keys := s.past.keys[t := world.key.value],
      minted := s.past.minted + multiset{d},
      failed := if world.bitOk then s.past.failed else s.past.failed + multiset{d},
      lost := if Inserts(s.rows, world) then s.past.lost else s.past.lost + 1)
  }

  lemma FinishAlone(cfg: Config, run: seq<Label>, s: State, t: Tid, world: World) returns (run': seq<Label>, s': State)
    requires After(cfg, run) == Some(s)
    requires t in s.claims && s.claims[t].stage == Checking
    requires s.clock <= world.end && (world.bitOk ==> world.bitApplied)
    ensures After(cfg, run') == Some(s') && GoesOnAlone(run, run', t) && Finishes(s, s', t, world)
  {
    var reply := ReplyFor(s.claims[t].req.device in s.claimed, world);
    var s1 := Move(s, t, Checked(reply));
    run' := Do(cfg, run, s, Answer(t, reply));
    run', s' := ResumeAlone(cfg, run', s1, t, world);
    assert s1.claims - {t} == s.claims - {t};
  }

  lemma ResumeAlone(cfg: Config, run: seq<Label>, s: State, t: Tid, world: World) returns (run': seq<Label>, s': State)
    requires After(cfg, run) == Some(s) && t in s.claims
    requires s.claims[t].stage == Checked(ReplyFor(s.claims[t].req.device in s.claimed, world))
    requires s.clock <= world.end && (world.bitOk ==> world.bitApplied)
    ensures After(cfg, run') == Some(s') && GoesOnAlone(run, run', t) && Finishes(s, s', t, world)
  {
    run' := Do(cfg, run, s, Resume(t));
    if s.claims[t].stage.reply == Known(false) {
      var s1 := Move(s, t, Minting);
      run', s' := MintAlone(cfg, run', s1, t, world);
      assert s1.claims - {t} == s.claims - {t};
    } else {
      s' := Next(cfg, s, Resume(t));
    }
  }

  lemma MintAlone(cfg: Config, run: seq<Label>, s: State, t: Tid, world: World) returns (run': seq<Label>, s': State)
    requires After(cfg, run) == Some(s)
    requires t in s.claims && s.claims[t].stage == Minting
    requires s.clock <= world.end && (world.bitOk ==> world.bitApplied)
    ensures After(cfg, run') == Some(s') && GoesOnAlone(run, run', t)
    ensures var req := s.claims[t].req;
            var granted := world.key.Some?;
            && s'.past == (if granted then GrantedPast(s, t, world)
                           else s.past.(replies := s.past.replies[t := ProvisioningUnavailable]))
            && s'.claims == s.claims - {t}
            && s'.rows == s.rows + (if granted then Recorded(s.rows, req, world) else [])
            && s'.claimed == s.claimed + (if granted && world.bitApplied then {req.device} else {})
            && s'.clock == (if granted then world.end else s.clock)
  {
    run' := Do(cfg, run, s, Mint(t, world.key));
    s' := Next(cfg, s, Mint(t, world.key));
    if world.key.Some? {
      run', s' := SettleAlone(cfg, run', s', t, world);
    }
    assert s'.claims == s.claims - {t};
  }

  // From the call of setClaimed on.
  lemma SettleAlone(cfg: Config, run: seq<Label>, s: State, t: Tid, world: World) returns (run': seq<Label>, s': State)
    requires After(cfg, run) == Some(s)
    requires t in s.claims && s.claims[t].stage.Setting?
    requires s.clock <= world.end && (world.bitOk ==> world.bitApplied)
    ensures After(cfg, run') == Some(s') && GoesOnAlone(run, run', t)
    ensures var req := s.claims[t].req;
            && s'.past == s.past.(
                 replies := s.past.replies[t := Granted(s.claims[t].stage.key)],
                 failed := if world.bitOk then s.past.failed else s.past.failed + multiset{req.device},
                 lost := if Inserts(s.rows, world) then s.past.lost else s.past.lost + 1)
            && s'.claims == s.claims - {t}
            && s'.rows == s.rows + Recorded(s.rows, req, world)
            && s'.claimed == s.claimed + (if world.bitApplied then {req.device} else {})
            && s'.clock == world.end
  {
    var l1 := SetClaimed(t, world.bitOk, world.bitApplied);
    run' := Do(cfg, run, s, l1);
    s' := Next(cfg, s, l1);
    var l2 := Close(t, world.grantId, Inserts(s.rows, world), world.end);
    run' := Do(cfg, run', s', l2);
    s' := Next(cfg, s', l2);
    assert s'.claims == s.claims - {t};
  }

  // A whole claim that nothing interrupts: refused at once, or judged by what the
  // backend, the provider and the ledger do.
  lemma ClaimAlone(
    cfg: Config, run: seq<Label>, s: State, t: Tid, body: Option<Request>, now: int, world: World)
    returns (run': seq<Label>, s': State)
    requires After(cfg, run) == Some(s) && t !in s.claims && t !in s.past.replies
    requires s.clock <= now <= world.end && (world.bitOk ==> world.bitApplied)
    ensures After(cfg, run') == Some(s') && GoesOnAlone(run, run', t) && s'.claims == s.claims
    ensures match Refusal(cfg, s.rows, body, now)
            case Some(outcome) =>
              && s'.past == s.past.(replies := s.past.replies[t := outcome])
              && s'.rows == s.rows && s'.claimed == s.claimed
            case None =>
              var req := body.value;
              var outcome := Judged(req.device in s.claimed, world);
              && s'.past.replies == s.past.replies[t := outcome]
              && s'.rows == s.rows + (if outcome.Granted? then Recorded(s.rows, req, world) else [])
              && s'.claimed == s.claimed + (if outcome.Granted? && world.bitApplied then {req.device} else {})
  {
    match Refusal(cfg, s.rows, body, now)
    case Some(outcome) => run', s' := RefusedAlone(cfg, run, s, t, body, now);
    case None => run', s' := AdmittedAlone(cfg, run, s, t, body.value, now, world);
  }

  lemma RefusedAlone(cfg: Config, run: seq<Label>, s: State, t: Tid, body: Option<Request>, now: int)
    returns (run': seq<Label>, s': State)
    requires After(cfg, run) == Some(s) && t !in s.claims && t !in s.past.replies && s.clock <= now
    requires Refusal(cfg, s.rows, body, now).Some?
    ensures After(cfg, run') == Some(s') && GoesOnAlone(run, run', t) && s'.claims == s.claims
    ensures s'.past == s.past.(replies := s.past.replies[t := Refusal(cfg, s.rows, body, now).value])
    ensures s'.rows == s.rows && s'.claimed == s.claimed
  {
    run' := Do(cfg, run, s, Arrive(t, body, now));
    s' := Next(cfg, s, Arrive(t, body, now));
    assert s.claims - {t} == s.claims;
  }

  lemma AdmittedAlone(
    cfg: Config, run: seq<Label>, s: State, t: Tid, req: Request, now: int, world: World)
    returns (run': seq<Label>, s': State)
    requires After(cfg, run) == Some(s) && t !in s.claims && t !in s.past.replies
    requires s.clock <= now <= world.end && (world.bitOk ==> world.bitApplied)
    requires Refusal(cfg, s.rows, Some(req), now) == None
    ensures After(cfg, run') == Some(s') && GoesOnAlone(run, run', t) && s'.claims == s.claims
    ensures var outcome := Judged(req.device in s.claimed, world);
            && s'.past.replies == s.past.replies[t := outcome]
            && s'.rows == s.rows + (if outcome.Granted? then Recorded(s.rows, req, world) else [])
            && s'.claimed == s.claimed + (if outcome.Granted? && world.bitApplied then {req.device} else {})
  {
    run' := Do(cfg, run, s, Arrive(t, Some(req), now));
    var s1 := Start(s.(clock := now), t, req);
    run', s' := FinishAlone(cfg, run', s1, t, world);
    assert s1.claims - {t} == s.claims;
  }

  // ---- The bound on the daily ceiling is reached ----

  // Claims 0..from have finished with a row at time 0, claims from..to are in flight.
  ghost predicate Shape(s: State, from: nat, to: nat, peak: nat) {
    && |s.rows| == from && (forall r | r in s.rows :: r.grantedAt == 0)
    && s.clock == 0 && s.past.peak == peak
    && from <= to && |s.claims| == to - from
    && (forall t :: t in s.claims <==> from <= t < to)
    && (forall t | t in s.claims :: s.claims[t] == Claim(Request(Ios, DeviceCheck, t), Checking))
    && (forall t | t in s.past.replies :: t < from)
    && (forall d | d in s.claimed :: d < from)
    && (forall r | r in s.rows :: |r.grantId| < from)
  }

  ghost predicate Open(cfg: Config) {
    cfg.enabledIos && !cfg.paused && Ios in cfg.wired && cfg.maxGrantsPerDay > 0
  }

  lemma {:induction false} CountAtMostAll(rows: seq<Grant>, since: int)
    ensures CountSince(rows, since) <= |rows|
  {
    if rows == [] {
    } else {
      CountAtMostAll(rows[..|rows| - 1], since);
    }
  }

  lemma {:induction false} AllInDay(rows: seq<Grant>)
    requires forall r | r in rows :: r.grantedAt == 0
    ensures InDay(rows, 0) == |rows|
  {
    if rows == [] {
    } else {
      assert rows[|rows| - 1] in rows;
      AllInDay(rows[..|rows| - 1]);
    }
  }

  lemma ArriveShape(cfg: Config, run: seq<Label>, s: State, from: nat, to: nat, peak: nat)
    returns (run': seq<Label>, s': State)
    requires After(cfg, run) == Some(s) && Shape(s, from, to, peak)
    requires Open(cfg) && from < cfg.maxGrantsPerDay
    ensures After(cfg, run') == Some(s') && Shape(s', from, to + 1, Max(peak, to + 1 - from))
  {
    var req := Request(Ios, DeviceCheck, to);
    CountAtMostAll(s.rows, 0 - DAY_MS);
    assert Refusal(cfg, s.rows, Some(req), 0) == None;
    run' := Do(cfg, run, s, Arrive(to, Some(req), 0));
    s' := Start(s.(clock := 0), to, req);
    StartShape(s, from, to, peak);
  }

  lemma StartShape(s: State, from: nat, to: nat, peak: nat)
    requires Shape(s, from, to, peak)
    ensures Shape(Start(s.(clock := 0), to, Request(Ios, DeviceCheck, to)), from, to + 1, Max(peak, to + 1 - from))
  {
    var s' := Start(s.(clock := 0), to, Request(Ios, DeviceCheck, to));
    StartCounts(s.claims, to, Claim(Request(Ios, DeviceCheck, to), Checking));
    assert forall t | t in s'.claims :: s'.claims[t] == Claim(Request(Ios, DeviceCheck, t), Checking);
  }

  lemma StartCounts<A>(m: map<nat, A>, t: nat, a: A)
    requires t !in m
    ensures |m[t := a]| == |m| + 1
  {
    assert m[t := a].Keys == m.Keys + {t};
  }

  lemma FinishShape(cfg: Config, run: seq<Label>, s: State, from: nat, to: nat, peak: nat)
    returns (run': seq<Label>, s': State)
    requires After(cfg, run) == Some(s) && Shape(s, from, to, peak) && from < to
    ensures After(cfg, run') == Some(s') && Shape(s', from + 1, to, peak)
  {
    var id := seq(from, i => 'x');
    var world := World(Some(true), Some("key"), true, true, true, id, 0);
    run', s' := FinishAlone(cfg, run, s, from, world);
    ShapeAfter(s, s', from, to, peak, world);
  }

  lemma ShapeAfter(s: State, s': State, from: nat, to: nat, peak: nat, world: World)
    requires Shape(s, from, to, peak) && from < to && Finishes(s, s', from, world)
    requires world == World(Some(true), Some("key"), true, true, true, world.grantId, 0) && |world.grantId| == from
    ensures Shape(s', from + 1, to, peak)
  {
    assert s'.rows == s.rows + [Grant(world.grantId, Ios, 0)];
    assert s'.claims.Keys == s.claims.Keys - {from};
  }

  // One claim after another, until one row is missing to the ceiling.
  lemma {:induction false} OneByOne(cfg: Config, n: nat) returns (run: seq<Label>, s: State)
    requires Open(cfg) && n < cfg.maxGrantsPerDay
    ensures After(cfg, run) == Some(s) && Shape(s, n, n, if n == 0 then 0 else 1)
  {
    if n == 0 {
      run, s := [], INIT;
    } else {
      run, s := OneByOne(cfg, n - 1);
      run, s := ArriveShape(cfg, run, s, n - 1, n - 1, if n == 1 then 0 else 1);
      run, s := FinishShape(cfg, run, s, n - 1, n, 1);
    }
  }

  lemma {:induction false} Crowd(cfg: Config, run: seq<Label>, s: State, from: nat, k: nat)
    returns (run': seq<Label>, s': State)
    requires After(cfg, run) == Some(s) && Shape(s, from, from, if from == 0 then 0 else 1)
    requires Open(cfg) && from < cfg.maxGrantsPerDay
    ensures After(cfg, run') == Some(s') && Shape(s', from, from + k, Max(if from == 0 then 0 else 1, k))
    decreases k
  {
    if k == 0 {
      run', s' := run, s;
    } else {
      run', s' := Crowd(cfg, run, s, from, k - 1);
      run', s' := ArriveShape(cfg, run', s', from, from + k - 1, Max(if from == 0 then 0 else 1, k - 1));
    }
  }

  lemma {:induction false} Disperse(cfg: Config, run: seq<Label>, s: State, from: nat, k: nat, peak: nat)
    returns (run': seq<Label>, s': State)
    requires After(cfg, run) == Some(s) && Shape(s, from, from + k, peak)
    ensures After(cfg, run') == Some(s') && Shape(s', from + k, from + k, peak)
    decreases k
  {
    if k == 0 {
      run', s' := run, s;
    } else {
      run', s' := FinishShape(cfg, run, s, from, from + k, peak);
      run', s' := Disperse(cfg, run', s', from + 1, k - 1, peak);
    }
  }

  lemma FullDay(cfg: Config, run: seq<Label>, s: State, n: nat, k: nat)
    requires After(cfg, run) == Some(s) && Shape(s, n, n, k)
    ensures MostInFlight(cfg, run) == k && |RowsBetween(s.rows, 0, 86_400_000)| == n
  {
    AllBetween(s.rows);
    PeaksAreExact(cfg, run, 0);
  }

  lemma AllBetween(rows: seq<Grant>)
    requires forall r | r in rows :: r.grantedAt == 0
    ensures |RowsBetween(rows, 0, 86_400_000)| == |rows|
  {
    AllInDay(rows);
    InDayIsExact(rows, 0);
  }

  // For every ceiling and every number of overlapping claims some run fills one
  // window right up to the bound of DailyCeiling.
  lemma CeilingIsReached(cfg: Config, k: nat) returns (run: seq<Label>)
    requires Open(cfg) && k >= 1
    ensures After(cfg, run).Some?
    ensures var s := After(cfg, run).value;
            MostInFlight(cfg, run) == k && |RowsBetween(s.rows, 0, 86_400_000)| == cfg.maxGrantsPerDay + k - 1
  {
    var from := cfg.maxGrantsPerDay - 1;
    var s;
    run, s := OneByOne(cfg, from);
    run, s := Crowd(cfg, run, s, from, k);
    run, s := Disperse(cfg, run, s, from, k, k);
    FullDay(cfg, run, s, from + k, k);
  }
}
