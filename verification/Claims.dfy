// The claim pipeline as a step machine. Between two awaits a claim runs alone;
// at each await other claims may run. Replies of the attestation backend, the
// key provider and the ledger are arbitrary, except that a claimed-state reply
// tells the device's bit as it is when the backend answers.
module Claims {
  import opened Wrappers

  type Tid = nat
  type Device = nat

  const DAY_MS: int := 24 * 60 * 60 * 1000

  datatype Platform = Ios | Android

  datatype Attestation = AppAttest | DeviceCheck | PlayIntegrity

  datatype Request = Request(platform: Platform, kind: Attestation, device: Device)

  datatype Config = Config(
    enabledIos: bool, enabledAndroid: bool, devAllowAndroidClaim: bool, paused: bool,
    maxGrantsPerDay: int, wired: set<Platform>)

  datatype Outcome =
    | Granted(key: string)              // 200
    | BadRequest                        // 400
    | PlatformDisabled                  // 403
    | AttestationFailed                 // 403
    | AlreadyClaimed                    // 409
    | GrantsPaused                      // 503
    | AttestationUnavailable            // 503
    | ProvisioningUnavailable           // 503

  datatype Grant = Grant(grantId: string, platform: Platform, grantedAt: int)

  // ---- The ledger ----

  function CountSince(rows: seq<Grant>, since: int): nat {
    if rows == [] then 0
    else CountSince(rows[..|rows| - 1], since) + if rows[|rows| - 1].grantedAt >= since then 1 else 0
  }

  // The rows of the closed 24-hour window that opens at `a`.
  function InDay(rows: seq<Grant>, a: int): nat {
    if rows == [] then 0
    else InDay(rows[..|rows| - 1], a) + if a <= rows[|rows| - 1].grantedAt <= a + DAY_MS then 1 else 0
  }

  // What both count: the rows of a time span.
  ghost function RowsSince(rows: seq<Grant>, since: int): set<nat> {
    set i: nat | i < |rows| && rows[i].grantedAt >= since
  }

  ghost function RowsBetween(rows: seq<Grant>, a: int, b: int): set<nat> {
    set i: nat | i < |rows| && a <= rows[i].grantedAt <= b
  }

  lemma {:induction false} CountSinceIsExact(rows: seq<Grant>, since: int)
    ensures CountSince(rows, since) == |RowsSince(rows, since)|
  {
    if rows == [] {
      assert RowsSince(rows, since) == {};
    } else {
      var front, n := rows[..|rows| - 1], |rows| - 1;
      CountSinceIsExact(front, since);
      assert RowsSince(rows, since) == RowsSince(front, since) + if rows[n].grantedAt >= since then {n} else {};
    }
  }

  lemma {:induction false} InDayIsExact(rows: seq<Grant>, a: int)
    ensures InDay(rows, a) == |RowsBetween(rows, a, a + 86_400_000)|
  {
    if rows == [] {
      assert RowsBetween(rows, a, a + 86_400_000) == {};
    } else {
      var front, n, b := rows[..|rows| - 1], |rows| - 1, a + 86_400_000;
      InDayIsExact(front, a);
      assert RowsBetween(rows, a, b) == RowsBetween(front, a, b) + if a <= rows[n].grantedAt <= b then {n} else {};
    }
  }

  lemma {:induction false} DayIsRecent(rows: seq<Grant>, a: int, since: int)
    requires since <= a
    ensures InDay(rows, a) <= CountSince(rows, since)
  {
    if rows == [] {
    } else {
      DayIsRecent(rows[..|rows| - 1], a, since);
    }
  }

  // ---- One claim ----

  datatype Check = Invalid | Unavailable | Known(claimed: bool)

  // What a claim waits for, or has just received.
  datatype Stage =
    | Checking                 // deviceState.check
    | Checked(reply: Check)
    | Minting                  // provisioner.createCappedKey
    | Setting(key: string)     // deviceState.setClaimed
    | Closing(key: string)
  {
    predicate HasKey() {
      Setting? || Closing?
    }

    // Told that the device has not claimed, and no key yet.
    predicate IsCleared() {
      Minting? || this == Checked(Known(false))
    }
  }

  datatype Claim = Claim(req: Request, stage: Stage)

  // The part of processClaim before its first await; None when it goes on.
  function Refusal(cfg: Config, rows: seq<Grant>, body: Option<Request>, now: int): Option<Outcome> {
    if body.None? then Some(BadRequest)
    else
      var req := body.value;
      if !(if req.platform.Ios? then cfg.enabledIos else cfg.enabledAndroid) then Some(PlatformDisabled)
      else if cfg.paused then Some(GrantsPaused)
      else if cfg.maxGrantsPerDay > 0 && CountSince(rows, now - DAY_MS) >= cfg.maxGrantsPerDay then Some(GrantsPaused)
      else if req.kind.AppAttest? then Some(AttestationFailed)
      else if !Attests(cfg, req) then Some(AttestationFailed)
      else if req.platform !in cfg.wired then Some(AttestationUnavailable)
      else None
  }

  predicate Attests(cfg: Config, req: Request) {
    match req.platform
    case Ios => req.kind.DeviceCheck?
    case Android => if cfg.devAllowAndroidClaim then req.kind.DeviceCheck? else req.kind.PlayIntegrity?
  }

  // The claims that go on to the attestation backend, and those refused for the
  // switch or the ceiling: the latter just when the ceiling's number of rows is not
  // older than 24 hours.
  lemma RefusesExactly(cfg: Config, rows: seq<Grant>, body: Option<Request>, now: int)
    ensures var refusal := Refusal(cfg, rows, body, now);
            var enabled := body.Some? && (if body.value.platform == Ios then cfg.enabledIos else cfg.enabledAndroid);
            var full := cfg.maxGrantsPerDay > 0 && |RowsSince(rows, now - 86_400_000)| >= cfg.maxGrantsPerDay;
            var open := enabled && !cfg.paused && !full;
            && (refusal == Some(BadRequest) <==> body == None)
            && (refusal == Some(PlatformDisabled) <==> body.Some? && !enabled)
            && (refusal == Some(GrantsPaused) <==> enabled && (cfg.paused || full))
            && (refusal == Some(AttestationFailed) <==> open && !IsAttestable(cfg, body.value))
            && (refusal == Some(AttestationUnavailable) <==>
                  open && IsAttestable(cfg, body.value) && body.value.platform !in cfg.wired)
            && (refusal == None <==> open && IsAttestable(cfg, body.value) && body.value.platform in cfg.wired)
  {
    CountSinceIsExact(rows, now - 86_400_000);
  }

  // The pairs of platform and attestation that are let through: iOS with DeviceCheck;
  // Android with Play Integrity, or with DeviceCheck where that is allowed for
  // development.
  predicate IsAttestable(cfg: Config, req: Request) {
    || (req.platform, req.kind) == (Ios, DeviceCheck)
    || ((req.platform, req.kind) == (Android, PlayIntegrity) && !cfg.devAllowAndroidClaim)
    || ((req.platform, req.kind) == (Android, DeviceCheck) && cfg.devAllowAndroidClaim)
  }

  // ---- The machine ----

  datatype History = History(
    peak: nat,                    // most claims in flight at once
    peaks: map<Device, nat>,      // the same, for one device
    keys: map<Tid, string>,       // keys minted
    minted: multiset<Device>,     // the devices they were minted for
    failed: multiset<Device>,     // setClaimed calls that failed
    lost: nat,                    // ledger inserts that failed
    replies: map<Tid, Outcome>)
  {
    ghost function PeakOf(d: Device): nat {
      if d in peaks then peaks[d] else 0
    }
  }

  datatype State = State(rows: seq<Grant>, clock: int, claimed: set<Device>, claims: map<Tid, Claim>, past: History)

  ghost const INIT := State([], 0, {}, map[], History(0, map[], map[], multiset{}, multiset{}, 0, map[]))

  datatype Label =
    | Arrive(t: Tid, body: Option<Request>, now: int)
    | Answer(t: Tid, reply: Check)
    | Resume(t: Tid)
    | Mint(t: Tid, key: Option<string>)
    | SetClaimed(t: Tid, ok: bool, applied: bool)
    | Close(t: Tid, grantId: string, inserted: bool, now: int)

  // The claims in flight for `d`, those of them cleared to mint, and those with a
  // key whose bit is not settled.
  ghost function Of(claims: map<Tid, Claim>, d: Device): set<Tid> {
    set t | t in claims && claims[t].req.device == d
  }

  ghost function Cleared(claims: map<Tid, Claim>, d: Device): set<Tid> {
    set t | t in claims && claims[t].req.device == d && claims[t].stage.IsCleared()
  }

  ghost function Unsettled(claims: map<Tid, Claim>, d: Device): set<Tid> {
    set t | t in claims && claims[t].req.device == d && claims[t].stage.Setting?
  }

  ghost function Keyed(claims: map<Tid, Claim>): set<Tid> {
    set t | t in claims && claims[t].stage.HasKey()
  }

  ghost function Max(a: nat, b: nat): nat {
    if a >= b then a else b
  }

  ghost predicate At(s: State, t: Tid) {
    t in s.claims
  }

  ghost predicate Enabled(s: State, l: Label) {
    match l
    case Arrive(t, body, now) => t !in s.claims && t !in s.past.replies && s.clock <= now
    case Answer(t, reply) =>
      && At(s, t) && s.claims[t].stage.Checking?
      && (reply.Known? ==> reply.claimed == (s.claims[t].req.device in s.claimed))
    case Resume(t) => At(s, t) && s.claims[t].stage.Checked?
    case Mint(t, key) => At(s, t) && s.claims[t].stage.Minting?
    case SetClaimed(t, ok, applied) => At(s, t) && s.claims[t].stage.Setting? && (ok ==> applied)
    case Close(t, grantId, inserted, now) => At(s, t) && s.claims[t].stage.Closing? && s.clock <= now
  }

  ghost function Move(s: State, t: Tid, stage: Stage): State
    requires t in s.claims
  {
    s.(claims := s.claims[t := Claim(s.claims[t].req, stage)])
  }

  ghost function Reply(s: State, t: Tid, outcome: Outcome): State {
    s.(claims := s.claims - {t}, past := s.past.(replies := s.past.replies[t := outcome]))
  }

  ghost function Start(s: State, t: Tid, req: Request): State {
    var claims := s.claims[t := Claim(req, Checking)];
    var d := req.device;
    s.(claims := claims,
       past := s.past.(
         peak := Max(s.past.peak, |claims|),
         peaks := s.past.peaks[d := Max(s.past.PeakOf(d), |Of(claims, d)|)]))
  }

  ghost function Next(cfg: Config, s: State, l: Label): State
    requires Enabled(s, l)
  {
    match l
    case Arrive(t, body, now) =>
      var s1 := s.(clock := now);
      (match Refusal(cfg, s.rows, body, now)
       case Some(outcome) => Reply(s1, t, outcome)
       case None => Start(s1, t, body.value))
    case Answer(t, reply) => Move(s, t, Checked(reply))
    case Resume(t) =>
      (match s.claims[t].stage.reply
       case Invalid => Reply(s, t, AttestationFailed)
       case Unavailable => Reply(s, t, AttestationUnavailable)
       case Known(claimed) => if claimed then Reply(s, t, AlreadyClaimed) else Move(s, t, Minting))
    case Mint(t, key) =>
      (match key
       case None => Reply(s, t, ProvisioningUnavailable)
       case Some(key) =>
         Move(s, t, Setting(key)).(past := s.past.(
           keys := s.past.keys[t := key],
           minted := s.past.minted + multiset{s.claims[t].req.device})))
    case SetClaimed(t, ok, applied) =>
      var d := s.claims[t].req.device;
      Move(s, t, Closing(s.claims[t].stage.key)).(
        claimed := if applied then s.claimed + {d} else s.claimed,
        past := if ok then s.past else s.past.(failed := s.past.failed + multiset{d}))
    case Close(t, grantId, inserted, now) =>
      var s1 := Reply(s, t, Granted(s.claims[t].stage.key)).(clock := now);
      if inserted then s1.(rows := s.rows + [Grant(grantId, s.claims[t].req.platform, now)])
      else s1.(past := s1.past.(lost := s1.past.lost + 1))
  }

  ghost function After(cfg: Config, run: seq<Label>): Option<State> {
    if run == [] then Some(INIT)
    else
      var last := run[|run| - 1];
      match After(cfg, run[..|run| - 1])
      case None => None
      case Some(s) => if Enabled(s, last) then Some(Next(cfg, s, last)) else None
  }

  // ---- How many claims were in flight ----

  // The most claims in flight together in any state of the run, and the most of one
  // device.
  ghost function MostInFlight(cfg: Config, run: seq<Label>): nat
    requires After(cfg, run).Some?
  {
    if run == [] then 0
    else Max(MostInFlight(cfg, run[..|run| - 1]), |After(cfg, run).value.claims|)
  }

  ghost function MostOf(cfg: Config, run: seq<Label>, d: Device): nat
    requires After(cfg, run).Some?
  {
    if run == [] then 0
    else Max(MostOf(cfg, run[..|run| - 1], d), |Of(After(cfg, run).value.claims, d)|)
  }

  lemma PeakStart(s: State, t: Tid, req: Request, d: Device)
    requires t !in s.claims && |s.claims| <= s.past.peak && |Of(s.claims, d)| <= s.past.PeakOf(d)
    ensures var s' := Start(s, t, req);
            && s'.past.peak == Max(s.past.peak, |s'.claims|)
            && s'.past.PeakOf(d) == Max(s.past.PeakOf(d), |Of(s'.claims, d)|)
  {
    if req.device != d {
      assert Of(Start(s, t, req).claims, d) == Of(s.claims, d);
    }
  }

  // Any other step starts no claim.
  lemma PeakOther(cfg: Config, s: State, l: Label, d: Device)
    requires Enabled(s, l)
    requires l.Arrive? ==> Refusal(cfg, s.rows, l.body, l.now).Some?
    ensures var s' := Next(cfg, s, l);
            && s'.past.peak == s.past.peak && s'.past.PeakOf(d) == s.past.PeakOf(d)
            && |s'.claims| <= |s.claims| && |Of(s'.claims, d)| <= |Of(s.claims, d)|
  {
    var s' := Next(cfg, s, l);
    assert s'.claims.Keys <= s.claims.Keys && Of(s'.claims, d) <= Of(s.claims, d);
    Subset(s'.claims.Keys, s.claims.Keys);
    Subset(Of(s'.claims, d), Of(s.claims, d));
  }

  lemma PeakStep(cfg: Config, s: State, l: Label, d: Device)
    requires Enabled(s, l) && |s.claims| <= s.past.peak && |Of(s.claims, d)| <= s.past.PeakOf(d)
    ensures var s' := Next(cfg, s, l);
            && s'.past.peak == Max(s.past.peak, |s'.claims|)
            && s'.past.PeakOf(d) == Max(s.past.PeakOf(d), |Of(s'.claims, d)|)
  {
    if l.Arrive? && Refusal(cfg, s.rows, l.body, l.now).None? {
      PeakStart(s.(clock := l.now), l.t, l.body.value, d);
    } else {
      PeakOther(cfg, s, l, d);
    }
  }

  lemma {:induction false} PeaksAreExact(cfg: Config, run: seq<Label>, d: Device)
    requires After(cfg, run).Some?
    ensures var s := After(cfg, run).value;
            && s.past.peak == MostInFlight(cfg, run) && |s.claims| <= s.past.peak
            && s.past.PeakOf(d) == MostOf(cfg, run, d) && |Of(s.claims, d)| <= s.past.PeakOf(d)
  {
    if run == [] {
    } else {
      PeaksAreExact(cfg, run[..|run| - 1], d);
      PeakStep(cfg, After(cfg, run[..|run| - 1]).value, run[|run| - 1], d);
    }
  }

  // ---- The daily ceiling ----

  // No window holds too much, and one still open has room for every claim in flight.
  ghost predicate DayBound(cfg: Config, s: State, a: int) {
    && InDay(s.rows, a) <= cfg.maxGrantsPerDay + s.past.peak - 1
    && (s.clock <= a + DAY_MS ==> InDay(s.rows, a) + |s.claims| <= cfg.maxGrantsPerDay + s.past.peak - 1)
  }

  ghost predicate CeilingInv(cfg: Config, s: State) {
    && |s.claims| <= s.past.peak
    && forall a :: DayBound(cfg, s, a)
  }

  lemma CeilingRefuse(cfg: Config, s: State, l: Label)
    requires CeilingInv(cfg, s) && Enabled(s, l) && l.Arrive? && Refusal(cfg, s.rows, l.body, l.now).Some?
    ensures CeilingInv(cfg, Next(cfg, s, l))
  {
    var s' := Next(cfg, s, l);
    assert s'.claims == s.claims;
    forall a ensures DayBound(cfg, s', a) {
      assert DayBound(cfg, s, a);
    }
  }

  lemma CeilingStart(cfg: Config, s: State, l: Label)
    requires cfg.maxGrantsPerDay > 0 && CeilingInv(cfg, s)
    requires Enabled(s, l) && l.Arrive? && Refusal(cfg, s.rows, l.body, l.now).None?
    ensures CeilingInv(cfg, Next(cfg, s, l))
  {
    var s' := Next(cfg, s, l);
    assert s'.claims.Keys == s.claims.Keys + {l.t};
    forall a ensures DayBound(cfg, s', a) {
      assert DayBound(cfg, s, a);
      if l.now <= a + DAY_MS {
        DayIsRecent(s.rows, a, l.now - DAY_MS);
      }
    }
  }

  lemma CeilingClose(cfg: Config, s: State, l: Label)
    requires cfg.maxGrantsPerDay > 0 && CeilingInv(cfg, s) && Enabled(s, l) && l.Close?
    ensures CeilingInv(cfg, Next(cfg, s, l))
  {
    var s' := Next(cfg, s, l);
    assert s'.claims.Keys == s.claims.Keys - {l.t};
    forall a ensures DayBound(cfg, s', a) {
      assert DayBound(cfg, s, a);
      if l.inserted {
        assert s'.rows[..|s.rows|] == s.rows;
      }
    }
  }

  lemma CeilingStep(cfg: Config, s: State, l: Label)
    requires cfg.maxGrantsPerDay > 0 && CeilingInv(cfg, s) && Enabled(s, l)
    ensures CeilingInv(cfg, Next(cfg, s, l))
  {
    match l
    case Arrive(_, body, now) =>
      if Refusal(cfg, s.rows, body, now).Some? {
        CeilingRefuse(cfg, s, l);
      } else {
        CeilingStart(cfg, s, l);
      }
    case Close(_, _, _, _) => CeilingClose(cfg, s, l);
    case _ =>
      var s' := Next(cfg, s, l);
      assert s'.claims.Keys == s.claims.Keys || s'.claims.Keys == s.claims.Keys - {l.t};
      forall a ensures DayBound(cfg, s', a) {
        assert DayBound(cfg, s, a);
      }
  }

  // In every run, a 24-hour window holds at most the ceiling plus one row less
  // than the most claims ever in flight together.
  lemma {:induction false} DailyCeiling(cfg: Config, run: seq<Label>)
    requires cfg.maxGrantsPerDay > 0 && After(cfg, run).Some?
    ensures CeilingInv(cfg, After(cfg, run).value)
    ensures forall a, b | b == a + 86_400_000 ::
              |RowsBetween(After(cfg, run).value.rows, a, b)|
                <= cfg.maxGrantsPerDay + Max(MostInFlight(cfg, run), 1) - 1
  {
    if run == [] {
      forall a ensures DayBound(cfg, INIT, a) {}
    } else {
      DailyCeiling(cfg, run[..|run| - 1]);
      CeilingStep(cfg, After(cfg, run[..|run| - 1]).value, run[|run| - 1]);
    }
    var s := After(cfg, run).value;
    PeaksAreExact(cfg, run, 0);
    forall a, b | b == a + 86_400_000
      ensures |RowsBetween(s.rows, a, b)| <= cfg.maxGrantsPerDay + Max(s.past.peak, 1) - 1
    {
      assert DayBound(cfg, s, a);
      InDayIsExact(s.rows, a);
    }
  }

  // ---- One device ----

  // Until the bit is set every key of the device is either of a failed setClaimed
  // or not settled; from then on only claims already cleared can still mint.
  ghost predicate DeviceInv(s: State, d: Device) {
    && |Of(s.claims, d)| <= s.past.PeakOf(d)
    && (d !in s.claimed ==> s.past.minted[d] == s.past.failed[d] + |Unsettled(s.claims, d)|)
    && (d in s.claimed ==>
          && s.past.minted[d] >= 1
          && s.past.minted[d] + |Cleared(s.claims, d)| <= s.past.failed[d] + s.past.PeakOf(d))
  }

  // How the sets of claims change when claim `t` moves on or leaves.
  ghost predicate Moves(claims: map<Tid, Claim>, claims': map<Tid, Claim>, t: Tid) {
    forall u | u != t :: (u in claims <==> u in claims') && (u in claims ==> claims'[u] == claims[u])
  }

  ghost function One(b: bool): nat {
    if b then 1 else 0
  }

  lemma CountMoves(claims: map<Tid, Claim>, claims': map<Tid, Claim>, t: Tid, d: Device)
    requires Moves(claims, claims', t)
    ensures |Of(claims', d)| == |Of(claims, d)| - One(t in Of(claims, d)) + One(t in Of(claims', d))
    ensures |Cleared(claims', d)| == |Cleared(claims, d)| - One(t in Cleared(claims, d)) + One(t in Cleared(claims', d))
    ensures |Unsettled(claims', d)|
            == |Unsettled(claims, d)| - One(t in Unsettled(claims, d)) + One(t in Unsettled(claims', d))
  {
    Trade(Of(claims, d), Of(claims', d), t);
    Trade(Cleared(claims, d), Cleared(claims', d), t);
    Trade(Unsettled(claims, d), Unsettled(claims', d), t);
  }

  lemma Trade(ts: set<Tid>, ts': set<Tid>, t: Tid)
    requires forall u | u != t :: u in ts <==> u in ts'
    ensures |ts'| == |ts| - One(t in ts) + One(t in ts')
  {
    assert ts - {t} == ts' - {t};
    assert |ts - {t}| == |ts| - One(t in ts);
    assert |ts' - {t}| == |ts'| - One(t in ts');
  }

  lemma ClearedOrUnsettled(claims: map<Tid, Claim>, d: Device)
    ensures |Cleared(claims, d)| + |Unsettled(claims, d)| <= |Of(claims, d)|
  {
    var both := Cleared(claims, d) + Unsettled(claims, d);
    assert both <= Of(claims, d) && Cleared(claims, d) * Unsettled(claims, d) == {};
    Subset(both, Of(claims, d));
  }

  lemma {:induction false} Subset(a: set<Tid>, b: set<Tid>)
    requires a <= b
    ensures |a| <= |b|
  {
    if a == {} {
    } else {
      var x :| x in a;
      Subset(a - {x}, b - {x});
    }
  }

  lemma DeviceArrive(cfg: Config, s: State, l: Label, d: Device)
    requires DeviceInv(s, d) && Enabled(s, l) && l.Arrive?
    ensures DeviceInv(Next(cfg, s, l), d)
  {
    CountMoves(s.claims, Next(cfg, s, l).claims, l.t, d);
    ClearedOrUnsettled(s.claims, d);
  }

  lemma DeviceAnswer(cfg: Config, s: State, l: Label, d: Device)
    requires DeviceInv(s, d) && Enabled(s, l) && l.Answer?
    ensures DeviceInv(Next(cfg, s, l), d)
  {
    CountMoves(s.claims, Next(cfg, s, l).claims, l.t, d);
    ClearedOrUnsettled(s.claims, d);
  }

  lemma DeviceResume(cfg: Config, s: State, l: Label, d: Device)
    requires DeviceInv(s, d) && Enabled(s, l) && l.Resume?
    ensures DeviceInv(Next(cfg, s, l), d)
  {
    CountMoves(s.claims, Next(cfg, s, l).claims, l.t, d);
    ClearedOrUnsettled(s.claims, d);
  }

  lemma DeviceMint(cfg: Config, s: State, l: Label, d: Device)
    requires DeviceInv(s, d) && Enabled(s, l) && l.Mint?
    ensures DeviceInv(Next(cfg, s, l), d)
  {
    CountMoves(s.claims, Next(cfg, s, l).claims, l.t, d);
    ClearedOrUnsettled(s.claims, d);
  }

  lemma DeviceSetClaimed(cfg: Config, s: State, l: Label, d: Device)
    requires DeviceInv(s, d) && Enabled(s, l) && l.SetClaimed?
    ensures DeviceInv(Next(cfg, s, l), d)
  {
    CountMoves(s.claims, Next(cfg, s, l).claims, l.t, d);
    ClearedOrUnsettled(s.claims, d);
  }

  lemma DeviceClose(cfg: Config, s: State, l: Label, d: Device)
    requires DeviceInv(s, d) && Enabled(s, l) && l.Close?
    ensures DeviceInv(Next(cfg, s, l), d)
  {
    CountMoves(s.claims, Next(cfg, s, l).claims, l.t, d);
    ClearedOrUnsettled(s.claims, d);
  }

  lemma DeviceStep(cfg: Config, s: State, l: Label, d: Device)
    requires DeviceInv(s, d) && Enabled(s, l)
    ensures DeviceInv(Next(cfg, s, l), d)
  {
    match l
    case Arrive(_, _, _) => DeviceArrive(cfg, s, l, d);
    case Answer(_, _) => DeviceAnswer(cfg, s, l, d);
    case Resume(_) => DeviceResume(cfg, s, l, d);
    case Mint(_, _) => DeviceMint(cfg, s, l, d);
    case SetClaimed(_, _, _) => DeviceSetClaimed(cfg, s, l, d);
    case Close(_, _, _, _) => DeviceClose(cfg, s, l, d);
  }

  // In every run a device gets at most one key for each of its overlapping claims
  // and each failed setClaimed; its bit is set only once a key was minted for it.
  lemma {:induction false} DeviceGrants(cfg: Config, run: seq<Label>, d: Device)
    requires After(cfg, run).Some?
    ensures DeviceInv(After(cfg, run).value, d)
    ensures var s := After(cfg, run).value;
            && s.past.minted[d] <= s.past.failed[d] + MostOf(cfg, run, d)
            && (d in s.claimed ==> s.past.minted[d] >= 1)
  {
    if run == [] {
    } else {
      DeviceGrants(cfg, run[..|run| - 1], d);
      DeviceStep(cfg, After(cfg, run[..|run| - 1]).value, run[|run| - 1], d);
    }
    ClearedOrUnsettled(After(cfg, run).value.claims, d);
    PeaksAreExact(cfg, run, d);
  }

  // ---- Keys and replies ----

  // Claim `t` has a key exactly while it carries one or after it replied with it.
  ghost predicate KeyInv(s: State, t: Tid) {
    && !(t in s.claims && t in s.past.replies)
    && (t in s.claims ==> (s.claims[t].stage.HasKey() <==> t in s.past.keys))
    && (t in s.claims && t in s.past.keys ==> s.claims[t].stage.key == s.past.keys[t])
    && (t in s.past.replies ==> (s.past.replies[t].Granted? <==> t in s.past.keys))
    && (t in s.past.replies && t in s.past.keys ==> s.past.replies[t].key == s.past.keys[t])
    && (t in s.past.keys ==> t in s.claims || t in s.past.replies)
  }

  lemma KeyElsewhere(cfg: Config, s: State, l: Label, t: Tid)
    requires KeyInv(s, t) && Enabled(s, l) && l.t != t
    ensures KeyInv(Next(cfg, s, l), t)
  {}

  lemma KeyArrives(cfg: Config, s: State, l: Label, t: Tid)
    requires KeyInv(s, t) && Enabled(s, l) && l.Arrive? && l.t == t
    ensures KeyInv(Next(cfg, s, l), t)
  {}

  lemma KeyAnswers(cfg: Config, s: State, l: Label, t: Tid)
    requires KeyInv(s, t) && Enabled(s, l) && (l.Answer? || l.Resume?) && l.t == t
    ensures KeyInv(Next(cfg, s, l), t)
  {}

  lemma KeyMints(cfg: Config, s: State, l: Label, t: Tid)
    requires KeyInv(s, t) && Enabled(s, l) && (l.Mint? || l.SetClaimed?) && l.t == t
    ensures KeyInv(Next(cfg, s, l), t)
  {}

  lemma KeyCloses(cfg: Config, s: State, l: Label, t: Tid)
    requires KeyInv(s, t) && Enabled(s, l) && l.Close? && l.t == t
    ensures KeyInv(Next(cfg, s, l), t)
  {}

  lemma KeyStep(cfg: Config, s: State, l: Label, t: Tid)
    requires KeyInv(s, t) && Enabled(s, l)
    ensures KeyInv(Next(cfg, s, l), t)
  {
    if l.t != t {
      KeyElsewhere(cfg, s, l, t);
    } else {
      match l
      case Arrive(_, _, _) => KeyArrives(cfg, s, l, t);
      case Close(_, _, _, _) => KeyCloses(cfg, s, l, t);
      case Mint(_, _) => KeyMints(cfg, s, l, t);
      case SetClaimed(_, _, _) => KeyMints(cfg, s, l, t);
      case _ => KeyAnswers(cfg, s, l, t);
    }
  }

  // Every minted key goes out in a 200 reply of its own claim once that claim is
  // over; and every 200 reply carries a key minted for it.
  lemma {:induction false} KeysAreDelivered(cfg: Config, run: seq<Label>, t: Tid)
    requires After(cfg, run).Some?
    ensures KeyInv(After(cfg, run).value, t)
    ensures var s := After(cfg, run).value;
            && (t in s.past.keys && t !in s.claims ==>
                  t in s.past.replies && s.past.replies[t] == Granted(s.past.keys[t]))
            && (t in s.past.replies && s.past.replies[t].Granted? ==>
                  t in s.past.keys && s.past.keys[t] == s.past.replies[t].key)
  {
    if run == [] {
    } else {
      KeysAreDelivered(cfg, run[..|run| - 1], t);
      KeyStep(cfg, After(cfg, run[..|run| - 1]).value, run[|run| - 1], t);
    }
  }

  // ---- Keys and rows ----

  ghost predicate RowInv(s: State) {
    |s.past.keys| == |s.rows| + s.past.lost + |Keyed(s.claims)|
  }

  lemma RowArrive(cfg: Config, s: State, l: Label)
    requires RowInv(s) && KeyInv(s, l.t) && Enabled(s, l) && l.Arrive?
    ensures RowInv(Next(cfg, s, l))
  {
    var s' := Next(cfg, s, l);
    Trade(Keyed(s.claims), Keyed(s'.claims), l.t);
  }

  lemma RowStep(cfg: Config, s: State, l: Label)
    requires RowInv(s) && KeyInv(s, l.t) && Enabled(s, l)
    ensures RowInv(Next(cfg, s, l))
  {
    if l.Arrive? {
      RowArrive(cfg, s, l);
    } else {
      var s' := Next(cfg, s, l);
      Trade(Keyed(s.claims), Keyed(s'.claims), l.t);
      Trade(s.past.keys.Keys, s'.past.keys.Keys, l.t);
    }
  }

  // The ledger misses exactly the keys whose insert failed and those of claims
  // that have not come to it.
  lemma {:induction false} RowsMatchKeys(cfg: Config, run: seq<Label>)
    requires After(cfg, run).Some?
    ensures RowInv(After(cfg, run).value)
  {
    if run == [] {
    } else {
      RowsMatchKeys(cfg, run[..|run| - 1]);
      KeysAreDelivered(cfg, run[..|run| - 1], run[|run| - 1].t);
      RowStep(cfg, After(cfg, run[..|run| - 1]).value, run[|run| - 1]);
    }
  }
}
