// The access-token minter: a cache and one exchange that concurrent callers
// share. Code between two awaits is one step; replies and clock readings are
// arbitrary. Times are milliseconds.
module TokenMinter {
  import opened Wrappers

  type Exchange = nat
  type Caller = nat

  datatype Cached = Cached(token: string, notAfter: real)

  // The token endpoint's JSON; None for a missing or ill-typed member.
  datatype Body = Body(accessToken: Option<string>, expiresIn: Option<real>)

  function TokenOf(body: Body): Option<string> {
    if body.accessToken == Some("") then None else body.accessToken
  }

  function Lifetime(body: Body): real {
    if body.expiresIn.Some? then body.expiresIn.value else 3600.0
  }

  // When a token received at `at` stops being served from the cache.
  function NotAfter(at: real, lifetime: real, skew: real): real {
    at + lifetime * 1000.0 - skew
  }

  // What getAccessToken does with a call.
  datatype Turn = Serve(token: string) | Join(e: Exchange) | Launch

  function Ask(cached: Option<Cached>, inFlight: Option<Exchange>, now: real): Turn {
    if cached.Some? && now < cached.value.notAfter then Serve(cached.value.token)
    else if inFlight.Some? then Join(inFlight.value)
    else Launch
  }

  // The object's own fields and the code that changes them.
  class GoogleAccessTokenMinter {
    const skew: real
    var cached: Option<Cached>
    var inFlight: Option<Exchange>

    constructor (skew: real)
      ensures this.skew == skew && cached == None && inFlight == None
    {
      this.skew := skew;
      cached, inFlight := None, None;
    }

    // `next` names the promise of the exchange this call would start.
    method GetAccessToken(now: real, next: Exchange) returns (turn: Turn)
      modifies this`inFlight
      ensures turn == Ask(cached, old(inFlight), now)
      ensures inFlight == if turn.Launch? then Some(next) else old(inFlight)
    {
      if cached.Some? && now < cached.value.notAfter {
        return Serve(cached.value.token);
      }
      if inFlight.Some? {
        return Join(inFlight.value);
      }
      inFlight := Some(next);
      return Launch;
    }

    // The end of the exchange; None stands for the thrown error.
    method Receive(body: Body, now: real) returns (token: Option<string>)
      modifies this`cached
      ensures token == TokenOf(body)
      ensures cached ==
                if token.Some? then Some(Cached(token.value, NotAfter(now, Lifetime(body), skew))) else old(cached)
    {
      if body.accessToken.None? || body.accessToken.value == "" {
        return None;
      }
      var expiresInSec := if body.expiresIn.Some? then body.expiresIn.value else 3600.0;
      cached := Some(Cached(body.accessToken.value, now + expiresInSec * 1000.0 - skew));
      return body.accessToken;
    }

    method Finally()
      modifies this`inFlight
      ensures inFlight == None
    {
      inFlight := None;
    }
  }

  // ---- The machine ----

  // An exchange: waiting for the response, for its body, settled, and after its
  // `finally` has run.
  datatype Phase = Fetching | Reading | Settled(outcome: Option<string>) | Over(outcome: Option<string>)

  datatype Issued = Issued(token: string, at: real, lifetime: real)

  datatype Served = Served(caller: Caller, token: string, at: real)

  datatype History = History(
    issued: set<Issued>,              // tokens received
    served: set<Served>,              // calls answered from the cache
    joined: map<Caller, Exchange>,    // the exchange each other call waits for
    answers: map<Caller, Option<string>>)

  datatype State = State(
    cached: Option<Cached>, inFlight: Option<Exchange>, phases: map<Exchange, Phase>, past: History)

  ghost const INIT := State(None, None, map[], History({}, {}, map[], map[]))

  datatype Label =
    | Call(c: Caller, now: real, next: Exchange, signs: bool)
    | Respond(e: Exchange, ok: bool)
    | Deliver(e: Exchange, body: Option<Body>, now: real)
    | Finish(e: Exchange)
    | Wake(c: Caller)

  ghost predicate IsNew(s: State, c: Caller) {
    c !in s.past.joined && forall v | v in s.past.served :: v.caller != c
  }

  ghost predicate Enabled(s: State, l: Label) {
    match l
    case Call(c, now, next, signs) => IsNew(s, c) && next !in s.phases
    case Respond(e, ok) => e in s.phases && s.phases[e].Fetching?
    case Deliver(e, body, now) => e in s.phases && s.phases[e].Reading?
    case Finish(e) => e in s.phases && s.phases[e].Settled?
    case Wake(c) =>
      && c in s.past.joined && c !in s.past.answers
      && s.past.joined[c] in s.phases && s.phases[s.past.joined[c]].Over?
  }

  ghost function Next(s: State, l: Label, skew: real): State
    requires Enabled(s, l)
  {
    match l
    case Call(c, now, next, signs) =>
      (match Ask(s.cached, s.inFlight, now)
       case Serve(token) => s.(past := s.past.(served := s.past.served + {Served(c, token, now)}))
       case Join(e) => s.(past := s.past.(joined := s.past.joined[c := e]))
       case Launch =>
         s.(inFlight := Some(next),
            phases := s.phases[next := if signs then Fetching else Settled(None)],
            past := s.past.(joined := s.past.joined[c := next])))
    case Respond(e, ok) => s.(phases := s.phases[e := if ok then Reading else Settled(None)])
    case Deliver(e, body, now) =>
      if body.None? || TokenOf(body.value).None? then s.(phases := s.phases[e := Settled(None)])
      else
        var token, lifetime := TokenOf(body.value).value, Lifetime(body.value);
        s.(cached := Some(Cached(token, NotAfter(now, lifetime, skew))),
           phases := s.phases[e := Settled(Some(token))],
           past := s.past.(issued := s.past.issued + {Issued(token, now, lifetime)}))
    case Finish(e) => s.(inFlight := None, phases := s.phases[e := Over(s.phases[e].outcome)])
    case Wake(c) => s.(past := s.past.(answers := s.past.answers[c := s.phases[s.past.joined[c]].outcome]))
  }

  ghost function After(run: seq<Label>, skew: real): Option<State> {
    if run == [] then Some(INIT)
    else
      var last := run[|run| - 1];
      match After(run[..|run| - 1], skew)
      case None => None
      case Some(s) => if Enabled(s, last) then Some(Next(s, last, skew)) else None
  }

  // ---- What every run keeps ----

  ghost predicate IsIssued(issued: set<Issued>, token: string, before: real, skew: real) {
    exists i :: i in issued && i.token == token && before <= NotAfter(i.at, i.lifetime, skew)
  }

  // The exchange not over is the one callers find.
  ghost predicate FlightInv(s: State) {
    forall e :: (e in s.phases && !s.phases[e].Over?) <==> s.inFlight == Some(e)
  }

  ghost predicate CacheInv(s: State, skew: real) {
    && (s.cached.Some? ==> IsIssued(s.past.issued, s.cached.value.token, s.cached.value.notAfter, skew))
    && forall v | v in s.past.served ::
         exists i :: i in s.past.issued && i.token == v.token && v.at < NotAfter(i.at, i.lifetime, skew)
  }

  // An answered call has the outcome of the exchange it joined.
  ghost predicate AnswerInv(s: State) {
    && (forall c | c in s.past.joined :: s.past.joined[c] in s.phases)
    && (forall c | c in s.past.answers ::
          && c in s.past.joined
          && s.phases[s.past.joined[c]] == Over(s.past.answers[c]))
  }

  // A successful outcome is a token received.
  ghost predicate OutcomeInv(s: State) {
    forall e | e in s.phases && (s.phases[e].Settled? || s.phases[e].Over?) && s.phases[e].outcome.Some? ::
      exists i :: i in s.past.issued && i.token == s.phases[e].outcome.value
  }

  ghost predicate Inv(s: State, skew: real) {
    FlightInv(s) && CacheInv(s, skew) && AnswerInv(s) && OutcomeInv(s)
  }

  lemma FlightStep(s: State, l: Label, skew: real)
    requires FlightInv(s) && Enabled(s, l)
    ensures FlightInv(Next(s, l, skew))
  {}

  lemma CacheStep(s: State, l: Label, skew: real)
    requires CacheInv(s, skew) && Enabled(s, l)
    ensures CacheInv(Next(s, l, skew), skew)
  {
    var s' := Next(s, l, skew);
    assert s.past.issued <= s'.past.issued;
    if l.Deliver? && s'.past.issued != s.past.issued {
      var i := Issued(TokenOf(l.body.value).value, l.now, Lifetime(l.body.value));
      assert i in s'.past.issued;
    }
  }

  lemma AnswerStep(s: State, l: Label, skew: real)
    requires AnswerInv(s) && FlightInv(s) && Enabled(s, l)
    ensures AnswerInv(Next(s, l, skew))
  {}

  lemma OutcomeStep(s: State, l: Label, skew: real)
    requires OutcomeInv(s) && Enabled(s, l)
    ensures OutcomeInv(Next(s, l, skew))
  {
    var s' := Next(s, l, skew);
    assert s.past.issued <= s'.past.issued;
    if l.Deliver? && s'.past.issued != s.past.issued {
      var i := Issued(TokenOf(l.body.value).value, l.now, Lifetime(l.body.value));
      assert i in s'.past.issued;
    }
  }

  lemma {:induction false} InvRun(run: seq<Label>, skew: real)
    requires After(run, skew).Some?
    ensures Inv(After(run, skew).value, skew)
  {
    if run == [] {
    } else {
      var s, l := After(run[..|run| - 1], skew).value, run[|run| - 1];
      InvRun(run[..|run| - 1], skew);
      FlightStep(s, l, skew);
      CacheStep(s, l, skew);
      AnswerStep(s, l, skew);
      OutcomeStep(s, l, skew);
    }
  }

  // Call `c` joined exchange `e` and has its answer.
  ghost predicate Shares(past: History, c: Caller, e: Exchange) {
    c in past.joined && past.joined[c] == e && c in past.answers
  }

  // At most one exchange is in flight; a call made meanwhile is served from the
  // cache or joins it, and none joins one that is over, however it ended; and all
  // that joined it get its one outcome.
  lemma SingleFlight(run: seq<Label>, skew: real)
    requires After(run, skew).Some?
    ensures var s := After(run, skew).value;
            && (forall e, f | e in s.phases && f in s.phases && !s.phases[e].Over? && !s.phases[f].Over? :: e == f)
            && (forall e, now | e in s.phases && !s.phases[e].Over? ::
                  Ask(s.cached, s.inFlight, now).Serve? || Ask(s.cached, s.inFlight, now) == Join(e))
            && (forall e, now | Ask(s.cached, s.inFlight, now) == Join(e) :: e in s.phases && !s.phases[e].Over?)
            && (forall c, d, e | Shares(s.past, c, e) && Shares(s.past, d, e) ::
                  s.past.answers[c] == s.past.answers[d])
  {
    InvRun(run, skew);
  }

  // A token comes from the cache only before its own response time plus its
  // lifetime less the skew; any other token handed out is the outcome of an exchange.
  lemma ServedInTime(run: seq<Label>, skew: real, v: Served)
    requires After(run, skew).Some? && v in After(run, skew).value.past.served
    ensures exists i :: i in After(run, skew).value.past.issued && i.token == v.token
                        && v.at < i.at + i.lifetime * 1000.0 - skew
  {
    InvRun(run, skew);
    var s := After(run, skew).value;
    var i :| i in s.past.issued && i.token == v.token && v.at < NotAfter(i.at, i.lifetime, skew);
    assert v.at < i.at + i.lifetime * 1000.0 - skew;
  }

  lemma AnswersAreIssued(run: seq<Label>, skew: real, c: Caller)
    requires After(run, skew).Some? && c in After(run, skew).value.past.answers
    ensures var past := After(run, skew).value.past;
            past.answers[c].Some? ==> exists i :: i in past.issued && i.token == past.answers[c].value
  {
    InvRun(run, skew);
  }

  // ---- A token received is used ----

  // Step `l` receives the token `i`.
  ghost predicate Receives(l: Label, i: Issued) {
    && l.Deliver? && l.body.Some? && l.now == i.at
    && i.token != "" && l.body.value.accessToken == Some(i.token)
    && i.lifetime == (if l.body.value.expiresIn.Some? then l.body.value.expiresIn.value else 3600.0)
  }

  ghost predicate ReceivesAny(l: Label) {
    l.Deliver? && l.body.Some? && l.body.value.accessToken.Some? && l.body.value.accessToken.value != ""
  }

  // The cache holds the last token received.
  lemma {:induction false} CacheIsLast(run: seq<Label>, skew: real, k: nat, i: Issued)
    requires After(run, skew).Some? && k < |run| && Receives(run[k], i)
    requires forall j | k < j < |run| :: !ReceivesAny(run[j])
    ensures After(run, skew).value.cached == Some(Cached(i.token, i.at + i.lifetime * 1000.0 - skew))
  {
    if k == |run| - 1 {
    } else {
      CacheIsLast(run[..|run| - 1], skew, k, i);
    }
  }

  // So a call made before response time plus lifetime less skew is served that token
  // at once, and starts no exchange.
  lemma FreshTokenIsServed(
    run: seq<Label>, skew: real, k: nat, i: Issued, c: Caller, now: real, next: Exchange, signs: bool)
    requires After(run, skew).Some? && k < |run| && Receives(run[k], i)
    requires forall j | k < j < |run| :: !ReceivesAny(run[j])
    requires Enabled(After(run, skew).value, Call(c, now, next, signs))
    requires now < i.at + i.lifetime * 1000.0 - skew
    ensures var s := After(run, skew).value;
            var s' := Next(s, Call(c, now, next, signs), skew);
            && s'.past.served == s.past.served + {Served(c, i.token, now)}
            && s'.phases == s.phases && s'.inFlight == s.inFlight && s'.past.joined == s.past.joined
  {
    CacheIsLast(run, skew, k, i);
  }

  lemma Do(run: seq<Label>, skew: real, s: State, l: Label) returns (run': seq<Label>)
    requires After(run, skew) == Some(s) && Enabled(s, l)
    ensures After(run', skew) == Some(Next(s, l, skew))
  {
    run' := run + [l];
    assert run'[..|run|] == run;
  }

  // And a call that finds neither a fresh token nor an exchange gets the token that
  // the one it starts receives.
  lemma ExchangeAnswers(
    run: seq<Label>, skew: real, s: State, c: Caller, now: real, next: Exchange, i: Issued)
    returns (run': seq<Label>, s': State)
    requires After(run, skew) == Some(s) && Enabled(s, Call(c, now, next, true)) && i.token != ""
    requires c !in s.past.answers && s.inFlight == None
    requires s.cached.Some? ==> s.cached.value.notAfter <= now
    ensures After(run', skew) == Some(s')
    ensures s'.past.answers == s.past.answers[c := Some(i.token)] && s'.inFlight == None
    ensures s'.cached == Some(Cached(i.token, i.at + i.lifetime * 1000.0 - skew))
  {
    run' := Do(run, skew, s, Call(c, now, next, true));
    s' := Next(s, Call(c, now, next, true), skew);
    run' := Do(run', skew, s', Respond(next, true));
    s' := Next(s', Respond(next, true), skew);
    run', s' := BodyAnswers(run', skew, s', c, next, i);
  }

  lemma BodyAnswers(run: seq<Label>, skew: real, s: State, c: Caller, e: Exchange, i: Issued)
    returns (run': seq<Label>, s': State)
    requires After(run, skew) == Some(s) && e in s.phases && s.phases[e].Reading? && i.token != ""
    requires c in s.past.joined && s.past.joined[c] == e && c !in s.past.answers
    ensures After(run', skew) == Some(s')
    ensures s'.past.answers == s.past.answers[c := Some(i.token)] && s'.inFlight == None
    ensures s'.cached == Some(Cached(i.token, i.at + i.lifetime * 1000.0 - skew))
  {
    run', s' := BodyCaches(run, skew, s, e, i);
    run' := Do(run', skew, s', Finish(e));
    s' := Next(s', Finish(e), skew);
    run' := Do(run', skew, s', Wake(c));
    s' := Next(s', Wake(c), skew);
  }

  lemma BodyCaches(run: seq<Label>, skew: real, s: State, e: Exchange, i: Issued)
    returns (run': seq<Label>, s': State)
    requires After(run, skew) == Some(s) && e in s.phases && s.phases[e].Reading? && i.token != ""
    ensures After(run', skew) == Some(s') && s'.phases == s.phases[e := Settled(Some(i.token))]
    ensures s'.past.joined == s.past.joined && s'.past.answers == s.past.answers
    ensures s'.cached == Some(Cached(i.token, i.at + i.lifetime * 1000.0 - skew))
  {
    var deliver := Deliver(e, Some(Body(Some(i.token), Some(i.lifetime))), i.at);
    run' := Do(run, skew, s, deliver);
    s' := Next(s, deliver, skew);
  }
}
