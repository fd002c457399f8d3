// No stranded message, in every interleaving.
module RelaySettled {
  import opened Wrappers
  import opened Table
  import opened Envelope
  import opened Relay
  import opened RelayEvents

  ghost predicate ThreadOk(th: Thread) {
    match th.pc
    case Connecting(c) => c.did == th.lock
    case Peeking(c) => c.did == th.lock
    case Draining(c, _, _) => c.did == th.lock
    case Drained(c, todo, _) => c.did == th.lock && todo != []
    case Looking(send) => send.to == th.lock
    case Checking(send, via) => send.to == th.lock && (via.Some? ==> via.value.did == th.lock)
    case Inserting(send, via) => send.to == th.lock && (via.Some? ==> via.value.did == th.lock)
    case Rechecking(send, via) => send.to == th.lock && (via.Some? ==> via.value.did == th.lock)
    case Writing(send, c) => send.to == th.lock && c.did == th.lock
    case Marking(send, c) => send.to == th.lock && c.did == th.lock && c.ack
    case _ => true
  }

  ghost predicate MayWait(pc: Pc) {
    pc.Connecting? || pc.Looking? || pc.Acking? || pc.Selecting? || pc.Locating?
  }

  // A goroutine past its first step holds the lock of its recipient.
  ghost predicate LockInv(s: State) {
    && (forall d | d in s.holder ::
          s.holder[d] in s.threads && s.threads[s.holder[d]].lock == d && !s.threads[s.holder[d]].pc.Locating?)
    && (forall t | t in s.threads :: ThreadOk(s.threads[t]) && (Holds(s, t) || MayWait(s.threads[t].pc)))
    && (forall d | d in s.conns :: s.conns[d].did == d)
  }

  // A step under a lock changes only its own goroutine's place, and that in order.
  ghost predicate OneMoves(s: State, s': State, t: Tid) {
    && t in s.threads && t in s'.threads
    && s'.holder == s.holder
    && s'.threads == s.threads[t := s.threads[t].(pc := s'.threads[t].pc)]
    && ThreadOk(s'.threads[t])
    && !s'.threads[t].pc.Locating?
  }

  lemma RegisterMoves(s: State, t: Tid, r: RegisterStep)
    requires RegisterEnabled(s, t, r) && ThreadOk(s.threads[t])
    ensures OneMoves(s, RegisterNext(s, t, r), t)
  {
  }

  lemma DeliverMoves(s: State, t: Tid, v: DeliverStep)
    requires DeliverEnabled(s, t, v) && ThreadOk(s.threads[t])
    requires forall d | d in s.conns :: s.conns[d].did == d
    ensures OneMoves(s, DeliverNext(s, t, v), t)
  {
  }

  lemma CancelMoves(s: State, t: Tid, k: CancelStep)
    requires CancelEnabled(s, t, k) && ThreadOk(s.threads[t])
    ensures OneMoves(s, CancelNext(s, t, k), t)
  {
  }

  lemma MovesKeepLocks(s: State, s': State, t: Tid)
    requires LockInv(s) && Holds(s, t) && OneMoves(s, s', t)
    requires forall d | d in s'.conns :: s'.conns[d].did == d
    ensures LockInv(s')
  {
  }

  lemma StartKeepsLocks(s: State, t: Tid, th: Thread, past: History)
    requires LockInv(s) && t !in s.threads && ThreadOk(th) && MayWait(th.pc)
    ensures LockInv(s.(threads := s.threads[t := th], past := past))
  {
  }

  lemma LocateKeepsLocks(s: State, t: Tid)
    requires LockInv(s) && t in s.threads && s.threads[t].pc.Locating?
    ensures LockInv(LocateNext(s, t))
  {
    assert forall d | d in s.holder :: s.holder[d] != t;
  }

  lemma AcquireKeepsLocks(s: State, t: Tid)
    requires LockInv(s) && Enabled(s, Acquire(t))
    ensures LockInv(Next(s, Acquire(t)))
  {
  }

  lemma ReleaseKeepsLocks(s: State, t: Tid)
    requires LockInv(s) && Enabled(s, Release(t))
    ensures LockInv(Next(s, Release(t)))
  {
  }

  lemma BeginKeepsLocks(s: State, t: Tid, action: Action)
    requires LockInv(s) && t !in s.threads
    ensures LockInv(Begin(s, t, action))
  {
    match action
    case Forward(send) => StartKeepsLocks(s, t, Thread(send.to, Looking(send)), s.past.Submit(send));
    case Acknowledge(did, key) => StartKeepsLocks(s, t, Thread(did, Acking(key)), s.past);
    case Withdraw(who, to, key) =>
      StartKeepsLocks(s, t, Thread("", Locating(who, to, key, key in s.past.ended)), s.past);
    case _ =>
  }

  lemma RegisterKeepsLocks(s: State, t: Tid, r: RegisterStep)
    requires LockInv(s) && RegisterEnabled(s, t, r)
    ensures LockInv(RegisterNext(s, t, r))
  {
    RegisterMoves(s, t, r);
    MovesKeepLocks(s, RegisterNext(s, t, r), t);
  }

  lemma DeliverKeepsLocks(s: State, t: Tid, v: DeliverStep)
    requires LockInv(s) && DeliverEnabled(s, t, v)
    ensures LockInv(DeliverNext(s, t, v))
  {
    DeliverMoves(s, t, v);
    MovesKeepLocks(s, DeliverNext(s, t, v), t);
  }

  lemma CancelKeepsLocks(s: State, t: Tid, k: CancelStep)
    requires LockInv(s) && CancelEnabled(s, t, k)
    ensures LockInv(CancelNext(s, t, k))
  {
    CancelMoves(s, t, k);
    MovesKeepLocks(s, CancelNext(s, t, k), t);
  }

  lemma AckKeepsLocks(s: State, t: Tid)
    requires LockInv(s) && Holds(s, t) && s.threads[t].pc.Acking?
    ensures LockInv(AckNext(s, t))
  {
    MovesKeepLocks(s, AckNext(s, t), t);
  }

  lemma LockStep(s: State, l: Label)
    requires LockInv(s) && Enabled(s, l)
    ensures LockInv(Next(s, l))
  {
    match l
    case Frame(t, connDid, hasAddr, raw, env, pairAllowed, allowed) =>
      BeginKeepsLocks(s, t, Route(connDid, hasAddr, raw, env, pairAllowed, allowed));
    case Post(t, sender, eid, to, raw) => BeginKeepsLocks(s, t, Forward(Send(sender, eid, to, raw, None, None, None)));
    case Connect(t, c) => StartKeepsLocks(s, t, Thread(c.did, Connecting(c)), s.past);
    case Locate(t) => LocateKeepsLocks(s, t);
    case Acquire(t) => AcquireKeepsLocks(s, t);
    case Register(t, r) => RegisterKeepsLocks(s, t, r);
    case Deliver(t, v) => DeliverKeepsLocks(s, t, v);
    case Ack(t) => AckKeepsLocks(s, t);
    case Cancel(t, k) => CancelKeepsLocks(s, t, k);
    case Release(t) => ReleaseKeepsLocks(s, t);
    case _ =>
  }

  // ---- What is left for a recipient ----

  // Nothing waits for `d` while its connection is healthy: an acking connection
  // has been written every buffered row, any other has an empty buffer. The row
  // `but`, if any, is still being delivered.
  ghost predicate Calm(s: State, d: DID, but: Option<Key>) {
    d in s.conns && s.conns[d].id !in s.past.failed ==>
      forall r | r in s.rows && r.recipient == d && but != Some(r.msg.id) ::
        s.conns[d].ack && r.deliveredAt.Some?
  }

  ghost predicate Current(s: State, c: Conn) {
    c.did in s.conns ==> s.conns[c.did] == c
  }

  // What the goroutine holding a recipient's lock has left to do for it.
  ghost predicate Progress(s: State, th: Thread) {
    match th.pc
    case Connecting(_) => true
    case Peeking(c) => Current(s, c)
    case Draining(c, todo, _) => Current(s, c) && Covers(s, c, todo)
    case Drained(c, todo, _) => Current(s, c) && Covers(s, c, todo)
    case Checking(_, via) => Calm(s, th.lock, None) && Seen(s, th.lock, via)
    case Inserting(_, via) => Calm(s, th.lock, None) && Seen(s, th.lock, via)
    case Rechecking(_, via) => Calm(s, th.lock, None) && Seen(s, th.lock, via)
    case Writing(send, c) => Current(s, c) && Calm(s, th.lock, if c.ack then Some(send.Key()) else None)
    case Marking(send, c) => Current(s, c) && Calm(s, th.lock, Some(send.Key()))
    case _ => Calm(s, th.lock, None)
  }

  ghost predicate Covers(s: State, c: Conn, todo: seq<Msg>) {
    forall r | r in s.rows && r.recipient == c.did ::
      (c.ack && r.deliveredAt.Some?) || exists m :: m in todo && m.id == r.msg.id
  }

  // The connection deliverLocked looked up is still the current one, and it goes
  // on to store past a connection without ack only when that write failed.
  ghost predicate Seen(s: State, d: DID, via: Option<Conn>) {
    && (d in s.conns ==> via == Some(s.conns[d]))
    && (via.Some? && !via.value.ack ==> via.value.id in s.past.failed)
  }

  ghost predicate SettledInv(s: State) {
    && (forall d: DID | d !in s.holder :: Calm(s, d, None))
    && (forall d | d in s.holder :: s.holder[d] in s.threads && Progress(s, s.threads[s.holder[d]]))
  }

  // A change that leaves no new work for `d`.
  ghost predicate RowsGentle(rows: seq<Row>, rows': seq<Row>, d: DID) {
    forall q | q in rows' && q.recipient == d ::
      exists r :: r in rows && r.recipient == d && r.msg.id == q.msg.id && (r.deliveredAt.Some? ==> q.deliveredAt.Some?)
  }

  ghost predicate Gentle(s: State, s': State, d: DID) {
    && (d in s'.conns ==> d in s.conns && s'.conns[d] == s.conns[d])
    && s.past.failed <= s'.past.failed
    && RowsGentle(s.rows, s'.rows, d)
  }

  lemma MarkedGentle(rows: seq<Row>, id: Key, now: int, d: DID)
    ensures RowsGentle(rows, Marked(rows, id, now), d)
  {
    MarkedRows(rows, id, now);
  }

  lemma GentleCalm(s: State, s': State, d: DID, but: Option<Key>)
    requires Gentle(s, s', d) && Calm(s, d, but)
    ensures Calm(s', d, but)
  {
  }

  lemma GentleProgress(s: State, s': State, th: Thread)
    requires ThreadOk(th) && Gentle(s, s', th.lock) && Progress(s, th)
    ensures Progress(s', th)
  {
    match th.pc
    case Connecting(_) =>
    case Peeking(c) =>
    case Draining(c, todo, _) =>
    case Drained(c, todo, _) =>
    case Checking(_, via) => GentleCalm(s, s', th.lock, None);
    case Inserting(_, via) => GentleCalm(s, s', th.lock, None);
    case Rechecking(_, via) => GentleCalm(s, s', th.lock, None);
    case Writing(send, c) => GentleCalm(s, s', th.lock, if c.ack then Some(send.Key()) else None);
    case Marking(send, c) => GentleCalm(s, s', th.lock, Some(send.Key()));
    case _ => GentleCalm(s, s', th.lock, None);
  }

  lemma SettledMoves(s: State, s': State, t: Tid)
    requires LockInv(s) && SettledInv(s) && Holds(s, t) && OneMoves(s, s', t)
    requires forall d: DID | d != s.threads[t].lock :: Gentle(s, s', d)
    requires Progress(s', s'.threads[t])
    ensures SettledInv(s')
  {
    forall d: DID | d !in s'.holder
      ensures Calm(s', d, None)
    {
      GentleCalm(s, s', d, None);
    }
    forall d | d in s'.holder
      ensures Progress(s', s'.threads[s'.holder[d]])
    {
      if s.holder[d] != t {
        GentleProgress(s, s', s.threads[s.holder[d]]);
      }
    }
  }

  // A change to the table or the connections outside any lock.
  lemma SettledOutside(s: State, s': State)
    requires LockInv(s) && SettledInv(s) && s'.holder == s.holder && s'.threads == s.threads
    requires forall d: DID :: Gentle(s, s', d)
    ensures SettledInv(s')
  {
    forall d: DID | d !in s'.holder
      ensures Calm(s', d, None)
    {
      GentleCalm(s, s', d, None);
    }
    forall d | d in s'.holder
      ensures Progress(s', s'.threads[s'.holder[d]])
    {
      GentleProgress(s, s', s.threads[s.holder[d]]);
    }
  }

  lemma CoversRest(s: State, s': State, c: Conn, todo: seq<Msg>)
    requires todo != [] && Covers(s, c, todo)
    requires RowsGentle(s.rows, s'.rows, c.did)
    requires forall r | r in s'.rows && r.recipient == c.did && r.msg.id == todo[0].id :: c.ack && r.deliveredAt.Some?
    ensures Covers(s', c, todo[1..])
  {
    forall q | q in s'.rows && q.recipient == c.did && !(c.ack && q.deliveredAt.Some?)
      ensures exists m :: m in todo[1..] && m.id == q.msg.id
    {
      var r :| r in s.rows && r.recipient == c.did && r.msg.id == q.msg.id
        && (r.deliveredAt.Some? ==> q.deliveredAt.Some?);
      var m :| m in todo && m.id == r.msg.id;
      assert m in todo[1..];
    }
  }

  lemma RegisterProgress(s: State, t: Tid, r: RegisterStep)
    requires RegisterEnabled(s, t, r) && ThreadOk(s.threads[t]) && Progress(s, s.threads[t])
    ensures var s' := RegisterNext(s, t, r); Progress(s', s'.threads[t])
  {
    var pc := s.threads[t].pc;
    var s' := RegisterNext(s, t, r);
    match r
    case Replace =>
    case Peek(msgs, _) =>
      PeekedAreRows(s.rows, pc.c.did, msgs);
      forall r | r in s.rows && r.recipient == pc.c.did
        ensures exists m :: m in msgs && m.id == r.msg.id
      {
        assert r.msg in msgs;
      }
    case DropExpired => CoversRest(s, s', pc.c, pc.todo);
    case WriteNext(ok) =>
    case Settle(now) =>
      if pc.c.ack {
        MarkedRows(s.rows, pc.todo[0].id, now);
        MarkedGentle(s.rows, pc.todo[0].id, now, pc.c.did);
      }
      CoversRest(s, s', pc.c, pc.todo);
  }

  lemma RegisterGentle(s: State, t: Tid, r: RegisterStep, d: DID)
    requires RegisterEnabled(s, t, r) && ThreadOk(s.threads[t]) && d != s.threads[t].lock
    ensures Gentle(s, RegisterNext(s, t, r), d)
  {
    if r.Settle? {
      MarkedGentle(s.rows, s.threads[t].pc.todo[0].id, r.now, d);
    }
  }

  // A stored copy for an acking connection still has to be written; past any
  // other, its connection is gone or broken.
  lemma AddProgress(s: State, s': State, lock: DID, send: Send, via: Option<Conn>)
    requires Calm(s, lock, None) && Seen(s, lock, via) && (via.Some? ==> via.value.did == lock)
    requires s'.conns == s.conns && s'.past.failed == s.past.failed
    requires forall q | q in s'.rows && q.recipient == lock :: q in s.rows || q.msg.id == send.Key()
    ensures Progress(s', Thread(lock, AfterAdd(send, via)))
  {
  }

  lemma DeliverProgress(s: State, t: Tid, v: DeliverStep)
    requires DeliverEnabled(s, t, v) && ThreadOk(s.threads[t]) && Progress(s, s.threads[t])
    requires forall d | d in s.conns :: s.conns[d].did == d
    ensures var s' := DeliverNext(s, t, v); Progress(s', s'.threads[t])
  {
    var pc := s.threads[t].pc;
    var s' := DeliverNext(s, t, v);
    match v
    case Check => AddProgress(s, s', s.threads[t].lock, pc.send, pc.via);
    case Store(now) => AddProgress(s, s', s.threads[t].lock, pc.send, pc.via);
    case Recheck => AddProgress(s, s', s.threads[t].lock, pc.send, pc.via);
    case Mark(now) => MarkedRows(s.rows, pc.send.Key(), now);
    case _ =>
  }

  lemma DeliverGentle(s: State, t: Tid, v: DeliverStep, d: DID)
    requires DeliverEnabled(s, t, v) && ThreadOk(s.threads[t]) && d != s.threads[t].lock
    ensures Gentle(s, DeliverNext(s, t, v), d)
  {
    if v.Mark? {
      MarkedGentle(s.rows, s.threads[t].pc.send.Key(), v.now, d);
    }
  }

  lemma RegisterSettles(s: State, t: Tid, r: RegisterStep)
    requires LockInv(s) && SettledInv(s) && RegisterEnabled(s, t, r)
    ensures SettledInv(RegisterNext(s, t, r))
  {
    var s' := RegisterNext(s, t, r);
    RegisterMoves(s, t, r);
    RegisterProgress(s, t, r);
    forall d: DID | d != s.threads[t].lock {
      RegisterGentle(s, t, r, d);
    }
    SettledMoves(s, s', t);
  }

  lemma DeliverSettles(s: State, t: Tid, v: DeliverStep)
    requires LockInv(s) && SettledInv(s) && DeliverEnabled(s, t, v)
    ensures SettledInv(DeliverNext(s, t, v))
  {
    var s' := DeliverNext(s, t, v);
    DeliverMoves(s, t, v);
    DeliverProgress(s, t, v);
    forall d: DID | d != s.threads[t].lock {
      DeliverGentle(s, t, v, d);
    }
    SettledMoves(s, s', t);
  }

  lemma CancelGentle(s: State, t: Tid, k: CancelStep, d: DID)
    requires CancelEnabled(s, t, k)
    ensures Gentle(s, CancelNext(s, t, k), d)
  {
  }

  lemma CancelSettles(s: State, t: Tid, k: CancelStep)
    requires LockInv(s) && SettledInv(s) && CancelEnabled(s, t, k)
    ensures SettledInv(CancelNext(s, t, k))
  {
    var s' := CancelNext(s, t, k);
    CancelMoves(s, t, k);
    forall d: DID
      ensures Gentle(s, s', d)
    {
      CancelGentle(s, t, k, d);
    }
    GentleCalm(s, s', s.threads[t].lock, None);
    SettledMoves(s, s', t);
  }

  lemma AckSettles(s: State, t: Tid)
    requires LockInv(s) && SettledInv(s) && Holds(s, t) && s.threads[t].pc.Acking?
    ensures SettledInv(AckNext(s, t))
  {
    var s' := AckNext(s, t);
    forall d: DID
      ensures Gentle(s, s', d)
    {
    }
    GentleCalm(s, s', s.threads[t].lock, None);
    SettledMoves(s, s', t);
  }

  lemma StartSettles(s: State, t: Tid, th: Thread, past: History)
    requires LockInv(s) && SettledInv(s) && t !in s.threads && past.failed == s.past.failed
    ensures SettledInv(s.(threads := s.threads[t := th], past := past))
  {
    var s' := s.(threads := s.threads[t := th], past := past);
    forall d: DID
      ensures Gentle(s, s', d)
    {
    }
    forall d | d in s'.holder
      ensures Progress(s', s'.threads[s'.holder[d]])
    {
      GentleProgress(s, s', s.threads[s.holder[d]]);
    }
    forall d: DID | d !in s'.holder
      ensures Calm(s', d, None)
    {
      GentleCalm(s, s', d, None);
    }
  }

  lemma BeginSettles(s: State, t: Tid, action: Action)
    requires LockInv(s) && SettledInv(s) && t !in s.threads
    ensures SettledInv(Begin(s, t, action))
  {
    match action
    case Forward(send) => StartSettles(s, t, Thread(send.to, Looking(send)), s.past.Submit(send));
    case Acknowledge(did, key) => StartSettles(s, t, Thread(did, Acking(key)), s.past);
    case Withdraw(who, to, key) =>
      StartSettles(s, t, Thread("", Locating(who, to, key, key in s.past.ended)), s.past);
    case _ =>
  }

  lemma LocateSettles(s: State, t: Tid)
    requires LockInv(s) && SettledInv(s) && t in s.threads && s.threads[t].pc.Locating?
    ensures SettledInv(LocateNext(s, t))
  {
    var s' := LocateNext(s, t);
    forall d: DID
      ensures Gentle(s, s', d)
    {
    }
    forall d | d in s'.holder
      ensures s'.holder[d] in s'.threads && Progress(s', s'.threads[s'.holder[d]])
    {
      GentleProgress(s, s', s.threads[s.holder[d]]);
    }
    forall d: DID | d !in s'.holder
      ensures Calm(s', d, None)
    {
      GentleCalm(s, s', d, None);
    }
  }

  // Whoever takes the lock finds its recipient calm, and leaves it so.
  lemma AcquireSettles(s: State, t: Tid)
    requires LockInv(s) && SettledInv(s) && Enabled(s, Acquire(t))
    ensures SettledInv(Next(s, Acquire(t)))
  {
    var s' := Next(s, Acquire(t));
    var lock := s.threads[t].lock;
    assert Calm(s, lock, None) && MayWait(s.threads[t].pc);
    forall d | d in s'.holder
      ensures Progress(s', s'.threads[s'.holder[d]])
    {
      if d == lock {
        assert Progress(s', s.threads[t]);
      } else {
        GentleProgress(s, s', s.threads[s.holder[d]]);
      }
    }
    forall d: DID | d !in s'.holder
      ensures Calm(s', d, None)
    {
      GentleCalm(s, s', d, None);
    }
  }

  lemma ReleaseSettles(s: State, t: Tid)
    requires LockInv(s) && SettledInv(s) && Enabled(s, Release(t))
    ensures SettledInv(Next(s, Release(t)))
  {
    var s' := Next(s, Release(t));
    var lock := s.threads[t].lock;
    assert Progress(s, s.threads[t]);
    forall d | d in s'.holder
      ensures s'.holder[d] in s'.threads && Progress(s', s'.threads[s'.holder[d]])
    {
      assert s.threads[s.holder[d]].lock == d;
      GentleProgress(s, s', s.threads[s.holder[d]]);
    }
    forall d: DID | d !in s'.holder
      ensures Calm(s', d, None)
    {
      assert Calm(s, d, None);
      GentleCalm(s, s', d, None);
    }
  }

  lemma OutsideSettles(s: State, l: Label)
    requires LockInv(s) && SettledInv(s) && (l.Unregister? || l.Sweep? || l.Restart?)
    ensures SettledInv(Next(s, l))
  {
    if !l.Restart? {
      forall d: DID
        ensures Gentle(s, Next(s, l), d)
      {
      }
      SettledOutside(s, Next(s, l));
    }
  }

  lemma SettledStep(s: State, l: Label)
    requires LockInv(s) && SettledInv(s) && Enabled(s, l)
    ensures SettledInv(Next(s, l))
  {
    match l
    case Frame(t, connDid, hasAddr, raw, env, pairAllowed, allowed) =>
      BeginSettles(s, t, Route(connDid, hasAddr, raw, env, pairAllowed, allowed));
    case Post(t, sender, eid, to, raw) => BeginSettles(s, t, Forward(Send(sender, eid, to, raw, None, None, None)));
    case Connect(t, c) => StartSettles(s, t, Thread(c.did, Connecting(c)), s.past);
    case Locate(t) => LocateSettles(s, t);
    case Acquire(t) => AcquireSettles(s, t);
    case Register(t, r) => RegisterSettles(s, t, r);
    case Deliver(t, v) => DeliverSettles(s, t, v);
    case Ack(t) => AckSettles(s, t);
    case Cancel(t, k) => CancelSettles(s, t, k);
    case Release(t) => ReleaseSettles(s, t);
    case _ => OutsideSettles(s, l);
  }

  lemma {:induction false} SettledRun(run: seq<Label>)
    requires After(run).Some?
    ensures LockInv(After(run).value) && SettledInv(After(run).value)
  {
    if run == [] {
    } else {
      var s := After(run[..|run| - 1]).value;
      SettledRun(run[..|run| - 1]);
      LockStep(s, run[|run| - 1]);
      SettledStep(s, run[|run| - 1]);
    }
  }

  // No stranded message: take a connection that has joined and since then neither
  // been unregistered nor replaced, in a relay not restarted since, and no write to
  // which has failed. It is its DID's current one; and when nobody holds the DID's
  // lock every row buffered for it has been written to an acking connection if it
  // acks, and there is none if it does not.
  lemma NoStrandedMessage(run: seq<Label>, c: Conn)
    requires After(run).Some? && IsConnected(run, c) && !Happened(run, Fails(c.id))
    ensures IsCurrent(After(run).value, c)
    ensures c.did !in After(run).value.holder ==>
              forall r | r in After(run).value.rows && r.recipient == c.did :: c.ack && r.deliveredAt.Some?
  {
    SettledRun(run);
    ConnectedExactly(run, c);
    HistoryIsExact(run);
    assert c.did !in After(run).value.holder ==> Calm(After(run).value, c.did, None);
  }
}
