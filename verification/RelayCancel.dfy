// A cancel against drains, deliveries and restarts.
module RelayCancel {
  import opened Wrappers
  import opened Table
  import opened Envelope
  import opened Relay
  import opened RelaySettled
  import opened RelayKept

  // ---- A row that has been written is marked, unless its writer is about to ----

  ghost predicate MidPc(pc: Pc, id: Key) {
    id in pc.Mid()
  }

  ghost predicate MidWrite(s: State, d: DID, id: Key) {
    d in s.holder && s.holder[d] in s.threads && MidPc(s.threads[s.holder[d]].pc, id)
  }

  // Submitted once, and never written when a restart struck before it was marked.
  ghost predicate Whole(past: History, id: Key) {
    Once(past, id) && id !in past.cut
  }

  ghost predicate MarkedOrMid(s: State, r: Row) {
    Whole(s.past, r.msg.id) && r.deliveredAt.None? && !Unwritten(s.past, r.msg.id) ==>
      MidWrite(s, r.recipient, r.msg.id)
  }

  ghost predicate MarkInv(s: State) {
    forall r | r in s.rows :: MarkedOrMid(s, r)
  }

  // Undelivered rows stay as they are or go; a new one has never been written.
  ghost predicate FreshRows(s: State, s': State, id: Option<Key>) {
    forall q | q in s'.rows && q.deliveredAt.None? && id != Some(q.msg.id) ::
      q in s.rows || (Once(s'.past, q.msg.id) ==> Unwritten(s'.past, q.msg.id))
  }

  // The step of goroutine `t` is about the message `id`, if any.
  lemma MarkMoves(s: State, s': State, t: Tid, id: Option<Key>)
    requires Inv(s) && MarkInv(s) && Holds(s, t) && OneMoves(s, s', t) && Extends(s, s')
    requires FreshRows(s, s', id)
    requires forall x: Key | Unwritten(s.past, x) && id != Some(x) :: Unwritten(s'.past, x)
    requires forall x: Key | MidPc(s.threads[t].pc, x) :: id == Some(x)
    requires id.Some? && Whole(s'.past, id.value) && !Unwritten(s'.past, id.value) ==>
      MidPc(s'.threads[t].pc, id.value) || forall q | q in s'.rows && q.msg.id == id.value :: q.deliveredAt.Some?
    requires id.Some? && id.value in s.past.sends && id.value !in s.past.reused ==>
      s.past.sends[id.value].to == s.threads[t].lock
    requires id.Some? ==> id.value in s.past.sends
    requires forall r | r in s'.rows :: RowOk(s'.past, r)
    ensures MarkInv(s')
  {
    forall q | q in s'.rows
      ensures MarkedOrMid(s', q)
    {
      if Whole(s'.past, q.msg.id) && q.deliveredAt.None? && !Unwritten(s'.past, q.msg.id) {
        if id == Some(q.msg.id) {
          assert Matches(q, s'.past.sends[q.msg.id]);
        } else {
          assert q in s.rows && MarkedOrMid(s, q);
        }
      }
    }
  }

  lemma WriteNextMarks(s: State, t: Tid, r: RegisterStep)
    requires Inv(s) && MarkInv(s) && RegisterEnabled(s, t, r) && r.WriteNext?
    ensures MarkInv(RegisterNext(s, t, r))
  {
    var pc := s.threads[t].pc;
    RegisterMoves(s, t, r);
    RegisterKeeps(s, t, r);
    assert ThreadInv(s, pc) && PeekedOk(s, pc.c, pc.todo[0]);
    MarkMoves(s, RegisterNext(s, t, r), t, if r.ok then Some(pc.todo[0].id) else None);
  }

  // Once a drain has marked or deleted what it wrote, no unmarked row is left of it.
  lemma SettledRows(s: State, t: Tid, r: RegisterStep)
    requires RegisterEnabled(s, t, r) && r.Settle?
    ensures var s' := RegisterNext(s, t, r);
            var id := s.threads[t].pc.todo[0].id;
            FreshRows(s, s', Some(id)) && forall q | q in s'.rows && q.msg.id == id :: q.deliveredAt.Some?
  {
    MarkedRows(s.rows, s.threads[t].pc.todo[0].id, r.now);
  }

  lemma SettleMarks(s: State, t: Tid, r: RegisterStep)
    requires Inv(s) && MarkInv(s) && RegisterEnabled(s, t, r) && r.Settle?
    ensures MarkInv(RegisterNext(s, t, r))
  {
    var pc := s.threads[t].pc;
    RegisterMoves(s, t, r);
    RegisterKeeps(s, t, r);
    SettledRows(s, t, r);
    assert ThreadInv(s, pc) && PeekedOk(s, pc.c, pc.todo[0]);
    MarkMoves(s, RegisterNext(s, t, r), t, Some(pc.todo[0].id));
  }

  lemma RegisterMarks(s: State, t: Tid, r: RegisterStep)
    requires Inv(s) && MarkInv(s) && RegisterEnabled(s, t, r)
    ensures MarkInv(RegisterNext(s, t, r))
  {
    if r.WriteNext? {
      WriteNextMarks(s, t, r);
    } else if r.Settle? {
      SettleMarks(s, t, r);
    } else {
      RegisterMoves(s, t, r);
      RegisterKeeps(s, t, r);
      MarkMoves(s, RegisterNext(s, t, r), t, None);
    }
  }

  // After a delivery's step its message is unwritten, about to be marked, or marked.
  lemma DeliverMarksOwn(s: State, t: Tid, v: DeliverStep)
    requires Inv(s) && MarkInv(s) && DeliverEnabled(s, t, v)
    ensures var id := s.threads[t].pc.send.Key();
            var s' := DeliverNext(s, t, v);
            Whole(s.past, id) && !Unwritten(s'.past, id) ==>
              MidPc(s'.threads[t].pc, id) || forall q | q in s'.rows && q.msg.id == id :: q.deliveredAt.Some?
  {
    var pc := s.threads[t].pc;
    var id := pc.send.Key();
    assert ThreadInv(s, pc) && ThreadOk(s.threads[t]);
    if v.Mark? {
      MarkedRows(s.rows, id, v.now);
    }
    if Whole(s.past, id) && !pc.IsUnsent() {
      forall r | r in s.rows && r.msg.id == id
        ensures r.recipient == s.threads[t].lock && MarkedOrMid(s, r)
      {
        assert RowOk(s.past, r);
      }
    }
  }

  lemma DeliverMarks(s: State, t: Tid, v: DeliverStep)
    requires Inv(s) && MarkInv(s) && DeliverEnabled(s, t, v)
    ensures MarkInv(DeliverNext(s, t, v))
  {
    var s' := DeliverNext(s, t, v);
    var pc := s.threads[t].pc;
    assert ThreadInv(s, pc) && ThreadOk(s.threads[t]);
    DeliverMoves(s, t, v);
    DeliverKeeps(s, t, v);
    DeliverMarksOwn(s, t, v);
    DeliverFresh(s, t, v);
    MarkMoves(s, s', t, Some(pc.send.Key()));
  }

  lemma DeliverFresh(s: State, t: Tid, v: DeliverStep)
    requires DeliverEnabled(s, t, v)
    ensures FreshRows(s, DeliverNext(s, t, v), Some(s.threads[t].pc.send.Key()))
    ensures forall x: Key | Unwritten(s.past, x) && s.threads[t].pc.send.Key() != x ::
              Unwritten(DeliverNext(s, t, v).past, x)
  {
    if v.Mark? {
      MarkedRows(s.rows, s.threads[t].pc.send.Key(), v.now);
    }
  }

  lemma CancelMarks(s: State, t: Tid, k: CancelStep)
    requires Inv(s) && MarkInv(s) && CancelEnabled(s, t, k)
    ensures MarkInv(CancelNext(s, t, k))
  {
    CancelMoves(s, t, k);
    CancelKeeps(s, t, k);
    MarkMoves(s, CancelNext(s, t, k), t, None);
  }

  lemma AckMarks(s: State, t: Tid)
    requires Inv(s) && MarkInv(s) && Holds(s, t) && s.threads[t].pc.Acking?
    ensures MarkInv(AckNext(s, t))
  {
    AckKeeps(s, t);
    MarkMoves(s, AckNext(s, t), t, None);
  }

  // Steps that move no goroutine which holds a lock.
  lemma OutsideMarks(s: State, s': State)
    requires MarkInv(s) && Extends(s, s') && s'.past.written == s.past.written
    requires forall q | q in s'.rows :: q in s.rows
    requires forall r | r in s.rows :: r.msg.id in s.past.sends
    requires forall d | d in s.holder && s.holder[d] in s.threads ::
      && d in s'.holder && s'.holder[d] == s.holder[d]
      && s.holder[d] in s'.threads && s'.threads[s.holder[d]] == s.threads[s.holder[d]]
    ensures MarkInv(s')
  {
    forall q | q in s'.rows
      ensures MarkedOrMid(s', q)
    {
      assert MarkedOrMid(s, q);
    }
  }

  lemma ReleaseMarks(s: State, t: Tid)
    requires Inv(s) && MarkInv(s) && Enabled(s, Release(t))
    ensures MarkInv(Next(s, Release(t)))
  {
    var s' := Next(s, Release(t));
    forall q | q in s'.rows
      ensures MarkedOrMid(s', q)
    {
      assert MarkedOrMid(s, q);
      assert q.recipient in s.holder ==> s.threads[s.holder[q.recipient]].lock == q.recipient;
    }
  }

  lemma BeginMarks(s: State, t: Tid, action: Action)
    requires Inv(s) && MarkInv(s) && t !in s.threads && Extends(s, Begin(s, t, action))
    ensures MarkInv(Begin(s, t, action))
  {
    OutsideMarks(s, Begin(s, t, action));
  }

  lemma LocklessMarks(s: State, l: Label)
    requires Inv(s) && MarkInv(s) && Enabled(s, l)
    requires l.Connect? || l.Acquire? || l.Unregister? || l.Sweep?
    ensures MarkInv(Next(s, l))
  {
    IdStep(s, l);
    OutsideMarks(s, Next(s, l));
  }

  lemma LocateMarks(s: State, t: Tid)
    requires Inv(s) && MarkInv(s) && t in s.threads && s.threads[t].pc.Locating?
    ensures MarkInv(LocateNext(s, t))
  {
    LocateKeeps(s, t);
    OutsideMarks(s, LocateNext(s, t));
  }

  lemma FrameMarks(
    s: State, t: Tid, connDid: DID, hasAddr: bool, raw: seq<Byte>, env: Envelope, pairAllowed: bool, allowed: bool)
    requires Inv(s) && MarkInv(s) && t !in s.threads
    ensures MarkInv(Begin(s, t, Route(connDid, hasAddr, raw, env, pairAllowed, allowed)))
  {
    FrameKeeps(s, t, connDid, hasAddr, raw, env, pairAllowed, allowed);
    BeginMarks(s, t, Route(connDid, hasAddr, raw, env, pairAllowed, allowed));
  }

  // What a restart finds written and unmarked it puts on record.
  lemma RestartMarks(s: State)
    requires Inv(s) && MarkInv(s)
    ensures MarkInv(Next(s, Restart))
  {
    var s' := Next(s, Restart);
    forall q | q in s'.rows
      ensures MarkedOrMid(s', q)
    {
      assert MarkedOrMid(s, q);
    }
  }

  lemma MarkStep(s: State, l: Label)
    requires Inv(s) && MarkInv(s) && Enabled(s, l)
    ensures MarkInv(Next(s, l))
  {
    match l
    case Register(t, r) => RegisterMarks(s, t, r);
    case Deliver(t, v) => DeliverMarks(s, t, v);
    case Ack(t) => AckMarks(s, t);
    case Cancel(t, k) => CancelMarks(s, t, k);
    case Release(t) => ReleaseMarks(s, t);
    case Frame(t, connDid, hasAddr, raw, env, pairAllowed, allowed) =>
      FrameMarks(s, t, connDid, hasAddr, raw, env, pairAllowed, allowed);
    case Post(t, sender, eid, to, raw) =>
      BeginKeeps(s, t, Forward(Send(sender, eid, to, raw, None, None, None)));
      BeginMarks(s, t, Forward(Send(sender, eid, to, raw, None, None, None)));
    case Locate(t) => LocateMarks(s, t);
    case Restart => RestartMarks(s);
    case _ => LocklessMarks(s, l);
  }

  // ---- A message no goroutine will write ----

  ghost predicate QuietPc(pc: Pc, id: Key) {
    && (pc.IsSend() ==> pc.send.Key() != id)
    && (pc.IsDrain() ==> forall m | m in pc.todo :: m.id != id)
  }

  ghost predicate Hushed(s: State, id: Key) {
    && id in s.past.sends
    && (id !in s.past.reused ==>
          && Kept(s, id)
          && Unwritten(s.past, id)
          && forall t | t in s.threads :: QuietPc(s.threads[t].pc, id))
  }

  lemma RegisterHush(s: State, t: Tid, r: RegisterStep, id: Key)
    requires RegisterEnabled(s, t, r) && QuietPc(s.threads[t].pc, id) && Unwritten(s.past, id)
    requires r.Peek? ==> forall m | m in r.msgs :: m.id != id
    ensures var s' := RegisterNext(s, t, r); QuietPc(s'.threads[t].pc, id) && Unwritten(s'.past, id)
  {
  }

  lemma DeliverHush(s: State, t: Tid, v: DeliverStep, id: Key)
    requires DeliverEnabled(s, t, v) && QuietPc(s.threads[t].pc, id) && Unwritten(s.past, id)
    ensures var s' := DeliverNext(s, t, v); QuietPc(s'.threads[t].pc, id) && Unwritten(s'.past, id)
  {
  }

  lemma CancelHush(s: State, t: Tid, k: CancelStep, id: Key)
    requires CancelEnabled(s, t, k) && id in s.past.sends && Unwritten(s.past, id)
    ensures var s' := CancelNext(s, t, k);
            id !in s'.past.reused ==> QuietPc(s'.threads[t].pc, id) && Unwritten(s'.past, id)
  {
  }

  lemma HushMoves(s: State, s': State, id: Key)
    requires Hushed(s, id) && Extends(s, s')
    requires id !in s'.past.reused ==>
      && Unwritten(s'.past, id)
      && forall u | u in s'.threads ::
           (u in s.threads && s'.threads[u] == s.threads[u]) || QuietPc(s'.threads[u].pc, id)
    ensures Hushed(s', id)
  {
  }

  lemma HushOneMoves(s: State, s': State, t: Tid, id: Key)
    requires Hushed(s, id) && Extends(s, s') && OneMoves(s, s', t)
    requires id !in s'.past.reused ==> Unwritten(s'.past, id) && QuietPc(s'.threads[t].pc, id)
    ensures Hushed(s', id)
  {
    HushMoves(s, s', id);
  }

  // A step that writes nothing and starts no delivery or drain.
  lemma HushSame(s: State, s': State, id: Key)
    requires Hushed(s, id) && Extends(s, s') && s'.past.written == s.past.written
    requires forall u | u in s'.threads ::
      || (u in s.threads && s'.threads[u] == s.threads[u])
      || (!s'.threads[u].pc.IsSend() && !s'.threads[u].pc.IsDrain())
    ensures Hushed(s', id)
  {
    HushMoves(s, s', id);
  }

  lemma BeginHush(s: State, t: Tid, action: Action, id: Key)
    requires Hushed(s, id) && t !in s.threads && Extends(s, Begin(s, t, action))
    ensures Hushed(Begin(s, t, action), id)
  {
    var s' := Begin(s, t, action);
    if action.Forward? {
      assert action.send.Key() == id ==> id in s'.past.reused;
      HushMoves(s, s', id);
    } else {
      HushSame(s, s', id);
    }
  }

  lemma HushRegister(s: State, t: Tid, r: RegisterStep, id: Key)
    requires Inv(s) && Hushed(s, id) && RegisterEnabled(s, t, r)
    requires r.Peek? ==> !Has(s.rows, id) || s.past.sends[id].to != s.threads[t].lock
    ensures Hushed(RegisterNext(s, t, r), id)
  {
    var s' := RegisterNext(s, t, r);
    RegisterMoves(s, t, r);
    RegisterKeeps(s, t, r);
    if id !in s'.past.reused {
      if r.Peek? {
        PeekMisses(s, t, r, id);
      }
      RegisterHush(s, t, r, id);
    }
    HushOneMoves(s, s', t, id);
  }

  lemma PeekMisses(s: State, t: Tid, r: RegisterStep, id: Key)
    requires Inv(s) && Once(s.past, id) && RegisterEnabled(s, t, r) && r.Peek?
    requires !Has(s.rows, id) || s.past.sends[id].to != s.threads[t].lock
    ensures forall m | m in r.msgs :: m.id != id
  {
    PeekedAreRows(s.rows, s.threads[t].pc.c.did, r.msgs);
    assert ThreadOk(s.threads[t]);
    forall r | r in s.rows && r.msg.id == id
      ensures r.recipient != s.threads[t].lock
    {
      assert RowOk(s.past, r);
    }
  }

  lemma HushDeliver(s: State, t: Tid, v: DeliverStep, id: Key)
    requires Inv(s) && Hushed(s, id) && DeliverEnabled(s, t, v)
    ensures Hushed(DeliverNext(s, t, v), id)
  {
    var s' := DeliverNext(s, t, v);
    DeliverMoves(s, t, v);
    DeliverKeeps(s, t, v);
    if id !in s'.past.reused {
      DeliverHush(s, t, v, id);
    }
    HushOneMoves(s, s', t, id);
  }

  lemma HushCancel(s: State, t: Tid, k: CancelStep, id: Key)
    requires Inv(s) && Hushed(s, id) && CancelEnabled(s, t, k)
    ensures Hushed(CancelNext(s, t, k), id)
  {
    var s' := CancelNext(s, t, k);
    CancelMoves(s, t, k);
    CancelKeeps(s, t, k);
    if id !in s'.past.reused {
      CancelHush(s, t, k, id);
    }
    HushOneMoves(s, s', t, id);
  }

  lemma AckHush(s: State, t: Tid, id: Key)
    requires Inv(s) && Hushed(s, id) && Holds(s, t) && s.threads[t].pc.Acking?
    ensures Hushed(AckNext(s, t), id)
  {
    AckKeeps(s, t);
    HushSame(s, AckNext(s, t), id);
  }

  lemma LocateHush(s: State, t: Tid, id: Key)
    requires IdInv(s) && Hushed(s, id) && t in s.threads && s.threads[t].pc.Locating?
    ensures Hushed(LocateNext(s, t), id)
  {
    LocateKeeps(s, t);
    HushSame(s, LocateNext(s, t), id);
  }

  lemma FrameHush(
    s: State, t: Tid, connDid: DID, hasAddr: bool, raw: seq<Byte>, env: Envelope, pairAllowed: bool, allowed: bool,
    id: Key)
    requires Inv(s) && Hushed(s, id) && t !in s.threads
    ensures Hushed(Begin(s, t, Route(connDid, hasAddr, raw, env, pairAllowed, allowed)), id)
  {
    FrameKeeps(s, t, connDid, hasAddr, raw, env, pairAllowed, allowed);
    BeginHush(s, t, Route(connDid, hasAddr, raw, env, pairAllowed, allowed), id);
  }

  lemma SweepHush(s: State, now: int, id: Key)
    requires Inv(s) && Hushed(s, id)
    ensures Hushed(Next(s, Sweep(now)), id)
  {
    SweepKeeps(s, now);
    HushSame(s, Next(s, Sweep(now)), id);
  }

  lemma PlainHush(s: State, l: Label, id: Key)
    requires Inv(s) && Hushed(s, id) && Enabled(s, l)
    requires l.Acquire? || l.Release? || l.Unregister?
    ensures Hushed(Next(s, l), id)
  {
    PlainKeeps(s, Next(s, l));
    HushSame(s, Next(s, l), id);
  }

  lemma PostHush(s: State, t: Tid, send: Send, id: Key)
    requires IdInv(s) && Hushed(s, id) && t !in s.threads
    ensures Hushed(Begin(s, t, Forward(send)), id)
  {
    BeginKeeps(s, t, Forward(send));
    BeginHush(s, t, Forward(send), id);
  }

  lemma ConnectHush(s: State, t: Tid, c: Conn, id: Key)
    requires Inv(s) && Hushed(s, id) && t !in s.threads
    ensures Hushed(Next(s, Connect(t, c)), id)
  {
    ConnectKeeps(s, t, c);
    HushSame(s, s.(threads := s.threads[t := Thread(c.did, Connecting(c))]), id);
  }

  lemma RestartHush(s: State, id: Key)
    requires Inv(s) && Hushed(s, id)
    ensures Hushed(Next(s, Restart), id)
  {
    RestartKeeps(s);
    HushSame(s, Next(s, Restart), id);
  }

  // Only a drain that reads the row again could come to write it.
  lemma HushStep(s: State, l: Label, id: Key)
    requires Inv(s) && Hushed(s, id) && Enabled(s, l)
    requires l.Register? && l.r.Peek? ==> !Has(s.rows, id) || s.past.sends[id].to != s.threads[l.t].lock
    ensures Hushed(Next(s, l), id)
  {
    match l
    case Register(t, r) => HushRegister(s, t, r, id);
    case Deliver(t, v) => HushDeliver(s, t, v, id);
    case Cancel(t, k) => HushCancel(s, t, k, id);
    case Frame(t, connDid, hasAddr, raw, env, pairAllowed, allowed) =>
      FrameHush(s, t, connDid, hasAddr, raw, env, pairAllowed, allowed, id);
    case Post(t, sender, eid, to, raw) => PostHush(s, t, Send(sender, eid, to, raw, None, None, None), id);
    case Connect(t, c) => ConnectHush(s, t, c, id);
    case Ack(t) => AckHush(s, t, id);
    case Locate(t) => LocateHush(s, t, id);
    case Sweep(now) => SweepHush(s, now, id);
    case Restart => RestartHush(s, id);
    case _ => PlainHush(s, l, id);
  }

  // ---- Cancels ----

  ghost predicate CancelPcOk(s: State, th: Thread) {
    match th.pc
    case Locating(_, _, key, late) => LateOk(s.past, key, late)
    case Selecting(_, key, late) =>
      && LateOk(s.past, key, late)
      && (late && Once(s.past, key) && s.past.sends[key].to != th.lock ==> !Has(s.rows, key))
    case Removing(_, key, late, delivered, _) =>
      && key in s.past.sends && Kept(s, key)
      && LateOk(s.past, key, late)
      && (late && Once(s.past, key) ==> s.past.sends[key].to == th.lock)
      && (!delivered && Whole(s.past, key) && s.past.sends[key].to == th.lock ==> Hushed(s, key))
    case _ => true
  }

  // A cancel is late when its request's delivery is over, as it is after a restart.
  ghost predicate LateOk(past: History, key: Key, late: bool) {
    (late ==> key in past.ended) && (key in past.cut ==> late)
  }

  // The cancel began after the delivery of its request was over, or ran under the
  // lock of the request's own recipient.
  ghost predicate WellAimed(past: History, e: CancelEnd) {
    Once(past, e.key) && (e.late || past.sends[e.key].to == e.lock)
  }

  ghost predicate EndOk(s: State, e: CancelEnd) {
    match e.verdict
    case Silent => e.key in s.past.sends && (e.cut ==> e.late && !Unwritten(s.past, e.key)) && SilentOk(s, e)
    case Relayed(k) =>
      k in s.past.sends && (k == e.key && Once(s.past, k) ==> s.past.sends[k].relayOf == Some(e.key))
    case NoAddress => e.lock == ""
  }

  // A well-aimed silent cancel ran under the right lock and took the row out for
  // good; the request was never written unless a restart cut its write short.
  ghost predicate SilentOk(s: State, e: CancelEnd) {
    WellAimed(s.past, e) ==>
      && s.past.sends[e.key].to == e.lock
      && Kept(s, e.key) && !Has(s.rows, e.key)
      && (!e.cut ==> Hushed(s, e.key))
  }

  // What was cut short had been written, and its delivery is over.
  ghost predicate CutInv(past: History) {
    forall id | id in past.cut :: id in past.ended && !Unwritten(past, id)
  }

  ghost predicate CancelInv(s: State) {
    && MarkInv(s)
    && CutInv(s.past)
    && (forall t | t in s.threads :: CancelPcOk(s, s.threads[t]))
    && (forall e | e in s.past.cancels :: EndOk(s, e))
  }

  // What a step leaves of the history besides submissions, writes and removals.
  ghost predicate HistoryGoesOn(past: History, past': History, l: Label) {
    && past.ended <= past'.ended
    && (!l.Cancel? && !l.Locate? ==> past'.cancels == past.cancels)
    && (!l.Restart? ==> past'.cut == past.cut)
  }

  lemma DeliverHistory(s: State, t: Tid, v: DeliverStep)
    requires DeliverEnabled(s, t, v)
    ensures HistoryGoesOn(s.past, DeliverNext(s, t, v).past, Deliver(t, v))
  {
  }

  lemma RegisterHistory(s: State, t: Tid, r: RegisterStep)
    requires RegisterEnabled(s, t, r)
    ensures HistoryGoesOn(s.past, RegisterNext(s, t, r).past, Register(t, r))
  {
  }

  lemma BeginHistory(s: State, t: Tid, action: Action, l: Label)
    requires l.Frame? || l.Post?
    ensures HistoryGoesOn(s.past, Begin(s, t, action).past, l)
  {
  }

  lemma HistoryStep(s: State, l: Label)
    requires Enabled(s, l) && s.past.ended <= s.past.sends.Keys
    ensures HistoryGoesOn(s.past, Next(s, l).past, l)
  {
    match l
    case Deliver(t, v) => DeliverHistory(s, t, v);
    case Register(t, r) => RegisterHistory(s, t, r);
    case Cancel(t, k) => assert CancelNext(s, t, k).past.ended == s.past.ended;
    case Frame(t, connDid, hasAddr, raw, env, pairAllowed, allowed) =>
      BeginHistory(s, t, Route(connDid, hasAddr, raw, env, pairAllowed, allowed), l);
    case _ =>
  }

  lemma DeliverNoNewRow(s: State, t: Tid, v: DeliverStep, id: Key)
    requires Inv(s) && DeliverEnabled(s, t, v) && id in s.past.ended && !Has(s.rows, id)
    ensures var s' := DeliverNext(s, t, v); id !in s'.past.reused ==> !Has(s'.rows, id)
  {
    assert ThreadInv(s, s.threads[t].pc);
    if v.Mark? {
      MarkedRows(s.rows, s.threads[t].pc.send.Key(), v.now);
    }
  }

  lemma RegisterNoNewRow(s: State, t: Tid, r: RegisterStep, id: Key)
    requires RegisterEnabled(s, t, r) && !Has(s.rows, id)
    ensures !Has(RegisterNext(s, t, r).rows, id)
  {
    if r.Settle? {
      MarkedRows(s.rows, s.threads[t].pc.todo[0].id, r.now);
    }
  }

  lemma OtherNoNewRow(s: State, l: Label, id: Key)
    requires Enabled(s, l) && !l.Deliver? && !l.Register? && !Has(s.rows, id)
    ensures !Has(Next(s, l).rows, id)
  {
    match l
    case Frame(t, connDid, hasAddr, raw, env, pairAllowed, allowed) =>
      assert Begin(s, t, Route(connDid, hasAddr, raw, env, pairAllowed, allowed)).rows == s.rows;
    case _ =>
  }

  // Once its delivery has ended, a message that is not stored never will be.
  lemma NoNewRow(s: State, l: Label, id: Key)
    requires Inv(s) && Enabled(s, l) && id in s.past.ended && !Has(s.rows, id)
    ensures id !in Next(s, l).past.reused ==> !Has(Next(s, l).rows, id)
  {
    if l.Deliver? {
      DeliverNoNewRow(s, l.t, l.v, id);
    } else if l.Register? {
      RegisterNoNewRow(s, l.t, l.r, id);
    } else {
      OtherNoNewRow(s, l, id);
    }
  }

  lemma MidIsWritten(s: State, t: Tid, id: Key)
    requires IdInv(s) && t in s.threads && id in s.threads[t].pc.Mid()
    ensures id in s.past.sends && !Unwritten(s.past, id)
  {
    assert ThreadInv(s, s.threads[t].pc);
  }

  lemma RestartCuts(s: State)
    requires IdInv(s) && CutInv(s.past)
    ensures CutInv(Next(s, Restart).past)
  {
    forall id | id in Halfway(s.threads)
      ensures id in s.past.sends && !Unwritten(s.past, id)
    {
      var t :| t in s.threads && id in s.threads[t].pc.Mid();
      MidIsWritten(s, t, id);
    }
  }

  lemma CutStep(s: State, l: Label)
    requires Inv(s) && CutInv(s.past) && Enabled(s, l) && Extends(s, Next(s, l))
    ensures CutInv(Next(s, l).past)
  {
    if l.Restart? {
      RestartCuts(s);
    } else {
      HistoryStep(s, l);
      CutStays(s.past, Next(s, l).past);
    }
  }

  lemma CutStays(past: History, past': History)
    requires CutInv(past) && past'.cut == past.cut && past.ended <= past'.ended && past.written <= past'.written
    ensures CutInv(past')
  {
  }

  // A cancel that holds its lock, or waits for one, is undisturbed by others.
  lemma OtherCancelKept(s: State, l: Label, u: Tid)
    requires Inv(s) && Enabled(s, l) && !l.Restart? && Extends(s, Next(s, l))
    requires u in s.threads && CancelPcOk(s, s.threads[u])
    requires l.Register? ==> l.t != u
    ensures CancelPcOk(Next(s, l), s.threads[u])
  {
    var s' := Next(s, l);
    var th := s.threads[u];
    HistoryStep(s, l);
    assert s.past.ended <= s.past.sends.Keys;
    match th.pc
    case Selecting(_, key, late) =>
      if late && Once(s'.past, key) && s'.past.sends[key].to != th.lock {
        NoNewRow(s, l, key);
      }
    case Removing(_, key, late, delivered, _) =>
      if !delivered && Whole(s'.past, key) && s'.past.sends[key].to == th.lock {
        assert Holds(s, u);
        HushStep(s, l, key);
      }
    case _ =>
  }

  // A cancel finds the row undelivered only if nobody has written it or will.
  lemma SelectHushes(s: State, t: Tid)
    requires Inv(s) && MarkInv(s) && Holds(s, t) && s.threads[t].pc.Selecting?
    requires var key := s.threads[t].pc.key;
             && Has(s.rows, key) && RowOf(s.rows, key).deliveredAt.None?
             && Whole(s.past, key) && s.past.sends[key].to == s.threads[t].lock
    ensures Hushed(s, s.threads[t].pc.key)
  {
    var key := s.threads[t].pc.key;
    var lock := s.threads[t].lock;
    var r := RowOf(s.rows, key);
    assert RowOk(s.past, r) && MarkedOrMid(s, r);
    forall u | u in s.threads
      ensures QuietPc(s.threads[u].pc, key)
    {
      var th := s.threads[u];
      assert ThreadInv(s, th.pc) && ThreadOk(th) && (Holds(s, u) || MayWait(th.pc));
    }
  }

  lemma SelectOwn(s: State, t: Tid)
    requires Inv(s) && MarkInv(s) && CancelEnabled(s, t, Select) && CancelPcOk(s, s.threads[t])
    ensures var s' := CancelNext(s, t, Select); CancelPcOk(s', s'.threads[t])
  {
    var s' := CancelNext(s, t, Select);
    var pc := s.threads[t].pc;
    CancelMoves(s, t, Select);
    if Has(s.rows, pc.key) {
      var r := RowOf(s.rows, pc.key);
      assert RowOk(s.past, r);
      if r.deliveredAt.None? && Whole(s.past, pc.key) && s.past.sends[pc.key].to == s.threads[t].lock {
        SelectHushes(s, t);
        CancelKeeps(s, t, Select);
        HushCancel(s, t, Select, pc.key);
      }
    }
  }

  lemma LocateOwn(s: State, t: Tid)
    requires Inv(s) && t in s.threads && s.threads[t].pc.Locating? && CancelPcOk(s, s.threads[t])
    ensures var s' := LocateNext(s, t); t in s'.threads ==> CancelPcOk(s', s'.threads[t])
  {
    var key := s.threads[t].pc.key;
    if Has(s.rows, key) {
      assert RowOk(s.past, RowOf(s.rows, key));
    }
  }

  lemma EndKept(s: State, l: Label, e: CancelEnd)
    requires Inv(s) && Enabled(s, l) && Extends(s, Next(s, l)) && EndOk(s, e)
    ensures EndOk(Next(s, l), e)
  {
    if e.verdict.Silent? && WellAimed(Next(s, l).past, e) {
      StaysGone(s, Next(s, l), e.key);
      if !e.cut {
        HushStep(s, l, e.key);
      }
    }
  }

  lemma RemoveTakesRow(s: State, t: Tid)
    requires Inv(s) && CancelEnabled(s, t, Remove) && CancelPcOk(s, s.threads[t])
    ensures var key := s.threads[t].pc.key;
            !Has(CancelNext(s, t, Remove).rows, key) && Kept(CancelNext(s, t, Remove), key)
  {
    CancelKeeps(s, t, Remove);
    StaysKept(s, CancelNext(s, t, Remove), s.threads[t].pc.key);
  }

  lemma StaysKept(s: State, s': State, id: Key)
    requires Extends(s, s') && Kept(s, id)
    ensures Kept(s', id)
  {
  }

  lemma StaysGone(s: State, s': State, id: Key)
    requires Extends(s, s') && Kept(s, id) && !Has(s.rows, id) && id !in s'.past.reused
    ensures Kept(s', id) && !Has(s'.rows, id)
  {
  }

  lemma RemoveNewEnd(s: State, t: Tid, k: CancelStep, e: CancelEnd)
    requires Inv(s) && CutInv(s.past) && CancelEnabled(s, t, k) && CancelPcOk(s, s.threads[t]) && k.Remove?
    requires e in CancelNext(s, t, k).past.cancels && e !in s.past.cancels
    ensures EndOk(CancelNext(s, t, k), e)
  {
    var s' := CancelNext(s, t, k);
    CancelKeeps(s, t, k);
    RemoveTakesRow(s, t);
    if WellAimed(s'.past, e) && !e.cut {
      HushCancel(s, t, k, e.key);
    }
  }

  lemma CancelNewEnd(s: State, t: Tid, k: CancelStep, e: CancelEnd)
    requires Inv(s) && CutInv(s.past) && CancelEnabled(s, t, k) && CancelPcOk(s, s.threads[t])
    requires e in CancelNext(s, t, k).past.cancels && e !in s.past.cancels
    ensures EndOk(CancelNext(s, t, k), e)
  {
    if k.Remove? {
      RemoveNewEnd(s, t, k, e);
    }
  }

  // Only Locate, Remove and Relay end a cancel.
  lemma NewEnd(s: State, l: Label, e: CancelEnd)
    requires Inv(s) && CutInv(s.past) && Enabled(s, l)
    requires e in Next(s, l).past.cancels && e !in s.past.cancels
    requires forall t | t in s.threads :: CancelPcOk(s, s.threads[t])
    ensures EndOk(Next(s, l), e)
  {
    HistoryStep(s, l);
    if l.Cancel? {
      CancelNewEnd(s, l.t, l.k, e);
    }
  }

  lemma CancelOwn(s: State, t: Tid, k: CancelStep)
    requires Inv(s) && MarkInv(s) && CancelEnabled(s, t, k) && CancelPcOk(s, s.threads[t])
    ensures var s' := CancelNext(s, t, k); CancelPcOk(s', s'.threads[t])
  {
    if k.Select? {
      SelectOwn(s, t);
    }
  }

  lemma WorkPcOk(s: State, l: Label)
    requires Enabled(s, l) && (l.Register? || l.Deliver?)
    ensures var s' := Next(s, l); l.t in s'.threads && CancelPcOk(s', s'.threads[l.t])
  {
    match l
    case Register(t, r) => assert CancelPcOk(RegisterNext(s, t, r), RegisterNext(s, t, r).threads[t]);
    case Deliver(t, v) => DeliverPcOk(s, t, v);
  }

  lemma DeliverPcOk(s: State, t: Tid, v: DeliverStep)
    requires DeliverEnabled(s, t, v)
    ensures var s' := DeliverNext(s, t, v); t in s'.threads && CancelPcOk(s', s'.threads[t])
  {
  }

  // Only these steps move the goroutine `u`.
  lemma Moved(s: State, l: Label, u: Tid)
    requires LockInv(s) && Enabled(s, l) && u in Next(s, l).threads
    requires u in s.threads ==> Next(s, l).threads[u] != s.threads[u]
    ensures l.Register? || l.Deliver? || l.Cancel? || l.Ack? || l.Locate? || l.Frame? || l.Post? || l.Connect?
    ensures l.t == u
  {
    if l.Register? || l.Deliver? || l.Cancel? {
      OneMovesUnderLock(s, l);
    }
  }

  lemma OneMovesUnderLock(s: State, l: Label)
    requires LockInv(s) && Enabled(s, l) && (l.Register? || l.Deliver? || l.Cancel?)
    ensures OneMoves(s, Next(s, l), l.t)
  {
    match l
    case Register(t, r) => RegisterMoves(s, t, r);
    case Deliver(t, v) => DeliverMoves(s, t, v);
    case Cancel(t, k) => CancelMoves(s, t, k);
  }

  // Where a goroutine that moves finds itself, cancels included.
  lemma OwnPcOk(s: State, l: Label, u: Tid)
    requires Inv(s) && MarkInv(s) && CutInv(s.past) && Enabled(s, l) && u in Next(s, l).threads
    requires forall t | t in s.threads :: CancelPcOk(s, s.threads[t])
    requires u in s.threads ==> Next(s, l).threads[u] != s.threads[u]
    ensures CancelPcOk(Next(s, l), Next(s, l).threads[u])
  {
    Moved(s, l, u);
    match l
    case Register(t, r) => WorkPcOk(s, l);
    case Deliver(t, v) => WorkPcOk(s, l);
    case Cancel(t, k) => CancelOwn(s, t, k);
    case Locate(t) => LocateOwn(s, t);
    case Frame(t, connDid, hasAddr, raw, env, pairAllowed, allowed) =>
      BeginPcOk(s, t, Route(connDid, hasAddr, raw, env, pairAllowed, allowed), u);
    case _ =>
  }

  lemma BeginPcOk(s: State, t: Tid, action: Action, u: Tid)
    requires CutInv(s.past) && t !in s.threads && u in Begin(s, t, action).threads && u !in s.threads
    ensures CancelPcOk(Begin(s, t, action), Begin(s, t, action).threads[u])
  {
  }

  lemma CancelInvStep(s: State, l: Label)
    requires Inv(s) && CancelInv(s) && Enabled(s, l)
    ensures CancelInv(Next(s, l))
  {
    var s' := Next(s, l);
    IdStep(s, l);
    MarkStep(s, l);
    CutStep(s, l);
    forall u | u in s'.threads
      ensures CancelPcOk(s', s'.threads[u])
    {
      if u in s.threads && s'.threads[u] == s.threads[u] {
        UnmovedPcOk(s, l, u);
      } else {
        OwnPcOk(s, l, u);
      }
    }
    forall e | e in s'.past.cancels
      ensures EndOk(s', e)
    {
      if e in s.past.cancels {
        EndKept(s, l, e);
      } else {
        NewEnd(s, l, e);
      }
    }
  }

  lemma UnmovedPcOk(s: State, l: Label, u: Tid)
    requires Inv(s) && Enabled(s, l) && !l.Restart? && Extends(s, Next(s, l))
    requires u in s.threads && CancelPcOk(s, s.threads[u])
    ensures CancelPcOk(Next(s, l), s.threads[u])
  {
    if l.Register? && l.t == u {
      assert !s.threads[u].pc.Removing? && !s.threads[u].pc.Selecting? && !s.threads[u].pc.Locating?;
    } else {
      OtherCancelKept(s, l, u);
    }
  }

  lemma {:induction false} CancelRun(run: seq<Label>)
    requires After(run).Some?
    ensures Inv(After(run).value) && CancelInv(After(run).value)
  {
    InvRun(run);
    if run == [] {
    } else {
      var s := After(run[..|run| - 1]).value;
      CancelRun(run[..|run| - 1]);
      CancelInvStep(s, run[|run| - 1]);
    }
  }

  // A cancel is never half-way through a drain or a delivery. Take a cancel, in any
  // run, of an id submitted once, begun after its delivery was over or run under
  // the lock of the request's recipient. If it was silent, the request is gone from
  // the buffer and its removal is on record; and it has been written if and only
  // if a restart struck between a write of it and its mark before the cancel
  // began. This holds after every run, so what has not been written never will be.
  // If it was not silent, it was relayed under a key of its own, or had no address.
  lemma CancelIsExact(run: seq<Label>, e: CancelEnd)
    requires After(run).Some?
    requires var past := After(run).value.past;
             e in past.cancels && WellAimed(past, e) && past.sends[e.key].relayOf == None
    ensures var s := After(run).value;
            match e.verdict
            case Silent =>
              && s.past.sends[e.key].to == e.lock
              && !Has(s.rows, e.key) && Gone(s.past, e.key)
              && (Unwritten(s.past, e.key) <==> !e.cut)
              && (e.cut ==> e.late)
            case Relayed(newKey) => newKey != e.key && newKey in s.past.sends
            case NoAddress => e.lock == ""
  {
    CancelRun(run);
    assert EndOk(After(run).value, e);
  }
}
