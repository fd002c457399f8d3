// A relayed cancel that took a delivered row out of its recipient's buffer always
// finds a free place there.
module RelayPlace {
  import opened Wrappers
  import opened Table
  import opened Envelope
  import opened Relay
  import opened RelaySettled
  import opened RelayKept

  ghost predicate HasPlace(s: State, d: DID) {
    Count(s.rows, d) < MAX_MESSAGES_PER_DID
  }

  ghost predicate PlaceOk(s: State, th: Thread) {
    match th.pc
    case Removing(_, key, _, _, from) =>
      from == th.lock ==> HasPlace(s, th.lock) || exists r :: r in s.rows && r.msg.id == key && r.recipient == th.lock
    case Relaying(_, _, _, took) => took == Some(th.lock) ==> HasPlace(s, th.lock)
    case _ => th.pc.IsSend() && th.pc.send.took == Some(th.lock) && th.pc.IsUnsent() ==> HasPlace(s, th.lock)
  }

  // Only the holder of a lock may use up a place it was promised; a goroutine
  // still waiting has been promised none.
  ghost predicate PlaceInv(s: State) {
    forall t | t in s.threads ::
      if Holds(s, t) then PlaceOk(s, s.threads[t])
      else s.threads[t].pc.IsSend() ==> s.threads[t].pc.send.took.None?
  }

  // Rows of `d` only go, and each that goes leaves a place.
  ghost predicate Shrinks(rows: seq<Row>, rows': seq<Row>, d: DID) {
    && Count(rows', d) <= Count(rows, d)
    && forall r | r in rows && r.recipient == d ::
         Count(rows', d) < Count(rows, d) || exists q :: q in rows' && q.msg == r.msg && q.recipient == d
  }

  lemma FilterShrinks(rows: seq<Row>, keep: Row -> bool, d: DID)
    ensures Shrinks(rows, Filter(rows, keep), d)
  {
    FilterCounts(rows, keep, d);
    forall r | r in rows && r.recipient == d && !keep(r)
      ensures Count(Filter(rows, keep), d) < Count(rows, d)
    {
      FilterFreesPlace(rows, keep, r);
    }
  }

  lemma MarkShrinks(rows: seq<Row>, id: Key, now: int, d: DID)
    ensures Shrinks(rows, Marked(rows, id, now), d)
  {
    MarkedCounts(rows, id, now, d);
    MarkedRows(rows, id, now);
  }

  lemma InsertShrinks(rows: seq<Row>, row: Row, d: DID)
    requires d != row.recipient
    ensures Shrinks(rows, Insert(rows, row), d)
  {
    CountOfAppend(rows, row, d);
  }

  lemma ShrinkingKeeps(s: State, s': State, th: Thread)
    requires TableInv(s) && PlaceOk(s, th) && Shrinks(s.rows, s'.rows, th.lock)
    ensures PlaceOk(s', th)
  {
  }

  lemma RegisterShrinks(s: State, t: Tid, r: RegisterStep, d: DID)
    requires RegisterEnabled(s, t, r)
    ensures Shrinks(s.rows, RegisterNext(s, t, r).rows, d)
  {
    if r.DropExpired? || r.Settle? {
      FilterShrinks(s.rows, (row: Row) => row.msg.id != s.threads[t].pc.todo[0].id, d);
      if r.Settle? {
        MarkShrinks(s.rows, s.threads[t].pc.todo[0].id, r.now, d);
      }
    }
  }

  lemma DeliverShrinks(s: State, t: Tid, v: DeliverStep, d: DID)
    requires DeliverEnabled(s, t, v) && (v.Store? ==> d != s.threads[t].pc.send.to)
    ensures Shrinks(s.rows, DeliverNext(s, t, v).rows, d)
  {
    match v
    case Store(now) => InsertShrinks(s.rows, s.threads[t].pc.send.RowAt(now), d);
    case Mark(now) => MarkShrinks(s.rows, s.threads[t].pc.send.Key(), now, d);
    case _ =>
  }

  lemma CancelShrinks(s: State, t: Tid, k: CancelStep, d: DID)
    requires CancelEnabled(s, t, k)
    ensures Shrinks(s.rows, CancelNext(s, t, k).rows, d)
  {
    if k.Remove? {
      FilterShrinks(s.rows, (row: Row) => row.msg.id != s.threads[t].pc.key, d);
    }
  }

  lemma PlaceMoves(s: State, s': State, t: Tid)
    requires LockInv(s) && TableInv(s) && PlaceInv(s) && Holds(s, t) && OneMoves(s, s', t)
    requires forall d: DID | d != s.threads[t].lock :: Shrinks(s.rows, s'.rows, d)
    requires PlaceOk(s', s'.threads[t])
    ensures PlaceInv(s')
  {
    forall u | u in s'.threads
      ensures if Holds(s', u) then PlaceOk(s', s'.threads[u])
              else s'.threads[u].pc.IsSend() ==> s'.threads[u].pc.send.took.None?
    {
      if u != t && Holds(s, u) {
        ShrinkingKeeps(s, s', s.threads[u]);
      }
    }
  }

  // No lock changes hands, and every recipient's rows at most go.
  lemma PlaceOutside(s: State, s': State)
    requires TableInv(s) && PlaceInv(s) && s'.holder == s.holder
    requires forall d: DID :: Shrinks(s.rows, s'.rows, d)
    requires forall u | u in s'.threads ::
      || (u in s.threads && s'.threads[u] == s.threads[u])
      || (!Holds(s', u) && (s'.threads[u].pc.IsSend() ==> s'.threads[u].pc.send.took.None?))
    ensures PlaceInv(s')
  {
    forall u | u in s'.threads && Holds(s', u)
      ensures PlaceOk(s', s'.threads[u])
    {
      ShrinkingKeeps(s, s', s.threads[u]);
    }
  }

  lemma RemoveMakesPlace(s: State, t: Tid)
    requires TableInv(s) && CancelEnabled(s, t, Remove) && PlaceOk(s, s.threads[t])
    ensures s.threads[t].pc.from == s.threads[t].lock ==> HasPlace(CancelNext(s, t, Remove), s.threads[t].lock)
  {
    var pc := s.threads[t].pc;
    var lock := s.threads[t].lock;
    if pc.from == lock {
      if HasPlace(s, lock) {
        FilterCounts(s.rows, (row: Row) => row.msg.id != pc.key, lock);
      } else {
        var r :| r in s.rows && r.msg.id == pc.key && r.recipient == lock;
        FilterFreesPlace(s.rows, (row: Row) => row.msg.id != pc.key, r);
      }
    }
  }

  lemma RegisterPlace(s: State, t: Tid, r: RegisterStep)
    requires Inv(s) && PlaceInv(s) && RegisterEnabled(s, t, r)
    ensures PlaceInv(RegisterNext(s, t, r))
  {
    assert ThreadOk(s.threads[t]);
    RegisterMoves(s, t, r);
    forall d: DID {
      RegisterShrinks(s, t, r, d);
    }
    PlaceMoves(s, RegisterNext(s, t, r), t);
  }

  // A delivery that is still unsent has left the table alone.
  lemma UnsentLeavesRows(s: State, t: Tid, v: DeliverStep)
    requires DeliverEnabled(s, t, v) && DeliverNext(s, t, v).threads[t].pc.IsUnsent()
    ensures var s' := DeliverNext(s, t, v);
            && s'.rows == s.rows && s.threads[t].pc.IsUnsent() && s'.threads[t].lock == s.threads[t].lock
            && s'.threads[t].pc.send == s.threads[t].pc.send
  {
  }

  lemma DeliverOwnPlace(s: State, t: Tid, v: DeliverStep)
    requires DeliverEnabled(s, t, v) && PlaceOk(s, s.threads[t]) && ThreadOk(s.threads[t])
    requires forall d | d in s.conns :: s.conns[d].did == d
    ensures var s' := DeliverNext(s, t, v); PlaceOk(s', s'.threads[t])
  {
    DeliverMoves(s, t, v);
    if DeliverNext(s, t, v).threads[t].pc.IsUnsent() {
      UnsentLeavesRows(s, t, v);
    } else {
      DeliverStaysSend(s, t, v);
    }
  }

  lemma DeliverStaysSend(s: State, t: Tid, v: DeliverStep)
    requires DeliverEnabled(s, t, v)
    ensures var pc := DeliverNext(s, t, v).threads[t].pc; pc.IsSend() || pc.Finished?
  {
  }

  lemma DeliverPlace(s: State, t: Tid, v: DeliverStep)
    requires Inv(s) && PlaceInv(s) && DeliverEnabled(s, t, v)
    ensures PlaceInv(DeliverNext(s, t, v))
  {
    assert ThreadOk(s.threads[t]);
    DeliverMoves(s, t, v);
    forall d: DID | d != s.threads[t].lock {
      DeliverShrinks(s, t, v, d);
    }
    DeliverOwnPlace(s, t, v);
    PlaceMoves(s, DeliverNext(s, t, v), t);
  }

  lemma CancelPlace(s: State, t: Tid, k: CancelStep)
    requires Inv(s) && PlaceInv(s) && CancelEnabled(s, t, k)
    ensures PlaceInv(CancelNext(s, t, k))
  {
    assert ThreadOk(s.threads[t]) && PlaceOk(s, s.threads[t]);
    CancelMoves(s, t, k);
    forall d: DID {
      CancelShrinks(s, t, k, d);
    }
    if k.Remove? {
      RemoveMakesPlace(s, t);
    }
    PlaceMoves(s, CancelNext(s, t, k), t);
  }

  lemma AckPlace(s: State, t: Tid)
    requires Inv(s) && PlaceInv(s) && Holds(s, t) && s.threads[t].pc.Acking?
    ensures PlaceInv(AckNext(s, t))
  {
    forall d: DID
      ensures Shrinks(s.rows, AckNext(s, t).rows, d)
    {
      FilterShrinks(s.rows, (r: Row) => !(r.msg.id == s.threads[t].pc.key && r.recipient == s.threads[t].lock), d);
    }
    PlaceMoves(s, AckNext(s, t), t);
  }

  lemma BeginPlace(s: State, t: Tid, action: Action)
    requires Inv(s) && PlaceInv(s) && t !in s.threads && (action.Forward? ==> action.send.took.None?)
    ensures PlaceInv(Begin(s, t, action))
  {
    PlaceOutside(s, Begin(s, t, action));
  }

  lemma FramePlace(
    s: State, t: Tid, connDid: DID, hasAddr: bool, raw: seq<Byte>, env: Envelope, pairAllowed: bool, allowed: bool)
    requires Inv(s) && PlaceInv(s) && t !in s.threads
    ensures PlaceInv(Begin(s, t, Route(connDid, hasAddr, raw, env, pairAllowed, allowed)))
  {
    RouteBindsConnection(connDid, hasAddr, raw, env, pairAllowed, allowed);
    BeginPlace(s, t, Route(connDid, hasAddr, raw, env, pairAllowed, allowed));
  }

  lemma SweepPlace(s: State, now: int)
    requires Inv(s) && PlaceInv(s)
    ensures PlaceInv(Next(s, Sweep(now)))
  {
    var s' := Next(s, Sweep(now));
    forall d: DID
      ensures Shrinks(s.rows, s'.rows, d)
    {
      FilterShrinks(s.rows, (r: Row) => !IsStale(r.msg, now), d);
    }
    PlaceOutside(s, s');
  }

  lemma LocatePlace(s: State, t: Tid)
    requires Inv(s) && PlaceInv(s) && t in s.threads && s.threads[t].pc.Locating?
    ensures PlaceInv(LocateNext(s, t))
  {
    var s' := LocateNext(s, t);
    assert t in s'.threads ==> s'.threads[t].pc.Selecting?;
    forall u | u in s'.threads
      ensures if Holds(s', u) then PlaceOk(s', s'.threads[u])
              else s'.threads[u].pc.IsSend() ==> s'.threads[u].pc.send.took.None?
    {
      if u != t && Holds(s, u) {
        ShrinkingKeeps(s, s', s.threads[u]);
      }
    }
  }

  lemma LocklessPlace(s: State, l: Label)
    requires Inv(s) && PlaceInv(s) && Enabled(s, l) && (l.Connect? || l.Unregister? || l.Restart?)
    ensures PlaceInv(Next(s, l))
  {
    if !l.Restart? {
      PlaceOutside(s, Next(s, l));
    }
  }

  lemma LocksPlace(s: State, l: Label)
    requires Inv(s) && PlaceInv(s) && Enabled(s, l) && (l.Acquire? || l.Release?)
    ensures PlaceInv(Next(s, l))
  {
    var s' := Next(s, l);
    forall u | u in s'.threads
      ensures if Holds(s', u) then PlaceOk(s', s'.threads[u])
              else s'.threads[u].pc.IsSend() ==> s'.threads[u].pc.send.took.None?
    {
      assert s'.threads[u] == s.threads[u];
      if Holds(s, u) {
        ShrinkingKeeps(s, s', s.threads[u]);
      } else {
        assert MayWait(s.threads[u].pc);
      }
    }
  }

  lemma PlaceStep(s: State, l: Label)
    requires Inv(s) && PlaceInv(s) && Enabled(s, l)
    ensures PlaceInv(Next(s, l))
  {
    match l
    case Register(t, r) => RegisterPlace(s, t, r);
    case Deliver(t, v) => DeliverPlace(s, t, v);
    case Cancel(t, k) => CancelPlace(s, t, k);
    case Ack(t) => AckPlace(s, t);
    case Frame(t, connDid, hasAddr, raw, env, pairAllowed, allowed) =>
      FramePlace(s, t, connDid, hasAddr, raw, env, pairAllowed, allowed);
    case Post(t, sender, eid, to, raw) => BeginPlace(s, t, Forward(Send(sender, eid, to, raw, None, None, None)));
    case Acquire(_) => LocksPlace(s, l);
    case Release(_) => LocksPlace(s, l);
    case Locate(t) => LocatePlace(s, t);
    case Sweep(now) => SweepPlace(s, now);
    case _ => LocklessPlace(s, l);
  }

  lemma {:induction false} PlaceRun(run: seq<Label>)
    requires After(run).Some?
    ensures Inv(After(run).value) && PlaceInv(After(run).value)
  {
    InvRun(run);
    if run == [] {
    } else {
      PlaceRun(run[..|run| - 1]);
      PlaceStep(After(run[..|run| - 1]).value, run[|run| - 1]);
    }
  }

  // A cancel relayed for a row just taken out of its recipient's buffer is never
  // refused for the message count: only a stored id or the byte limit refuses it.
  lemma RelayFindsPlace(run: seq<Label>, t: Tid, now: int)
    requires After(run).Some? && DeliverEnabled(After(run).value, t, Store(now))
    requires After(run).value.threads[t].pc.send.took == Some(After(run).value.threads[t].pc.send.to)
    ensures var s := After(run).value;
            var send := s.threads[t].pc.send;
            && Count(s.rows, send.to) < MAX_MESSAGES_PER_DID
            && (DeliverNext(s, t, Store(now)).rows == s.rows ==>
                  Has(s.rows, send.Key()) || Bytes(s.rows, send.to) + |send.payload| > MAX_BYTES_PER_DID)
  {
    PlaceRun(run);
    var s := After(run).value;
    assert ThreadOk(s.threads[t]) && PlaceOk(s, s.threads[t]);
  }
}
