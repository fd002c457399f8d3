// What becomes of every message: conservation, row ownership and capacity over
// whole runs, restarts included. A claim about a message's content or fate is
// made for ids submitted only once; the history names the others `reused`.
module RelayKept {
  import opened Wrappers
  import opened Table
  import opened Envelope
  import opened Relay
  import opened RelaySettled

  ghost predicate Gone(past: History, id: Key) {
    exists rm :: rm in past.removed && rm.row.msg.id == id
  }

  ghost predicate Kept(s: State, id: Key) {
    Has(s.rows, id) || Gone(s.past, id)
  }

  ghost predicate Unwritten(past: History, id: Key) {
    forall d | d in past.written :: d.id != id
  }

  // Neither stored, nor removed, nor written.
  ghost predicate Untouched(s: State, id: Key) {
    !Has(s.rows, id) && !Gone(s.past, id) && Unwritten(s.past, id)
  }

  ghost predicate WrittenTo(past: History, id: Key, ack: bool) {
    exists d :: d in past.written && d.id == id && d.c.ack == ack
  }

  ghost predicate Once(past: History, id: Key) {
    id in past.sends && id !in past.reused
  }

  // ---- Rows, removals, deliveries ----

  ghost predicate RowOk(past: History, r: Row) {
    && r.msg.id in past.sends
    && StartsWith(r.msg.id, r.msg.sender + ":")
    && (r.deliveredAt.Some? ==> WrittenTo(past, r.msg.id, true))
    && (Once(past, r.msg.id) ==> Matches(r, past.sends[r.msg.id]))
  }

  // The stored copy is the message as submitted, for the recipient it named.
  ghost predicate Matches(r: Row, send: Send) {
    r.(deliveredAt := None) == send.RowAt(r.msg.storedAt)
  }

  // Every removal had its reason.
  ghost predicate RemovalOk(past: History, rm: Removal) {
    && RowOk(past, rm.row)
    && match rm.why
       case ByAck(did) => rm.row.recipient == did
       case ByCancel(who) => StartsWith(rm.row.msg.id, who + ":")
       case ByExpiry(now) => Once(past, rm.row.msg.id) ==> Expired(rm.row.msg, now)
       case ByWrite(c) => !c.ack && Delivery(c, rm.row.msg.id) in past.written
  }

  ghost predicate WriteOk(past: History, d: Delivery) {
    d.id in past.sends && (Once(past, d.id) ==> d.c.did == past.sends[d.id].to)
  }

  ghost predicate AcceptOk(s: State, id: Key) {
    id in s.past.ended && (Once(s.past, id) ==> Kept(s, id) || WrittenTo(s.past, id, false))
  }

  ghost predicate PastInv(s: State) {
    && (forall r | r in s.rows :: RowOk(s.past, r))
    && (forall rm | rm in s.past.removed :: RemovalOk(s.past, rm))
    && (forall d | d in s.past.written :: WriteOk(s.past, d))
    && (forall id | id in s.past.accepted :: AcceptOk(s, id))
    && s.past.ended <= s.past.sends.Keys
    && s.past.reused <= s.past.sends.Keys
    && (forall id | id in s.past.sends :: s.past.sends[id].Key() == id)
  }

  // ---- Goroutines ----

  ghost predicate SendOk(s: State, pc: Pc) {
    pc.IsSend() ==>
      var id := pc.send.Key();
      && id in s.past.sends
      && (pc.Marking? ==> pc.c.ack && Delivery(pc.c, id) in s.past.written)
      && (id !in s.past.reused ==>
            && pc.send == s.past.sends[id]
            && id !in s.past.ended
            && (if pc.IsUnsent() then Untouched(s, id) else Kept(s, id)))
  }

  ghost predicate TodoOk(s: State, pc: Pc) {
    pc.IsDrain() ==>
      && (forall m | m in pc.todo :: PeekedOk(s, pc.c, m))
      && (pc.Drained? ==> pc.todo != [] && Delivery(pc.c, pc.todo[0].id) in s.past.written)
  }

  ghost predicate PeekedOk(s: State, c: Conn, m: Msg) {
    && m.id in s.past.sends
    && (m.id !in s.past.reused ==>
          && s.past.sends[m.id].to == c.did
          && Kept(s, m.id)
          && forall r | r in s.rows && r.msg.id == m.id :: r.msg == m)
  }

  ghost predicate CancelOk(pc: Pc) {
    pc.Locating? || pc.Selecting? || pc.Removing? || pc.Relaying? ==> StartsWith(pc.key, pc.who + ":")
  }

  ghost predicate ThreadInv(s: State, pc: Pc) {
    SendOk(s, pc) && TodoOk(s, pc) && CancelOk(pc)
  }

  ghost predicate OneSender(s: State) {
    forall t, u | t in s.threads && u in s.threads && t != u :: NotBoth(s, s.threads[t].pc, s.threads[u].pc)
  }

  ghost predicate NotBoth(s: State, p: Pc, q: Pc) {
    p.IsSend() && q.IsSend() && p.send.Key() == q.send.Key() ==> p.send.Key() in s.past.reused
  }

  ghost predicate IdInv(s: State) {
    && PastInv(s)
    && (forall t | t in s.threads :: ThreadInv(s, s.threads[t].pc))
    && OneSender(s)
  }

  // ---- What every step leaves of other goroutines ----

  // Submissions, writes and removals only accumulate, nothing kept is forgotten,
  // and a row that appears was not there before in any form.
  ghost predicate Extends(s: State, s': State) {
    && (forall id | id in s.past.sends :: id in s'.past.sends && s'.past.sends[id] == s.past.sends[id])
    && s.past.reused <= s'.past.reused
    && s.past.written <= s'.past.written
    && s.past.cut <= s'.past.cut
    && (forall id: Key | Kept(s, id) :: Kept(s', id))
    && (forall q | q in s'.rows ::
          q.msg.id in s'.past.reused || Untouched(s, q.msg.id) || exists r :: r in s.rows && r.msg == q.msg)
  }

  // Only the message `but` may have been stored, written or ended.
  ghost predicate TouchesOnly(s: State, s': State, but: Option<Key>) {
    forall id: Key | but != Some(id) ::
      && (Untouched(s, id) ==> Untouched(s', id))
      && (id in s'.past.ended ==> id in s.past.ended)
  }

  lemma OtherKept(s: State, s': State, pc: Pc, but: Option<Key>)
    requires ThreadInv(s, pc) && Extends(s, s') && TouchesOnly(s, s', but)
    requires pc.IsSend() && but == Some(pc.send.Key()) ==>
      but.value in s'.past.reused || (Kept(s, but.value) && s'.past.ended == s.past.ended)
    ensures ThreadInv(s', pc)
  {
  }

  // PastInv, Extends and TouchesOnly see the table and the history alone.
  lemma SharedKeeps(s: State, s1: State, s2: State, but: Option<Key>)
    requires PastInv(s1) && Extends(s, s1) && (TouchesOnly(s, s1, but) || TouchesOnly(s, s1, None))
    requires s2.rows == s1.rows && s2.past == s1.past
    ensures PastInv(s2) && Extends(s, s2) && TouchesOnly(s, s2, but)
  {
  }

  lemma MoveKeeps(s: State, s': State, t: Tid, but: Option<Key>)
    requires IdInv(s) && t in s.threads && t in s'.threads
    requires s'.threads == s.threads[t := s'.threads[t]]
    requires Extends(s, s') && TouchesOnly(s, s', but) && PastInv(s') && ThreadInv(s', s'.threads[t].pc)
    requires s'.threads[t].pc.IsSend() ==>
      s.threads[t].pc.IsSend() && s.threads[t].pc.send.Key() == s'.threads[t].pc.send.Key()
    requires but.Some? && but.value !in s'.past.reused ==>
      || (s.threads[t].pc.IsSend() && but == Some(s.threads[t].pc.send.Key()))
      || (Kept(s, but.value) && s'.past.ended == s.past.ended)
    ensures IdInv(s')
  {
    forall u | u in s'.threads
      ensures ThreadInv(s', s'.threads[u].pc)
    {
      if u != t {
        assert NotBoth(s, s.threads[u].pc, s.threads[t].pc);
        OtherKept(s, s', s.threads[u].pc, but);
      }
    }
    forall u, w | u in s'.threads && w in s'.threads && u != w
      ensures NotBoth(s', s'.threads[u].pc, s'.threads[w].pc)
    {
      assert NotBoth(s, s.threads[u].pc, s.threads[w].pc);
    }
  }

  // ---- Changes to the table and the history ----

  lemma DeleteKeeps(s: State, kept: seq<Row>, why: Why)
    requires PastInv(s)
    requires forall r | r in kept :: r in s.rows
    requires forall r | r in s.rows && r !in kept :: RemovalOk(s.past, Removal(r, why))
    ensures var s' := s.(rows := kept, past := s.past.Deleted(s.rows, kept, why));
            PastInv(s') && Extends(s, s') && TouchesOnly(s, s', None)
  {
    var s' := s.(rows := kept, past := s.past.Deleted(s.rows, kept, why));
    forall id: Key | Kept(s, id)
      ensures Kept(s', id)
    {
      if Has(s.rows, id) {
        var r :| r in s.rows && r.msg.id == id;
        if r !in kept {
          assert Removal(r, why) in s'.past.removed;
        }
      } else {
        var rm :| rm in s.past.removed && rm.row.msg.id == id;
        assert rm in s'.past.removed;
      }
    }
    forall id: Key | Untouched(s, id)
      ensures Untouched(s', id)
    {
    }
  }

  lemma MarkKeeps(s: State, id: Key, now: int)
    requires PastInv(s) && WrittenTo(s.past, id, true)
    ensures var s' := s.(rows := Marked(s.rows, id, now)); PastInv(s') && Extends(s, s') && TouchesOnly(s, s', None)
  {
    var s' := s.(rows := Marked(s.rows, id, now));
    MarkedRows(s.rows, id, now);
    forall x: Key | Has(s.rows, x)
      ensures Has(s'.rows, x)
    {
      assert MarkRow(RowOf(s.rows, x), id, now) in s'.rows;
    }
    forall x: Key | Has(s'.rows, x)
      ensures Has(s.rows, x)
    {
      var r :| r in s.rows && RowOf(s'.rows, x) == MarkRow(r, id, now);
    }
  }

  lemma WroteKeeps(s: State, c: Conn, id: Key)
    requires PastInv(s) && WriteOk(s.past, Delivery(c, id))
    ensures var s' := s.(past := s.past.Wrote(c, id));
            PastInv(s') && Extends(s, s') && TouchesOnly(s, s', Some(id)) && WrittenTo(s'.past, id, c.ack)
  {
    var s' := s.(past := s.past.Wrote(c, id));
    assert Delivery(c, id) in s'.past.written;
    forall id: Key, ack: bool | WrittenTo(s.past, id, ack)
      ensures WrittenTo(s'.past, id, ack)
    {
      var d :| d in s.past.written && d.id == id && d.c.ack == ack;
      assert d in s'.past.written;
    }
  }

  lemma FailKeeps(s: State, c: Conn)
    requires PastInv(s)
    ensures var s' := s.(past := s.past.Fail(c)); PastInv(s') && Extends(s, s') && TouchesOnly(s, s', None)
  {
  }

  lemma StoreKeeps(s: State, send: Send, now: int)
    requires PastInv(s) && send.Key() in s.past.sends
    requires Once(s.past, send.Key()) ==> Untouched(s, send.Key()) && send == s.past.sends[send.Key()]
    ensures var s' := s.(rows := Insert(s.rows, send.RowAt(now)));
            PastInv(s') && Extends(s, s') && TouchesOnly(s, s', Some(send.Key()))
    ensures Insert(s.rows, send.RowAt(now)) != s.rows ==> Has(Insert(s.rows, send.RowAt(now)), send.Key())
  {
    var s' := s.(rows := Insert(s.rows, send.RowAt(now)));
    if s'.rows != s.rows {
      assert send.Key()[..|send.from| + 1] == send.from + ":";
      assert send.RowAt(now) in s'.rows;
      assert forall r :: r in s.rows ==> r in s'.rows;
    }
  }

  // An outcome recorded on top of a change.
  lemma EndKeeps(s: State, s': State, id: Key, past: History)
    requires PastInv(s') && Extends(s, s') && TouchesOnly(s, s', Some(id)) && id in s'.past.sends
    requires past == s'.past.End(id)
      || (past == s'.past.Accept(id) && (Once(s'.past, id) ==> Kept(s', id) || WrittenTo(s'.past, id, false)))
    ensures var s2 := s'.(past := past); PastInv(s2) && Extends(s, s2) && TouchesOnly(s, s2, Some(id))
  {
  }

  // ---- Steps ----

  // Capacity: the key stays unique and no recipient exceeds its limits.
  ghost predicate TableInv(s: State) {
    UniqueIds(s.rows) && WithinLimits(s.rows)
  }

  lemma RegisterTable(s: State, t: Tid, r: RegisterStep)
    requires TableInv(s) && RegisterEnabled(s, t, r)
    ensures TableInv(RegisterNext(s, t, r))
  {
    var pc := s.threads[t].pc;
    if r.DropExpired? || r.Settle? {
      WithoutKeeps(s.rows, pc.todo[0].id);
      if r.Settle? {
        MarkedKeeps(s.rows, pc.todo[0].id, r.now);
      }
    }
  }

  lemma DeliverTable(s: State, t: Tid, v: DeliverStep)
    requires TableInv(s) && DeliverEnabled(s, t, v)
    ensures TableInv(DeliverNext(s, t, v))
  {
    var send := s.threads[t].pc.send;
    match v
    case Store(now) => InsertKeeps(s.rows, send.RowAt(now));
    case Mark(now) => MarkedKeeps(s.rows, send.Key(), now);
    case _ =>
  }

  lemma TableStep(s: State, l: Label)
    requires TableInv(s) && Enabled(s, l)
    ensures TableInv(Next(s, l))
  {
    match l
    case Register(t, r) => RegisterTable(s, t, r);
    case Deliver(t, v) => DeliverTable(s, t, v);
    case Ack(t) => WithoutForKeeps(s.rows, s.threads[t].pc.key, s.threads[t].lock);
    case Cancel(t, k) =>
      if k.Remove? {
        WithoutKeeps(s.rows, s.threads[t].pc.key);
      }
    case Sweep(now) => SweptKeeps(s.rows, now);
    case Frame(t, connDid, hasAddr, raw, env, pairAllowed, allowed) =>
      assert Begin(s, t, Route(connDid, hasAddr, raw, env, pairAllowed, allowed)).rows == s.rows;
    case _ =>
  }

  lemma ReplaceKeeps(s: State, t: Tid, r: RegisterStep)
    requires IdInv(s) && RegisterEnabled(s, t, r) && r.Replace?
    ensures IdInv(RegisterNext(s, t, r)) && Extends(s, RegisterNext(s, t, r))
  {
    MoveKeeps(s, RegisterNext(s, t, r), t, None);
  }

  lemma PeekKeeps(s: State, t: Tid, r: RegisterStep)
    requires TableInv(s) && IdInv(s) && RegisterEnabled(s, t, r) && r.Peek?
    ensures IdInv(RegisterNext(s, t, r)) && Extends(s, RegisterNext(s, t, r))
  {
    PeekedAreRows(s.rows, s.threads[t].pc.c.did, r.msgs);
    MoveKeeps(s, RegisterNext(s, t, r), t, None);
  }

  lemma DropKeeps(s: State, t: Tid, r: RegisterStep)
    requires IdInv(s) && RegisterEnabled(s, t, r) && r.DropExpired?
    ensures IdInv(RegisterNext(s, t, r)) && Extends(s, RegisterNext(s, t, r))
  {
    var s' := RegisterNext(s, t, r);
    var pc := s.threads[t].pc;
    assert ThreadInv(s, pc) && PeekedOk(s, pc.c, pc.todo[0]);
    DeleteKeeps(s, s'.rows, ByExpiry(pc.now));
    OtherKept(s, s', Draining(pc.c, pc.todo[1..], pc.now), None);
    MoveKeeps(s, s', t, None);
  }

  lemma WriteNextKeeps(s: State, t: Tid, r: RegisterStep)
    requires IdInv(s) && RegisterEnabled(s, t, r) && r.WriteNext?
    ensures IdInv(RegisterNext(s, t, r)) && Extends(s, RegisterNext(s, t, r))
  {
    var s' := RegisterNext(s, t, r);
    var pc := s.threads[t].pc;
    var id := pc.todo[0].id;
    assert ThreadInv(s, pc) && PeekedOk(s, pc.c, pc.todo[0]);
    if r.ok {
      WroteKeeps(s, pc.c, id);
      SharedKeeps(s, s.(past := s'.past), s', Some(id));
      OtherKept(s, s', pc, Some(id));
    } else {
      FailKeeps(s, pc.c);
      SharedKeeps(s, s.(past := s'.past), s', Some(id));
    }
    MoveKeeps(s, s', t, Some(id));
  }

  lemma SettleKeeps(s: State, t: Tid, r: RegisterStep)
    requires IdInv(s) && RegisterEnabled(s, t, r) && r.Settle?
    ensures IdInv(RegisterNext(s, t, r)) && Extends(s, RegisterNext(s, t, r))
  {
    var s' := RegisterNext(s, t, r);
    var pc := s.threads[t].pc;
    assert ThreadInv(s, pc) && TodoOk(s, pc);
    if pc.c.ack {
      MarkKeeps(s, pc.todo[0].id, r.now);
    } else {
      DeleteKeeps(s, s'.rows, ByWrite(pc.c));
    }
    OtherKept(s, s', Draining(pc.c, pc.todo[1..], pc.now), None);
    MoveKeeps(s, s', t, None);
  }

  // One delivery step, seen from the table and the history alone.
  ghost predicate DeliverShared(s: State, s': State, pc: Pc, pc': Pc) {
    && pc.IsSend()
    && PastInv(s') && Extends(s, s') && TouchesOnly(s, s', Some(pc.send.Key()))
    && (pc'.Finished? || (pc'.IsSend() && pc'.send == pc.send && SendOk(s', pc')))
  }

  lemma LookupShared(s: State, t: Tid, v: DeliverStep)
    requires DeliverEnabled(s, t, v) && (v.Lookup? || v.Check? || v.Recheck?)
    requires PastInv(s) && SendOk(s, s.threads[t].pc)
    ensures var s' := DeliverNext(s, t, v); DeliverShared(s, s', s.threads[t].pc, s'.threads[t].pc)
  {
    var s' := DeliverNext(s, t, v);
    var id := s.threads[t].pc.send.Key();
    if s'.past != s.past {
      EndKeeps(s, s, id, s'.past);
    }
    SharedKeeps(s, s.(past := s'.past), s', Some(id));
  }

  lemma StoreShared(s: State, t: Tid, v: DeliverStep)
    requires DeliverEnabled(s, t, v) && v.Store?
    requires PastInv(s) && SendOk(s, s.threads[t].pc)
    ensures var s' := DeliverNext(s, t, v); DeliverShared(s, s', s.threads[t].pc, s'.threads[t].pc)
  {
    var s' := DeliverNext(s, t, v);
    var send := s.threads[t].pc.send;
    StoreKeeps(s, send, v.now);
    if s'.past != s.past {
      EndKeeps(s, s.(rows := s'.rows), send.Key(), s'.past);
    }
    SharedKeeps(s, s.(rows := s'.rows, past := s'.past), s', Some(send.Key()));
  }

  lemma WroteShared(s: State, t: Tid, v: DeliverStep)
    requires DeliverEnabled(s, t, v) && v == Write(true) && ThreadOk(s.threads[t])
    requires PastInv(s) && SendOk(s, s.threads[t].pc)
    ensures var s' := DeliverNext(s, t, v); DeliverShared(s, s', s.threads[t].pc, s'.threads[t].pc)
  {
    var s' := DeliverNext(s, t, v);
    var pc := s.threads[t].pc;
    var id := pc.send.Key();
    var s1 := s.(past := s.past.Wrote(pc.c, id));
    WroteKeeps(s, pc.c, id);
    if !pc.c.ack {
      EndKeeps(s, s1, id, s'.past);
    }
    SharedKeeps(s, s.(past := s'.past), s', Some(id));
  }

  lemma UnwrittenShared(s: State, t: Tid, v: DeliverStep)
    requires DeliverEnabled(s, t, v) && v == Write(false)
    requires PastInv(s) && SendOk(s, s.threads[t].pc)
    ensures var s' := DeliverNext(s, t, v); DeliverShared(s, s', s.threads[t].pc, s'.threads[t].pc)
  {
    var s' := DeliverNext(s, t, v);
    var pc := s.threads[t].pc;
    var id := pc.send.Key();
    FailKeeps(s, pc.c);
    if pc.c.ack {
      EndKeeps(s, s.(past := s.past.Fail(pc.c)), id, s'.past);
    }
    SharedKeeps(s, s.(past := s'.past), s', Some(id));
  }

  lemma MarkShared(s: State, t: Tid, v: DeliverStep)
    requires DeliverEnabled(s, t, v) && v.Mark?
    requires PastInv(s) && SendOk(s, s.threads[t].pc)
    ensures var s' := DeliverNext(s, t, v); DeliverShared(s, s', s.threads[t].pc, s'.threads[t].pc)
  {
    var s' := DeliverNext(s, t, v);
    var pc := s.threads[t].pc;
    var id := pc.send.Key();
    MarkKeeps(s, id, v.now);
    assert Once(s.past, id) ==> Kept(s.(rows := s'.rows), id);
    EndKeeps(s, s.(rows := s'.rows), id, s'.past);
    SharedKeeps(s, s.(rows := s'.rows, past := s'.past), s', Some(id));
  }

  lemma SharedMoves(s: State, s': State, t: Tid)
    requires IdInv(s) && OneMoves(s, s', t)
    requires DeliverShared(s, s', s.threads[t].pc, s'.threads[t].pc)
    ensures IdInv(s') && Extends(s, s')
  {
    MoveKeeps(s, s', t, Some(s.threads[t].pc.send.Key()));
  }

  lemma DeliverKeeps(s: State, t: Tid, v: DeliverStep)
    requires LockInv(s) && IdInv(s) && DeliverEnabled(s, t, v)
    ensures IdInv(DeliverNext(s, t, v)) && Extends(s, DeliverNext(s, t, v))
  {
    assert ThreadInv(s, s.threads[t].pc) && ThreadOk(s.threads[t]);
    match v {
      case Store(_) => StoreShared(s, t, v);
      case Write(ok) =>
        if ok {
          WroteShared(s, t, v);
        } else {
          UnwrittenShared(s, t, v);
        }
      case Mark(_) => MarkShared(s, t, v);
      case _ => LookupShared(s, t, v);
    }
    DeliverMoves(s, t, v);
    SharedMoves(s, DeliverNext(s, t, v), t);
  }

  lemma SubmitKeeps(s: State, send: Send)
    requires PastInv(s)
    ensures var s' := s.(past := s.past.Submit(send));
            && PastInv(s') && Extends(s, s') && TouchesOnly(s, s', None)
            && SendOk(s', Looking(send))
            && (send.Key() in s.past.sends ==> send.Key() in s'.past.reused)
  {
  }

  // A goroutine starts, or a cancel turns to relaying.
  lemma StartKeeps(s: State, s': State, t: Tid, th: Thread)
    requires IdInv(s) && s'.threads == s.threads[t := th]
    requires PastInv(s') && Extends(s, s') && TouchesOnly(s, s', None) && ThreadInv(s', th.pc)
    requires th.pc.IsSend() ==> th.pc.send.Key() !in s.past.sends || th.pc.send.Key() in s'.past.reused
    ensures IdInv(s')
  {
    forall u | u in s'.threads
      ensures ThreadInv(s', s'.threads[u].pc)
    {
      if u != t {
        OtherKept(s, s', s.threads[u].pc, None);
      }
    }
    forall u, w | u in s'.threads && w in s'.threads && u != w
      ensures NotBoth(s', s'.threads[u].pc, s'.threads[w].pc)
    {
      if u != t && w != t {
        assert NotBoth(s, s.threads[u].pc, s.threads[w].pc);
      } else {
        assert SendOk(s, s.threads[if u != t then u else w].pc);
      }
    }
  }

  // The table or the history changes, no goroutine moves; some may end.
  lemma OutsideKeeps(s: State, s': State)
    requires IdInv(s) && PastInv(s') && Extends(s, s') && TouchesOnly(s, s', None)
    requires forall t | t in s'.threads :: t in s.threads && s'.threads[t] == s.threads[t]
    ensures IdInv(s')
  {
    forall u | u in s'.threads
      ensures ThreadInv(s', s'.threads[u].pc)
    {
      OtherKept(s, s', s.threads[u].pc, None);
    }
    forall u, w | u in s'.threads && w in s'.threads && u != w
      ensures NotBoth(s', s'.threads[u].pc, s'.threads[w].pc)
    {
      assert NotBoth(s, s.threads[u].pc, s.threads[w].pc);
    }
  }

  lemma BeginKeeps(s: State, t: Tid, action: Action)
    requires IdInv(s) && t !in s.threads
    requires action.Withdraw? ==> StartsWith(action.key, action.who + ":")
    ensures IdInv(Begin(s, t, action)) && Extends(s, Begin(s, t, action))
  {
    match action
    case Forward(send) => ForwardKeeps(s, t, send);
    case Acknowledge(did, key) => SettingOutKeeps(s, t, Thread(did, Acking(key)));
    case Withdraw(who, to, key) => SettingOutKeeps(s, t, Thread("", Locating(who, to, key, key in s.past.ended)));
    case _ =>
  }

  lemma ForwardKeeps(s: State, t: Tid, send: Send)
    requires IdInv(s) && t !in s.threads
    ensures IdInv(Begin(s, t, Forward(send))) && Extends(s, Begin(s, t, Forward(send)))
  {
    var s' := Begin(s, t, Forward(send));
    SubmitKeeps(s, send);
    SharedKeeps(s, s.(past := s'.past), s', None);
    StartKeeps(s, s', t, s'.threads[t]);
  }

  lemma SettingOutKeeps(s: State, t: Tid, th: Thread)
    requires IdInv(s) && t !in s.threads && (th.pc.Acking? || th.pc.Locating?) && CancelOk(th.pc)
    ensures var s' := s.(threads := s.threads[t := th]); IdInv(s') && Extends(s, s')
  {
    var s' := s.(threads := s.threads[t := th]);
    StandsStill(s);
    SharedKeeps(s, s, s', None);
    NoPromise(s', th.pc);
    StartKeeps(s, s', t, th);
  }

  lemma StandsStill(s: State)
    ensures Extends(s, s) && TouchesOnly(s, s, None)
  {}

  lemma NoPromise(s: State, pc: Pc)
    requires (pc.Acking? || pc.Locating?) && CancelOk(pc)
    ensures ThreadInv(s, pc)
  {}

  lemma FrameKeeps(
    s: State, t: Tid, connDid: DID, hasAddr: bool, raw: seq<Byte>, env: Envelope, pairAllowed: bool, allowed: bool)
    requires IdInv(s) && t !in s.threads
    ensures var s' := Begin(s, t, Route(connDid, hasAddr, raw, env, pairAllowed, allowed)); IdInv(s') && Extends(s, s')
  {
    var action := Route(connDid, hasAddr, raw, env, pairAllowed, allowed);
    RouteBindsConnection(connDid, hasAddr, raw, env, pairAllowed, allowed);
    if action.Withdraw? {
      assert action.key[..|action.who| + 1] == action.who + ":";
    }
    BeginKeeps(s, t, action);
  }

  lemma LocateKeeps(s: State, t: Tid)
    requires IdInv(s) && t in s.threads && s.threads[t].pc.Locating?
    ensures IdInv(LocateNext(s, t)) && Extends(s, LocateNext(s, t))
  {
    var s' := LocateNext(s, t);
    assert ThreadInv(s, s.threads[t].pc);
    if t in s'.threads {
      SharedKeeps(s, s, s', None);
      StartKeeps(s, s', t, s'.threads[t]);
    } else {
      EndCancelKeeps(s, s', s'.past.cancels);
      OutsideKeeps(s, s');
    }
  }

  lemma EndCancelKeeps(s: State, s': State, cancels: set<CancelEnd>)
    requires PastInv(s) && s'.rows == s.rows && s'.past == s.past.(cancels := cancels)
    ensures PastInv(s') && Extends(s, s') && TouchesOnly(s, s', None)
  {
  }

  lemma AckKeeps(s: State, t: Tid)
    requires IdInv(s) && Holds(s, t) && s.threads[t].pc.Acking?
    ensures IdInv(AckNext(s, t)) && Extends(s, AckNext(s, t))
  {
    var s' := AckNext(s, t);
    var lock := s.threads[t].lock;
    DeleteKeeps(s, s'.rows, ByAck(lock));
    SharedKeeps(s, s.(rows := s'.rows, past := s'.past), s', None);
    MoveKeeps(s, s', t, None);
  }

  lemma SelectKeeps(s: State, t: Tid, k: CancelStep)
    requires IdInv(s) && CancelEnabled(s, t, k) && k.Select?
    ensures IdInv(CancelNext(s, t, k)) && Extends(s, CancelNext(s, t, k))
  {
    var s' := CancelNext(s, t, k);
    assert ThreadInv(s, s.threads[t].pc);
    SharedKeeps(s, s, s', None);
    MoveKeeps(s, s', t, None);
  }

  lemma RemoveShared(s: State, t: Tid, k: CancelStep)
    requires PastInv(s) && CancelEnabled(s, t, k) && k.Remove? && CancelOk(s.threads[t].pc)
    ensures var s' := CancelNext(s, t, k); PastInv(s') && Extends(s, s') && TouchesOnly(s, s', None)
  {
    var s' := CancelNext(s, t, k);
    var pc := s.threads[t].pc;
    DeleteKeeps(s, s'.rows, ByCancel(pc.who));
    var s1 := s.(rows := s'.rows, past := s.past.Deleted(s.rows, s'.rows, ByCancel(pc.who)));
    EndCancelKeeps(s1, s1.(past := s'.past), s'.past.cancels);
  }

  lemma RemoveKeeps(s: State, t: Tid, k: CancelStep)
    requires IdInv(s) && CancelEnabled(s, t, k) && k.Remove?
    ensures IdInv(CancelNext(s, t, k)) && Extends(s, CancelNext(s, t, k))
  {
    assert ThreadInv(s, s.threads[t].pc);
    RemoveShared(s, t, k);
    MoveKeeps(s, CancelNext(s, t, k), t, None);
  }

  lemma RelayKeeps(s: State, t: Tid, k: CancelStep)
    requires IdInv(s) && CancelEnabled(s, t, k) && k.Relay?
    ensures IdInv(CancelNext(s, t, k)) && Extends(s, CancelNext(s, t, k))
  {
    var s' := CancelNext(s, t, k);
    var send := s'.threads[t].pc.send;
    SubmitKeeps(s, send);
    var s1 := s.(past := s.past.Submit(send));
    EndCancelKeeps(s1, s', s'.past.cancels);
    StartKeeps(s, s', t, s'.threads[t]);
  }

  lemma SweepKeeps(s: State, now: int)
    requires IdInv(s)
    ensures IdInv(Next(s, Sweep(now))) && Extends(s, Next(s, Sweep(now)))
  {
    var s' := Next(s, Sweep(now));
    DeleteKeeps(s, s'.rows, ByExpiry(now));
    OutsideKeeps(s, s');
  }

  lemma RegisterKeeps(s: State, t: Tid, r: RegisterStep)
    requires TableInv(s) && IdInv(s) && RegisterEnabled(s, t, r)
    ensures IdInv(RegisterNext(s, t, r)) && Extends(s, RegisterNext(s, t, r))
  {
    match r
    case DropExpired => DropKeeps(s, t, r);
    case WriteNext(_) => WriteNextKeeps(s, t, r);
    case Settle(_) => SettleKeeps(s, t, r);
    case Replace => ReplaceKeeps(s, t, r);
    case Peek(_, _) => PeekKeeps(s, t, r);
  }

  lemma CancelKeeps(s: State, t: Tid, k: CancelStep)
    requires IdInv(s) && CancelEnabled(s, t, k)
    ensures IdInv(CancelNext(s, t, k)) && Extends(s, CancelNext(s, t, k))
  {
    match k
    case Select => SelectKeeps(s, t, k);
    case Remove => RemoveKeeps(s, t, k);
    case Relay(_, _, _) => RelayKeeps(s, t, k);
  }

  // Locks and connections are no part of IdInv.
  lemma PlainKeeps(s: State, s': State)
    requires IdInv(s) && s'.rows == s.rows && s'.past == s.past
    requires forall t | t in s'.threads :: t in s.threads && s'.threads[t] == s.threads[t]
    ensures IdInv(s') && Extends(s, s')
  {
    assert PastInv(s') && Extends(s, s') && TouchesOnly(s, s', None);
    OutsideKeeps(s, s');
  }

  // A restart leaves the table and ends every goroutine.
  lemma RestartKeeps(s: State)
    requires IdInv(s)
    ensures IdInv(Next(s, Restart)) && Extends(s, Next(s, Restart))
  {
    var s' := Next(s, Restart);
    forall id | id in s'.past.accepted
      ensures AcceptOk(s', id)
    {
      assert AcceptOk(s, id);
    }
  }

  lemma ConnectKeeps(s: State, t: Tid, c: Conn)
    requires IdInv(s) && t !in s.threads
    ensures var s' := s.(threads := s.threads[t := Thread(c.did, Connecting(c))]); IdInv(s') && Extends(s, s')
  {
    var s' := s.(threads := s.threads[t := Thread(c.did, Connecting(c))]);
    SharedKeeps(s, s, s', None);
    StartKeeps(s, s', t, s'.threads[t]);
  }

  lemma IdStep(s: State, l: Label)
    requires LockInv(s) && TableInv(s) && IdInv(s) && Enabled(s, l)
    ensures IdInv(Next(s, l)) && Extends(s, Next(s, l))
  {
    match l
    case Frame(t, connDid, hasAddr, raw, env, pairAllowed, allowed) =>
      FrameKeeps(s, t, connDid, hasAddr, raw, env, pairAllowed, allowed);
    case Post(t, sender, eid, to, raw) => BeginKeeps(s, t, Forward(Send(sender, eid, to, raw, None, None, None)));
    case Connect(t, c) => ConnectKeeps(s, t, c);
    case Locate(t) => LocateKeeps(s, t);
    case Register(t, r) => RegisterKeeps(s, t, r);
    case Deliver(t, v) => DeliverKeeps(s, t, v);
    case Ack(t) => AckKeeps(s, t);
    case Cancel(t, k) => CancelKeeps(s, t, k);
    case Sweep(now) => SweepKeeps(s, now);
    case Restart => RestartKeeps(s);
    case _ => PlainKeeps(s, Next(s, l));
  }

  ghost predicate Inv(s: State) {
    LockInv(s) && TableInv(s) && IdInv(s)
  }

  lemma InitInv()
    ensures Inv(INIT)
  {
  }

  lemma {:induction false} InvRun(run: seq<Label>)
    requires After(run).Some?
    ensures Inv(After(run).value)
  {
    if run == [] {
      InitInv();
    } else {
      var s := After(run[..|run| - 1]).value;
      InvRun(run[..|run| - 1]);
      LockStep(s, run[|run| - 1]);
      TableStep(s, run[|run| - 1]);
      IdStep(s, run[|run| - 1]);
    }
  }

  // Conservation, restarts included: a message submitted once and accepted is
  // buffered as it was sent, or was acked by its recipient, withdrawn by its sender,
  // dropped past its expiry, or written to a connection of its recipient that does
  // not ack.
  lemma Conservation(run: seq<Label>, id: Key)
    requires After(run).Some?
    requires id in After(run).value.past.accepted && id !in After(run).value.past.reused
    ensures var s := After(run).value;
            && id in s.past.sends
            && var send := s.past.sends[id];
               && send.Key() == id
               && (|| (exists r :: r in s.rows && r.msg.id == id && Matches(r, send))
                   || (exists rm :: rm in s.past.removed && rm.row.msg.id == id && Matches(rm.row, send) &&
                         match rm.why
                         case ByAck(did) => did == send.to
                         case ByCancel(who) =>
                           StartsWith(id, who + ":") && (TwoColons(who) && TwoColons(send.from) ==> who == send.from)
                         case ByExpiry(now) => Expired(rm.row.msg, now)
                         case ByWrite(c) => c.did == send.to && !c.ack && Delivery(c, id) in s.past.written)
                   || (exists d :: d in s.past.written && d.id == id && d.c.did == send.to && !d.c.ack))
  {
    InvRun(run);
    var s := After(run).value;
    assert AcceptOk(s, id) && Once(s.past, id);
    if Has(s.rows, id) {
      var r :| r in s.rows && r.msg.id == id;
      assert RowOk(s.past, r);
    } else if Gone(s.past, id) {
      var rm :| rm in s.past.removed && rm.row.msg.id == id;
      assert RemovalOk(s.past, rm);
      match rm.why
      case ByWrite(c) => assert WriteOk(s.past, Delivery(c, id));
      case ByCancel(who) =>
        if TwoColons(who) && TwoColons(rm.row.msg.sender) {
          PrefixesAgree(id, who, rm.row.msg.sender);
        }
      case _ =>
    } else {
      var d :| d in s.past.written && d.id == id && !d.c.ack;
      assert WriteOk(s.past, d);
    }
  }

  // Ownership: an ack removes only its own recipient's rows, and between senders
  // whose DIDs have two colons a cancel removes only its own sender's.
  lemma RemovalsAreOwned(run: seq<Label>, rm: Removal)
    requires After(run).Some? && rm in After(run).value.past.removed
    ensures rm.why.ByAck? ==> rm.row.recipient == rm.why.did
    ensures rm.why.ByCancel? && TwoColons(rm.why.who) && TwoColons(rm.row.msg.sender) ==>
              rm.why.who == rm.row.msg.sender
  {
    InvRun(run);
    assert RemovalOk(After(run).value.past, rm);
    if rm.why.ByCancel? && TwoColons(rm.why.who) && TwoColons(rm.row.msg.sender) {
      PrefixesAgree(rm.row.msg.id, rm.why.who, rm.row.msg.sender);
    }
  }

  lemma PrefixesAgree(id: Key, a: DID, b: DID)
    requires StartsWith(id, a + ":") && StartsWith(id, b + ":") && Colons(a) == Colons(b)
    ensures a == b
  {
    assert id == CompositeKey(a, id[|a| + 1..]) by {
      assert id == (a + ":") + id[|a| + 1..];
    }
    assert id == CompositeKey(b, id[|b| + 1..]) by {
      assert id == (b + ":") + id[|b| + 1..];
    }
    CompositeKeyInjective(a, id[|a| + 1..], b, id[|b| + 1..]);
  }

  // Every buffered row is keyed under the sender it names, is unique, was written
  // to an acking connection if marked delivered, and keeps its recipient within
  // both limits.
  lemma RowsAreKeyedAndBounded(run: seq<Label>, did: DID)
    requires After(run).Some?
    ensures var rows := After(run).value.rows;
            && UniqueIds(rows)
            && |RowsOf(rows, did)| <= 100
            && |Joined(MsgsFor(rows, did))| <= 10_485_760
            && forall r | r in rows ::
                 && StartsWith(r.msg.id, r.msg.sender + ":")
                 && (r.deliveredAt.Some? ==> WrittenTo(After(run).value.past, r.msg.id, true))
  {
    InvRun(run);
    CountIsRows(After(run).value.rows, did);
    BytesAreJoined(After(run).value.rows, did);
    forall r | r in After(run).value.rows
      ensures RowOk(After(run).value.past, r)
    {
    }
  }
}
