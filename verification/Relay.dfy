// The relay as a step machine: goroutines that each run Register, Deliver, Ack
// or Cancel, interleaved with Unregister, the background sweep and restarts.
// Every SQL statement, every section under `h.mu` and every socket write is one
// step; a write's outcome is arbitrary. Here a recipient lock is simply its
// holder; module LockTable has the lock table itself, and module Assembled
// shows that the relay built on it is a run of this machine.
module Relay {
  import opened Wrappers
  import opened Table
  import opened Envelope

  type Tid = nat

  // One authenticated connection; `ack` when the client declared the feature.
  datatype Conn = Conn(id: nat, did: DID, ack: bool)

  // Where a goroutine stands: the next step it takes.
  datatype Pc =
    // Register
    | Connecting(c: Conn)
    | Peeking(c: Conn)
    | Draining(c: Conn, todo: seq<Msg>, now: int)
    | Drained(c: Conn, todo: seq<Msg>, now: int) // todo[0] has been written
    // Deliver, and deliverLocked for a relayed cancel
    | Looking(send: Send)
    | Checking(send: Send, via: Option<Conn>)
    | Inserting(send: Send, via: Option<Conn>)
    | Rechecking(send: Send, via: Option<Conn>)
    | Writing(send: Send, c: Conn)
    | Marking(send: Send, c: Conn)
    // Ack
    | Acking(key: Key)
    // Cancel; `late` says the request's own delivery had ended when the cancel began
    | Locating(who: DID, to: DID, key: Key, late: bool) // holds no lock yet
    | Selecting(who: DID, key: Key, late: bool)
    | Removing(who: DID, key: Key, late: bool, delivered: bool, from: DID) // the row's state and recipient
    | Relaying(who: DID, key: Key, late: bool, took: Option<DID>)
    | Finished
  {
    predicate IsSend() {
      Looking? || Checking? || Inserting? || Rechecking? || Writing? || Marking?
    }

    predicate IsDrain() {
      Draining? || Drained?
    }

    // A delivery that has neither stored nor written its message.
    predicate IsUnsent() {
      Looking? || Checking? || Inserting? || Rechecking? || (Writing? && !c.ack)
    }

    // The message it has written and not yet marked or deleted.
    function Mid(): set<Key> {
      if Drained? && todo != [] then {todo[0].id} else if Marking? then {send.Key()} else {}
    }
  }

  // A goroutine and the recipient whose lock it waits for or holds.
  datatype Thread = Thread(lock: DID, pc: Pc)

  // What the history records.
  datatype Delivery = Delivery(c: Conn, id: Key)

  datatype Why = ByAck(did: DID) | ByCancel(who: DID) | ByExpiry(now: int) | ByWrite(c: Conn)

  datatype Removal = Removal(row: Row, why: Why)

  datatype Verdict = Silent | Relayed(newKey: Key) | NoAddress

  // `cut`: a restart had struck between a write of the request and its mark.
  datatype CancelEnd = CancelEnd(key: Key, late: bool, lock: DID, cut: bool, verdict: Verdict)

  // What has happened so far. No step reads it, except a cancel's `late`.
  datatype History = History(
    failed: set<nat>,          // connections with a failed write
    written: set<Delivery>,    // successful writes
    removed: set<Removal>,     // rows deleted, and why
    accepted: set<Key>,        // deliveries that returned no error
    ended: set<Key>,           // deliveries that are over: they returned, or a restart cut them off
    sends: map<Key, Send>,     // the first message submitted under each id
    reused: set<Key>,          // ids submitted more than once
    cancels: set<CancelEnd>,   // cancels that ended
    cut: set<Key>)             // messages written and not yet marked or deleted when a restart struck
  {
    ghost function Fail(c: Conn): History {
      this.(failed := failed + {c.id})
    }

    ghost function Wrote(c: Conn, id: Key): History {
      this.(written := written + {Delivery(c, id)})
    }

    // DELETE ... WHERE takes `rows` to `kept`.
    ghost function Deleted(rows: seq<Row>, kept: seq<Row>, why: Why): History {
      this.(removed := removed + set r | r in rows && r !in kept :: Removal(r, why))
    }

    ghost function Accept(id: Key): History {
      this.(accepted := accepted + {id}, ended := ended + {id})
    }

    ghost function End(id: Key): History {
      this.(ended := ended + {id})
    }

    ghost function Submit(send: Send): History {
      if send.Key() in sends then this.(reused := reused + {send.Key()})
      else this.(sends := sends[send.Key() := send])
    }

    ghost function EndCancel(key: Key, late: bool, lock: DID, verdict: Verdict): History {
      this.(cancels := cancels + {CancelEnd(key, late, lock, key in cut, verdict)})
    }

    // A restart ends every goroutine, and with it every delivery submitted so far.
    ghost function Restart(threads: map<Tid, Thread>): History {
      this.(ended := sends.Keys, cut := cut + Halfway(threads))
    }
  }

  // What the goroutines have written and not yet marked or deleted.
  ghost function Halfway(threads: map<Tid, Thread>): set<Key> {
    set t, id | t in threads && id in threads[t].pc.Mid() :: id
  }

  datatype State = State(
    rows: seq<Row>, conns: map<DID, Conn>, holder: map<DID, Tid>, threads: map<Tid, Thread>, past: History)

  ghost const INIT := State([], map[], map[], map[], History({}, {}, {}, {}, {}, map[], {}, {}, {}))

  // What a goroutine does next inside Register, deliverLocked and Cancel.
  datatype RegisterStep =
    Replace | Peek(msgs: seq<Msg>, now: int) | DropExpired | WriteNext(ok: bool) | Settle(now: int)

  datatype DeliverStep = Lookup | Check | Store(now: int) | Recheck | Write(ok: bool) | Mark(now: int)

  datatype CancelStep = Select | Remove | Relay(eid: string, payload: seq<Byte>, expires: int)

  datatype Label =
    // Goroutines start: a frame on a connection, a POST to /forward, a new connection.
    | Frame(t: Tid, connDid: DID, hasAddr: bool, raw: seq<Byte>, env: Envelope, pairAllowed: bool, allowed: bool)
    | Post(t: Tid, sender: DID, eid: string, to: DID, raw: seq<Byte>)
    | Connect(t: Tid, c: Conn)
    // A cancel reads the buffered row's recipient before it takes a lock.
    | Locate(t: Tid)
    | Acquire(t: Tid)
    | Register(t: Tid, r: RegisterStep)
    | Deliver(t: Tid, v: DeliverStep)
    | Ack(t: Tid)
    | Cancel(t: Tid, k: CancelStep)
    | Release(t: Tid)
    // Steps that take no recipient lock.
    | Unregister(c: Conn)
    | Sweep(now: int)
    | Restart

  ghost predicate Holds(s: State, t: Tid) {
    && t in s.threads
    && s.threads[t].lock in s.holder
    && s.holder[s.threads[t].lock] == t
    && !s.threads[t].pc.Locating?
  }

  ghost function Goto(threads: map<Tid, Thread>, t: Tid, pc: Pc): map<Tid, Thread>
    requires t in threads
  {
    threads[t := Thread(threads[t].lock, pc)]
  }

  ghost function Begin(s: State, t: Tid, action: Action): State {
    match action
    case Forward(send) =>
      s.(threads := s.threads[t := Thread(send.to, Looking(send))], past := s.past.Submit(send))
    case Acknowledge(did, key) => s.(threads := s.threads[t := Thread(did, Acking(key))])
    case Withdraw(who, to, key) =>
      s.(threads := s.threads[t := Thread("", Locating(who, to, key, key in s.past.ended))])
    case _ => s
  }

  ghost predicate RegisterEnabled(s: State, t: Tid, r: RegisterStep) {
    && Holds(s, t)
    && var pc := s.threads[t].pc;
       match r
       case Replace => pc.Connecting?
       case Peek(msgs, now) => pc.Peeking? && IsPeek(s.rows, pc.c.did, msgs)
       case DropExpired => pc.Draining? && pc.todo != [] && Expired(pc.todo[0], pc.now)
       case WriteNext(ok) => pc.Draining? && pc.todo != [] && !Expired(pc.todo[0], pc.now)
       case Settle(now) => pc.Drained? && pc.todo != []
  }

  ghost function RegisterNext(s: State, t: Tid, r: RegisterStep): State
    requires RegisterEnabled(s, t, r)
  {
    var pc := s.threads[t].pc;
    var c := pc.c;
    match r
    case Replace => s.(conns := s.conns[c.did := c], threads := Goto(s.threads, t, Peeking(c)))
    case Peek(msgs, now) => s.(threads := Goto(s.threads, t, Draining(c, msgs, now)))
    case DropExpired =>
      var kept := Without(s.rows, pc.todo[0].id);
      s.(rows := kept,
         threads := Goto(s.threads, t, Draining(c, pc.todo[1..], pc.now)),
         past := s.past.Deleted(s.rows, kept, ByExpiry(pc.now)))
    case WriteNext(ok) =>
      if ok then
        s.(threads := Goto(s.threads, t, Drained(c, pc.todo, pc.now)), past := s.past.Wrote(c, pc.todo[0].id))
      else s.(threads := Goto(s.threads, t, Finished), past := s.past.Fail(c))
    case Settle(now) =>
      var threads := Goto(s.threads, t, Draining(c, pc.todo[1..], pc.now));
      if c.ack then s.(rows := Marked(s.rows, pc.todo[0].id, now), threads := threads)
      else
        var kept := Without(s.rows, pc.todo[0].id);
        s.(rows := kept, threads := threads, past := s.past.Deleted(s.rows, kept, ByWrite(c)))
  }

  ghost predicate DeliverEnabled(s: State, t: Tid, v: DeliverStep) {
    && Holds(s, t)
    && var pc := s.threads[t].pc;
       match v
       case Lookup => pc.Looking?
       case Check => pc.Checking?
       case Store(now) => pc.Inserting?
       case Recheck => pc.Rechecking?
       case Write(ok) => pc.Writing?
       case Mark(now) => pc.Marking?
  }

  // Where deliverLocked goes when Buffer.Add returned nil: it writes to an
  // acking connection, and is done otherwise.
  ghost function AfterAdd(send: Send, via: Option<Conn>): Pc {
    if via.Some? && via.value.ack then Writing(send, via.value) else Finished
  }

  ghost function AddAccepts(past: History, send: Send, via: Option<Conn>): History {
    if via.Some? && via.value.ack then past else past.Accept(send.Key())
  }

  ghost function DeliverNext(s: State, t: Tid, v: DeliverStep): State
    requires DeliverEnabled(s, t, v)
  {
    var pc := s.threads[t].pc;
    var send := pc.send;
    match v
    case Lookup =>
      var pc' :=
        if send.to !in s.conns then Checking(send, None)
        else if s.conns[send.to].ack then Checking(send, Some(s.conns[send.to]))
        else Writing(send, s.conns[send.to]);
      s.(threads := Goto(s.threads, t, pc'))
    case Check =>
      if Has(s.rows, send.Key()) then
        s.(threads := Goto(s.threads, t, AfterAdd(send, pc.via)), past := AddAccepts(s.past, send, pc.via))
      else s.(threads := Goto(s.threads, t, Inserting(send, pc.via)))
    case Store(now) =>
      var rows := Insert(s.rows, send.RowAt(now));
      if rows != s.rows then
        s.(rows := rows,
           threads := Goto(s.threads, t, AfterAdd(send, pc.via)),
           past := AddAccepts(s.past, send, pc.via))
      else s.(threads := Goto(s.threads, t, Rechecking(send, pc.via)))
    case Recheck =>
      if Has(s.rows, send.Key()) then
        s.(threads := Goto(s.threads, t, AfterAdd(send, pc.via)), past := AddAccepts(s.past, send, pc.via))
      else s.(threads := Goto(s.threads, t, Finished), past := s.past.End(send.Key())) // ErrBufferFull
    case Write(ok) =>
      if ok then
        var past := s.past.Wrote(pc.c, send.Key());
        if pc.c.ack then s.(threads := Goto(s.threads, t, Marking(send, pc.c)), past := past)
        else s.(threads := Goto(s.threads, t, Finished), past := past.Accept(send.Key()))
      else
        var past := s.past.Fail(pc.c);
        if pc.c.ack then s.(threads := Goto(s.threads, t, Finished), past := past.Accept(send.Key()))
        else s.(threads := Goto(s.threads, t, Checking(send, Some(pc.c))), past := past)
    case Mark(now) =>
      s.(rows := Marked(s.rows, send.Key(), now),
         threads := Goto(s.threads, t, Finished),
         past := s.past.Accept(send.Key()))
  }

  ghost predicate CancelEnabled(s: State, t: Tid, k: CancelStep) {
    && Holds(s, t)
    && match k
       case Select => s.threads[t].pc.Selecting?
       case Remove => s.threads[t].pc.Removing?
       case Relay(eid, payload, expires) => s.threads[t].pc.Relaying?
  }

  ghost function CancelNext(s: State, t: Tid, k: CancelStep): State
    requires CancelEnabled(s, t, k)
  {
    var pc := s.threads[t].pc;
    var lock := s.threads[t].lock;
    match k
    case Select =>
      var pc' :=
        if Has(s.rows, pc.key) then
          var row := RowOf(s.rows, pc.key);
          Removing(pc.who, pc.key, pc.late, row.deliveredAt.Some?, row.recipient)
        else Relaying(pc.who, pc.key, pc.late, None);
      s.(threads := Goto(s.threads, t, pc'))
    case Remove =>
      var kept := Without(s.rows, pc.key);
      var past := s.past.Deleted(s.rows, kept, ByCancel(pc.who));
      if pc.delivered then
        s.(rows := kept, threads := Goto(s.threads, t, Relaying(pc.who, pc.key, pc.late, Some(pc.from))), past := past)
      else
        s.(rows := kept,
           threads := Goto(s.threads, t, Finished),
           past := past.EndCancel(pc.key, pc.late, lock, Silent))
    case Relay(eid, payload, expires) =>
      var send := Send(pc.who, eid, lock, payload, Some(expires), Some(pc.key), pc.took);
      s.(threads := Goto(s.threads, t, Looking(send)),
         past := s.past.Submit(send).EndCancel(pc.key, pc.late, lock, Relayed(send.Key())))
  }

  ghost function LocateNext(s: State, t: Tid): State
    requires t in s.threads && s.threads[t].pc.Locating?
  {
    var pc := s.threads[t].pc;
    var lock := if Has(s.rows, pc.key) then RowOf(s.rows, pc.key).recipient else pc.to;
    if lock == "" then
      s.(threads := s.threads - {t}, past := s.past.EndCancel(pc.key, pc.late, lock, NoAddress))
    else s.(threads := s.threads[t := Thread(lock, Selecting(pc.who, pc.key, pc.late))])
  }

  ghost function AckNext(s: State, t: Tid): State
    requires t in s.threads && s.threads[t].pc.Acking?
  {
    var lock := s.threads[t].lock;
    var kept := WithoutFor(s.rows, s.threads[t].pc.key, lock);
    s.(rows := kept, threads := Goto(s.threads, t, Finished), past := s.past.Deleted(s.rows, kept, ByAck(lock)))
  }

  ghost predicate Enabled(s: State, l: Label) {
    match l
    case Frame(t, connDid, hasAddr, raw, env, pairAllowed, allowed) => t !in s.threads
    case Post(t, sender, eid, to, raw) => t !in s.threads && sender != "" && StartsWith(to, "did:")
    case Connect(t, c) => t !in s.threads
    case Locate(t) => t in s.threads && s.threads[t].pc.Locating?
    case Acquire(t) => t in s.threads && !s.threads[t].pc.Locating? && s.threads[t].lock !in s.holder
    case Register(t, r) => RegisterEnabled(s, t, r)
    case Deliver(t, v) => DeliverEnabled(s, t, v)
    case Ack(t) => Holds(s, t) && s.threads[t].pc.Acking?
    case Cancel(t, k) => CancelEnabled(s, t, k)
    case Release(t) =>
      && Holds(s, t)
      && (s.threads[t].pc.Finished? || (s.threads[t].pc.Draining? && s.threads[t].pc.todo == []))
    case Unregister(c) => true
    case Sweep(now) => true
    case Restart => true
  }

  ghost function Next(s: State, l: Label): State
    requires Enabled(s, l)
  {
    match l
    case Frame(t, connDid, hasAddr, raw, env, pairAllowed, allowed) =>
      Begin(s, t, Route(connDid, hasAddr, raw, env, pairAllowed, allowed))
    case Post(t, sender, eid, to, raw) => Begin(s, t, Forward(Send(sender, eid, to, raw, None, None, None)))
    case Connect(t, c) => s.(threads := s.threads[t := Thread(c.did, Connecting(c))])
    case Locate(t) => LocateNext(s, t)
    case Acquire(t) => s.(holder := s.holder[s.threads[t].lock := t])
    case Register(t, r) => RegisterNext(s, t, r)
    case Deliver(t, v) => DeliverNext(s, t, v)
    case Ack(t) => AckNext(s, t)
    case Cancel(t, k) => CancelNext(s, t, k)
    case Release(t) => s.(holder := s.holder - {s.threads[t].lock}, threads := s.threads - {t})
    case Unregister(c) =>
      if c.did in s.conns && s.conns[c.did] == c then s.(conns := s.conns - {c.did}) else s
    case Sweep(now) =>
      var kept := Swept(s.rows, now);
      s.(rows := kept, past := s.past.Deleted(s.rows, kept, ByExpiry(now)))
    case Restart => s.(conns := map[], holder := map[], threads := map[], past := s.past.Restart(s.threads))
  }

  // The state a run from a fresh relay ends in; None when a step of it was not
  // enabled.
  ghost function After(run: seq<Label>): Option<State> {
    if run == [] then Some(INIT)
    else
      var last := run[|run| - 1];
      match After(run[..|run| - 1])
      case None => None
      case Some(s) => if Enabled(s, last) then Some(Next(s, last)) else None
  }
}
