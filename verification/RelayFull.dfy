// When a relayed cancel is refused although it has just taken a row out of a
// buffer: exactly when the row was another recipient's.
module RelayFull {
  import opened Wrappers
  import opened Table
  import opened Envelope
  import opened Relay
  import opened RelayPlace
  import opened RelayAlone
  import opened RelayRace
  import Hubs

  // `run` leaves goroutine `t` about to store, for `lock`, the relay of a cancel that
  // took a row of `d`; the message count refuses it.
  ghost predicate Refused(run: seq<Label>, t: Tid, d: DID, lock: DID) {
    && After(run).Some?
    && var s := After(run).value;
       && DeliverEnabled(s, t, Store(0))
       && var send := s.threads[t].pc.send;
          && send.relayOf.Some? && send.took == Some(d) && send.to == lock
          && !Has(s.rows, send.Key()) && Count(s.rows, lock) >= MAX_MESSAGES_PER_DID
  }

  // A frame's message, and its goroutine with the recipient's lock.
  lemma Starts(run: seq<Label>, s: State, t: Tid, send: Send) returns (run': seq<Label>, s': State)
    requires After(run) == Some(s) && t !in s.threads && send.to !in s.holder && IsRequest(send)
    ensures After(run') == Some(s') && s'.rows == s.rows && s'.conns == s.conns
    ensures s'.threads == s.threads[t := Thread(send.to, Looking(send))] && s'.holder == s.holder[send.to := t]
  {
    var env := Envelope("d2d", send.eid, send.from, send.to, "", send.expiresAt, "", "");
    var s1 := s.(threads := s.threads[t := Thread(send.to, Looking(send))], past := s.past.Submit(send));
    run' := Do(run, s, Frame(t, send.from, true, send.payload, env, true, true), s1);
    s' := s1.(holder := s.holder[send.to := t]);
    run' := Do(run', s1, Acquire(t), s');
  }

  // A message that arrives in a frame is delivered without interruption.
  lemma Serve(run: seq<Label>, s: State, t: Tid, send: Send, stamp: int) returns (run': seq<Label>, s': State)
    requires After(run) == Some(s) && t !in s.threads && send.to !in s.holder && IsRequest(send)
    ensures After(run') == Some(s')
    ensures s'.threads == s.threads && s'.holder == s.holder && s'.conns == s.conns
    ensures s'.rows == Hubs.DeliverTo(s.rows, LinkOf(s, send.to, true), send.RowAt(0), stamp).rows
  {
    var s1;
    run', s1 := Starts(run, s, t, send);
    var more, s2 := DeliverAlone(s1, t, 0, stamp, true);
    AfterLeads(run', s1, more, s2);
    run', s' := Ends(run' + more, s2, t, send.to, s);
  }

  // The goroutine is done; what is left of the state it began in.
  lemma Ends(run: seq<Label>, s: State, t: Tid, d: DID, began: State) returns (run': seq<Label>, s': State)
    requires After(run) == Some(s) && t !in began.threads && d !in began.holder
    requires s.threads == began.threads[t := Thread(d, Finished)] && s.holder == began.holder[d := t]
    ensures After(run') == Some(s') && s'.rows == s.rows && s'.conns == s.conns
    ensures s'.threads == began.threads && s'.holder == began.holder
  {
    s' := s.(holder := began.holder, threads := began.threads);
    run' := Do(run, s, Release(t), s');
  }

  // ---- A full buffer ----

  ghost predicate IsIdle(s: State) {
    s.threads == map[] && s.holder == map[] && s.conns == map[]
  }

  // Nothing but `n` empty messages for `lock`, all of sender "f".
  ghost predicate IsFilled(s: State, lock: DID, n: nat) {
    && IsIdle(s)
    && (forall r | r in s.rows :: r.recipient == lock && "f:" <= r.msg.id && |r.msg.id| <= n + 2)
    && Count(s.rows, lock) == n && Bytes(s.rows, lock) == 0
  }

  ghost function Filler(lock: DID, n: nat): Send {
    Send("f", seq(n, i => 'x'), lock, [], None, None, None)
  }

  lemma FillOne(s: State, lock: DID, n: nat, s': State)
    requires IsFilled(s, lock, n) && n < MAX_MESSAGES_PER_DID && IsIdle(s')
    requires s'.rows == Insert(s.rows, Filler(lock, n + 1).RowAt(0))
    ensures IsFilled(s', lock, n + 1)
  {
    var row := Filler(lock, n + 1).RowAt(0);
    assert row.msg.id[..2] == "f:" && |row.msg.id| == n + 3;
    CountOfAppend(s.rows, row, lock);
  }

  lemma {:induction false} Fill(lock: DID, n: nat) returns (run: seq<Label>, s: State)
    requires lock != "" && n <= MAX_MESSAGES_PER_DID
    ensures After(run) == Some(s) && IsFilled(s, lock, n)
  {
    if n == 0 {
      run, s := [], INIT;
    } else {
      var before;
      run, before := Fill(lock, n - 1);
      run, s := Serve(run, before, 0, Filler(lock, n), 0);
      FillOne(before, lock, n - 1, s);
    }
  }

  // ---- A row of another recipient, written and marked ----

  ghost const KEY := CompositeKey("s", "1")

  // The request that the cancel withdraws.
  ghost function Withdrawn(d: DID): Send {
    Send("s", "1", d, [], None, None, None)
  }

  lemma {:induction false} NoneOf(rows: seq<Row>, d: DID)
    requires forall r | r in rows :: r.recipient != d
    ensures Count(rows, d) == 0 && Bytes(rows, d) == 0 && MsgsFor(rows, d) == []
  {
    if rows == [] {
    } else {
      NoneOf(rows[..|rows| - 1], d);
      assert rows[|rows| - 1] in rows;
    }
  }

  // `d` connects ...
  lemma Connects(run: seq<Label>, s: State, d: DID) returns (run': seq<Label>, s': State)
    requires After(run) == Some(s) && IsIdle(s)
    ensures After(run') == Some(s') && s'.rows == s.rows && s'.holder == map[d := 0]
    ensures s'.conns == map[d := Conn(0, d, true)] && s'.threads == map[0 := Thread(d, Peeking(Conn(0, d, true)))]
  {
    var c := Conn(0, d, true);
    var s1 := s.(threads := map[0 := Thread(d, Connecting(c))]);
    run' := Do(run, s, Connect(0, c), s1);
    var s2 := s1.(holder := map[d := 0]);
    run' := Do(run', s1, Acquire(0), s2);
    s' := s2.(conns := map[d := c], threads := map[0 := Thread(d, Peeking(c))]);
    run' := Do(run', s2, Register(0, Replace), s');
  }

  // ... and finds an empty buffer.
  lemma Joins(run: seq<Label>, s: State, d: DID) returns (run': seq<Label>, s': State)
    requires After(run) == Some(s) && IsIdle(s) && forall r | r in s.rows :: r.recipient != d
    ensures After(run') == Some(s')
    ensures s'.rows == s.rows && s'.threads == map[] && s'.holder == map[] && s'.conns == map[d := Conn(0, d, true)]
  {
    var s1;
    run', s1 := Connects(run, s, d);
    NoneOf(s.rows, d);
    var s2 := s1.(threads := map[0 := Thread(d, Draining(Conn(0, d, true), [], 0))]);
    run' := Do(run', s1, Register(0, Peek([], 0)), s2);
    s' := s2.(threads := map[], holder := map[]);
    run' := Do(run', s2, Release(0), s');
  }

  // The cancel of a request not yet stored goes by the recipient it names.
  lemma CancelWaits(run: seq<Label>, s: State, lock: DID) returns (run': seq<Label>, s': State)
    requires After(run) == Some(s) && s.threads == map[] && !Has(s.rows, KEY) && lock != ""
    ensures After(run') == Some(s')
    ensures s'.rows == s.rows && s'.holder == s.holder && s'.conns == s.conns
    ensures 2 in s'.threads && s'.threads.Keys == {2} && s'.threads[2].lock == lock
    ensures s'.threads[2].pc.Selecting? && s'.threads[2].pc.who == "s" && s'.threads[2].pc.key == KEY
  {
    var env := Envelope("cancel", "", "s", lock, "", None, "", "1");
    assert Route("s", true, [], env, true, true) == Withdraw("s", lock, KEY);
    var late := KEY in s.past.ended;
    var s1 := s.(threads := map[2 := Thread("", Locating("s", lock, KEY, late))]);
    run' := Do(run, s, Frame(2, "s", true, [], env, true, true), s1);
    s' := s.(threads := map[2 := Thread(lock, Selecting("s", KEY, late))]);
    run' := Do(run', s1, Locate(2), s');
  }

  lemma {:induction false} FilterLeaves(rows: seq<Row>, keep: Row -> bool, did: DID)
    requires forall r | r in rows && !keep(r) :: r.recipient != did
    ensures Count(Filter(rows, keep), did) == Count(rows, did)
  {
    if rows == [] {
    } else {
      var front, last := rows[..|rows| - 1], rows[|rows| - 1];
      FilterLeaves(front, keep, did);
      CountOfAppend(Filter(front, keep), last, did);
      assert last in rows;
    }
  }

  // The table once the request is stored, written and marked.
  ghost predicate IsMarked(rows: seq<Row>, d: DID, lock: DID) {
    && Has(rows, KEY)
    && (forall r | r in rows && r.msg.id == KEY :: r.recipient == d && r.deliveredAt.Some?)
    && (forall r | r in rows && r.msg.id != KEY :: "f:" <= r.msg.id)
    && Count(rows, lock) == MAX_MESSAGES_PER_DID
  }

  lemma DeliveredIsMarked(s: State, d: DID, lock: DID)
    requires (forall r | r in s.rows :: r.recipient == lock && "f:" <= r.msg.id) && d != lock
    requires Count(s.rows, lock) == MAX_MESSAGES_PER_DID && Count(s.rows, d) == 0 && Bytes(s.rows, d) == 0
    ensures IsMarked(Hubs.DeliverTo(s.rows, Hubs.Online(true, true), Withdrawn(d).RowAt(0), 0).rows, d, lock)
  {
    var row := Withdrawn(d).RowAt(0);
    assert KEY[0] == 's';
    assert !Has(s.rows, KEY);
    var stored := s.rows + [row];
    CountOfAppend(s.rows, row, lock);
    MarkedCounts(stored, KEY, 0, lock);
    MarkedRows(stored, KEY, 0);
    assert MarkRow(row, KEY, 0) in Marked(stored, KEY, 0) by {
      assert row in stored;
    }
  }

  // The cancel, under the wrong lock, takes the row and turns to relaying.
  lemma CancelTakes(run: seq<Label>, s: State, d: DID, lock: DID) returns (run': seq<Label>, s': State)
    requires After(run) == Some(s) && IsMarked(s.rows, d, lock) && lock !in s.holder
    requires s.threads.Keys == {2} && s.threads[2].lock == lock
    requires s.threads[2].pc.Selecting? && s.threads[2].pc.who == "s" && s.threads[2].pc.key == KEY
    ensures After(run') == Some(s') && Holds(s', 2) && s'.threads[2].lock == lock && s'.conns == s.conns
    ensures s'.threads[2].pc.Relaying? && s'.threads[2].pc.who == "s" && s'.threads[2].pc.took == Some(d)
    ensures s'.rows == Without(s.rows, KEY)
  {
    var late := s.threads[2].pc.late;
    var s1 := s.(holder := s.holder[lock := 2]);
    run' := Do(run, s, Acquire(2), s1);
    var s2 := s1.(threads := s.threads[2 := Thread(lock, Removing("s", KEY, late, true, d))]);
    run' := Do(run', s1, Cancel(2, Select), s2);
    s' := Next(s2, Cancel(2, Remove));
    run' := Do(run', s2, Cancel(2, Remove), s');
  }

  lemma RelayIsRefused(run: seq<Label>, s: State, d: DID, lock: DID) returns (run': seq<Label>)
    requires After(run) == Some(s) && Holds(s, 2) && s.threads[2].lock == lock && lock !in s.conns
    requires s.threads[2].pc.Relaying? && s.threads[2].pc.who == "s" && s.threads[2].pc.took == Some(d)
    requires (forall r | r in s.rows :: "f:" <= r.msg.id) && Count(s.rows, lock) == MAX_MESSAGES_PER_DID
    ensures Refused(run', 2, d, lock)
  {
    var s1 := Next(s, Cancel(2, CancelStep.Relay("2", [], 0)));
    run' := Do(run, s, Cancel(2, CancelStep.Relay("2", [], 0)), s1);
    var send := s1.threads[2].pc.send;
    var s2 := s1.(threads := s1.threads[2 := Thread(lock, Checking(send, None))]);
    run' := Do(run', s1, Deliver(2, Lookup), s2);
    assert send.Key()[0] == 's';
    var s3 := s2.(threads := s2.threads[2 := Thread(lock, Inserting(send, None))]);
    run' := Do(run', s2, Deliver(2, Check), s3);
  }

  // A cancel that began before its request was stored and named another recipient
  // takes the written row out of one buffer and relays into the other, full one.
  lemma MisaimedRelayRefused(d: DID, lock: DID) returns (run: seq<Label>)
    requires d != "" && lock != "" && d != lock
    ensures Refused(run, 2, d, lock)
  {
    var s, s';
    run, s := Fill(lock, MAX_MESSAGES_PER_DID);
    run, s := Joins(run, s, d);
    assert KEY[0] == 's';
    run, s' := CancelWaits(run, s, lock);
    NoneOf(s.rows, d);
    DeliveredIsMarked(s', d, lock);
    run, s := Serve(run, s', 1, Withdrawn(d), 0);
    run, s' := CancelTakes(run, s, d, lock);
    FilterLeaves(s.rows, (r: Row) => r.msg.id != KEY, lock);
    run := RelayIsRefused(run, s', d, lock);
  }

  // A cancel that has taken a row can be refused for the message count if and only
  // if it relays to another recipient than the row's.
  lemma RelayRefusedExactly(d: DID, lock: DID)
    requires d != "" && lock != ""
    ensures (exists run, t :: Refused(run, t, d, lock)) <==> d != lock
  {
    if d != lock {
      var run := MisaimedRelayRefused(d, lock);
    }
    forall run, t | Refused(run, t, d, lock) ensures d != lock {
      if d == lock {
        RelayFindsPlace(run, t, 0);
      }
    }
  }
}
