// Whole goroutines of the step machine, from the frame or the connection that
// starts them to the release of their lock, with nothing in between: they leave
// the table that the hub's methods leave.
module RelayWhole {
  import opened Wrappers
  import opened Table
  import opened Envelope
  import opened Relay
  import opened RelayAlone
  import opened RelayRace
  import RelayFull
  import Drains
  import Hubs

  // A goroutine has come and gone.
  ghost predicate IsOver(s: State, s': State) {
    s'.threads == s.threads && s'.holder == s.holder
  }

  // A new connection: it is its DID's current one, and what was buffered for the DID
  // is drained to it.
  lemma ConnectAlone(run: seq<Label>, s: State, t: Tid, c: Conn, now: int, stamp: int, script: Drains.Script)
    returns (run': seq<Label>, s': State)
    requires After(run) == Some(s) && t !in s.threads && c.did !in s.holder
    ensures After(run') == Some(s') && IsOver(s, s') && s'.conns == s.conns[c.did := c]
    ensures s'.rows == Drains.Drain(s.rows, Peeked(s.rows, c.did), c.ack, now, stamp, script, 0).rows
  {
    var s1;
    run', s1 := Joins(run, s, t, c, now);
    var s2;
    run', s2 := DrainsOn(run', s1, t, stamp, script);
    run', s' := Releases(run', s2, t, c.did, s);
  }

  lemma DrainsOn(run: seq<Label>, s: State, t: Tid, stamp: int, script: Drains.Script)
    returns (run': seq<Label>, s': State)
    requires After(run) == Some(s) && Holds(s, t) && s.threads[t].pc.Draining?
    ensures After(run') == Some(s') && s'.conns == s.conns && s'.holder == s.holder
    ensures var pc := s.threads[t].pc;
            s'.rows == Drains.Drain(s.rows, pc.todo, pc.c.ack, pc.now, stamp, script, 0).rows
    ensures t in s'.threads && s'.threads == Goto(s.threads, t, s'.threads[t].pc)
    ensures var pc := s'.threads[t].pc; pc.Finished? || (pc.Draining? && pc.todo == [])
  {
    var more;
    more, s' := DrainAlone(s, t, stamp, script, 0);
    AfterLeads(run, s, more, s');
    run' := run + more;
  }

  // A drain that is over, or has failed, lets its lock go.
  lemma Releases(run: seq<Label>, s: State, t: Tid, d: DID, began: State) returns (run': seq<Label>, s': State)
    requires After(run) == Some(s) && t !in began.threads && d !in began.holder && t in s.threads
    requires s.threads == began.threads[t := Thread(d, s.threads[t].pc)] && s.holder == began.holder[d := t]
    requires var pc := s.threads[t].pc; pc.Finished? || (pc.Draining? && pc.todo == [])
    ensures After(run') == Some(s') && IsOver(began, s') && s'.rows == s.rows && s'.conns == s.conns
  {
    s' := s.(holder := began.holder, threads := began.threads);
    run' := Do(run, s, Release(t), s');
  }

  lemma Joins(run: seq<Label>, s: State, t: Tid, c: Conn, now: int) returns (run': seq<Label>, s': State)
    requires After(run) == Some(s) && t !in s.threads && c.did !in s.holder
    ensures After(run') == Some(s') && s'.rows == s.rows && s'.conns == s.conns[c.did := c]
    ensures s'.threads == s.threads[t := Thread(c.did, Draining(c, Peeked(s.rows, c.did), now))]
    ensures s'.holder == s.holder[c.did := t]
  {
    var s1 := s.(threads := s.threads[t := Thread(c.did, Connecting(c))]);
    run' := Do(run, s, Connect(t, c), s1);
    var s2 := s1.(holder := s.holder[c.did := t]);
    run' := Do(run', s1, Acquire(t), s2);
    run', s' := Peeks(run', s2, t, c, now, s.threads);
  }

  lemma Peeks(run: seq<Label>, s: State, t: Tid, c: Conn, now: int, threads: map<Tid, Thread>)
    returns (run': seq<Label>, s': State)
    requires After(run) == Some(s) && Holds(s, t) && s.threads == threads[t := Thread(c.did, Connecting(c))]
    ensures After(run') == Some(s') && s'.rows == s.rows && s'.conns == s.conns[c.did := c]
    ensures s'.threads == threads[t := Thread(c.did, Draining(c, Peeked(s.rows, c.did), now))]
    ensures s'.holder == s.holder
  {
    var s1 := s.(conns := s.conns[c.did := c], threads := threads[t := Thread(c.did, Peeking(c))]);
    run' := Do(run, s, Register(t, Replace), s1);
    PeekedIsPeek(s.rows, c.did);
    var msgs := Peeked(s.rows, c.did);
    s' := s1.(threads := threads[t := Thread(c.did, Draining(c, msgs, now))]);
    run' := Do(run', s1, Register(t, Peek(msgs, now)), s');
  }

  // A message in a frame, of either kind: it goes as it came to the recipient that
  // the frame names.
  lemma MessageFrameAlone(
    run: seq<Label>, s: State, t: Tid, connDid: DID, hasAddr: bool, raw: seq<Byte>, env: Envelope,
    pairAllowed: bool, allowed: bool, now: int, stamp: int, ok: bool)
    returns (run': seq<Label>, s': State)
    requires After(run) == Some(s) && t !in s.threads && env.toDid !in s.holder
    requires Route(connDid, hasAddr, raw, env, pairAllowed, allowed).Forward?
    ensures After(run') == Some(s') && IsOver(s, s') && s'.conns == s.conns
    ensures var row := Row(Msg(connDid + ":" + env.id, raw, now, connDid, env.expiresAt), env.toDid, None);
            s'.rows == Hubs.DeliverTo(s.rows, LinkOf(s, env.toDid, ok), row, stamp).rows
  {
    RouteBindsConnection(connDid, hasAddr, raw, env, pairAllowed, allowed);
    var send := Send(connDid, env.id, env.toDid, raw, env.expiresAt, None, None);
    var s1 := s.(threads := s.threads[t := Thread(send.to, Looking(send))], past := s.past.Submit(send));
    run' := Do(run, s, Frame(t, connDid, hasAddr, raw, env, pairAllowed, allowed), s1);
    var s2 := s1.(holder := s.holder[send.to := t]);
    run' := Do(run', s1, Acquire(t), s2);
    run', s' := Delivers(run', s2, s, t, send, now, stamp, ok);
  }

  // A message posted to /forward, under an id of the server's and with no expiry of
  // its own.
  lemma PostAlone(
    run: seq<Label>, s: State, t: Tid, sender: DID, eid: string, to: DID, raw: seq<Byte>,
    now: int, stamp: int, ok: bool)
    returns (run': seq<Label>, s': State)
    requires After(run) == Some(s) && t !in s.threads && to !in s.holder
    requires sender != "" && "did:" <= to
    ensures After(run') == Some(s') && IsOver(s, s') && s'.conns == s.conns
    ensures var row := Row(Msg(sender + ":" + eid, raw, now, sender, None), to, None);
            s'.rows == Hubs.DeliverTo(s.rows, LinkOf(s, to, ok), row, stamp).rows
  {
    var send := Send(sender, eid, to, raw, None, None, None);
    var s1 := s.(threads := s.threads[t := Thread(to, Looking(send))], past := s.past.Submit(send));
    run' := Do(run, s, Post(t, sender, eid, to, raw), s1);
    var s2 := s1.(holder := s.holder[to := t]);
    run' := Do(run', s1, Acquire(t), s2);
    run', s' := Delivers(run', s2, s, t, send, now, stamp, ok);
  }

  lemma Delivers(run: seq<Label>, s: State, began: State, t: Tid, send: Send, now: int, stamp: int, ok: bool)
    returns (run': seq<Label>, s': State)
    requires After(run) == Some(s) && t !in began.threads && send.to !in began.holder
    requires s.threads == began.threads[t := Thread(send.to, Looking(send))]
    requires s.holder == began.holder[send.to := t]
    ensures After(run') == Some(s') && IsOver(began, s') && s'.conns == s.conns
    ensures s'.rows == Hubs.DeliverTo(s.rows, LinkOf(s, send.to, ok), send.RowAt(now), stamp).rows
  {
    var more, s1 := DeliverAlone(s, t, now, stamp, ok);
    AfterLeads(run, s, more, s1);
    assert s1.threads == began.threads[t := Thread(send.to, Finished)];
    run', s' := RelayFull.Ends(run + more, s1, t, send.to, began);
  }

  // An ack frame: the connection's own row of that id goes.
  lemma AckFrameAlone(run: seq<Label>, s: State, t: Tid, connDid: DID, env: Envelope, raw: seq<Byte>)
    returns (run': seq<Label>, s': State)
    requires After(run) == Some(s) && t !in s.threads && connDid !in s.holder
    requires env.kind == "ack" && env.id != "" && env.fromDid != ""
    ensures After(run') == Some(s') && IsOver(s, s') && s'.conns == s.conns
    ensures forall r :: r in s'.rows <==>
                          r in s.rows && !(r.msg.id == env.fromDid + ":" + env.id && r.recipient == connDid)
  {
    var key := CompositeKey(env.fromDid, env.id);
    var s1 := s.(threads := s.threads[t := Thread(connDid, Acking(key))]);
    run' := Do(run, s, Frame(t, connDid, true, raw, env, true, true), s1);
    var s2 := s1.(holder := s.holder[connDid := t]);
    run' := Do(run', s1, Acquire(t), s2);
    var s3 := Next(s2, Ack(t));
    run' := Do(run', s2, Ack(t), s3);
    run', s' := RelayFull.Ends(run', s3, t, connDid, s);
  }

  // ---- A cancel frame ----

  // Where a cancel goes, and whether that is all it does.
  ghost function Target(rows: seq<Row>, key: Key, to: DID): DID {
    if Has(rows, key) then RowOf(rows, key).recipient else to
  }

  ghost predicate IsQuiet(rows: seq<Row>, key: Key, to: DID) {
    Target(rows, key, to) == "" || (Has(rows, key) && RowOf(rows, key).deliveredAt.None?)
  }

  // The cancel as it is sent on.
  datatype Relayed = Relayed(eid: string, payload: seq<Byte>, expires: int)

  // The row that the relay becomes when it is buffered.
  ghost function RelayRow(who: DID, to: DID, relay: Relayed, now: int): Row {
    Row(Msg(CompositeKey(who, relay.eid), relay.payload, now, who, Some(relay.expires)), to, None)
  }

  // With no recipient to be found nothing happens; a row never delivered goes, and
  // that is all; otherwise the row goes if there is one, and the cancel is delivered
  // to whoever holds the message.
  lemma CancelFrameAlone(
    run: seq<Label>, s: State, t: Tid, connDid: DID, env: Envelope, relay: Relayed, now: int, stamp: int, ok: bool)
    returns (run': seq<Label>, s': State)
    requires After(run) == Some(s) && t !in s.threads
    requires env.kind == "cancel" && env.cancelOf != "" && env.fromDid == connDid && connDid != ""
    requires Target(s.rows, connDid + ":" + env.cancelOf, env.toDid) !in s.holder
    ensures After(run') == Some(s') && IsOver(s, s') && s'.conns == s.conns
    ensures var key := connDid + ":" + env.cancelOf;
            var to := Target(s.rows, key, env.toDid);
            s'.rows == if to == "" then s.rows
                       else if IsQuiet(s.rows, key, env.toDid) then Without(s.rows, key)
                       else Hubs.DeliverTo(Without(s.rows, key), LinkOf(s, to, ok),
                                           RelayRow(connDid, to, relay, now), stamp).rows
  {
    var key := CompositeKey(connDid, env.cancelOf);
    var to := Target(s.rows, key, env.toDid);
    var s1;
    run', s1 := CancelLocates(run, s, t, connDid, env);
    if to == "" {
      s' := s1;
    } else {
      run', s' := CancelUnderLock(
        run', s1, s, t, connDid, key, key in s.past.ended, to, relay, now, stamp, ok);
    }
  }

  lemma CancelLocates(run: seq<Label>, s: State, t: Tid, connDid: DID, env: Envelope)
    returns (run': seq<Label>, s': State)
    requires After(run) == Some(s) && t !in s.threads
    requires env.kind == "cancel" && env.cancelOf != "" && env.fromDid == connDid && connDid != ""
    ensures After(run') == Some(s') && s'.rows == s.rows && s'.conns == s.conns && s'.holder == s.holder
    ensures var key := CompositeKey(connDid, env.cancelOf);
            var to := Target(s.rows, key, env.toDid);
            s'.threads == if to == "" then s.threads
                          else s.threads[t := Thread(to, Selecting(connDid, key, key in s.past.ended))]
  {
    var key := CompositeKey(connDid, env.cancelOf);
    var s1 := s.(threads := s.threads[t := Thread("", Locating(connDid, env.toDid, key, key in s.past.ended))]);
    run' := Do(run, s, Frame(t, connDid, true, [], env, true, true), s1);
    s' := Next(s1, Locate(t));
    run' := Do(run', s1, Locate(t), s');
    assert s1.threads - {t} == s.threads;
  }

  lemma CancelUnderLock(
    run: seq<Label>, s: State, began: State, t: Tid, who: DID, key: Key, late: bool, to: DID,
    relay: Relayed, now: int, stamp: int, ok: bool)
    returns (run': seq<Label>, s': State)
    requires After(run) == Some(s) && t !in began.threads && to !in s.holder
    requires s.threads == began.threads[t := Thread(to, Selecting(who, key, late))] && s.holder == began.holder
    requires Has(s.rows, key) ==> to == RowOf(s.rows, key).recipient
    ensures After(run') == Some(s') && IsOver(began, s') && s'.conns == s.conns
    ensures s'.rows == if Has(s.rows, key) && RowOf(s.rows, key).deliveredAt.None? then Without(s.rows, key)
                       else Hubs.DeliverTo(Without(s.rows, key), LinkOf(s, to, ok),
                                           RelayRow(who, to, relay, now), stamp).rows
  {
    var s1 := s.(holder := s.holder[to := t]);
    run' := Do(run, s, Acquire(t), s1);
    var s2;
    run', s2 := CancelRemoves(run', s1, began, t, who, key, late, to);
    if s2.threads[t].pc.Relaying? {
      run', s' := CancelRelays(run', s2, began, t, who, to, relay, now, stamp, ok);
    } else {
      run', s' := RelayFull.Ends(run', s2, t, to, began);
    }
  }

  // What is left to do once the row, if there is one, is out of the buffer.
  lemma CancelRemoves(
    run: seq<Label>, s: State, began: State, t: Tid, who: DID, key: Key, late: bool, to: DID)
    returns (run': seq<Label>, s': State)
    requires After(run) == Some(s) && Holds(s, t)
    requires s.threads == began.threads[t := Thread(to, Selecting(who, key, late))]
    ensures After(run') == Some(s') && s'.conns == s.conns && s'.holder == s.holder
    ensures s'.rows == Without(s.rows, key) && t in s'.threads
    ensures if Has(s.rows, key) && RowOf(s.rows, key).deliveredAt.None?
            then s'.threads == began.threads[t := Thread(to, Finished)]
            else exists took ::
                   s'.threads == began.threads[t := Thread(to, Relaying(who, key, late, took))]
  {
    if Has(s.rows, key) {
      var pc;
      run', s', pc := RowRemoves(run, s, began, t, who, key, late, to);
      assert s'.threads == began.threads[t := Thread(to, pc)];
    } else {
      WithoutNothing(s.rows, key);
      s' := s.(threads := began.threads[t := Thread(to, Relaying(who, key, late, None))]);
      run' := Do(run, s, Cancel(t, Select), s');
    }
  }

  lemma RowRemoves(run: seq<Label>, s: State, began: State, t: Tid, who: DID, key: Key, late: bool, to: DID)
    returns (run': seq<Label>, s': State, pc: Pc)
    requires After(run) == Some(s) && Holds(s, t) && Has(s.rows, key)
    requires s.threads == began.threads[t := Thread(to, Selecting(who, key, late))]
    ensures After(run') == Some(s') && s'.conns == s.conns && s'.holder == s.holder
    ensures s'.rows == Without(s.rows, key) && s'.threads == began.threads[t := Thread(to, pc)]
    ensures var row := RowOf(s.rows, key);
            pc == if row.deliveredAt.None? then Finished else Relaying(who, key, late, Some(row.recipient))
  {
    var row := RowOf(s.rows, key);
    var removing := Removing(who, key, late, row.deliveredAt.Some?, row.recipient);
    var s1 := s.(threads := began.threads[t := Thread(to, removing)]);
    run' := Do(run, s, Cancel(t, Select), s1);
    s' := Next(s1, Cancel(t, Remove));
    run' := Do(run', s1, Cancel(t, Remove), s');
    pc := if row.deliveredAt.None? then Finished else Relaying(who, key, late, Some(row.recipient));
  }

  lemma CancelRelays(
    run: seq<Label>, s: State, began: State, t: Tid, who: DID, to: DID,
    relay: Relayed, now: int, stamp: int, ok: bool)
    returns (run': seq<Label>, s': State)
    requires After(run) == Some(s) && t !in began.threads && to !in began.holder
    requires t in s.threads && s.threads[t].lock == to && s.threads[t].pc.Relaying? && s.threads[t].pc.who == who
    requires s.threads == began.threads[t := s.threads[t]] && s.holder == began.holder[to := t]
    ensures After(run') == Some(s') && IsOver(began, s') && s'.conns == s.conns
    ensures s'.rows == Hubs.DeliverTo(s.rows, LinkOf(s, to, ok), RelayRow(who, to, relay, now), stamp).rows
  {
    var l := Cancel(t, CancelStep.Relay(relay.eid, relay.payload, relay.expires));
    var s1 := Next(s, l);
    run' := Do(run, s, l, s1);
    run', s' := Delivers(run', s1, began, t, s1.threads[t].pc.send, now, stamp, ok);
  }

  // ---- Steps outside any lock ----

  // A connection is unregistered only while it is its DID's current one.
  lemma UnregisterTakesCurrent(s: State, c: Conn)
    ensures var s' := Next(s, Unregister(c));
            && (forall d :: d in s'.conns <==> d in s.conns && !(d == c.did && s.conns[d] == c))
            && (forall d | d in s'.conns :: s'.conns[d] == s.conns[d])
            && s'.rows == s.rows && s'.holder == s.holder && s'.threads == s.threads
  {
  }

  // A restart keeps the table and nothing else.
  lemma RestartKeepsRows(s: State)
    ensures var s' := Next(s, Restart);
            s'.rows == s.rows && s'.conns == map[] && s'.holder == map[] && s'.threads == map[]
  {
  }

  // A sweep takes exactly what is over a day old or past its own expiry, and
  // nothing else of the relay changes.
  lemma SweepTakesExpired(s: State, now: int)
    ensures var s' := Next(s, Sweep(now));
            && (forall r :: r in s'.rows <==>
                  && r in s.rows
                  && now - r.msg.storedAt <= 86_400
                  && (r.msg.expiresAt.Some? ==> r.msg.expiresAt.value >= now))
            && s'.conns == s.conns && s'.holder == s.holder && s'.threads == s.threads
  {
    forall r: Row {
      ExpiryTestsAgree(r.msg, now);
    }
  }
}
