// The step machine and the classes say the same: a drain or a delivery whose
// steps nothing interrupts leaves the table that Hub.Register and Hub.Deliver
// leave.
module RelayAlone {
  import opened Wrappers
  import opened Table
  import opened Envelope
  import opened Relay
  import opened RelaySettled
  import Drains
  import Hubs

  // Steps of goroutine `t` in a drain or a delivery.
  ghost predicate AreOwn(run: seq<Label>, t: Tid) {
    forall l | l in run :: (l.Register? || l.Deliver?) && l.t == t
  }

  // The steps `run` lead from `s` to `s'`.
  ghost predicate Leads(s: State, run: seq<Label>, s': State)
    decreases |run|
  {
    if run == [] then s' == s
    else Enabled(s, run[0]) && Leads(Next(s, run[0]), run[1..], s')
  }

  lemma LeadsFirst(s: State, l: Label, run: seq<Label>, s': State)
    requires Enabled(s, l) && Leads(Next(s, l), run, s')
    ensures Leads(s, [l] + run, s')
  {
    assert ([l] + run)[1..] == run;
  }

  lemma {:induction false} LeadsOn(s: State, run: seq<Label>, s1: State, run': seq<Label>, s2: State)
    requires Leads(s, run, s1) && Leads(s1, run', s2)
    ensures Leads(s, run + run', s2)
    decreases |run|
  {
    if run == [] {
      assert run + run' == run';
    } else {
      LeadsOn(Next(s, run[0]), run[1..], s1, run', s2);
      assert run + run' == [run[0]] + (run[1..] + run');
      LeadsFirst(s, run[0], run[1..] + run', s2);
    }
  }

  lemma AfterOne(run: seq<Label>, s: State, l: Label)
    requires After(run) == Some(s) && Enabled(s, l)
    ensures After(run + [l]) == Some(Next(s, l))
  {
    assert (run + [l])[..|run|] == run;
  }

  // A run that leads on from where another ends.
  lemma {:induction false} AfterLeads(run: seq<Label>, s: State, more: seq<Label>, s': State)
    requires After(run) == Some(s) && Leads(s, more, s')
    ensures After(run + more) == Some(s')
    decreases |more|
  {
    if more == [] {
      assert run + more == run;
    } else {
      var l, rest := more[0], more[1..];
      AfterOne(run, s, l);
      AfterLeads(run + [l], Next(s, l), rest, s');
      assert run + [l] + rest == run + more;
    }
  }

  // One message of a drain.
  lemma OneAlone(s: State, t: Tid, stamp: int, ok: bool) returns (run: seq<Label>, s': State)
    requires Holds(s, t) && s.threads[t].pc.Draining? && s.threads[t].pc.todo != []
    ensures var pc := s.threads[t].pc;
            var m := pc.todo[0];
            var go := Expired(m, pc.now) || ok;
            && Leads(s, run, s') && AreOwn(run, t) && Holds(s', t) && s.past.written <= s'.past.written
            && s'.rows == (if go then Drains.Settle(s.rows, m, pc.c.ack, pc.now, stamp) else s.rows)
            && s'.threads == Goto(s.threads, t, if go then Draining(pc.c, pc.todo[1..], pc.now) else Finished)
            && s'.conns == s.conns && s'.holder == s.holder
            && (go && !Expired(m, pc.now) ==> Delivery(pc.c, m.id) in s'.past.written)
  {
    var pc := s.threads[t].pc;
    if Expired(pc.todo[0], pc.now) {
      run := [Register(t, DropExpired)];
      s' := Next(s, run[0]);
    } else {
      var s1 := Next(s, Register(t, WriteNext(ok)));
      if ok {
        run := [Register(t, WriteNext(ok)), Register(t, Settle(stamp))];
        s' := Next(s1, Register(t, Settle(stamp)));
        assert run[1..] == [Register(t, Settle(stamp))];
        assert Leads(s1, run[1..], s');
      } else {
        run := [Register(t, WriteNext(ok))];
        s' := s1;
      }
    }
  }

  // What a drain alone leaves: `d` says it.
  ghost predicate LeavesDrained(s: State, t: Tid, d: Drains.Drained, s': State)
    requires t in s.threads && s.threads[t].pc.Draining?
  {
    var pc := s.threads[t].pc;
    && s.past.written <= s'.past.written
    && s'.rows == d.rows
    && (forall m | m in d.sent :: Delivery(pc.c, m.id) in s'.past.written)
    && s'.threads == Goto(s.threads, t, if d.left == [] then Draining(pc.c, [], pc.now) else Finished)
    && s'.conns == s.conns && s'.holder == s.holder
  }

  // A drain alone does what Drains.Drain says, and ends early just when a write fails.
  lemma {:induction false} DrainAlone(s: State, t: Tid, stamp: int, script: Drains.Script, tries: nat)
    returns (run: seq<Label>, s': State)
    requires Holds(s, t) && s.threads[t].pc.Draining?
    ensures Leads(s, run, s') && AreOwn(run, t) && Holds(s', t)
    ensures var pc := s.threads[t].pc;
            LeavesDrained(s, t, Drains.Drain(s.rows, pc.todo, pc.c.ack, pc.now, stamp, script, tries), s')
    decreases |s.threads[t].pc.todo|
  {
    var pc := s.threads[t].pc;
    if pc.todo == [] {
      run, s' := [], s;
    } else {
      var m := pc.todo[0];
      var run1, s1 := OneAlone(s, t, stamp, script(tries));
      if Expired(m, pc.now) || script(tries) {
        var run2;
        run2, s' := DrainAlone(s1, t, stamp, script, Drains.Tried(m, pc.now, tries));
        run := run1 + run2;
        LeadsOn(s, run1, s1, run2, s');
        OwnOn(run1, run2, t);
        DrainGoesOn(s, t, stamp, script, tries, s1, s');
      } else {
        run, s' := run1, s1;
      }
    }
  }

  lemma DrainGoesOn(s: State, t: Tid, stamp: int, script: Drains.Script, tries: nat, s1: State, s': State)
    requires t in s.threads && s.threads[t].pc.Draining? && s.threads[t].pc.todo != []
    requires var pc, m := s.threads[t].pc, s.threads[t].pc.todo[0];
             && (Expired(m, pc.now) || script(tries))
             && s.past.written <= s1.past.written && s1.conns == s.conns && s1.holder == s.holder
             && s1.rows == Drains.Settle(s.rows, m, pc.c.ack, pc.now, stamp)
             && s1.threads == Goto(s.threads, t, Draining(pc.c, pc.todo[1..], pc.now))
             && (!Expired(m, pc.now) ==> Delivery(pc.c, m.id) in s1.past.written)
    requires var pc, tried := s1.threads[t].pc, Drains.Tried(s.threads[t].pc.todo[0], s1.threads[t].pc.now, tries);
             LeavesDrained(s1, t, Drains.Drain(s1.rows, pc.todo, pc.c.ack, pc.now, stamp, script, tried), s')
    ensures var pc := s.threads[t].pc;
            LeavesDrained(s, t, Drains.Drain(s.rows, pc.todo, pc.c.ack, pc.now, stamp, script, tries), s')
  {
  }

  lemma OwnOn(run: seq<Label>, run': seq<Label>, t: Tid)
    requires AreOwn(run, t) && AreOwn(run', t)
    ensures AreOwn(run + run', t)
  {
  }

  // Buffer.Add alone.
  lemma AddAlone(s: State, t: Tid, now: int) returns (run: seq<Label>, s': State)
    requires Holds(s, t) && s.threads[t].pc.Checking?
    ensures var send := s.threads[t].pc.send;
            var via := s.threads[t].pc.via;
            var stored := Hubs.Storable(s.rows, send.RowAt(now));
            && Leads(s, run, s') && AreOwn(run, t) && Holds(s', t) && s'.conns == s.conns && s'.holder == s.holder
            && s'.rows == Insert(s.rows, send.RowAt(now))
            && s'.past == (if !stored then s.past.End(send.Key()) else AddAccepts(s.past, send, via))
            && s'.threads == Goto(s.threads, t, if stored then AfterAdd(send, via) else Finished)
  {
    var send := s.threads[t].pc.send;
    if Has(s.rows, send.Key()) {
      run := [Deliver(t, Check)];
      s' := Next(s, Deliver(t, Check));
    } else {
      var s1 := Next(s, Deliver(t, Check));
      run, s' := StoreAlone(s1, t, now);
      run := [Deliver(t, Check)] + run;
      LeadsFirst(s, Deliver(t, Check), run[1..], s');
    }
  }

  lemma StoreAlone(s: State, t: Tid, now: int) returns (run: seq<Label>, s': State)
    requires Holds(s, t) && s.threads[t].pc.Inserting? && !Has(s.rows, s.threads[t].pc.send.Key())
    ensures var send := s.threads[t].pc.send;
            var via := s.threads[t].pc.via;
            var stored := Fits(s.rows, send.RowAt(now));
            && Leads(s, run, s') && AreOwn(run, t) && Holds(s', t) && s'.conns == s.conns && s'.holder == s.holder
            && s'.rows == Insert(s.rows, send.RowAt(now))
            && s'.past == (if !stored then s.past.End(send.Key()) else AddAccepts(s.past, send, via))
            && s'.threads == Goto(s.threads, t, if stored then AfterAdd(send, via) else Finished)
  {
    var s1 := Next(s, Deliver(t, Store(now)));
    if Fits(s.rows, s.threads[t].pc.send.RowAt(now)) {
      run, s' := [Deliver(t, Store(now))], s1;
    } else {
      s' := Next(s1, Deliver(t, Recheck));
      run := [Deliver(t, Store(now)), Deliver(t, Recheck)];
      assert run[1..] == [Deliver(t, Recheck)];
      assert Leads(s1, run[1..], s');
    }
  }

  // The connection a delivery at Looking would find, and how its one write would go.
  ghost function LinkOf(s: State, to: DID, ok: bool): Hubs.Link {
    if to in s.conns then Hubs.Online(s.conns[to].ack, ok) else Hubs.Offline
  }

  // A delivery alone does what Hubs.DeliverTo says.
  lemma DeliverAlone(s: State, t: Tid, now: int, stamp: int, ok: bool) returns (run: seq<Label>, s': State)
    requires Holds(s, t) && s.threads[t].pc.Looking?
    ensures var send := s.threads[t].pc.send;
            var link := LinkOf(s, send.to, ok);
            var out := Hubs.DeliverTo(s.rows, link, send.RowAt(now), stamp);
            && Leads(s, run, s') && AreOwn(run, t) && s'.threads == Goto(s.threads, t, Finished)
            && s'.conns == s.conns && s'.holder == s.holder
            && s'.rows == out.rows
            && s'.past.accepted == s.past.accepted + (if out.status == Hubs.Refused then {} else {send.Key()})
            && s'.past.written ==
                 s.past.written
                 + (if Hubs.Attempts(s.rows, link, send.RowAt(now)) && ok
                    then {Delivery(s.conns[send.to], send.Key())} else {})
  {
    var send := s.threads[t].pc.send;
    var s1 := Next(s, Deliver(t, Lookup));
    var run1;
    if send.to !in s.conns {
      run1, s' := AddAlone(s1, t, now);
    } else if s.conns[send.to].ack {
      run1, s' := DeliverAckAlone(s1, t, now, stamp, ok);
    } else {
      run1, s' := DeliverPlainAlone(s1, t, now, ok);
    }
    run := [Deliver(t, Lookup)] + run1;
    LeadsFirst(s, Deliver(t, Lookup), run1, s');
  }

  // Buffer first, then write, then mark.
  lemma DeliverAckAlone(s: State, t: Tid, now: int, stamp: int, ok: bool) returns (run: seq<Label>, s': State)
    requires Holds(s, t)
    requires var pc := s.threads[t].pc; pc.Checking? && pc.via.Some? && pc.via.value.ack
    ensures var pc := s.threads[t].pc;
            var row := pc.send.RowAt(now);
            var out := Hubs.DeliverTo(s.rows, Hubs.Online(true, ok), row, stamp);
            && Leads(s, run, s') && AreOwn(run, t) && s'.threads == Goto(s.threads, t, Finished)
            && s'.conns == s.conns && s'.holder == s.holder
            && s'.rows == out.rows
            && s'.past.accepted == s.past.accepted + (if out.status == Hubs.Refused then {} else {pc.send.Key()})
            && s'.past.written ==
                 s.past.written
                 + (if Hubs.Storable(s.rows, row) && ok then {Delivery(pc.via.value, pc.send.Key())} else {})
  {
    var run1, s1 := AddAlone(s, t, now);
    if s1.threads[t].pc == Finished {
      run, s' := run1, s1;
    } else {
      var s2 := Next(s1, Deliver(t, Write(ok)));
      var run2 := [Deliver(t, Write(ok))];
      s' := s2;
      if ok {
        s' := Next(s2, Deliver(t, Mark(stamp)));
        LeadsFirst(s2, Deliver(t, Mark(stamp)), [], s');
        run2 := run2 + [Deliver(t, Mark(stamp))];
        LeadsFirst(s1, Deliver(t, Write(ok)), [Deliver(t, Mark(stamp))], s');
      } else {
        LeadsFirst(s1, Deliver(t, Write(ok)), [], s');
      }
      LeadsOn(s, run1, s1, run2, s');
      run := run1 + run2;
    }
  }

  // Write first; buffer only what could not be written.
  lemma DeliverPlainAlone(s: State, t: Tid, now: int, ok: bool) returns (run: seq<Label>, s': State)
    requires Holds(s, t)
    requires var pc := s.threads[t].pc; pc.Writing? && !pc.c.ack
    ensures var pc := s.threads[t].pc;
            var out := Hubs.DeliverTo(s.rows, Hubs.Online(false, ok), pc.send.RowAt(now), 0);
            && Leads(s, run, s') && AreOwn(run, t) && s'.threads == Goto(s.threads, t, Finished)
            && s'.conns == s.conns && s'.holder == s.holder
            && s'.rows == out.rows
            && s'.past.accepted == s.past.accepted + (if out.status == Hubs.Refused then {} else {pc.send.Key()})
            && s'.past.written == s.past.written + (if ok then {Delivery(pc.c, pc.send.Key())} else {})
  {
    var s1 := Next(s, Deliver(t, Write(ok)));
    if ok {
      run, s' := [Deliver(t, Write(ok))], s1;
      LeadsFirst(s, Deliver(t, Write(ok)), [], s');
    } else {
      var run1;
      run1, s' := AddAlone(s1, t, now);
      run := [Deliver(t, Write(ok))] + run1;
      LeadsFirst(s, Deliver(t, Write(ok)), run1, s');
    }
  }
}
