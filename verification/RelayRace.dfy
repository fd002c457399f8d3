// The runs on which a silent cancel withdraws a request that is written all the
// same: why RelayCancel.CancelIsExact asks for a well-aimed cancel, and what a
// restart between a write and its mark does to one.
module RelayRace {
  import opened Wrappers
  import opened Table
  import opened Envelope
  import opened Relay
  import opened RelayKept
  import opened RelayCancel

  // A request, and the recipient that a cancel of it names.
  datatype Race = Race(send: Send, other: DID) {
    ghost function Link(): Conn {
      Conn(0, send.to, true)
    }

    ghost function Key(): Key {
      send.Key()
    }

    ghost function Row(): Row {
      send.RowAt(0)
    }

    ghost function Request(): Envelope {
      Envelope("d2d", send.eid, send.from, send.to, "", send.expiresAt, "", "")
    }

    ghost function Cancel(): Envelope {
      Envelope("cancel", "", send.from, other, "", None, "", send.eid)
    }

    ghost function Sent(): History {
      INIT.past.(sends := map[Key() := send])
    }

    // The recipient is connected, and acks.
    ghost function At(rows: seq<Row>, holder: map<DID, Tid>, threads: map<Tid, Thread>, past: History): State {
      State(rows, map[send.to := Link()], holder, threads, past)
    }

    // A goroutine at the request's recipient, and one at the other.
    ghost function Mine(pc: Pc): Thread {
      Thread(send.to, pc)
    }

    ghost function Theirs(late: bool): Thread {
      Thread(other, Selecting(send.from, Key(), late))
    }
  }

  // A message a node can send, that fits an empty buffer.
  ghost predicate IsRequest(send: Send) {
    && send.from != "" && send.eid != "" && send.to != ""
    && send.relayOf == None && send.took == None
    && |send.payload| <= MAX_BYTES_PER_DID
  }

  ghost predicate Same(s: State, s': State) {
    s'.rows == s.rows && s'.conns == s.conns && s'.holder == s.holder && s'.threads == s.threads && s'.past == s.past
  }

  lemma Do(run: seq<Label>, s: State, l: Label, s': State) returns (run': seq<Label>)
    requires After(run) == Some(s) && Enabled(s, l) && Same(Next(s, l), s')
    ensures After(run') == Some(s')
  {
    run' := run + [l];
    assert run'[..|run|] == run;
  }

  // The recipient connects; nothing is buffered for it.
  lemma RecipientConnects(x: Race) returns (run: seq<Label>)
    requires IsRequest(x.send)
    ensures After(run) == Some(x.At([], map[], map[], INIT.past))
  {
    var c, held := x.Link(), map[x.send.to := 0];
    var s1 := State([], map[], map[], map[0 := x.Mine(Connecting(c))], INIT.past);
    run := Do([], INIT, Connect(0, c), s1);
    run := Do(run, s1, Acquire(0), s1.(holder := held));
    var s2 := x.At([], held, map[0 := x.Mine(Peeking(c))], INIT.past);
    run := Do(run, s1.(holder := held), Register(0, Replace), s2);
    run := RecipientDrains(x, run, s2);
  }

  lemma RecipientDrains(x: Race, run: seq<Label>, s: State) returns (run': seq<Label>)
    requires After(run) == Some(s)
    requires s == x.At([], map[x.send.to := 0], map[0 := x.Mine(Peeking(x.Link()))], INIT.past)
    ensures After(run') == Some(x.At([], map[], map[], INIT.past))
  {
    var s1 := s.(threads := map[0 := x.Mine(Draining(x.Link(), [], 0))]);
    run' := Do(run, s, Register(0, Peek([], 0)), s1);
    run' := Do(run', s1, Release(0), x.At([], map[], map[], INIT.past));
  }

  // The request arrives ...
  lemma RequestArrives(x: Race) returns (run: seq<Label>)
    requires IsRequest(x.send)
    ensures After(run) == Some(x.At([], map[], map[1 := x.Mine(Looking(x.send))], x.Sent()))
  {
    run := RecipientConnects(x);
    run := Do(run, x.At([], map[], map[], INIT.past),
              Frame(1, x.send.from, true, x.send.payload, x.Request(), true, true),
              x.At([], map[], map[1 := x.Mine(Looking(x.send))], x.Sent()));
  }

  // ... finds its recipient, among whatever other goroutines `rest` there are ...
  lemma RequestLooksUp(x: Race, run: seq<Label>, rest: map<Tid, Thread>) returns (run': seq<Label>)
    requires After(run) == Some(x.At([], map[], rest[1 := x.Mine(Looking(x.send))], x.Sent()))
    ensures After(run') ==
              Some(x.At([], map[x.send.to := 1], rest[1 := x.Mine(Inserting(x.send, Some(x.Link())))], x.Sent()))
  {
    var s := x.At([], map[], rest[1 := x.Mine(Looking(x.send))], x.Sent());
    var s1 := s.(holder := map[x.send.to := 1]);
    run' := Do(run, s, Acquire(1), s1);
    var s2 := s1.(threads := rest[1 := x.Mine(Checking(x.send, Some(x.Link())))]);
    run' := Do(run', s1, Deliver(1, Lookup), s2);
    run' := Do(run', s2, Deliver(1, Check), s2.(threads := rest[1 := x.Mine(Inserting(x.send, Some(x.Link())))]));
  }

  // ... and is stored, about to be written.
  lemma RequestStored(x: Race, run: seq<Label>, rest: map<Tid, Thread>) returns (run': seq<Label>)
    requires IsRequest(x.send)
    requires After(run) == Some(x.At([], map[], rest[1 := x.Mine(Looking(x.send))], x.Sent()))
    ensures After(run') ==
              Some(x.At([x.Row()], map[x.send.to := 1], rest[1 := x.Mine(Writing(x.send, x.Link()))], x.Sent()))
  {
    run' := RequestLooksUp(x, run, rest);
    var s := x.At([], map[x.send.to := 1], rest[1 := x.Mine(Inserting(x.send, Some(x.Link())))], x.Sent());
    assert Insert([], x.Row()) == [x.Row()];
    run' := Do(run', s, Deliver(1, Store(0)),
               x.At([x.Row()], s.holder, rest[1 := x.Mine(Writing(x.send, x.Link()))], x.Sent()));
  }

  // ---- A misaimed cancel ----

  // The cancel finds no row yet and goes by the recipient it names.
  lemma CancelMisses(x: Race) returns (run: seq<Label>)
    requires IsRequest(x.send) && x.other != ""
    ensures After(run) == Some(x.At([], map[], map[2 := x.Theirs(false)][1 := x.Mine(Looking(x.send))], x.Sent()))
  {
    run := RequestArrives(x);
    var mine := x.Mine(Looking(x.send));
    var s := x.At([], map[], map[1 := mine], x.Sent());
    var t := Thread("", Locating(x.send.from, x.other, x.Key(), false));
    assert Route(x.send.from, true, [], x.Cancel(), true, true) == Withdraw(x.send.from, x.other, x.Key());
    var s1 := s.(threads := map[1 := mine, 2 := t]);
    run := Do(run, s, Frame(2, x.send.from, true, [], x.Cancel(), true, true), s1);
    run := Do(run, s1, Locate(2), s.(threads := map[2 := x.Theirs(false)][1 := mine]));
  }

  // Under the other recipient's lock it selects the row before it is written.
  lemma CancelSelects(x: Race) returns (run: seq<Label>)
    requires IsRequest(x.send) && x.other != "" && x.other != x.send.to
    ensures After(run) ==
              Some(x.At([x.Row()], map[x.send.to := 1, x.other := 2],
                        map[1 := x.Mine(Writing(x.send, x.Link())),
                            2 := Thread(x.other, Removing(x.send.from, x.Key(), false, false, x.send.to))],
                        x.Sent()))
  {
    run := CancelMisses(x);
    run := RequestStored(x, run, map[2 := x.Theirs(false)]);
    var mine, held := x.Mine(Writing(x.send, x.Link())), map[x.send.to := 1, x.other := 2];
    var s := x.At([x.Row()], map[x.send.to := 1], map[2 := x.Theirs(false)][1 := mine], x.Sent());
    run := Do(run, s, Acquire(2), s.(holder := held));
    var t := Thread(x.other, Removing(x.send.from, x.Key(), false, false, x.send.to));
    assert x.Row() in [x.Row()];
    run := Do(run, s.(holder := held), Cancel(2, Select), s.(holder := held, threads := map[1 := mine, 2 := t]));
  }

  // `run` has a cancel of `send`, submitted once, that ran under the lock of `lock`
  // and says it withdrew the request silently, although the request was written.
  // `late`: its delivery was over when the cancel began. `cut`: a restart had
  // struck between a write of the request and its mark.
  ghost predicate Fails(run: seq<Label>, send: Send, lock: DID, late: bool, cut: bool) {
    && After(run).Some?
    && var past := After(run).value.past;
       && CancelEnd(send.Key(), late, lock, cut, Silent) in past.cancels
       && Once(past, send.Key()) && past.sends[send.Key()] == send
       && !Unwritten(past, send.Key())
  }

  // A cancel that begins before its request is stored and names another
  // recipient waits on the wrong lock: it deletes the row silently while the
  // request is being written.
  lemma MisaimedCancelRace(x: Race) returns (run: seq<Label>)
    requires IsRequest(x.send) && x.other != "" && x.other != x.send.to
    ensures Fails(run, x.send, x.other, false, false)
  {
    run := CancelSelects(x);
    var t := Thread(x.other, Removing(x.send.from, x.Key(), false, false, x.send.to));
    var s := x.At([x.Row()], map[x.send.to := 1, x.other := 2],
                  map[1 := x.Mine(Writing(x.send, x.Link())), 2 := t], x.Sent());
    var s1 := s.(threads := map[1 := x.Mine(Marking(x.send, x.Link())), 2 := t],
                 past := x.Sent().Wrote(x.Link(), x.Key()));
    run := Do(run, s, Deliver(1, Write(true)), s1);
    run := Do(run, s1, Cancel(2, Remove), Next(s1, Cancel(2, Remove)));
    assert Delivery(x.Link(), x.Key()) in Next(s1, Cancel(2, Remove)).past.written;
  }

  // ---- A restart between the write and the mark ----

  // What a restart just after the write leaves: the row, unmarked.
  lemma RestartCutsWrite(x: Race) returns (run: seq<Label>)
    requires IsRequest(x.send)
    ensures After(run) ==
              Some(State([x.Row()], map[], map[], map[],
                         x.Sent().Wrote(x.Link(), x.Key()).(ended := {x.Key()}, cut := {x.Key()})))
  {
    run := RequestArrives(x);
    assert map[][1 := x.Mine(Looking(x.send))] == map[1 := x.Mine(Looking(x.send))];
    run := RequestStored(x, run, map[]);
    var s := x.At([x.Row()], map[x.send.to := 1], map[][1 := x.Mine(Writing(x.send, x.Link()))], x.Sent());
    var threads := map[1 := x.Mine(Marking(x.send, x.Link()))];
    var s1 := s.(threads := threads, past := x.Sent().Wrote(x.Link(), x.Key()));
    run := Do(run, s, Deliver(1, Write(true)), s1);
    assert 1 in threads && x.Key() in threads[1].pc.Mid();
    assert Halfway(threads) == {x.Key()};
    run := Do(run, s1, Restart,
              State([x.Row()], map[], map[], map[], s1.past.(ended := {x.Key()}, cut := {x.Key()})));
  }

  // A cancel that waits on the right lock then takes the row for one never
  // written and deletes it silently.
  lemma CutCancel(x: Race) returns (run: seq<Label>)
    requires IsRequest(x.send)
    ensures Fails(run, x.send, x.send.to, true, true)
  {
    run := RestartCutsWrite(x);
    var past := x.Sent().Wrote(x.Link(), x.Key()).(ended := {x.Key()}, cut := {x.Key()});
    var s := State([x.Row()], map[], map[], map[], past);
    assert Route(x.send.from, true, [], x.Cancel(), true, true) == Withdraw(x.send.from, x.other, x.Key());
    var s1 := s.(threads := map[2 := Thread("", Locating(x.send.from, x.other, x.Key(), true))]);
    run := Do(run, s, Frame(2, x.send.from, true, [], x.Cancel(), true, true), s1);
    assert x.Row() in [x.Row()];
    var s2 := s.(threads := map[2 := x.Mine(Selecting(x.send.from, x.Key(), true))]);
    run := Do(run, s1, Locate(2), s2);
    run := CutCancelRemoves(x, run, s2);
  }

  lemma CutCancelRemoves(x: Race, run: seq<Label>, s: State) returns (run': seq<Label>)
    requires After(run) == Some(s) && s.rows == [x.Row()] && s.holder == map[]
    requires s.threads == map[2 := x.Mine(Selecting(x.send.from, x.Key(), true))]
    requires Once(s.past, x.Key()) && s.past.sends[x.Key()] == x.send
    requires x.Key() in s.past.cut && !Unwritten(s.past, x.Key())
    ensures Fails(run', x.send, x.send.to, true, true)
  {
    var held := map[x.send.to := 2];
    run' := Do(run, s, Acquire(2), s.(holder := held));
    assert x.Row() in [x.Row()];
    var s1 := s.(holder := held,
                 threads := map[2 := x.Mine(Removing(x.send.from, x.Key(), true, false, x.send.to))]);
    run' := Do(run', s.(holder := held), Cancel(2, Select), s1);
    run' := Do(run', s1, Cancel(2, Remove), Next(s1, Cancel(2, Remove)));
    var d :| d in s.past.written && d.id == x.Key();
    assert d in Next(s1, Cancel(2, Remove)).past.written;
  }

  // For every request, lock and moment of the cancel, over all runs: it can fail
  // if and only if it began before the delivery was over and ran under another
  // recipient's lock, or, under the right lock, a restart had struck between a
  // write of the request and its mark.
  lemma CancelFailsExactly(send: Send, lock: DID, late: bool, cut: bool)
    requires IsRequest(send) && lock != ""
    ensures (exists run :: Fails(run, send, lock, late, cut))
            <==> if cut then late && lock == send.to else !late && lock != send.to
  {
    if !cut && !late && lock != send.to {
      var run := MisaimedCancelRace(Race(send, lock));
    }
    if cut && late && lock == send.to {
      var run := CutCancel(Race(send, lock));
    }
    forall run | Fails(run, send, lock, late, cut)
      ensures if cut then late && lock == send.to else !late && lock != send.to
    {
      var e := CancelEnd(send.Key(), late, lock, cut, Silent);
      CancelRun(run);
      assert EndOk(After(run).value, e);
      if WellAimed(After(run).value.past, e) {
        CancelIsExact(run, e);
      }
    }
  }
}
