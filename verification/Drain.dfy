// What one drain does, as a function of the table, the clock and the outcomes of
// its writes, and what holds of it: order, prefix, no tail loss, and agreement
// with the background sweep.
module Drains {
  import opened Wrappers
  import opened Table

  // The socket's outcome for each write in turn.
  type Script = nat -> bool

  // The table after, the messages written, those left when a write failed, and
  // the writes attempted on the socket so far.
  datatype Drained = Drained(rows: seq<Row>, sent: seq<Msg>, left: seq<Msg>, tries: nat)

  // What the drain makes of one message it does not stop at: an expired row is
  // dropped, a written one marked for an acking connection and deleted otherwise.
  function Settle(rows: seq<Row>, m: Msg, ack: bool, now: int, stamp: int): seq<Row> {
    if Expired(m, now) || !ack then Without(rows, m.id) else Marked(rows, m.id, stamp)
  }

  function Tried(m: Msg, now: int, tries: nat): nat {
    if Expired(m, now) then tries else tries + 1
  }

  function Drain(rows: seq<Row>, todo: seq<Msg>, ack: bool, now: int, stamp: int, script: Script, tries: nat): Drained
    decreases |todo|
  {
    if todo == [] then Drained(rows, [], [], tries)
    else if !Expired(todo[0], now) && !script(tries) then Drained(rows, [], todo, tries + 1)
    else
      var rest := Drain(
        Settle(rows, todo[0], ack, now, stamp), todo[1..], ack, now, stamp, script, Tried(todo[0], now, tries));
      rest.(sent := (if Expired(todo[0], now) then [] else [todo[0]]) + rest.sent)
  }

  // The messages that are not expired, in their order.
  function Live(msgs: seq<Msg>, now: int): (live: seq<Msg>)
    ensures forall m :: m in live <==> m in msgs && !Expired(m, now)
  {
    if msgs == [] then []
    else
      var last := msgs[|msgs| - 1];
      var front := Live(msgs[..|msgs| - 1], now);
      assert forall m :: m in msgs <==> m in msgs[..|msgs| - 1] || m == last;
      if Expired(last, now) then front else front + [last]
  }

  ghost predicate UniqueMsgs(msgs: seq<Msg>) {
    forall i, j | 0 <= i < j < |msgs| :: msgs[i].id != msgs[j].id
  }

  lemma LiveOn(msgs: seq<Msg>, m: Msg, now: int)
    ensures Live(msgs + [m], now) == Live(msgs, now) + if Expired(m, now) then [] else [m]
  {
    assert (msgs + [m])[..|msgs|] == msgs;
  }

  lemma {:induction false} LiveConcat(a: seq<Msg>, b: seq<Msg>, now: int)
    ensures Live(a + b, now) == Live(a, now) + Live(b, now)
  {
    if b == [] {
      assert a + b == a;
    } else {
      var front, last := b[..|b| - 1], b[|b| - 1];
      assert b == front + [last];
      LiveConcat(a, front, now);
      LiveConcatOn(a, front, last, now);
    }
  }

  lemma LiveConcatOn(a: seq<Msg>, b: seq<Msg>, last: Msg, now: int)
    requires Live(a + b, now) == Live(a, now) + Live(b, now)
    ensures Live(a + (b + [last]), now) == Live(a, now) + Live(b + [last], now)
  {
    LiveOn(a + b, last, now);
    LiveOn(b, last, now);
    Regroup(a, b, [last]);
    Regroup(Live(a, now), Live(b, now), if Expired(last, now) then [] else [last]);
  }

  lemma Regroup(a: seq<Msg>, b: seq<Msg>, c: seq<Msg>)
    ensures a + (b + c) == (a + b) + c
  {
  }

  lemma LiveFirst(msgs: seq<Msg>, now: int)
    requires msgs != []
    ensures Live(msgs, now) == (if Expired(msgs[0], now) then [] else [msgs[0]]) + Live(msgs[1..], now)
  {
    LiveConcat([msgs[0]], msgs[1..], now);
    LiveOn([], msgs[0], now);
    assert [msgs[0]] + msgs[1..] == msgs && [] + [msgs[0]] == [msgs[0]];
  }

  lemma LiveOfPrefix(todo: seq<Msg>, n: nat, now: int)
    requires todo != [] && n < |todo|
    ensures Live(todo[..n + 1], now) == (if Expired(todo[0], now) then [] else [todo[0]]) + Live(todo[1..][..n], now)
  {
    LiveFirst(todo[..n + 1], now);
    assert todo[..n + 1][1..] == todo[1..][..n];
  }

  // What the drain writes for `m` when the write works.
  function Due(m: Msg, now: int): seq<Msg> {
    if Expired(m, now) then [] else [m]
  }

  lemma DrainGoesOn(rows: seq<Row>, todo: seq<Msg>, ack: bool, now: int, stamp: int, script: Script, tries: nat)
    requires todo != [] && (Expired(todo[0], now) || script(tries))
    ensures var settled := Settle(rows, todo[0], ack, now, stamp);
            var rest := Drain(settled, todo[1..], ack, now, stamp, script, Tried(todo[0], now, tries));
            Drain(rows, todo, ack, now, stamp, script, tries) == rest.(sent := Due(todo[0], now) + rest.sent)
  {}

  // `sent` and `left` are the unexpired messages up to some point, and the rest.
  ghost predicate Splits(todo: seq<Msg>, sent: seq<Msg>, left: seq<Msg>, now: int) {
    && |left| <= |todo|
    && left == todo[|todo| - |left|..]
    && sent == Live(todo[..|todo| - |left|], now)
  }

  lemma SplitsOn(todo: seq<Msg>, sent: seq<Msg>, left: seq<Msg>, now: int)
    requires todo != [] && Splits(todo[1..], sent, left, now)
    ensures Splits(todo, Due(todo[0], now) + sent, left, now)
  {
    LiveOfPrefix(todo, |todo| - 1 - |left|, now);
  }

  // What is left is a tail of the messages, and those written are the unexpired
  // ones before it, in order.
  lemma {:induction false} DrainSends(
    rows: seq<Row>, todo: seq<Msg>, ack: bool, now: int, stamp: int, script: Script, tries: nat)
    ensures var d := Drain(rows, todo, ack, now, stamp, script, tries);
            Splits(todo, d.sent, d.left, now)
    decreases |todo|
  {
    if todo != [] && (Expired(todo[0], now) || script(tries)) {
      var settled := Settle(rows, todo[0], ack, now, stamp);
      var tries' := Tried(todo[0], now, tries);
      var rest := Drain(settled, todo[1..], ack, now, stamp, script, tries');
      DrainSends(settled, todo[1..], ack, now, stamp, script, tries');
      DrainGoesOn(rows, todo, ack, now, stamp, script, tries);
      SplitsOn(todo, rest.sent, rest.left, now);
    }
  }

  // Every write before the last succeeded; the last failed exactly when something
  // is left, and that begins with the unexpired message it tried.
  lemma {:induction false} DrainStops(
    rows: seq<Row>, todo: seq<Msg>, ack: bool, now: int, stamp: int, script: Script, tries: nat)
    ensures var d := Drain(rows, todo, ack, now, stamp, script, tries);
            && d.tries == tries + |d.sent| + (if d.left == [] then 0 else 1)
            && (forall k | tries <= k < tries + |d.sent| :: script(k))
            && (d.left != [] ==> !Expired(d.left[0], now) && !script(tries + |d.sent|))
    decreases |todo|
  {
    if todo != [] && (Expired(todo[0], now) || script(tries)) {
      var settled := Settle(rows, todo[0], ack, now, stamp);
      DrainStops(settled, todo[1..], ack, now, stamp, script, Tried(todo[0], now, tries));
    }
  }

  // A drain leaves rows it never reads alone.
  lemma {:induction false} DrainSpares(
    rows: seq<Row>, r: Row, todo: seq<Msg>, ack: bool, now: int, stamp: int, script: Script, tries: nat)
    requires forall m | m in todo :: m.id != r.msg.id
    ensures r in rows ==> r in Drain(rows, todo, ack, now, stamp, script, tries).rows
    ensures !Has(rows, r.msg.id) ==> !Has(Drain(rows, todo, ack, now, stamp, script, tries).rows, r.msg.id)
    decreases |todo|
  {
    if todo == [] {
    } else {
      MarkedRows(rows, todo[0].id, stamp);
      assert MarkRow(r, todo[0].id, stamp) == r;
      DrainSpares(
        Settle(rows, todo[0], ack, now, stamp), r, todo[1..], ack, now, stamp, script, Tried(todo[0], now, tries));
    }
  }

  // No tail loss: a row read before the write that failed was dropped if expired,
  // else marked for an acking connection or deleted; from that write on every row
  // read is still there, unchanged.
  lemma {:induction false} DrainFate(
    rows: seq<Row>, r: Row, i: nat, todo: seq<Msg>, ack: bool, now: int, stamp: int, script: Script, tries: nat)
    requires r in rows && UniqueMsgs(todo) && i < |todo| && todo[i] == r.msg
    ensures var d := Drain(rows, todo, ack, now, stamp, script, tries);
            if i >= |todo| - |d.left| then r in d.rows
            else if Expired(r.msg, now) || !ack then !Has(d.rows, r.msg.id)
            else r.(deliveredAt := Some(stamp)) in d.rows
    decreases |todo|
  {
    if Expired(todo[0], now) || script(tries) {
      MarkedRows(rows, todo[0].id, stamp);
      var settled := Settle(rows, todo[0], ack, now, stamp);
      var tries' := Tried(todo[0], now, tries);
      DrainSends(settled, todo[1..], ack, now, stamp, script, tries');
      assert MarkRow(r, todo[0].id, stamp) == if i == 0 then r.(deliveredAt := Some(stamp)) else r;
      if i == 0 {
        DrainSpares(settled, MarkRow(r, todo[0].id, stamp), todo[1..], ack, now, stamp, script, tries');
      } else {
        DrainFate(settled, r, i - 1, todo[1..], ack, now, stamp, script, tries');
      }
    }
  }

  lemma {:induction false} LiveSorted(msgs: seq<Msg>, now: int)
    requires SortedByTime(msgs)
    ensures SortedByTime(Live(msgs, now))
  {
    if msgs == [] {
    } else {
      var front := msgs[..|msgs| - 1];
      LiveSorted(front, now);
      forall m | m in Live(front, now)
        ensures m.storedAt <= msgs[|msgs| - 1].storedAt
      {
        assert m in front;
      }
    }
  }

  lemma {:induction false} InsertUnique(msgs: seq<Msg>, m: Msg)
    requires UniqueMsgs(msgs) && forall x | x in msgs :: x.id != m.id
    ensures UniqueMsgs(InsertByTime(msgs, m))
    ensures forall x :: x in InsertByTime(msgs, m) <==> x in msgs || x == m
  {
    if msgs != [] && msgs[|msgs| - 1].storedAt > m.storedAt {
      var front := msgs[..|msgs| - 1];
      assert msgs == front + [msgs[|msgs| - 1]];
      InsertUnique(front, m);
      forall x | x in InsertByTime(front, m)
        ensures x.id != msgs[|msgs| - 1].id
      {
      }
    }
  }

  lemma {:induction false} PeekedUnique(rows: seq<Row>, did: DID)
    requires UniqueIds(rows)
    ensures UniqueMsgs(Peeked(rows, did))
    ensures forall m | m in Peeked(rows, did) :: exists r :: r in rows && r.recipient == did && r.msg == m
  {
    PeekedIsPeek(rows, did);
    PeekedAreRows(rows, did, Peeked(rows, did));
    if rows == [] {
    } else {
      var front := rows[..|rows| - 1];
      var last := rows[|rows| - 1];
      PeekedUnique(front, did);
      if last.recipient == did {
        forall x | x in Peeked(front, did)
          ensures x.id != last.msg.id
        {
          var r :| r in front && r.msg == x;
        }
        InsertUnique(Peeked(front, did), last.msg);
      }
    }
  }

  // The drain of one recipient, ties read in any order: it writes the unexpired
  // messages in order of arrival, its writes succeed up to the one that ends it,
  // and that one was for the first message left.
  lemma DrainInOrder(
    rows: seq<Row>, did: DID, todo: seq<Msg>, ack: bool, now: int, stamp: int, script: Script, tries: nat)
    requires IsPeek(rows, did, todo)
    ensures var d := Drain(rows, todo, ack, now, stamp, script, tries);
            && |d.left| <= |todo|
            && d.left == todo[|todo| - |d.left|..]
            && d.sent == Live(todo[..|todo| - |d.left|], now)
            && SortedByTime(d.sent)
            && (forall k | tries <= k < tries + |d.sent| :: script(k))
            && (d.left != [] ==> !Expired(d.left[0], now) && !script(tries + |d.sent|))
  {
    var left := |Drain(rows, todo, ack, now, stamp, script, tries).left|;
    DrainSends(rows, todo, ack, now, stamp, script, tries);
    DrainStops(rows, todo, ack, now, stamp, script, tries);
    LiveSorted(todo[..|todo| - left], now);
  }

  // What it leaves of each row: those it read before the stop are settled, the
  // rest, like every row of another recipient, are still buffered unchanged.
  lemma DrainKeepsRows(rows: seq<Row>, did: DID, r: Row, ack: bool, now: int, stamp: int, script: Script, tries: nat)
    requires UniqueIds(rows) && r in rows
    ensures var d := Drain(rows, Peeked(rows, did), ack, now, stamp, script, tries);
            if r.recipient != did || r.msg in d.left then r in d.rows
            else if Expired(r.msg, now) || !ack then !Has(d.rows, r.msg.id)
            else r.(deliveredAt := Some(stamp)) in d.rows
  {
    var todo := Peeked(rows, did);
    PeekedIsPeek(rows, did);
    PeekedAreRows(rows, did, todo);
    PeekedUnique(rows, did);
    if r.recipient == did {
      assert r.msg in todo;
      var i :| 0 <= i < |todo| && todo[i] == r.msg;
      DrainSends(rows, todo, ack, now, stamp, script, tries);
      DrainFate(rows, r, i, todo, ack, now, stamp, script, tries);
      InTail(todo, i, |todo| - |Drain(rows, todo, ack, now, stamp, script, tries).left|);
    } else {
      forall m | m in todo
        ensures m.id != r.msg.id
      {
        var q :| q in rows && q.recipient == did && q.msg == m;
      }
      DrainSpares(rows, r, todo, ack, now, stamp, script, tries);
    }
  }

  lemma InTail(todo: seq<Msg>, i: nat, stop: nat)
    requires UniqueMsgs(todo) && i < |todo| && stop <= |todo|
    ensures todo[i] in todo[stop..] <==> i >= stop
  {
    if i >= stop {
      assert todo[stop..][i - stop] == todo[i];
    }
  }

  // ---- The drain and the sweep ----

  lemma InsertByTimeOn(msgs: seq<Msg>, last: Msg, m: Msg)
    requires last.storedAt > m.storedAt
    ensures InsertByTime(msgs + [last], m) == InsertByTime(msgs, m) + [last]
  {
    assert (msgs + [last])[..|msgs|] == msgs;
  }

  lemma InsertByTimeLast(msgs: seq<Msg>, m: Msg)
    requires forall x | x in msgs :: x.storedAt <= m.storedAt
    ensures InsertByTime(msgs, m) == msgs + [m]
  {}

  lemma {:induction false} LiveOfInsert(msgs: seq<Msg>, m: Msg, now: int)
    requires SortedByTime(msgs)
    ensures Live(InsertByTime(msgs, m), now) ==
              if Expired(m, now) then Live(msgs, now) else InsertByTime(Live(msgs, now), m)
  {
    if msgs == [] || msgs[|msgs| - 1].storedAt <= m.storedAt {
      LiveOn(msgs, m, now);
      InsertByTimeLast(Live(msgs, now), m);
    } else {
      var front, last := msgs[..|msgs| - 1], msgs[|msgs| - 1];
      LiveOfInsert(front, m, now);
      LiveOn(InsertByTime(front, m), last, now);
      InsertByTimeOn(Live(front, now), last, m);
    }
  }

  // Reading after a sweep is reading and skipping what has expired.
  lemma {:induction false} PeekAfterSweep(rows: seq<Row>, did: DID, now: int)
    ensures Peeked(Swept(rows, now), did) == Live(Peeked(rows, did), now)
  {
    if rows == [] {
    } else {
      var front := rows[..|rows| - 1];
      var last := rows[|rows| - 1];
      PeekAfterSweep(front, did, now);
      PeekedIsPeek(front, did);
      ExpiryTestsAgree(last.msg, now);
      var swept := Swept(front, now);
      assert (swept + [last])[..|swept|] == swept;
      assert Swept(rows, now) == if Expired(last.msg, now) then swept else swept + [last];
      if last.recipient == did {
        LiveOfInsert(Peeked(front, did), last.msg, now);
      }
    }
  }

  lemma {:induction false} FilterOn(rows: seq<Row>, row: Row, keep: Row -> bool)
    ensures Filter(rows + [row], keep) == Filter(rows, keep) + if keep(row) then [row] else []
  {
    assert (rows + [row])[..|rows|] == rows;
  }

  lemma {:induction false} FiltersCommute(rows: seq<Row>, p: Row -> bool, q: Row -> bool)
    ensures Filter(Filter(rows, p), q) == Filter(Filter(rows, q), p)
  {
    if rows == [] {
    } else {
      var front, last := rows[..|rows| - 1], rows[|rows| - 1];
      FiltersCommute(front, p, q);
      FilterOn(Filter(front, p), last, q);
      FilterOn(Filter(front, q), last, p);
    }
  }

  lemma {:induction false} FilterAll(rows: seq<Row>, keep: Row -> bool)
    requires forall r | r in rows :: keep(r)
    ensures Filter(rows, keep) == rows
  {
    if rows == [] {
    } else {
      assert rows[|rows| - 1] in rows;
      FilterAll(rows[..|rows| - 1], keep);
    }
  }

  lemma SweepWithout(rows: seq<Row>, id: Key, now: int)
    ensures Swept(Without(rows, id), now) == Without(Swept(rows, now), id)
    ensures (forall r | r in rows && r.msg.id == id :: Expired(r.msg, now)) ==>
              Swept(Without(rows, id), now) == Swept(rows, now)
  {
    FiltersCommute(rows, (r: Row) => r.msg.id != id, (r: Row) => !IsStale(r.msg, now));
    if forall r | r in rows && r.msg.id == id :: Expired(r.msg, now) {
      FilterAll(Swept(rows, now), (r: Row) => r.msg.id != id);
    }
  }

  lemma {:induction false} SweepMarked(rows: seq<Row>, id: Key, stamp: int, now: int)
    ensures Swept(Marked(rows, id, stamp), now) == Marked(Swept(rows, now), id, stamp)
  {
    if rows == [] {
    } else {
      var front := rows[..|rows| - 1];
      var last := rows[|rows| - 1];
      SweepMarked(front, id, stamp, now);
      assert Marked(rows, id, stamp)[..|rows| - 1] == Marked(front, id, stamp);
      var swept := Swept(front, now);
      assert Marked(swept + [last], id, stamp) == Marked(swept, id, stamp) + [MarkRow(last, id, stamp)];
    }
  }

  lemma SettleThenSweep(rows: seq<Row>, m: Msg, ack: bool, now: int, stamp: int)
    requires forall r | r in rows && r.msg.id == m.id :: r.msg == m
    ensures Swept(Settle(rows, m, ack, now, stamp), now) ==
              if Expired(m, now) then Swept(rows, now) else Settle(Swept(rows, now), m, ack, now, stamp)
    ensures forall q | q in Settle(rows, m, ack, now, stamp) :: exists r :: r in rows && r.msg == q.msg
  {
    SweepWithout(rows, m.id, now);
    SweepMarked(rows, m.id, stamp, now);
    MarkedRows(rows, m.id, stamp);
  }

  lemma DrainOfCons(
    rows: seq<Row>, m: Msg, todo: seq<Msg>, ack: bool, now: int, stamp: int, script: Script, tries: nat)
    requires !Expired(m, now)
    ensures Drain(rows, [m] + todo, ack, now, stamp, script, tries) ==
              if !script(tries) then Drained(rows, [], [m] + todo, tries + 1)
              else
                var rest := Drain(Settle(rows, m, ack, now, stamp), todo, ack, now, stamp, script, tries + 1);
                rest.(sent := [m] + rest.sent)
  {
    assert ([m] + todo)[1..] == todo;
  }

  // Each message is that of the row it names, if there is one.
  ghost predicate AreRows(rows: seq<Row>, msgs: seq<Msg>) {
    forall r | r in rows :: forall m | m in msgs && m.id == r.msg.id :: r.msg == m
  }

  lemma SettleLeavesRows(rows: seq<Row>, todo: seq<Msg>, ack: bool, now: int, stamp: int)
    requires todo != [] && AreRows(rows, todo)
    ensures AreRows(Settle(rows, todo[0], ack, now, stamp), todo[1..])
  {
    MarkedRows(rows, todo[0].id, stamp);
    assert forall m | m in todo[1..] :: m in todo;
  }

  ghost predicate SweepAgrees(
    rows: seq<Row>, todo: seq<Msg>, ack: bool, now: int, stamp: int, script: Script, tries: nat)
  {
    var d := Drain(rows, todo, ack, now, stamp, script, tries);
    Drain(Swept(rows, now), Live(todo, now), ack, now, stamp, script, tries)
      == d.(rows := Swept(d.rows, now), left := Live(d.left, now))
  }

  lemma DrainOfExpired(
    rows: seq<Row>, todo: seq<Msg>, ack: bool, now: int, stamp: int, script: Script, tries: nat)
    requires todo != [] && Expired(todo[0], now)
    ensures Drain(rows, todo, ack, now, stamp, script, tries) ==
              Drain(Settle(rows, todo[0], ack, now, stamp), todo[1..], ack, now, stamp, script, tries)
  {
    var rest := Drain(Settle(rows, todo[0], ack, now, stamp), todo[1..], ack, now, stamp, script, tries);
    assert [] + rest.sent == rest.sent;
  }

  lemma AgreesPastExpired(
    rows: seq<Row>, todo: seq<Msg>, ack: bool, now: int, stamp: int, script: Script, tries: nat)
    requires todo != [] && Expired(todo[0], now) && AreRows(rows, todo)
    requires SweepAgrees(Settle(rows, todo[0], ack, now, stamp), todo[1..], ack, now, stamp, script, tries)
    ensures SweepAgrees(rows, todo, ack, now, stamp, script, tries)
  {
    assert todo[0] in todo;
    assert Live(todo, now) == Live(todo[1..], now) by {
      LiveFirst(todo, now);
      assert [] + Live(todo[1..], now) == Live(todo[1..], now);
    }
    SettleThenSweep(rows, todo[0], ack, now, stamp);
    DrainOfExpired(rows, todo, ack, now, stamp, script, tries);
  }

  lemma AgreesAtFailure(
    rows: seq<Row>, todo: seq<Msg>, ack: bool, now: int, stamp: int, script: Script, tries: nat)
    requires todo != [] && !Expired(todo[0], now) && !script(tries)
    ensures SweepAgrees(rows, todo, ack, now, stamp, script, tries)
  {
    LiveFirst(todo, now);
  }

  lemma AgreesPastWrite(
    rows: seq<Row>, todo: seq<Msg>, ack: bool, now: int, stamp: int, script: Script, tries: nat)
    requires todo != [] && !Expired(todo[0], now) && script(tries) && AreRows(rows, todo)
    requires SweepAgrees(Settle(rows, todo[0], ack, now, stamp), todo[1..], ack, now, stamp, script, tries + 1)
    ensures SweepAgrees(rows, todo, ack, now, stamp, script, tries)
  {
    assert todo[0] in todo;
    LiveFirst(todo, now);
    SettleThenSweep(rows, todo[0], ack, now, stamp);
    DrainGoesOn(rows, todo, ack, now, stamp, script, tries);
    DrainOfCons(Swept(rows, now), todo[0], Live(todo[1..], now), ack, now, stamp, script, tries);
  }

  lemma {:induction false} DrainThenSweep(
    rows: seq<Row>, todo: seq<Msg>, ack: bool, now: int, stamp: int, script: Script, tries: nat)
    requires AreRows(rows, todo)
    ensures SweepAgrees(rows, todo, ack, now, stamp, script, tries)
    decreases |todo|
  {
    if todo == [] {
    } else {
      SettleLeavesRows(rows, todo, ack, now, stamp);
      var settled := Settle(rows, todo[0], ack, now, stamp);
      if Expired(todo[0], now) {
        DrainThenSweep(settled, todo[1..], ack, now, stamp, script, tries);
        AgreesPastExpired(rows, todo, ack, now, stamp, script, tries);
      } else {
        DrainThenSweep(settled, todo[1..], ack, now, stamp, script, tries + 1);
        if script(tries) {
          AgreesPastWrite(rows, todo, ack, now, stamp, script, tries);
        } else {
          AgreesAtFailure(rows, todo, ack, now, stamp, script, tries);
        }
      }
    }
  }

  // At one clock reading, sweeping before or after a drain writes the same
  // messages, meets the same write outcomes and leaves the same table: the drain's
  // expiry test and the sweep's agree.
  lemma SweepAndDrainCommute(rows: seq<Row>, did: DID, ack: bool, now: int, stamp: int, script: Script, tries: nat)
    requires UniqueIds(rows)
    ensures var after := Drain(rows, Peeked(rows, did), ack, now, stamp, script, tries);
            var before := Drain(Swept(rows, now), Peeked(Swept(rows, now), did), ack, now, stamp, script, tries);
            before == after.(rows := Swept(after.rows, now), left := Live(after.left, now))
  {
    PeekAfterSweep(rows, did, now);
    PeekedUnique(rows, did);
    DrainThenSweep(rows, Peeked(rows, did), ack, now, stamp, script, tries);
  }
}
