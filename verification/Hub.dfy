// The hub's operations as they run under a recipient's lock: Register with its
// drain, Deliver, Ack and Cancel over the buffer and the sockets. Clocks and the
// outcome of every write are parameters; module Relay interleaves these bodies.
module Hubs {
  import opened Wrappers
  import opened Table
  import opened Envelope
  import opened Buffers
  import opened Drains

  datatype Frame = Frame(id: Key, payload: seq<Byte>)

  function Frames(msgs: seq<Msg>): seq<Frame> {
    seq(|msgs|, i requires 0 <= i < |msgs| => Frame(msgs[i].id, msgs[i].payload))
  }

  lemma FramesOn(before: seq<Frame>, sent: seq<Msg>, more: seq<Msg>)
    ensures before + Frames(sent + more) == before + Frames(sent) + Frames(more)
  {
    assert Frames(sent + more) == Frames(sent) + Frames(more);
  }

  class Socket {
    const script: Script
    var tries: nat
    ghost var sent: seq<Frame>

    constructor (script: Script)
      ensures this.script == script && tries == 0 && sent == []
    {
      this.script := script;
      tries := 0;
      sent := [];
    }

    method Write(ghost id: Key, payload: seq<Byte>) returns (ok: bool)
      modifies this
      ensures tries == old(tries) + 1 && ok == script(old(tries))
      ensures sent == old(sent) + if ok then [Frame(id, payload)] else []
    {
      ok := script(tries);
      tries := tries + 1;
      if ok {
        sent := sent + [Frame(id, payload)];
      }
    }
  }

  class MsgBoxConn {
    const did: DID
    const ack: bool
    const ws: Socket

    constructor (did: DID, ack: bool, ws: Socket)
      ensures this.did == did && this.ack == ack && this.ws == ws
    {
      this.did := did;
      this.ack := ack;
      this.ws := ws;
    }
  }

  // ---- What one delivery does ----

  datatype Link = Offline | Online(ack: bool, ok: bool)

  datatype Status = Delivered | Buffered | Refused

  datatype Outcome = Outcome(rows: seq<Row>, status: Status)

  predicate Storable(rows: seq<Row>, row: Row) {
    Has(rows, row.msg.id) || Fits(rows, row)
  }

  // An acking connection gets a copy only if one is kept; any other keeps a copy
  // only if it did not get one.
  function DeliverTo(rows: seq<Row>, link: Link, row: Row, stamp: int): Outcome {
    if link == Online(false, true) then Outcome(rows, Delivered)
    else if !Storable(rows, row) then Outcome(rows, Refused)
    else if link == Online(true, true) then Outcome(Marked(Insert(rows, row), row.msg.id, stamp), Delivered)
    else Outcome(Insert(rows, row), Buffered)
  }

  predicate Attempts(rows: seq<Row>, link: Link, row: Row) {
    link.Online? && (link.ack ==> Storable(rows, row))
  }

  // A delivery is reported delivered exactly when it was written, and refused exactly
  // when it was neither written nor can be kept; otherwise it is buffered.
  lemma StatusIsExact(rows: seq<Row>, link: Link, row: Row, stamp: int)
    ensures var status := DeliverTo(rows, link, row, stamp).status;
            var keeps := Has(rows, row.msg.id) || Fits(rows, row);
            var written := link.Online? && link.ok && (link.ack ==> keeps);
            && (Attempts(rows, link, row) && link.ok <==> written)
            && (status == Delivered <==> written)
            && (status == Refused <==> !written && !keeps)
            && (status == Buffered <==> !written && keeps)
  {
  }

  // A delivery that is not refused is kept or was written to a connection that
  // does not ack; one written to an acking connection is kept and marked; one
  // refused changes nothing and is written to no acking connection.
  lemma DeliveryIsKept(rows: seq<Row>, link: Link, row: Row, stamp: int)
    requires UniqueIds(rows) && row.deliveredAt == None
    ensures var out := DeliverTo(rows, link, row, stamp);
            && (out.status != Refused ==> Has(out.rows, row.msg.id) || link == Online(false, true))
            && (out.status == Refused ==> out.rows == rows && !(Attempts(rows, link, row) && link.ok))
            && (link == Online(true, true) && out.status == Delivered ==>
                  forall r | r in out.rows && r.msg.id == row.msg.id :: r.deliveredAt == Some(stamp))
            && (Has(rows, row.msg.id) && link != Online(true, true) ==> out.rows == rows)
            && (forall r | r in rows && r.msg.id != row.msg.id :: r in out.rows)
  {
    MarkedRows(Insert(rows, row), row.msg.id, stamp);
    if Insert(rows, row) != rows {
      assert row in Insert(rows, row);
    }
    forall r | r in rows && r.msg.id != row.msg.id
      ensures r in Marked(Insert(rows, row), row.msg.id, stamp)
    {
      assert r in Insert(rows, row) && MarkRow(r, row.msg.id, stamp) == r;
    }
    if Has(Insert(rows, row), row.msg.id) {
      var r := RowOf(Insert(rows, row), row.msg.id);
      assert MarkRow(r, row.msg.id, stamp) in Marked(Insert(rows, row), row.msg.id, stamp);
    }
  }

  // A drain `d` of which `sent` is done and `rest` is to come.
  ghost predicate Continues(d: Drained, sent: seq<Msg>, rest: Drained) {
    d.rows == rest.rows && d.left == rest.left && d.tries == rest.tries && d.sent == sent + rest.sent
  }

  lemma DrainContinues(
    d: Drained, sent: seq<Msg>, rows: seq<Row>, todo: seq<Msg>,
    ack: bool, now: int, stamp: int, script: Script, tries: nat)
    requires todo != [] && Continues(d, sent, Drain(rows, todo, ack, now, stamp, script, tries))
    requires Expired(todo[0], now) || script(tries)
    ensures var settled := Settle(rows, todo[0], ack, now, stamp);
            var rest := Drain(settled, todo[1..], ack, now, stamp, script, Tried(todo[0], now, tries));
            Continues(d, sent + Due(todo[0], now), rest)
  {
    DrainGoesOn(rows, todo, ack, now, stamp, script, tries);
    var settled := Settle(rows, todo[0], ack, now, stamp);
    var rest := Drain(settled, todo[1..], ack, now, stamp, script, Tried(todo[0], now, tries));
    Regroup(sent, Due(todo[0], now), rest.sent);
  }

  lemma DrainStarts(d: Drained, msgs: seq<Msg>, before: seq<Frame>)
    ensures msgs[0..] == msgs && Continues(d, [], d) && before == before + Frames([])
  {}

  lemma DrainEnds(
    d: Drained, sent: seq<Msg>, rows: seq<Row>, todo: seq<Msg>,
    ack: bool, now: int, stamp: int, script: Script, tries: nat)
    requires todo != [] && Continues(d, sent, Drain(rows, todo, ack, now, stamp, script, tries))
    requires !Expired(todo[0], now) && !script(tries)
    ensures d.rows == rows && d.sent == sent && d.tries == tries + 1
  {}

  lemma DrainOver(
    d: Drained, sent: seq<Msg>, rows: seq<Row>, ack: bool, now: int, stamp: int, script: Script, tries: nat)
    requires Continues(d, sent, Drain(rows, [], ack, now, stamp, script, tries))
    ensures d.rows == rows && d.sent == sent && d.tries == tries
  {}

  class Hub {
    var conns: map<DID, MsgBoxConn>
    const buf: Buffer

    constructor (buf: Buffer)
      ensures conns == map[] && this.buf == buf
    {
      this.buf := buf;
      conns := map[];
    }

    // The connection a delivery would use and what its next write would do.
    ghost function LinkTo(did: DID): Link
      reads this, if did in conns then {conns[did].ws} else {}
    {
      if did in conns then Online(conns[did].ack, conns[did].ws.script(conns[did].ws.tries)) else Offline
    }

    // Makes `conn` current and drains its recipient's buffer to it.
    method Register(conn: MsgBoxConn, now: int, stamp: int)
      requires buf.Valid()
      modifies this, buf, conn.ws
      ensures buf.Valid()
      ensures conns == old(conns)[conn.did := conn]
      ensures var d := Drain(old(buf.rows), Peeked(old(buf.rows), conn.did), conn.ack, now, stamp,
                             conn.ws.script, old(conn.ws.tries));
              && buf.rows == d.rows
              && conn.ws.tries == d.tries
              && conn.ws.sent == old(conn.ws.sent) + Frames(d.sent)
    {
      conns := conns[conn.did := conn];
      var msgs := buf.Peek(conn.did);
      DrainTo(conn, msgs, now, stamp);
    }

    method DrainTo(conn: MsgBoxConn, msgs: seq<Msg>, now: int, stamp: int)
      requires buf.Valid()
      modifies buf, conn.ws
      ensures buf.Valid()
      ensures var d := Drain(old(buf.rows), msgs, conn.ack, now, stamp, conn.ws.script, old(conn.ws.tries));
              && buf.rows == d.rows
              && conn.ws.tries == d.tries
              && conn.ws.sent == old(conn.ws.sent) + Frames(d.sent)
    {
      ghost var script := conn.ws.script;
      ghost var rows, tries, sent, before := buf.rows, conn.ws.tries, [], conn.ws.sent;
      ghost var d := Drain(rows, msgs, conn.ack, now, stamp, script, tries);
      DrainStarts(d, msgs, before);
      var i := 0;
      while i < |msgs|
        invariant 0 <= i <= |msgs|
        invariant buf.Valid() && buf.rows == rows
        invariant conn.ws.tries == tries && conn.ws.sent == before + Frames(sent)
        invariant Continues(d, sent, Drain(rows, msgs[i..], conn.ack, now, stamp, script, tries))
      {
        assert msgs[i..][1..] == msgs[i + 1..];
        var go := DrainOne(conn, msgs[i], now, stamp);
        if !go {
          DrainEnds(d, sent, rows, msgs[i..], conn.ack, now, stamp, script, tries);
          break;
        }
        DrainContinues(d, sent, rows, msgs[i..], conn.ack, now, stamp, script, tries);
        FramesOn(before, sent, Due(msgs[i], now));
        rows, tries := Settle(rows, msgs[i], conn.ack, now, stamp), Tried(msgs[i], now, tries);
        sent := sent + Due(msgs[i], now);
        i := i + 1;
      }
      if i == |msgs| {
        DrainOver(d, sent, rows, conn.ack, now, stamp, script, tries);
      }
    }

    // One turn of the drain loop; false ends it.
    method DrainOne(conn: MsgBoxConn, m: Msg, now: int, stamp: int) returns (go: bool)
      requires buf.Valid()
      modifies buf, conn.ws
      ensures buf.Valid()
      ensures go == (Expired(m, now) || conn.ws.script(old(conn.ws.tries)))
      ensures buf.rows == if go then Settle(old(buf.rows), m, conn.ack, now, stamp) else old(buf.rows)
      ensures conn.ws.tries == Tried(m, now, old(conn.ws.tries))
      ensures conn.ws.sent == old(conn.ws.sent) + if go then Frames(Due(m, now)) else []
    {
      if Expired(m, now) {
        var _ := buf.DeleteIfExists(m.id);
        return true;
      }
      go := conn.ws.Write(m.id, m.payload);
      if !go {
        return;
      }
      if conn.ack {
        buf.MarkDelivered(m.id, stamp);
      } else {
        var _ := buf.DeleteIfExists(m.id);
      }
    }

    // Removes a connection only if it is still the current one.
    method Unregister(did: DID, conn: MsgBoxConn)
      modifies this
      ensures conns == if did in old(conns) && old(conns)[did] == conn then old(conns) - {did} else old(conns)
    {
      if did in conns && conns[did] == conn {
        conns := conns - {did};
      }
    }

    method Deliver(row: Row, stamp: int) returns (status: Status)
      requires buf.Valid() && row.deliveredAt == None
      modifies buf, set did | did in conns :: conns[did].ws
      ensures buf.Valid()
      ensures var link := old(LinkTo(row.recipient));
              && Outcome(buf.rows, status) == DeliverTo(old(buf.rows), link, row, stamp)
              && forall did | did in conns && (row.recipient !in conns || conns[did].ws != conns[row.recipient].ws) ::
                   unchanged(conns[did].ws)
      ensures row.recipient in conns ==>
                var ws := conns[row.recipient].ws;
                var link := old(LinkTo(row.recipient));
                var tries := Attempts(old(buf.rows), link, row);
                && ws.tries == old(ws.tries) + (if tries then 1 else 0)
                && ws.sent == old(ws.sent) + (if tries && link.ok then [Frame(row.msg.id, row.msg.payload)] else [])
    {
      if row.recipient in conns && conns[row.recipient].ack {
        var full := buf.Add(row);
        if full {
          return Refused;
        }
        var ok := conns[row.recipient].ws.Write(row.msg.id, row.msg.payload);
        if !ok {
          return Buffered;
        }
        buf.MarkDelivered(row.msg.id, stamp);
        return Delivered;
      }
      if row.recipient in conns {
        var ok := conns[row.recipient].ws.Write(row.msg.id, row.msg.payload);
        if ok {
          return Delivered;
        }
      }
      var full := buf.Add(row);
      status := if full then Refused else Buffered;
    }

    // A client can acknowledge only its own messages.
    method Ack(did: DID, id: Key) returns (deleted: bool)
      requires buf.Valid()
      modifies buf
      ensures buf.Valid()
      ensures buf.rows == WithoutFor(old(buf.rows), id, did)
      ensures deleted <==> exists r :: r in old(buf.rows) && r.msg.id == id && r.recipient == did
    {
      deleted := buf.DeleteForRecipient(id, did);
    }

    // Withdraws a buffered message. `relay` is the cancel to send on, with
    // whoever holds the message as its recipient.
    method Cancel(toDid: DID, id: Key, relay: Msg, stamp: int) returns (relayed: bool)
      requires buf.Valid()
      modifies buf, set did | did in conns :: conns[did].ws
      ensures buf.Valid()
      ensures var rows := old(buf.rows);
              var to := if Has(rows, id) then RowOf(rows, id).recipient else toDid;
              var quiet := to == "" || (Has(rows, id) && RowOf(rows, id).deliveredAt.None?);
              && relayed == !quiet
              && buf.rows == (if to == "" then rows
                              else if quiet then Without(rows, id)
                              else DeliverTo(Without(rows, id), old(LinkTo(to)), Row(relay, to, None), stamp).rows)
              && (quiet ==> forall did | did in conns :: unchanged(conns[did].ws))
              && (forall did | did in conns && (to !in conns || conns[did].ws != conns[to].ws) ::
                    unchanged(conns[did].ws))
              && (!quiet && to in conns ==>
                    var ws, link, row := conns[to].ws, old(LinkTo(to)), Row(relay, to, None);
                    var tries := Attempts(Without(rows, id), link, row);
                    && ws.tries == old(ws.tries) + (if tries then 1 else 0)
                    && ws.sent == old(ws.sent) + (if tries && link.ok then [Frame(relay.id, relay.payload)] else []))
    {
      var to := toDid;
      var buffered := buf.RecipientOf(id);
      if buffered.Some? {
        to := buffered.value;
      }
      if to == "" {
        return false;
      }
      var found, delivered := buf.CancelBuffered(id);
      if found && !delivered {
        return false;
      }
      var _ := Deliver(Row(relay, to, None), stamp);
      relayed := true;
    }
  }
}
