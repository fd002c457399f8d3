// What an ack does to the table, and that a message acked once is never written
// again.
module RelayAck {
  import opened Wrappers
  import opened Table
  import opened Envelope
  import opened Relay
  import opened RelayEvents
  import opened RelaySettled
  import opened RelayKept
  import opened RelayCancel
  import opened RelaySocket

  // The connection's own row of that id goes, and nothing else does.
  lemma AckTakesRow(s: State, t: Tid)
    requires Holds(s, t) && s.threads[t].pc.Acking?
    ensures var key, d, s' := s.threads[t].pc.key, s.threads[t].lock, Next(s, Ack(t));
            && (forall r :: r in s'.rows <==> r in s.rows && !(r.msg.id == key && r.recipient == d))
            && (forall r | r in s.rows && r.msg.id == key && r.recipient == d ::
                  Removal(r, ByAck(d)) in s'.past.removed)
            && s'.conns == s.conns && s'.holder == s.holder && s'.threads == Goto(s.threads, t, Finished)
  {
  }

  // The message `id` is gone and nobody has it in hand.
  ghost predicate Silenced(s: State, id: Key) {
    && id in s.past.sends
    && (id !in s.past.reused ==>
          && Kept(s, id) && !Has(s.rows, id)
          && forall t | t in s.threads :: QuietPc(s.threads[t].pc, id))
  }

  lemma AckFindsQuiet(s: State, t: Tid)
    requires Inv(s) && Holds(s, t) && s.threads[t].pc.Acking? && Once(s.past, s.threads[t].pc.key)
    requires exists r :: r in s.rows && r.msg.id == s.threads[t].pc.key && r.recipient == s.threads[t].lock
    ensures forall u | u in s.threads :: QuietPc(s.threads[u].pc, s.threads[t].pc.key)
  {
    var key, d := s.threads[t].pc.key, s.threads[t].lock;
    var r :| r in s.rows && r.msg.id == key && r.recipient == d;
    assert RowOk(s.past, r);
    forall u | u in s.threads
      ensures QuietPc(s.threads[u].pc, key)
    {
      var th := s.threads[u];
      assert ThreadInv(s, th.pc) && ThreadOk(th) && (Holds(s, u) || MayWait(th.pc));
    }
  }

  lemma AckSilences(s: State, t: Tid)
    requires Inv(s) && Holds(s, t) && s.threads[t].pc.Acking? && Once(s.past, s.threads[t].pc.key)
    requires exists r :: r in s.rows && r.msg.id == s.threads[t].pc.key && r.recipient == s.threads[t].lock
    ensures Silenced(AckNext(s, t), s.threads[t].pc.key)
  {
    AckFindsQuiet(s, t);
    AckKeeps(s, t);
    AckLeavesNone(s, t);
    GoneIsSilenced(s, AckNext(s, t), t, s.threads[t].pc.key);
  }

  lemma GoneIsSilenced(s: State, s': State, t: Tid, id: Key)
    requires Extends(s, s') && id in s.past.sends && Has(s.rows, id) && !Has(s'.rows, id)
    requires t in s.threads && s'.threads == Goto(s.threads, t, Finished)
    requires forall u | u in s.threads :: QuietPc(s.threads[u].pc, id)
    ensures Silenced(s', id)
  {
  }

  lemma AckLeavesNone(s: State, t: Tid)
    requires TableInv(s) && Holds(s, t) && s.threads[t].pc.Acking?
    requires exists r :: r in s.rows && r.msg.id == s.threads[t].pc.key && r.recipient == s.threads[t].lock
    ensures Has(s.rows, s.threads[t].pc.key) && !Has(AckNext(s, t).rows, s.threads[t].pc.key)
  {
    var r :| r in s.rows && r.msg.id == s.threads[t].pc.key && r.recipient == s.threads[t].lock;
    RowOfIs(s.rows, r);
    forall q | q in s.rows && q.msg.id == r.msg.id
      ensures q == r
    {
      RowOfIs(s.rows, q);
    }
  }

  // ---- Nobody takes it up again ----

  lemma RegisterQuiet(s: State, t: Tid, r: RegisterStep, id: Key)
    requires RegisterEnabled(s, t, r) && QuietPc(s.threads[t].pc, id) && !Has(s.rows, id)
    ensures QuietPc(RegisterNext(s, t, r).threads[t].pc, id)
  {
    if r.Peek? {
      PeekedAreRows(s.rows, s.threads[t].pc.c.did, r.msgs);
    }
  }

  lemma DeliverQuiet(s: State, t: Tid, v: DeliverStep, id: Key)
    requires DeliverEnabled(s, t, v) && QuietPc(s.threads[t].pc, id)
    ensures QuietPc(DeliverNext(s, t, v).threads[t].pc, id)
  {
  }

  lemma CancelQuiet(s: State, t: Tid, k: CancelStep, id: Key)
    requires CancelEnabled(s, t, k) && id in s.past.sends
    ensures id in CancelNext(s, t, k).past.reused || QuietPc(CancelNext(s, t, k).threads[t].pc, id)
  {
  }

  lemma BeginQuiet(s: State, t: Tid, action: Action, id: Key)
    requires id in s.past.sends && t in Begin(s, t, action).threads && t !in s.threads
    ensures id in Begin(s, t, action).past.reused || QuietPc(Begin(s, t, action).threads[t].pc, id)
  {
  }

  lemma MoverQuiet(s: State, l: Label, u: Tid, id: Key)
    requires LockInv(s) && Silenced(s, id) && Enabled(s, l) && u in Next(s, l).threads
    requires id !in Next(s, l).past.reused && id !in s.past.reused
    requires u in s.threads ==> Next(s, l).threads[u] != s.threads[u]
    ensures QuietPc(Next(s, l).threads[u].pc, id)
  {
    Moved(s, l, u);
    match l
    case Register(t, r) => RegisterQuiet(s, t, r, id);
    case Deliver(t, v) => DeliverQuiet(s, t, v, id);
    case Cancel(t, k) => CancelQuiet(s, t, k, id);
    case Frame(t, connDid, hasAddr, raw, env, pairAllowed, allowed) =>
      BeginQuiet(s, t, Route(connDid, hasAddr, raw, env, pairAllowed, allowed), id);
    case Post(t, sender, eid, to, raw) =>
      BeginQuiet(s, t, Forward(Send(sender, eid, to, raw, None, None, None)), id);
    case _ =>
  }

  lemma SilentStep(s: State, l: Label, id: Key)
    requires Inv(s) && Silenced(s, id) && Enabled(s, l)
    ensures Silenced(Next(s, l), id)
  {
    var s' := Next(s, l);
    IdStep(s, l);
    if id !in s'.past.reused {
      StaysGone(s, s', id);
      forall u | u in s'.threads
        ensures QuietPc(s'.threads[u].pc, id)
      {
        if !(u in s.threads && s'.threads[u] == s.threads[u]) {
          MoverQuiet(s, l, u, id);
        }
      }
    }
  }

  lemma {:induction false} StaysSilenced(run: seq<Label>, id: Key, i: nat, j: nat)
    requires After(run).Some? && i <= j <= |run|
    requires After(run[..i]).Some? && Silenced(After(run[..i]).value, id)
    ensures After(run[..j]).Some? && Silenced(After(run[..j]).value, id)
  {
    if i == j {
    } else {
      StaysSilenced(run, id, i, j - 1);
      StepSilenced(run, id, j - 1);
    }
  }

  lemma StepSilenced(run: seq<Label>, id: Key, j: nat)
    requires j < |run| && After(run).Some? && After(run[..j]).Some? && Silenced(After(run[..j]).value, id)
    ensures After(run[..j + 1]).Some? && Silenced(After(run[..j + 1]).value, id)
  {
    AfterPrefix(run, j);
    InvRun(run[..j]);
    SilentStep(After(run[..j]).value, run[j], id);
  }

  // Step `i` is an ack, by a connection of `d`, of the message `id` buffered for it.
  ghost predicate AckedAt(run: seq<Label>, i: nat, id: Key, d: DID) {
    && i < |run| && After(run[..i]).Some?
    && var s := After(run[..i]).value;
       && run[i].Ack? && Enabled(s, run[i])
       && s.threads[run[i].t].pc.key == id && s.threads[run[i].t].lock == d
       && exists r :: r in s.rows && r.msg.id == id && r.recipient == d
  }

  lemma AckedIsSilenced(run: seq<Label>, id: Key, d: DID, i: nat)
    requires After(run).Some? && AckedAt(run, i, id, d)
    ensures After(run[..i + 1]).Some? && Silenced(After(run[..i + 1]).value, id)
  {
    AfterPrefix(run, i);
    InvRun(run[..i]);
    AckIsSilent(After(run[..i]).value, run[i].t, id);
  }

  lemma AckIsSilent(s: State, t: Tid, id: Key)
    requires Inv(s) && Holds(s, t) && s.threads[t].pc.Acking? && s.threads[t].pc.key == id
    requires exists r :: r in s.rows && r.msg.id == id && r.recipient == s.threads[t].lock
    ensures Silenced(Next(s, Ack(t)), id)
  {
    assert RowOk(s.past, RowOf(s.rows, id));
    if id !in s.past.reused {
      AckSilences(s, t);
    }
  }

  lemma SilencedIsNotWritten(s: State, l: Label, id: Key)
    requires Silenced(s, id) && Enabled(s, l) && id !in s.past.reused && WriteOf(s, l).Some?
    ensures WriteOf(s, l).value.0.id != id
  {
  }

  // Once acked a message is written to no connection, now or after any reconnect,
  // sweep or restart, unless its id is submitted more than once.
  lemma AckedIsNotWrittenAgain(run: seq<Label>, id: Key, d: DID, i: nat, j: nat)
    requires After(run).Some? && AckedAt(run, i, id, d) && i < j < |run|
    ensures After(run[..j]).Some?
    ensures var s := After(run[..j]).value;
            id !in s.past.reused ==>
              !Has(s.rows, id) && (WriteOf(s, run[j]).Some? ==> WriteOf(s, run[j]).value.0.id != id)
  {
    AckedIsSilenced(run, id, d, i);
    StaysSilenced(run, id, i + 1, j);
    AfterPrefix(run, j);
    var s := After(run[..j]).value;
    if id !in s.past.reused && WriteOf(s, run[j]).Some? {
      SilencedIsNotWritten(s, run[j], id);
    }
  }
}
