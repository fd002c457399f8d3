// What happens in a run, read off its steps: the history fields of module Relay and
// the hub's current connections are exactly what these events make them.
module RelayEvents {
  import opened Wrappers
  import opened Table
  import opened Envelope
  import opened Relay

  datatype Event =
    | Fails(conn: nat)           // a write to connection `conn` fails
    | Writes(d: Delivery)        // a write succeeds
    | Accepts(id: Key)           // a delivery returns no error
    | Submits(id: Key)           // a message is handed to a delivery
    | Joins(c: Conn)             // `c` becomes its DID's connection
    | Leaves(c: Conn)            // `c` is unregistered or replaced, or the relay restarts

  // The write that step `l` is, if it is one: to which connection, of what, and how
  // it ends.
  ghost function WriteOf(s: State, l: Label): Option<(Delivery, bool)> {
    match l
    case Register(t, WriteNext(ok)) =>
      if t in s.threads && s.threads[t].pc.Draining? && s.threads[t].pc.todo != [] then
        Some((Delivery(s.threads[t].pc.c, s.threads[t].pc.todo[0].id), ok))
      else None
    case Deliver(t, Write(ok)) =>
      if t in s.threads && s.threads[t].pc.Writing? then
        Some((Delivery(s.threads[t].pc.c, s.threads[t].pc.send.Key()), ok))
      else None
    case _ => None
  }

  // The message that step `l` hands to a delivery.
  ghost function Submission(s: State, l: Label): Option<Key> {
    match l
    case Frame(_, connDid, hasAddr, raw, env, pairAllowed, allowed) =>
      (match Route(connDid, hasAddr, raw, env, pairAllowed, allowed)
       case Forward(send) => Some(send.Key())
       case _ => None)
    case Post(_, sender, eid, _, _) => Some(CompositeKey(sender, eid))
    case Cancel(t, Relay(eid, _, _)) =>
      if t in s.threads && s.threads[t].pc.Relaying? then Some(CompositeKey(s.threads[t].pc.who, eid)) else None
    case _ => None
  }

  // Step `v` is the last of a delivery to `c`, if any, that returns no error: kept
  // for a recipient that is not to ack, written, or kept for one that is.
  ghost predicate Succeeds(s: State, pc: Pc, v: DeliverStep) {
    match pc
    case Checking(send, via) => Has(s.rows, send.Key()) && !(via.Some? && via.value.ack)
    case Rechecking(send, via) => Has(s.rows, send.Key()) && !(via.Some? && via.value.ack)
    case Inserting(send, via) =>
      v.Store? && !Has(s.rows, send.Key()) && Fits(s.rows, send.RowAt(v.now)) && !(via.Some? && via.value.ack)
    case Writing(_, c) => v.Write? && v.ok != c.ack
    case Marking(_, _) => true
    case _ => false
  }

  ghost predicate Happens(ev: Event, s: State, l: Label) {
    match ev
    case Fails(c) => WriteOf(s, l).Some? && WriteOf(s, l).value.0.c.id == c && !WriteOf(s, l).value.1
    case Writes(d) => WriteOf(s, l) == Some((d, true))
    case Accepts(id) =>
      && l.Deliver? && l.t in s.threads && s.threads[l.t].pc.IsSend() && s.threads[l.t].pc.send.Key() == id
      && Succeeds(s, s.threads[l.t].pc, l.v)
    case Submits(id) => Submission(s, l) == Some(id)
    case Joins(c) => l.Register? && l.r.Replace? && l.t in s.threads && s.threads[l.t].pc == Connecting(c)
    case Leaves(c) =>
      || l == Unregister(c)
      || l.Restart?
      || (l.Register? && l.r.Replace? && l.t in s.threads
          && s.threads[l.t].pc.Connecting? && s.threads[l.t].pc.c.did == c.did)
  }

  // Event `ev` at step `j` of the run.
  ghost predicate At(run: seq<Label>, j: nat, ev: Event) {
    j < |run| && After(run[..j]).Some? && Happens(ev, After(run[..j]).value, run[j])
  }

  ghost predicate Happened(run: seq<Label>, ev: Event) {
    exists j: nat :: At(run, j, ev)
  }

  lemma AtEarlier(run: seq<Label>, j: nat, ev: Event)
    requires run != [] && j < |run| - 1
    ensures At(run, j, ev) <==> At(run[..|run| - 1], j, ev)
  {
    assert run[..|run| - 1][..j] == run[..j];
  }

  lemma HappenedLast(run: seq<Label>, ev: Event)
    requires run != [] && After(run).Some?
    ensures var init := run[..|run| - 1];
            Happened(run, ev) <==> Happened(init, ev) || Happens(ev, After(init).value, run[|run| - 1])
  {
    var init, last := run[..|run| - 1], |run| - 1;
    if Happened(run, ev) {
      var j: nat :| At(run, j, ev);
      if j < last {
        AtEarlier(run, j, ev);
      }
    }
    if Happened(init, ev) {
      var j: nat :| At(init, j, ev);
      AtEarlier(run, j, ev);
    }
    if Happens(ev, After(init).value, run[last]) {
      assert At(run, last, ev);
    }
  }

  // ---- The history ----

  lemma RegisterRecords(s: State, t: Tid, r: RegisterStep)
    requires RegisterEnabled(s, t, r)
    ensures var past, past', l := s.past, RegisterNext(s, t, r).past, Register(t, r);
            && (forall c: nat :: c in past'.failed <==> c in past.failed || Happens(Fails(c), s, l))
            && (forall d :: d in past'.written <==> d in past.written || Happens(Writes(d), s, l))
            && past'.accepted == past.accepted
  {
  }

  lemma DeliverRecords(s: State, t: Tid, v: DeliverStep)
    requires DeliverEnabled(s, t, v)
    ensures var past, past', l := s.past, DeliverNext(s, t, v).past, Deliver(t, v);
            && (forall c: nat :: c in past'.failed <==> c in past.failed || Happens(Fails(c), s, l))
            && (forall d :: d in past'.written <==> d in past.written || Happens(Writes(d), s, l))
            && (forall id: Key :: id in past'.accepted <==> id in past.accepted || Happens(Accepts(id), s, l))
  {
    var send := s.threads[t].pc.send;
    if v.Store? && Insert(s.rows, send.RowAt(v.now)) != s.rows {
      assert !Has(s.rows, send.Key());
    }
  }

  lemma BeginRecords(s: State, t: Tid, action: Action)
    ensures var past, past' := s.past, Begin(s, t, action).past;
            past'.failed == past.failed && past'.written == past.written && past'.accepted == past.accepted
  {
  }

  // Failed and successful writes and accepted deliveries enter the history when
  // they happen, and nothing else does.
  lemma StepRecords(s: State, l: Label)
    requires Enabled(s, l)
    ensures var past, past' := s.past, Next(s, l).past;
            && (forall c: nat :: c in past'.failed <==> c in past.failed || Happens(Fails(c), s, l))
            && (forall d :: d in past'.written <==> d in past.written || Happens(Writes(d), s, l))
            && (forall id: Key :: id in past'.accepted <==> id in past.accepted || Happens(Accepts(id), s, l))
  {
    match l
    case Register(t, r) => RegisterRecords(s, t, r);
    case Deliver(t, v) => DeliverRecords(s, t, v);
    case Frame(t, connDid, hasAddr, raw, env, pairAllowed, allowed) =>
      BeginRecords(s, t, Route(connDid, hasAddr, raw, env, pairAllowed, allowed));
    case _ =>
  }

  lemma {:induction false} HistoryIsExact(run: seq<Label>)
    requires After(run).Some?
    ensures var past := After(run).value.past;
            && (forall c: nat :: c in past.failed <==> Happened(run, Fails(c)))
            && (forall d :: d in past.written <==> Happened(run, Writes(d)))
            && (forall id: Key :: id in past.accepted <==> Happened(run, Accepts(id)))
  {
    if run == [] {
    } else {
      var init := run[..|run| - 1];
      HistoryIsExact(init);
      StepRecords(After(init).value, run[|run| - 1]);
      forall ev: Event {
        HappenedLast(run, ev);
      }
    }
  }

  // How often `id` was submitted.
  ghost function Submissions(run: seq<Label>, id: Key): nat
    requires After(run).Some?
  {
    if run == [] then 0
    else
      var init := run[..|run| - 1];
      Submissions(init, id) + if Happens(Submits(id), After(init).value, run[|run| - 1]) then 1 else 0
  }

  // What `Submits` says of step `l` is what the history records of it.
  ghost predicate RecordsSubmission(past: History, past': History, id: Key, submits: bool) {
    && (id in past'.sends <==> id in past.sends || submits)
    && (id in past'.reused <==> id in past.reused || (id in past.sends && submits))
  }

  lemma BeginSubmits(s: State, t: Tid, action: Action, id: Key)
    ensures RecordsSubmission(s.past, Begin(s, t, action).past, id, action.Forward? && action.send.Key() == id)
  {
  }

  lemma CancelSubmits(s: State, t: Tid, k: CancelStep, id: Key)
    requires CancelEnabled(s, t, k)
    ensures RecordsSubmission(s.past, CancelNext(s, t, k).past, id, Happens(Submits(id), s, Cancel(t, k)))
  {
  }

  lemma DeliverSubmits(s: State, t: Tid, v: DeliverStep)
    requires DeliverEnabled(s, t, v)
    ensures DeliverNext(s, t, v).past.sends == s.past.sends && DeliverNext(s, t, v).past.reused == s.past.reused
    ensures DeliverNext(s, t, v).conns == s.conns
  {
  }

  lemma RegisterSubmits(s: State, t: Tid, r: RegisterStep)
    requires RegisterEnabled(s, t, r)
    ensures RegisterNext(s, t, r).past.sends == s.past.sends && RegisterNext(s, t, r).past.reused == s.past.reused
    ensures !r.Replace? ==> RegisterNext(s, t, r).conns == s.conns
  {
  }

  lemma StepSubmits(s: State, l: Label, id: Key)
    requires Enabled(s, l)
    ensures RecordsSubmission(s.past, Next(s, l).past, id, Happens(Submits(id), s, l))
  {
    match l
    case Register(t, r) => RegisterSubmits(s, t, r);
    case Deliver(t, v) => DeliverSubmits(s, t, v);
    case Cancel(t, k) => CancelSubmits(s, t, k, id);
    case Frame(t, connDid, hasAddr, raw, env, pairAllowed, allowed) =>
      BeginSubmits(s, t, Route(connDid, hasAddr, raw, env, pairAllowed, allowed), id);
    case _ =>
  }

  // An id is in the history once it has been submitted, and is reused once it has
  // been submitted again.
  lemma {:induction false} SubmissionsAreExact(run: seq<Label>, id: Key)
    requires After(run).Some?
    ensures var past := After(run).value.past;
            && (id in past.sends <==> Submissions(run, id) >= 1)
            && (id in past.reused <==> Submissions(run, id) >= 2)
  {
    if run == [] {
    } else {
      var init := run[..|run| - 1];
      SubmissionsAreExact(init, id);
      StepSubmits(After(init).value, run[|run| - 1], id);
    }
  }

  // ---- The current connections ----

  ghost predicate JoinedAt(run: seq<Label>, i: nat, c: Conn) {
    At(run, i, Joins(c)) && forall j: nat | i < j :: !At(run, j, Leaves(c))
  }

  // `c` has joined, and since then nothing has made it leave.
  ghost predicate IsConnected(run: seq<Label>, c: Conn) {
    exists i: nat :: JoinedAt(run, i, c)
  }

  ghost predicate IsCurrent(s: State, c: Conn) {
    c.did in s.conns && s.conns[c.did] == c
  }

  lemma BeginConnects(s: State, t: Tid, action: Action)
    ensures Begin(s, t, action).conns == s.conns
  {
  }

  lemma CancelConnects(s: State, t: Tid, k: CancelStep)
    requires CancelEnabled(s, t, k)
    ensures CancelNext(s, t, k).conns == s.conns
  {
  }

  lemma StepConnects(s: State, l: Label, c: Conn)
    requires Enabled(s, l)
    ensures IsCurrent(Next(s, l), c) <==>
              Happens(Joins(c), s, l) || (IsCurrent(s, c) && !Happens(Leaves(c), s, l))
  {
    match l
    case Register(t, r) => RegisterSubmits(s, t, r);
    case Deliver(t, v) => DeliverSubmits(s, t, v);
    case Cancel(t, k) => CancelConnects(s, t, k);
    case Frame(t, connDid, hasAddr, raw, env, pairAllowed, allowed) =>
      BeginConnects(s, t, Route(connDid, hasAddr, raw, env, pairAllowed, allowed));
    case _ =>
  }

  lemma ConnectedLast(run: seq<Label>, c: Conn)
    requires run != [] && After(run).Some?
    ensures var init, last := run[..|run| - 1], run[|run| - 1];
            IsConnected(run, c) <==>
              || Happens(Joins(c), After(init).value, last)
              || (IsConnected(init, c) && !Happens(Leaves(c), After(init).value, last))
  {
    var init, last := run[..|run| - 1], |run| - 1;
    if IsConnected(run, c) {
      var i: nat :| JoinedAt(run, i, c);
      if i < last {
        assert !At(run, last, Leaves(c));
        JoinedEarlier(run, i, c);
      }
    }
    if Happens(Joins(c), After(init).value, run[last]) {
      assert JoinedAt(run, last, c);
    }
    if IsConnected(init, c) && !Happens(Leaves(c), After(init).value, run[last]) {
      var i: nat :| JoinedAt(init, i, c);
      assert !At(run, last, Leaves(c));
      JoinedEarlier(run, i, c);
    }
  }

  lemma JoinedEarlier(run: seq<Label>, i: nat, c: Conn)
    requires i < |run| - 1 && !At(run, |run| - 1, Leaves(c))
    ensures JoinedAt(run, i, c) <==> JoinedAt(run[..|run| - 1], i, c)
  {
    var init := run[..|run| - 1];
    AtEarlier(run, i, Joins(c));
    if JoinedAt(run, i, c) {
      forall j: nat | i < j ensures !At(init, j, Leaves(c)) {
        if j < |init| {
          AtEarlier(run, j, Leaves(c));
          assert !At(run, j, Leaves(c));
        }
      }
    }
    if JoinedAt(init, i, c) {
      forall j: nat | i < j ensures !At(run, j, Leaves(c)) {
        if j < |init| {
          AtEarlier(run, j, Leaves(c));
          assert !At(init, j, Leaves(c));
        }
      }
    }
  }

  // A connection is its DID's current one exactly when it has joined and neither
  // been unregistered nor replaced, and the relay has not restarted since.
  lemma {:induction false} ConnectedExactly(run: seq<Label>, c: Conn)
    requires After(run).Some?
    ensures IsConnected(run, c) <==> IsCurrent(After(run).value, c)
  {
    if run == [] {
    } else {
      var init := run[..|run| - 1];
      ConnectedExactly(init, c);
      ConnectedLast(run, c);
      StepConnects(After(init).value, run[|run| - 1], c);
    }
  }
}
