// The relay on the real lock table. Every run of it is, seen without the table, a
// run of module Relay's machine, so what is proved there holds here.
module Assembled {
  import opened Wrappers
  import opened Table
  import opened Envelope
  import opened Relay
  import opened RelayEvents
  import opened RelaySettled
  import LockTable

  datatype System = System(
    rows: seq<Row>, conns: map<DID, Conn>, threads: map<Tid, Thread>, past: History, locks: LockTable.State)

  // The same state with each lock reduced to its holder.
  ghost function View(a: System): State {
    State(a.rows, a.conns, LockTable.Holders(a.locks), a.threads, a.past)
  }

  // A step of the relay proper, or of the lock table. `Unlock` is the deferred
  // unlock at the end of a body: the goroutine's work is done, and what is left
  // of it only lowers the count.
  datatype Move = Body(l: Label) | Table(k: LockTable.Label)

  ghost predicate Starts(l: Label) {
    l.Frame? || l.Post? || l.Connect?
  }

  ghost predicate Allowed(a: System, m: Move) {
    match m
    case Body(l) =>
      && !l.Acquire? && !l.Release?
      && Enabled(View(a), l)
      && (Starts(l) ==> l.t !in a.locks.phases)
    case Table(k) =>
      && LockTable.Enabled(a.locks, k)
      && (k.Start? ==> k.t in a.threads && !a.threads[k.t].pc.Locating? && k.d == a.threads[k.t].lock)
      && (k.Unlock? ==> Enabled(View(a), Release(k.t)))
  }

  ghost function Step(a: System, m: Move): System
    requires Allowed(a, m)
  {
    match m
    case Body(l) =>
      var s := Next(View(a), l);
      System(s.rows, s.conns, s.threads, s.past, if l.Restart? then LockTable.INIT else a.locks)
    case Table(k) =>
      a.(locks := LockTable.Next(a.locks, k), threads := if k.Unlock? then a.threads - {k.t} else a.threads)
  }

  ghost function After(run: seq<Move>): Option<System> {
    if run == [] then Some(System([], map[], map[], INIT.past, LockTable.INIT))
    else
      match After(run[..|run| - 1])
      case None => None
      case Some(a) => if Allowed(a, run[|run| - 1]) then Some(Step(a, run[|run| - 1])) else None
  }

  // Before its unlock a goroutine in the table is at work for the DID it locked;
  // after it, it is gone from the relay.
  ghost predicate Linked(a: System) {
    forall t | t in a.locks.phases ::
      var p := a.locks.phases[t];
      if p.Unlocked? || p.Leaving? || p.Left? then t !in a.threads
      else t in a.threads && !a.threads[t].pc.Locating? && a.threads[t].lock == p.d
  }

  // What one move shows to the relay's own machine: nothing, or one step of it.
  ghost function Shown(a: System, m: Move): Option<Label>
    requires Allowed(a, m)
  {
    match m
    case Body(l) => Some(l)
    case Table(k) => if k.Lock? then Some(Acquire(k.t)) else if k.Unlock? then Some(Release(k.t)) else None
  }

  ghost predicate Refines(a: System, m: Move)
    requires Allowed(a, m)
  {
    match Shown(a, m)
    case None => View(Step(a, m)) == View(a)
    case Some(l) => Enabled(View(a), l) && View(Step(a, m)) == Next(View(a), l)
  }

  lemma LockRefines(a: System, t: Tid)
    requires Allowed(a, Table(LockTable.Lock(t)))
    requires t in a.threads && !a.threads[t].pc.Locating? && a.threads[t].lock == a.locks.phases[t].d
    requires var h := LockTable.Holders(a.locks);
             && a.threads[t].lock !in h
             && LockTable.Holders(LockTable.Next(a.locks, LockTable.Lock(t))) == h[a.threads[t].lock := t]
    ensures Refines(a, Table(LockTable.Lock(t)))
  {
  }

  lemma UnlockRefines(a: System, t: Tid)
    requires Allowed(a, Table(LockTable.Unlock(t)))
    requires t in a.threads && a.threads[t].lock == a.locks.phases[t].d
    requires var h := LockTable.Holders(a.locks);
             LockTable.Holders(LockTable.Next(a.locks, LockTable.Unlock(t))) == h - {a.threads[t].lock}
    ensures Refines(a, Table(LockTable.Unlock(t)))
  {
  }

  lemma TableMoveRefines(a: System, k: LockTable.Label)
    requires LockTable.Inv(a.locks) && Linked(a) && Allowed(a, Table(k))
    ensures Refines(a, Table(k))
  {
    LockTable.HoldersStep(a.locks, k);
    match k
    case Lock(t) => LockRefines(a, t);
    case Unlock(t) => UnlockRefines(a, t);
    case _ =>
  }

  // A body step leaves the locks alone.
  lemma BodyLeavesHolders(s: State, l: Label)
    requires LockInv(s) && Enabled(s, l) && !l.Acquire? && !l.Release? && !l.Restart?
    ensures Next(s, l).holder == s.holder
    ensures forall t | t in s.threads && !s.threads[t].pc.Locating? ::
              && t in Next(s, l).threads && !Next(s, l).threads[t].pc.Locating?
              && Next(s, l).threads[t].lock == s.threads[t].lock
    ensures forall t | t in Next(s, l).threads :: t in s.threads || (Starts(l) && t == l.t)
  {
    match l
    case Register(t, r) => RegisterMoves(s, t, r);
    case Deliver(t, v) => DeliverMoves(s, t, v);
    case Cancel(t, k) => CancelMoves(s, t, k);
    case Frame(t, connDid, hasAddr, raw, env, pairAllowed, allowed) =>
      BeginAdds(s, t, Route(connDid, hasAddr, raw, env, pairAllowed, allowed));
    case _ =>
  }

  lemma BeginAdds(s: State, t: Tid, action: Action)
    requires t !in s.threads
    ensures Begin(s, t, action).holder == s.holder
    ensures forall u | u in s.threads ::
              u in Begin(s, t, action).threads && Begin(s, t, action).threads[u] == s.threads[u]
    ensures forall u | u in Begin(s, t, action).threads :: u in s.threads || u == t
  {
  }

  lemma BodyMoveRefines(a: System, l: Label)
    requires LockTable.Inv(a.locks) && LockInv(View(a)) && Allowed(a, Body(l))
    ensures Refines(a, Body(l))
  {
    if !l.Restart? {
      BodyLeavesHolders(View(a), l);
    }
  }

  lemma BodyKeepsLinked(a: System, l: Label)
    requires LockTable.Inv(a.locks) && LockInv(View(a)) && Linked(a) && Allowed(a, Body(l))
    ensures Linked(Step(a, Body(l)))
  {
    if !l.Restart? {
      BodyLeavesHolders(View(a), l);
    }
  }

  lemma TableKeepsLinked(a: System, k: LockTable.Label)
    requires Linked(a) && Allowed(a, Table(k))
    ensures Linked(Step(a, Table(k)))
  {
  }

  // The run that the relay's own machine sees.
  ghost function Seen(run: seq<Move>): seq<Label>
    requires After(run).Some?
  {
    if run == [] then []
    else
      var a := After(run[..|run| - 1]).value;
      match Shown(a, run[|run| - 1])
      case None => Seen(run[..|run| - 1])
      case Some(l) => Seen(run[..|run| - 1]) + [l]
  }

  lemma MoveRefines(a: System, m: Move)
    requires Allowed(a, m) && LockTable.Inv(a.locks) && Linked(a) && LockInv(View(a))
    ensures Refines(a, m)
  {
    match m
    case Body(l) => BodyMoveRefines(a, l);
    case Table(k) => TableMoveRefines(a, k);
  }

  // One move, and what it shows added to the run seen so far.
  lemma RefineMove(a: System, m: Move, seen: seq<Label>)
    requires Allowed(a, m) && LockTable.Inv(a.locks) && Linked(a)
    requires Relay.After(seen) == Some(View(a)) && LockInv(View(a))
    ensures var seen' := seen + match Shown(a, m) case None => [] case Some(l) => [l];
            Relay.After(seen') == Some(View(Step(a, m))) && LockInv(View(Step(a, m)))
  {
    MoveRefines(a, m);
    if Shown(a, m).Some? {
      var l := Shown(a, m).value;
      LockStep(View(a), l);
      assert (seen + [l])[..|seen|] == seen;
    } else {
      assert seen + [] == seen;
    }
  }

  lemma MoveKeepsLinked(a: System, m: Move)
    requires Allowed(a, m) && LockTable.Inv(a.locks) && Linked(a) && LockInv(View(a))
    ensures LockTable.Inv(Step(a, m).locks) && Linked(Step(a, m))
  {
    match m
    case Body(l) => BodyKeepsLinked(a, l);
    case Table(k) =>
      TableKeepsLinked(a, k);
      LockTable.Step(a.locks, k);
  }

  // Every run of the assembled relay is a run of the relay's machine.
  lemma {:induction false} Refinement(run: seq<Move>)
    requires After(run).Some?
    ensures var a := After(run).value;
            && LockTable.Inv(a.locks) && Linked(a)
            && Relay.After(Seen(run)) == Some(View(a))
            && LockInv(View(a))
  {
    if run == [] {
      assert LockTable.Holders(LockTable.INIT) == map[];
    } else {
      var a := After(run[..|run| - 1]).value;
      Refinement(run[..|run| - 1]);
      MoveKeepsLinked(a, run[|run| - 1]);
      RefineMove(a, run[|run| - 1], Seen(run[..|run| - 1]));
      assert Seen(run[..|run| - 1]) + [] == Seen(run[..|run| - 1]);
    }
  }

  // No stranded message, on the real lock table.
  lemma NoStrandedMessageAssembled(run: seq<Move>, c: Conn)
    requires After(run).Some? && IsConnected(Seen(run), c) && !Happened(Seen(run), Fails(c.id))
    ensures var a := After(run).value;
            && c.did in a.conns && a.conns[c.did] == c
            && ((forall t | t in a.locks.phases :: !(a.locks.phases[t].Holding? && a.locks.phases[t].d == c.did)) ==>
                  forall r | r in a.rows && r.recipient == c.did :: c.ack && r.deliveredAt.Some?)
  {
    Refinement(run);
    NoStrandedMessage(Seen(run), c);
    LockTable.HoldersAre(After(run).value.locks);
  }

  // ---- Progress ----

  // A step of a goroutine inside its lock.
  ghost predicate IsWork(l: Label) {
    l.Register? || l.Deliver? || l.Cancel? || l.Ack? || l.Release?
  }

  // A step of a goroutine that is at work: of its body, or of its lock.
  ghost predicate IsTheirs(a: System, m: Move) {
    match m
    case Body(l) => (l.Locate? || IsWork(l)) && l.t in a.threads
    case Table(k) => k.t in a.threads || k.t in a.locks.phases
  }

  // Whoever holds a lock has a next step of its own: none of Register, Deliver, Ack
  // and Cancel waits for anything once inside.
  lemma HolderGoesOn(s: State, t: Tid) returns (l: Label)
    requires LockInv(s) && Holds(s, t)
    ensures Enabled(s, l) && IsWork(l) && l.t == t
  {
    var pc := s.threads[t].pc;
    assert ThreadOk(s.threads[t]);
    match pc
    case Connecting(_) => l := Register(t, Replace);
    case Peeking(c) =>
      PeekedIsPeek(s.rows, c.did);
      l := Register(t, Peek(Peeked(s.rows, c.did), 0));
    case Draining(_, todo, now) =>
      l := if todo == [] then Release(t)
           else Register(t, if Expired(todo[0], now) then DropExpired else WriteNext(true));
    case Drained(_, _, _) => l := Register(t, Settle(0));
    case Looking(_) => l := Deliver(t, Lookup);
    case Checking(_, _) => l := Deliver(t, Check);
    case Inserting(_, _) => l := Deliver(t, Store(0));
    case Rechecking(_, _) => l := Deliver(t, Recheck);
    case Writing(_, _) => l := Deliver(t, Write(true));
    case Marking(_, _) => l := Deliver(t, Mark(0));
    case Acking(_) => l := Ack(t);
    case Selecting(_, _, _) => l := Cancel(t, Select);
    case Removing(_, _, _, _, _) => l := Cancel(t, Remove);
    case Relaying(_, _, _, _) => l := Cancel(t, Relay("", [], 0));
    case Finished => l := Release(t);
    case Locating(_, _, _, _) => assert false;
  }

  // No deadlock: while any goroutine is at work, one of those at work can step.
  lemma SomeoneCanStep(run: seq<Move>) returns (m: Move)
    requires After(run).Some?
    requires After(run).value.threads != map[] || After(run).value.locks.phases != map[]
    ensures Allowed(After(run).value, m) && IsTheirs(After(run).value, m)
  {
    Refinement(run);
    var a := After(run).value;
    if a.locks.phases == map[] {
      var t :| t in a.threads;
      m := if a.threads[t].pc.Locating? then Body(Locate(t)) else Table(LockTable.Start(t, a.threads[t].lock));
    } else {
      var t := LockTable.FindStep(a.locks);
      m := PhaseMove(a, t);
    }
  }

  lemma PhaseMove(a: System, t: Tid) returns (m: Move)
    requires LockTable.Inv(a.locks) && Linked(a) && LockInv(View(a)) && LockTable.CanStep(a.locks, t)
    ensures Allowed(a, m) && IsTheirs(a, m)
  {
    if a.locks.phases[t].Holding? {
      m := HolderMove(a, t);
    } else {
      m := LockMove(a, t);
    }
  }

  lemma LockMove(a: System, t: Tid) returns (m: Move)
    requires LockTable.CanStep(a.locks, t) && !a.locks.phases[t].Holding?
    ensures Allowed(a, m) && IsTheirs(a, m)
  {
    var k := if LockTable.Enabled(a.locks, LockTable.TakeMu(t)) then LockTable.TakeMu(t)
             else if LockTable.Enabled(a.locks, LockTable.Enter(t)) then LockTable.Enter(t)
             else if LockTable.Enabled(a.locks, LockTable.FreeMu(t)) then LockTable.FreeMu(t)
             else if LockTable.Enabled(a.locks, LockTable.Lock(t)) then LockTable.Lock(t)
             else LockTable.Leave(t);
    m := Table(k);
  }

  lemma HolderMove(a: System, t: Tid) returns (m: Move)
    requires LockTable.Inv(a.locks) && Linked(a) && LockInv(View(a))
    requires t in a.locks.phases && a.locks.phases[t].Holding?
    ensures Allowed(a, m) && IsTheirs(a, m)
  {
    LockTable.HoldersAre(a.locks);
    var l := HolderGoesOn(View(a), t);
    m := if l.Release? then Table(LockTable.Unlock(t)) else Body(l);
  }
}
