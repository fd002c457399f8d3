// The recipient-lock table: reference-counted lock objects in a map guarded by
// `locksMu`. Every acquisition and release of a mutex, and every section between
// them, is one step.
module LockTable {
  import opened Wrappers
  import opened Table

  type Tid = nat
  type Lid = nat // a lock object's identity

  // Where a goroutine stands in lockRecipient(d) and in the unlock it returns.
  datatype Phase =
    | WantMu(d: DID)
    | InMu(d: DID)             // holds locksMu
    | Counted(d: DID, l: Lid)  // found or made the lock object and raised refs; holds locksMu
    | Waiting(d: DID, l: Lid)  // for the lock object's own mutex
    | Holding(d: DID, l: Lid)
    | Unlocked(d: DID, l: Lid)
    | Leaving(d: DID, l: Lid)  // holds locksMu again
    | Left(d: DID)             // lowered refs; still holds locksMu
  {
    predicate HasRef() {
      Counted? || Waiting? || Holding? || Unlocked? || Leaving?
    }

    predicate InSection() {
      InMu? || Counted? || Leaving? || Left?
    }
  }

  datatype State = State(
    mu: Option<Tid>,          // who holds locksMu
    table: map<DID, Lid>,     // recipientLocks
    refs: map<Lid, int>,
    owner: map<Lid, Tid>,     // who holds each lock object's mutex
    next: Lid,                // the next lock object allocated
    phases: map<Tid, Phase>)

  ghost const INIT := State(None, map[], map[], map[], 0, map[])

  datatype Label =
    | Start(t: Tid, d: DID)
    | TakeMu(t: Tid) | Enter(t: Tid) | FreeMu(t: Tid)
    | Lock(t: Tid) | Unlock(t: Tid) | Leave(t: Tid)

  ghost predicate Enabled(s: State, l: Label) {
    if l.Start? then l.t !in s.phases
    else
      && l.t in s.phases
      && match l
         case TakeMu(t) => s.mu.None? && (s.phases[t].WantMu? || s.phases[t].Unlocked?)
         case Enter(t) => s.phases[t].InMu? && (s.phases[t].d in s.table ==> s.table[s.phases[t].d] in s.refs)
         case FreeMu(t) => s.phases[t].Counted? || s.phases[t].Left?
         case Lock(t) => s.phases[t].Waiting? && s.phases[t].l !in s.owner
         case Unlock(t) => s.phases[t].Holding?
         case Leave(t) => s.phases[t].Leaving? && s.phases[t].l in s.refs
  }

  ghost function Next(s: State, l: Label): State
    requires Enabled(s, l)
  {
    var t := l.t;
    match l
    case Start(_, d) => s.(phases := s.phases[t := WantMu(d)])
    case TakeMu(_) =>
      var p := s.phases[t];
      s.(mu := Some(t), phases := s.phases[t := if p.WantMu? then InMu(p.d) else Leaving(p.d, p.l)])
    case Enter(_) =>
      var d := s.phases[t].d;
      if d in s.table then
        s.(refs := s.refs[s.table[d] := s.refs[s.table[d]] + 1], phases := s.phases[t := Counted(d, s.table[d])])
      else
        s.(table := s.table[d := s.next], refs := s.refs[s.next := 1], next := s.next + 1,
           phases := s.phases[t := Counted(d, s.next)])
    case FreeMu(_) =>
      var p := s.phases[t];
      s.(mu := None, phases := if p.Left? then s.phases - {t} else s.phases[t := Waiting(p.d, p.l)])
    case Lock(_) =>
      var p := s.phases[t];
      s.(owner := s.owner[p.l := t], phases := s.phases[t := Holding(p.d, p.l)])
    case Unlock(_) =>
      var p := s.phases[t];
      s.(owner := s.owner - {p.l}, phases := s.phases[t := Unlocked(p.d, p.l)])
    case Leave(_) =>
      var p := s.phases[t];
      var refs := s.refs[p.l] - 1;
      s.(refs := s.refs[p.l := refs],
         table := if refs == 0 then s.table - {p.d} else s.table,
         phases := s.phases[t := Left(p.d)])
  }

  // The goroutines waiting for, holding or releasing a lock object.
  ghost function Referrers(phases: map<Tid, Phase>, l: Lid): set<Tid> {
    set t | t in phases && phases[t].HasRef() && phases[t].l == l
  }

  // locksMu is held by the one goroutine in a section under it.
  ghost predicate MuInv(s: State) {
    && (forall t | t in s.phases :: s.phases[t].InSection() <==> s.mu == Some(t))
    && (s.mu.Some? ==> s.mu.value in s.phases)
  }

  // Everyone using the lock of a DID shares the object in the map.
  ghost predicate ShareInv(s: State) {
    && (forall t | t in s.phases && s.phases[t].HasRef() ::
          s.phases[t].d in s.table && s.table[s.phases[t].d] == s.phases[t].l)
    && (forall d | d in s.table :: s.table[d] in s.refs && s.refs[s.table[d]] > 0)
    && (forall d, e | d in s.table && e in s.table && s.table[d] == s.table[e] :: d == e)
  }

  // `refs` counts the goroutines that use the object.
  ghost predicate CountInv(s: State) {
    forall l | l in s.refs :: l < s.next && s.refs[l] == |Referrers(s.phases, l)|
  }

  // A mutex is held by the one goroutine that says so.
  ghost predicate OwnerInv(s: State) {
    && (forall l | l in s.owner ::
          s.owner[l] in s.phases && s.phases[s.owner[l]].Holding? && s.phases[s.owner[l]].l == l)
    && (forall t | t in s.phases && s.phases[t].Holding? :: s.phases[t].l in s.owner && s.owner[s.phases[t].l] == t)
  }

  ghost predicate Inv(s: State) {
    MuInv(s) && ShareInv(s) && CountInv(s) && OwnerInv(s)
  }

  lemma ReferrersUpdate(phases: map<Tid, Phase>, t: Tid, p: Phase, l: Lid)
    ensures Referrers(phases[t := p], l) ==
              if p.HasRef() && p.l == l then Referrers(phases, l) + {t} else Referrers(phases, l) - {t}
  {
  }

  lemma MuStep(s: State, l: Label)
    requires MuInv(s) && Enabled(s, l)
    ensures MuInv(Next(s, l))
  {
  }

  lemma OwnerStep(s: State, l: Label)
    requires OwnerInv(s) && Enabled(s, l)
    ensures OwnerInv(Next(s, l))
  {
  }

  lemma UncountedShare(s: State, l: Label)
    requires ShareInv(s) && Enabled(s, l) && !l.Enter? && !l.Leave?
    ensures ShareInv(Next(s, l))
  {
  }

  lemma EnterShare(s: State, t: Tid)
    requires ShareInv(s) && CountInv(s) && Enabled(s, Enter(t))
    ensures ShareInv(Next(s, Enter(t)))
  {
    var s' := Next(s, Enter(t));
    assert s.next !in s.refs;
  }

  // The last user takes the entry with it: nobody else refers to the object.
  lemma LeaveShare(s: State, t: Tid)
    requires ShareInv(s) && CountInv(s) && Enabled(s, Leave(t))
    ensures ShareInv(Next(s, Leave(t)))
  {
    var s' := Next(s, Leave(t));
    var p := s.phases[t];
    assert t in Referrers(s.phases, p.l);
    if s'.refs[p.l] == 0 {
      assert |Referrers(s.phases, p.l) - {t}| == 0;
      assert Referrers(s.phases, p.l) == {t};
      forall u | u in s'.phases && s'.phases[u].HasRef()
        ensures s'.phases[u].d != p.d
      {
        assert u != t && s.phases[u] == s'.phases[u] && u !in Referrers(s.phases, p.l);
      }
    }
  }

  lemma UncountedCount(s: State, l: Label)
    requires CountInv(s) && Enabled(s, l) && !l.Enter? && !l.Leave?
    ensures CountInv(Next(s, l))
  {
    var s' := Next(s, l);
    forall x | x in s'.refs
      ensures s'.refs[x] == |Referrers(s'.phases, x)|
    {
      assert Referrers(s'.phases, x) == Referrers(s.phases, x);
    }
  }

  // The users of every object when a goroutine joins those of `id`.
  lemma JoinCount(phases: map<Tid, Phase>, t: Tid, d: DID, id: Lid, x: Lid)
    requires t in phases && !phases[t].HasRef()
    ensures |Referrers(phases[t := Counted(d, id)], x)| == |Referrers(phases, x)| + if x == id then 1 else 0
  {
    ReferrersUpdate(phases, t, Counted(d, id), x);
    assert t !in Referrers(phases, x);
  }

  lemma EnterCount(s: State, t: Tid)
    requires ShareInv(s) && CountInv(s) && Enabled(s, Enter(t))
    ensures CountInv(Next(s, Enter(t)))
  {
    var d := s.phases[t].d;
    if d in s.table {
      forall x | x in s.refs {
        JoinCount(s.phases, t, d, s.table[d], x);
      }
    } else {
      NewIsUnused(s);
      forall x {
        JoinCount(s.phases, t, d, s.next, x);
      }
    }
  }

  lemma NewIsUnused(s: State)
    requires ShareInv(s) && CountInv(s)
    ensures s.next !in s.refs && |Referrers(s.phases, s.next)| == 0
  {
    assert s.next !in s.refs;
    assert Referrers(s.phases, s.next) == {};
  }

  lemma LeaveCount(s: State, t: Tid)
    requires CountInv(s) && Enabled(s, Leave(t))
    ensures CountInv(Next(s, Leave(t)))
  {
    var s' := Next(s, Leave(t));
    forall x | x in s'.refs
      ensures s'.refs[x] == |Referrers(s'.phases, x)|
    {
      ReferrersUpdate(s.phases, t, s'.phases[t], x);
      assert t in Referrers(s.phases, s.phases[t].l);
    }
  }

  lemma Step(s: State, l: Label)
    requires Inv(s) && Enabled(s, l)
    ensures Inv(Next(s, l))
  {
    MuStep(s, l);
    OwnerStep(s, l);
    match l
    case Enter(t) =>
      EnterShare(s, t);
      EnterCount(s, t);
    case Leave(t) =>
      LeaveShare(s, t);
      LeaveCount(s, t);
    case _ =>
      UncountedShare(s, l);
      UncountedCount(s, l);
  }

  ghost function After(run: seq<Label>): Option<State> {
    if run == [] then Some(INIT)
    else
      match After(run[..|run| - 1])
      case None => None
      case Some(s) => if Enabled(s, run[|run| - 1]) then Some(Next(s, run[|run| - 1])) else None
  }

  lemma {:induction false} InvRun(run: seq<Label>)
    requires After(run).Some?
    ensures Inv(After(run).value)
  {
    if run == [] {
    } else {
      InvRun(run[..|run| - 1]);
      Step(After(run[..|run| - 1]).value, run[|run| - 1]);
    }
  }

  // In every interleaving all goroutines using the lock of one DID share the
  // object in the map, its refs is their number, at most one of them holds it,
  // and the entry is there exactly while someone does use it.
  lemma LocksAreShared(run: seq<Label>, d: DID)
    requires After(run).Some?
    ensures var s := After(run).value;
            var users := set t | t in s.phases && s.phases[t].HasRef() && s.phases[t].d == d;
            && (d in s.table <==> users != {})
            && (d in s.table ==>
                  && s.table[d] in s.refs && s.refs[s.table[d]] == |users|
                  && forall t | t in users :: s.phases[t].l == s.table[d])
            && forall t, u | t in users && u in users && s.phases[t].Holding? && s.phases[u].Holding? :: t == u
  {
    InvRun(run);
    var s := After(run).value;
    var users := set t | t in s.phases && s.phases[t].HasRef() && s.phases[t].d == d;
    if d in s.table {
      assert users == Referrers(s.phases, s.table[d]) by {
        forall t | t in s.phases && s.phases[t].HasRef()
          ensures s.phases[t].d == d <==> s.phases[t].l == s.table[d]
        {
        }
      }
    }
  }

  // No goroutine takes a second recipient lock, so one can always step: the
  // holder of a lock goes on with its body, which needs none of these locks.
  ghost predicate CanStep(s: State, t: Tid) {
    && t in s.phases
    && (|| s.phases[t].Holding? || Enabled(s, TakeMu(t)) || Enabled(s, Enter(t)) || Enabled(s, FreeMu(t))
        || Enabled(s, Lock(t)) || Enabled(s, Leave(t)))
  }

  lemma FindStep(s: State) returns (t: Tid)
    requires Inv(s) && s.phases != map[]
    ensures CanStep(s, t)
  {
    t :| t in s.phases;
    if s.mu.Some? {
      t := s.mu.value;
    } else if s.phases[t].Waiting? && s.phases[t].l in s.owner {
      t := s.owner[s.phases[t].l];
    }
  }

  // ---- What the rest of the relay sees of it ----

  // Who holds each recipient's lock.
  ghost function Holders(s: State): map<DID, Tid> {
    map d | d in s.table && s.table[d] in s.owner :: s.owner[s.table[d]]
  }

  // `h` names exactly the goroutines that hold a lock.
  ghost predicate Names(h: map<DID, Tid>, phases: map<Tid, Phase>) {
    && (forall d | d in h :: h[d] in phases && phases[h[d]].Holding? && phases[h[d]].d == d)
    && (forall t | t in phases && phases[t].Holding? :: phases[t].d in h && h[phases[t].d] == t)
  }

  lemma HoldersAre(s: State)
    requires Inv(s)
    ensures Names(Holders(s), s.phases)
  {
    var h := Holders(s);
    forall d | d in h
      ensures h[d] in s.phases && s.phases[h[d]].Holding? && s.phases[h[d]].d == d
    {
      var t := s.owner[s.table[d]];
      assert s.phases[t].l == s.table[d] && s.table[s.phases[t].d] == s.table[d];
    }
  }

  lemma NamesUnique(h: map<DID, Tid>, h': map<DID, Tid>, phases: map<Tid, Phase>)
    requires Names(h, phases) && Names(h', phases)
    ensures h == h'
  {
  }

  lemma NamesStep(h: map<DID, Tid>, s: State, l: Label)
    requires Enabled(s, l) && Names(h, s.phases)
    requires l.Lock? ==> s.phases[l.t].d !in h
    ensures var h' := match l
                      case Lock(t) => h[s.phases[t].d := t]
                      case Unlock(t) => h - {s.phases[t].d}
                      case _ => h;
            Names(h', Next(s, l).phases)
  {
  }

  lemma LockIsFree(s: State, t: Tid)
    requires Inv(s) && Enabled(s, Lock(t))
    ensures s.phases[t].d !in Holders(s)
  {
  }

  // Only Lock and Unlock show: Lock gives a free lock away, Unlock frees it.
  lemma HoldersStep(s: State, l: Label)
    requires Inv(s) && Enabled(s, l)
    ensures var h := Holders(s);
            var h' := Holders(Next(s, l));
            match l
            case Lock(t) => s.phases[t].d !in h && h' == h[s.phases[t].d := t]
            case Unlock(t) => s.phases[t].d in h && h[s.phases[t].d] == t && h' == h - {s.phases[t].d}
            case _ => h' == h
  {
    var h := Holders(s);
    if l.Lock? {
      LockIsFree(s, l.t);
    }
    HoldersAre(s);
    NamesStep(h, s, l);
    Step(s, l);
    HoldersAre(Next(s, l));
    NamesUnique(
      Holders(Next(s, l)),
      match l {
        case Lock(t) => h[s.phases[t].d := t]
        case Unlock(t) => h - {s.phases[t].d}
        case _ => h
      },
      Next(s, l).phases);
  }
}
