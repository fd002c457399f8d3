// The frames of one socket are handled one after another, so a cancel sent on its
// request's own socket begins only when the request's delivery is over.
module RelaySocket {
  import opened Wrappers
  import opened Table
  import opened Envelope
  import opened Relay

  // The message `id` was submitted and its delivery is in the hands of `t`, or over.
  ghost predicate InHand(s: State, t: Tid, id: Key) {
    && id in s.past.sends
    && (|| id in s.past.reused
        || id in s.past.ended
        || (t in s.threads && s.threads[t].pc.IsSend() && s.threads[t].pc.send.Key() == id))
  }

  lemma DeliverInHand(s: State, u: Tid, v: DeliverStep, t: Tid, id: Key)
    requires InHand(s, t, id) && DeliverEnabled(s, u, v)
    ensures InHand(DeliverNext(s, u, v), t, id)
  {
  }

  lemma RegisterInHand(s: State, u: Tid, r: RegisterStep, t: Tid, id: Key)
    requires InHand(s, t, id) && RegisterEnabled(s, u, r)
    ensures InHand(RegisterNext(s, u, r), t, id)
  {
  }

  lemma CancelInHand(s: State, u: Tid, k: CancelStep, t: Tid, id: Key)
    requires InHand(s, t, id) && CancelEnabled(s, u, k)
    ensures InHand(CancelNext(s, u, k), t, id)
  {
  }

  lemma BeginInHand(s: State, u: Tid, action: Action, t: Tid, id: Key)
    requires InHand(s, t, id) && u !in s.threads
    ensures InHand(Begin(s, u, action), t, id)
  {
  }

  lemma StepInHand(s: State, l: Label, t: Tid, id: Key)
    requires InHand(s, t, id) && Enabled(s, l)
    ensures InHand(Next(s, l), t, id)
  {
    match l
    case Frame(u, connDid, hasAddr, raw, env, pairAllowed, allowed) =>
      BeginInHand(s, u, Route(connDid, hasAddr, raw, env, pairAllowed, allowed), t, id);
    case Post(u, sender, eid, to, raw) =>
      BeginInHand(s, u, Forward(Send(sender, eid, to, raw, None, None, None)), t, id);
    case Deliver(u, v) => DeliverInHand(s, u, v, t, id);
    case Register(u, r) => RegisterInHand(s, u, r, t, id);
    case Cancel(u, k) => CancelInHand(s, u, k, t, id);
    case _ =>
  }

  // Every step of a run is a step from where the steps before it led.
  lemma {:induction false} AfterPrefix(run: seq<Label>, k: nat)
    requires After(run).Some? && k < |run|
    ensures After(run[..k]).Some? && Enabled(After(run[..k]).value, run[k])
    ensures After(run[..k + 1]) == Some(Next(After(run[..k]).value, run[k]))
  {
    if k == |run| - 1 {
      assert run[..k + 1] == run;
    } else {
      var front := run[..|run| - 1];
      AfterPrefix(front, k);
      assert front[..k] == run[..k] && front[..k + 1] == run[..k + 1] && front[k] == run[k];
    }
  }

  lemma {:induction false} StaysInHand(run: seq<Label>, t: Tid, id: Key, i: nat, j: nat)
    requires After(run).Some? && i < j <= |run|
    requires After(run[..i + 1]).Some? && InHand(After(run[..i + 1]).value, t, id)
    ensures After(run[..j]).Some? && InHand(After(run[..j]).value, t, id)
  {
    if j == i + 1 {
    } else {
      StaysInHand(run, t, id, i, j - 1);
      AfterPrefix(run, j - 1);
      StepInHand(After(run[..j - 1]).value, run[j - 1], t, id);
    }
  }

  // What a frame asks for.
  function ActionOf(l: Label): Action
    requires l.Frame?
  {
    Route(l.connDid, l.hasAddr, l.raw, l.env, l.pairAllowed, l.allowed)
  }

  // Frame `i` submits a request and frame `j` cancels it. If the goroutine of the
  // first is done when the second is handled, as it is on one socket, the cancel
  // is late: RelayCancel.CancelIsExact holds of it whatever recipient it names.
  lemma OwnSocketCancelIsLate(run: seq<Label>, i: nat, j: nat)
    requires After(run).Some? && i < j < |run|
    requires run[i].Frame? && ActionOf(run[i]).Forward?
    requires run[j].Frame? && ActionOf(run[j]).Withdraw? && ActionOf(run[j]).key == ActionOf(run[i]).send.Key()
    requires After(run[..j]).Some? && run[i].t !in After(run[..j]).value.threads
    requires ActionOf(run[j]).key !in After(run[..j]).value.past.reused
    ensures var cancel := ActionOf(run[j]);
            && After(run[..j + 1]).Some?
            && run[j].t in After(run[..j + 1]).value.threads
            && After(run[..j + 1]).value.threads[run[j].t].pc == Locating(cancel.who, cancel.to, cancel.key, true)
  {
    AfterPrefix(run, i);
    AfterPrefix(run, j);
    StaysInHand(run, run[i].t, ActionOf(run[j]).key, i, j);
  }
}
