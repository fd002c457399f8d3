// Frames a connected node sends, and what the handler turns each into. Rate
// limiters and the pairing throttle enter as their verdicts.
module Envelope {
  import opened Wrappers
  import opened Table

  datatype Envelope = Envelope(
    kind: string, id: string, fromDid: DID, toDid: DID, direction: string,
    expiresAt: Option<int>, subtype: string, cancelOf: string)

  // A message handed to Hub.Deliver. `relayOf` names the request a relayed
  // cancel withdraws; it is None for a message a node sent. `took` names the
  // recipient of the row that the cancel took out of the buffer, if it took one.
  datatype Send = Send(
    from: DID, eid: string, to: DID, payload: seq<Byte>, expiresAt: Option<int>,
    relayOf: Option<Key>, took: Option<DID>)
  {
    function Key(): Key {
      CompositeKey(from, eid)
    }

    // The row a buffered copy becomes.
    function RowAt(now: int): Row {
      Row(Msg(Key(), payload, now, from, expiresAt), to, None)
    }
  }

  datatype Action =
    | Drop
    | Pong
    | Forward(send: Send)
    | Acknowledge(did: DID, key: Key)
    | Withdraw(who: DID, to: DID, key: Key)

  // The sender-scoped buffer key.
  function CompositeKey(from: DID, eid: string): Key {
    from + ":" + eid
  }

  predicate StartsWith(s: string, prefix: string) {
    prefix <= s
  }

  function Colons(s: string): nat {
    if s == "" then 0 else Colons(s[..|s| - 1]) + if s[|s| - 1] == ':' then 1 else 0
  }

  predicate TwoColons(did: DID) {
    Colons(did) == 2
  }

  function RouteD2D(connDid: DID, raw: seq<Byte>, env: Envelope, allowed: bool): Action {
    if env.id == "" then Drop
    else if env.fromDid == "" || env.toDid == "" then Drop
    else if env.fromDid != connDid then Drop
    else if !allowed then Drop
    else Forward(Send(env.fromDid, env.id, env.toDid, raw, env.expiresAt, None, None))
  }

  function RouteRPC(
    connDid: DID, hasAddr: bool, raw: seq<Byte>, env: Envelope, pairAllowed: bool, allowed: bool): Action
  {
    if env.id == "" then Drop
    else if env.fromDid == "" || env.toDid == "" then Drop
    else if env.direction != "request" && env.direction != "response" then Drop
    else if env.fromDid != connDid then Drop
    else if env.subtype == "pair" && hasAddr && !pairAllowed then Drop
    else if (env.direction == "request" || StartsWith(env.fromDid, "did:key:")) && !allowed then Drop
    else Forward(Send(env.fromDid, env.id, env.toDid, raw, env.expiresAt, None, None))
  }

  function RouteCancel(connDid: DID, env: Envelope): Action {
    if env.cancelOf == "" || env.fromDid == "" then Drop
    else if env.fromDid != connDid then Drop
    else Withdraw(env.fromDid, env.toDid, CompositeKey(env.fromDid, env.cancelOf))
  }

  function RouteAck(connDid: DID, env: Envelope): Action {
    if env.id == "" || env.fromDid == "" then Drop
    else Acknowledge(connDid, CompositeKey(env.fromDid, env.id))
  }

  function Route(
    connDid: DID, hasAddr: bool, raw: seq<Byte>, env: Envelope, pairAllowed: bool, allowed: bool): Action
  {
    match env.kind
    case "d2d" => RouteD2D(connDid, raw, env, allowed)
    case "rpc" => RouteRPC(connDid, hasAddr, raw, env, pairAllowed, allowed)
    case "cancel" => RouteCancel(connDid, env)
    case "ping" => Pong
    case "ack" => RouteAck(connDid, env)
    case _ => Drop
  }

  // Whatever a frame says, it acts only as the node the connection proved to
  // be: it sends and withdraws under that DID's keys, and acks that DID's mail. A
  // message goes as it came to the recipient the frame names.
  lemma RouteBindsConnection(
    connDid: DID, hasAddr: bool, raw: seq<Byte>, env: Envelope, pairAllowed: bool, allowed: bool)
    ensures match Route(connDid, hasAddr, raw, env, pairAllowed, allowed)
            case Forward(send) =>
              && send == Send(connDid, env.id, env.toDid, raw, env.expiresAt, None, None)
              && send.eid != "" && send.to != ""
              && send.Key() == CompositeKey(connDid, env.id)
            case Withdraw(who, to, key) =>
              who == connDid && to == env.toDid && key == CompositeKey(connDid, env.cancelOf)
            case Acknowledge(did, key) => did == connDid && key == CompositeKey(env.fromDid, env.id)
            case _ => true
  {
  }

  // A frame the sender's limiter does not let through.
  predicate IsLimited(hasAddr: bool, env: Envelope, pairAllowed: bool, allowed: bool) {
    if env.kind == "d2d" then !allowed
    else
      || (env.subtype == "pair" && hasAddr && !pairAllowed)
      || ((env.direction == "request" || StartsWith(env.fromDid, "did:key:")) && !allowed)
  }

  // Just which frames do something: complete ones, in the connection's own name.
  lemma RoutesExactly(
    connDid: DID, hasAddr: bool, raw: seq<Byte>, env: Envelope, pairAllowed: bool, allowed: bool)
    ensures var action := Route(connDid, hasAddr, raw, env, pairAllowed, allowed);
            var bound := env.fromDid != "" && env.fromDid == connDid;
            && (action.Forward? <==>
                  && (env.kind == "d2d" || (env.kind == "rpc" && env.direction in ["request", "response"]))
                  && env.id != "" && env.toDid != "" && bound
                  && !IsLimited(hasAddr, env, pairAllowed, allowed))
            && (action.Withdraw? <==> env.kind == "cancel" && env.cancelOf != "" && bound)
            && (action.Acknowledge? <==> env.kind == "ack" && env.id != "" && env.fromDid != "")
            && (action.Pong? <==> env.kind == "ping")
  {
    assert env.direction in ["request", "response"] <==> env.direction == "request" || env.direction == "response";
  }

  lemma {:induction false} ColonsOfConcat(a: string, b: string)
    ensures Colons(a + b) == Colons(a) + Colons(b)
  {
    if b == "" {
      assert a + b == a;
    } else {
      ColonsOfConcat(a, b[..|b| - 1]);
      assert (a + b)[..|a + b| - 1] == a + b[..|b| - 1];
    }
  }

  // Keys under two DIDs of one colon count never collide, whatever the ids hold.
  lemma CompositeKeyInjective(from1: DID, eid1: string, from2: DID, eid2: string)
    requires Colons(from1) == Colons(from2)
    requires CompositeKey(from1, eid1) == CompositeKey(from2, eid2)
    ensures from1 == from2 && eid1 == eid2
  {
    var key := CompositeKey(from1, eid1);
    if |from1| == |from2| {
      assert key[..|from1|] == from1 && key[..|from2|] == from2;
      assert key[|from1| + 1..] == eid1 && key[|from2| + 1..] == eid2;
    } else {
      assert Colons(":") == 1 + Colons("");
      var (short, long) := if |from1| < |from2| then (from1, from2) else (from2, from1);
      assert key[..|short| + 1] == short + ":";
      assert key[..|long|] == long;
      assert long == (short + ":") + long[|short| + 1..];
      ColonsOfConcat(short + ":", long[|short| + 1..]);
      ColonsOfConcat(short, ":");
    }
  }

  // In general two DIDs can collide exactly when one is the other, or the other
  // goes on from it with a colon.
  lemma KeysCollideExactlyWhenNested(a: DID, b: DID)
    ensures (exists eid1, eid2 :: CompositeKey(a, eid1) == CompositeKey(b, eid2))
            <==> a == b || a + ":" <= b || b + ":" <= a
  {
    if a == b {
      assert CompositeKey(a, "") == CompositeKey(b, "");
    } else if a + ":" <= b {
      assert CompositeKey(a, b[|a| + 1..] + ":") == CompositeKey(b, "");
    } else if b + ":" <= a {
      assert CompositeKey(a, "") == CompositeKey(b, a[|b| + 1..] + ":");
    }
    forall eid1, eid2 | CompositeKey(a, eid1) == CompositeKey(b, eid2)
      ensures a == b || a + ":" <= b || b + ":" <= a
    {
      var key := CompositeKey(a, eid1);
      assert key[..|a|] == a && key[..|b|] == b;
      assert key[..|a| + 1] == a + ":" && key[..|b| + 1] == b + ":";
    }
  }
}
