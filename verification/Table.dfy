// The relay's `messages` table and the statements run against it. Each SQL
// statement is one function from the table to the table; the classes and the
// step machine both use these.
module Table {
  import opened Wrappers

  type DID = string
  type Key = string
  type Byte = b: int | 0 <= b < 256

  const MAX_MESSAGES_PER_DID := 100
  const MAX_BYTES_PER_DID := 10 * 1024 * 1024
  const MESSAGE_TTL := 24 * 60 * 60 // seconds

  // What a drain reads of a row.
  datatype Msg = Msg(id: Key, payload: seq<Byte>, storedAt: int, sender: DID, expiresAt: Option<int>)

  datatype Row = Row(msg: Msg, recipient: DID, deliveredAt: Option<int>)

  // The drain's test of a message it has read.
  predicate Expired(m: Msg, now: int) {
    || (m.expiresAt.Some? && m.expiresAt.value < now)
    || now - m.storedAt > MESSAGE_TTL
  }

  // The sweep's: stored_at < cutoff OR (expires_at IS NOT NULL AND expires_at < now)
  predicate IsStale(m: Msg, now: int) {
    var cutoff := now - MESSAGE_TTL;
    m.storedAt < cutoff || (m.expiresAt.Some? && m.expiresAt.value < now)
  }

  // Both pick what is over a day old or past its own expiry.
  lemma ExpiryTestsAgree(m: Msg, now: int)
    ensures IsStale(m, now) <==> Expired(m, now)
    ensures Expired(m, now) <==> now - m.storedAt > 86_400 || (m.expiresAt.Some? && m.expiresAt.value < now)
  {
  }

  predicate Has(rows: seq<Row>, id: Key) {
    exists r :: r in rows && r.msg.id == id
  }

  // SELECT COUNT(*) and SUM(size) for one recipient.
  function Count(rows: seq<Row>, did: DID): nat {
    if rows == [] then 0
    else Count(rows[..|rows| - 1], did) + if rows[|rows| - 1].recipient == did then 1 else 0
  }

  function Bytes(rows: seq<Row>, did: DID): nat {
    if rows == [] then 0
    else
      var last := rows[|rows| - 1];
      Bytes(rows[..|rows| - 1], did) + if last.recipient == did then |last.msg.payload| else 0
  }

  // DELETE keeps the rows its WHERE clause does not name, in their order.
  function Filter(rows: seq<Row>, keep: Row -> bool): (kept: seq<Row>)
    ensures forall r :: r in kept <==> r in rows && keep(r)
  {
    if rows == [] then []
    else
      var last := rows[|rows| - 1];
      var front := Filter(rows[..|rows| - 1], keep);
      assert forall r :: r in rows <==> r in rows[..|rows| - 1] || r == last;
      if keep(last) then front + [last] else front
  }

  function Without(rows: seq<Row>, id: Key): seq<Row> {
    Filter(rows, (r: Row) => r.msg.id != id)
  }

  function WithoutFor(rows: seq<Row>, id: Key, did: DID): seq<Row> {
    Filter(rows, (r: Row) => !(r.msg.id == id && r.recipient == did))
  }

  function Swept(rows: seq<Row>, now: int): seq<Row> {
    Filter(rows, (r: Row) => !IsStale(r.msg, now))
  }

  function MarkRow(r: Row, id: Key, now: int): Row {
    if r.msg.id == id then r.(deliveredAt := Some(now)) else r
  }

  function Marked(rows: seq<Row>, id: Key, now: int): (marked: seq<Row>)
    ensures |marked| == |rows|
    ensures forall i | 0 <= i < |rows| :: marked[i] == MarkRow(rows[i], id, now)
  {
    seq(|rows|, i requires 0 <= i < |rows| => MarkRow(rows[i], id, now))
  }

  // The guarded INSERT: refused on a stored id, the count limit or the byte limit.
  predicate Fits(rows: seq<Row>, row: Row) {
    && Count(rows, row.recipient) < MAX_MESSAGES_PER_DID
    && Bytes(rows, row.recipient) + |row.msg.payload| <= MAX_BYTES_PER_DID
  }

  function Insert(rows: seq<Row>, row: Row): seq<Row> {
    if !Has(rows, row.msg.id) && Fits(rows, row) then rows + [row] else rows
  }

  // The rows of one recipient, in table order, and what SELECT ... ORDER BY
  // stored_at may return: SQL leaves the order of ties open.
  function MsgsFor(rows: seq<Row>, did: DID): (msgs: seq<Msg>)
    ensures forall m :: m in msgs <==> exists r :: r in rows && r.recipient == did && r.msg == m
  {
    if rows == [] then []
    else
      var last := rows[|rows| - 1];
      var front := MsgsFor(rows[..|rows| - 1], did);
      assert forall r :: r in rows <==> r in rows[..|rows| - 1] || r == last;
      if last.recipient == did then front + [last.msg] else front
  }

  predicate SortedByTime(msgs: seq<Msg>) {
    forall i, j | 0 <= i < j < |msgs| :: msgs[i].storedAt <= msgs[j].storedAt
  }

  predicate IsPeek(rows: seq<Row>, did: DID, msgs: seq<Msg>) {
    SortedByTime(msgs) && multiset(msgs) == multiset(MsgsFor(rows, did))
  }

  // The order SQLite gives when ties keep table order.
  function InsertByTime(msgs: seq<Msg>, m: Msg): seq<Msg> {
    if msgs == [] || msgs[|msgs| - 1].storedAt <= m.storedAt then msgs + [m]
    else InsertByTime(msgs[..|msgs| - 1], m) + [msgs[|msgs| - 1]]
  }

  function Peeked(rows: seq<Row>, did: DID): seq<Msg> {
    if rows == [] then []
    else
      var last := rows[|rows| - 1];
      var front := Peeked(rows[..|rows| - 1], did);
      if last.recipient == did then InsertByTime(front, last.msg) else front
  }

  lemma {:induction false} InsertByTimeAdds(msgs: seq<Msg>, m: Msg)
    ensures multiset(InsertByTime(msgs, m)) == multiset(msgs) + multiset{m}
    ensures forall x :: x in InsertByTime(msgs, m) ==> x in msgs || x == m
  {
    if msgs != [] && msgs[|msgs| - 1].storedAt > m.storedAt {
      var front := msgs[..|msgs| - 1];
      InsertByTimeAdds(front, m);
      assert msgs == front + [msgs[|msgs| - 1]];
    }
  }

  lemma {:induction false} InsertByTimeSorts(msgs: seq<Msg>, m: Msg)
    requires SortedByTime(msgs)
    ensures SortedByTime(InsertByTime(msgs, m))
    ensures multiset(InsertByTime(msgs, m)) == multiset(msgs) + multiset{m}
    ensures forall x :: x in InsertByTime(msgs, m) ==> x in msgs || x == m
  {
    InsertByTimeAdds(msgs, m);
    if msgs != [] && msgs[|msgs| - 1].storedAt > m.storedAt {
      var front := msgs[..|msgs| - 1];
      InsertByTimeSorts(front, m);
      assert forall x | x in InsertByTime(front, m) :: x.storedAt <= msgs[|msgs| - 1].storedAt;
    }
  }

  lemma {:induction false} PeekedIsPeek(rows: seq<Row>, did: DID)
    ensures IsPeek(rows, did, Peeked(rows, did))
  {
    if rows == [] {
    } else {
      var last := rows[|rows| - 1];
      var front := rows[..|rows| - 1];
      PeekedIsPeek(front, did);
      if last.recipient == did {
        InsertByTimeSorts(Peeked(front, did), last.msg);
        assert multiset(MsgsFor(front, did) + [last.msg]) == multiset(MsgsFor(front, did)) + multiset{last.msg};
      }
    }
  }

  lemma PeekedAreRows(rows: seq<Row>, did: DID, msgs: seq<Msg>)
    requires IsPeek(rows, did, msgs)
    ensures forall m :: m in msgs <==> exists r :: r in rows && r.recipient == did && r.msg == m
  {
    forall m
      ensures m in msgs <==> m in MsgsFor(rows, did)
    {
      assert m in msgs <==> m in multiset(msgs);
    }
  }

  // The primary key, and the limits every insert enforces.
  ghost predicate UniqueIds(rows: seq<Row>) {
    forall i, j | 0 <= i < j < |rows| :: rows[i].msg.id != rows[j].msg.id
  }

  ghost predicate WithinLimits(rows: seq<Row>) {
    forall did: DID :: Count(rows, did) <= MAX_MESSAGES_PER_DID && Bytes(rows, did) <= MAX_BYTES_PER_DID
  }

  // The row stored under an id.
  ghost function RowOf(rows: seq<Row>, id: Key): (r: Row)
    requires Has(rows, id)
    ensures r in rows && r.msg.id == id
  {
    var r :| r in rows && r.msg.id == id;
    r
  }

  lemma RowOfIs(rows: seq<Row>, r: Row)
    requires UniqueIds(rows) && r in rows
    ensures RowOf(rows, r.msg.id) == r
  {
  }

  lemma CountOfAppend(rows: seq<Row>, row: Row, did: DID)
    ensures Count(rows + [row], did) == Count(rows, did) + if row.recipient == did then 1 else 0
    ensures Bytes(rows + [row], did) == Bytes(rows, did) + if row.recipient == did then |row.msg.payload| else 0
  {
    assert (rows + [row])[..|rows|] == rows;
  }

  lemma {:induction false} FilterCounts(rows: seq<Row>, keep: Row -> bool, did: DID)
    ensures Count(Filter(rows, keep), did) <= Count(rows, did)
    ensures Bytes(Filter(rows, keep), did) <= Bytes(rows, did)
  {
    if rows == [] {
    } else {
      FilterCounts(rows[..|rows| - 1], keep, did);
      CountOfAppend(Filter(rows[..|rows| - 1], keep), rows[|rows| - 1], did);
    }
  }

  // Deleting a row of a recipient frees one of its places.
  lemma {:induction false} FilterFreesPlace(rows: seq<Row>, keep: Row -> bool, gone: Row)
    requires gone in rows && !keep(gone)
    ensures Count(Filter(rows, keep), gone.recipient) < Count(rows, gone.recipient)
  {
    var front := rows[..|rows| - 1];
    var last := rows[|rows| - 1];
    CountOfAppend(Filter(front, keep), last, gone.recipient);
    if gone in front {
      FilterFreesPlace(front, keep, gone);
    } else {
      FilterCounts(front, keep, gone.recipient);
    }
  }

  lemma {:induction false} FilterUnique(rows: seq<Row>, keep: Row -> bool)
    requires UniqueIds(rows)
    ensures UniqueIds(Filter(rows, keep))
  {
    if rows == [] {
    } else {
      var front := rows[..|rows| - 1];
      FilterUnique(front, keep);
      forall r | r in Filter(front, keep)
        ensures r.msg.id != rows[|rows| - 1].msg.id
      {
        assert r in front;
      }
    }
  }

  // Every DELETE keeps the key unique and the limits.
  lemma FilterKeeps(rows: seq<Row>, keep: Row -> bool)
    requires UniqueIds(rows) && WithinLimits(rows)
    ensures UniqueIds(Filter(rows, keep)) && WithinLimits(Filter(rows, keep))
  {
    FilterUnique(rows, keep);
    forall did: DID {
      FilterCounts(rows, keep, did);
    }
  }

  lemma {:induction false} FilterLength(rows: seq<Row>, keep: Row -> bool)
    ensures |Filter(rows, keep)| <= |rows|
    ensures (forall r :: r in rows ==> keep(r)) ==> Filter(rows, keep) == rows
  {
    if rows == [] {
    } else {
      var front := rows[..|rows| - 1];
      FilterLength(front, keep);
      assert rows == front + [rows[|rows| - 1]];
    }
  }

  lemma WithoutNothing(rows: seq<Row>, id: Key)
    requires !Has(rows, id)
    ensures Without(rows, id) == rows
  {
    FilterLength(rows, (r: Row) => r.msg.id != id);
  }

  lemma WithoutForNothing(rows: seq<Row>, id: Key, did: DID)
    requires !exists r :: r in rows && r.msg.id == id && r.recipient == did
    ensures WithoutFor(rows, id, did) == rows
  {
    FilterLength(rows, (r: Row) => !(r.msg.id == id && r.recipient == did));
  }

  lemma WithoutKeeps(rows: seq<Row>, id: Key)
    requires UniqueIds(rows) && WithinLimits(rows)
    ensures UniqueIds(Without(rows, id)) && WithinLimits(Without(rows, id))
  {
    FilterKeeps(rows, (r: Row) => r.msg.id != id);
  }

  lemma WithoutForKeeps(rows: seq<Row>, id: Key, did: DID)
    requires UniqueIds(rows) && WithinLimits(rows)
    ensures UniqueIds(WithoutFor(rows, id, did)) && WithinLimits(WithoutFor(rows, id, did))
  {
    FilterKeeps(rows, (r: Row) => !(r.msg.id == id && r.recipient == did));
  }

  lemma SweptKeeps(rows: seq<Row>, now: int)
    requires UniqueIds(rows) && WithinLimits(rows)
    ensures UniqueIds(Swept(rows, now)) && WithinLimits(Swept(rows, now))
  {
    FilterKeeps(rows, (r: Row) => !IsStale(r.msg, now));
  }

  lemma {:induction false} MarkedCounts(rows: seq<Row>, id: Key, now: int, did: DID)
    ensures Count(Marked(rows, id, now), did) == Count(rows, did)
    ensures Bytes(Marked(rows, id, now), did) == Bytes(rows, did)
  {
    if rows == [] {
    } else {
      var front := rows[..|rows| - 1];
      MarkedCounts(front, id, now, did);
      assert Marked(rows, id, now)[..|rows| - 1] == Marked(front, id, now);
    }
  }

  lemma MarkedKeeps(rows: seq<Row>, id: Key, now: int)
    requires UniqueIds(rows) && WithinLimits(rows)
    ensures UniqueIds(Marked(rows, id, now)) && WithinLimits(Marked(rows, id, now))
  {
    forall did: DID {
      MarkedCounts(rows, id, now, did);
    }
  }

  // What UPDATE leaves: the same rows, the named one stamped.
  lemma MarkedRows(rows: seq<Row>, id: Key, now: int)
    ensures forall r :: r in rows ==> MarkRow(r, id, now) in Marked(rows, id, now)
    ensures forall q :: q in Marked(rows, id, now) ==> exists r :: r in rows && q == MarkRow(r, id, now)
  {
    var marked := Marked(rows, id, now);
    forall r | r in rows
      ensures MarkRow(r, id, now) in marked
    {
      var i :| 0 <= i < |rows| && rows[i] == r;
      assert marked[i] == MarkRow(r, id, now);
    }
    forall q | q in marked
      ensures exists r :: r in rows && q == MarkRow(r, id, now)
    {
      var i :| 0 <= i < |marked| && marked[i] == q;
      assert rows[i] in rows;
    }
  }

  lemma InsertKeeps(rows: seq<Row>, row: Row)
    requires UniqueIds(rows) && WithinLimits(rows)
    ensures UniqueIds(Insert(rows, row)) && WithinLimits(Insert(rows, row))
  {
    if !Has(rows, row.msg.id) && Fits(rows, row) {
      forall i | 0 <= i < |rows|
        ensures rows[i].msg.id != row.msg.id
      {
        assert rows[i] in rows;
      }
      assert UniqueIds(rows + [row]);
      forall did
        ensures Count(rows + [row], did) <= MAX_MESSAGES_PER_DID && Bytes(rows + [row], did) <= MAX_BYTES_PER_DID
      {
        CountOfAppend(rows, row, did);
      }
    }
  }

  // ---- What the limits count ----

  ghost function RowsOf(rows: seq<Row>, did: DID): set<nat> {
    set i: nat | i < |rows| && rows[i].recipient == did
  }

  // The payloads of some messages, one after another.
  function Joined(msgs: seq<Msg>): seq<Byte> {
    if msgs == [] then [] else Joined(msgs[..|msgs| - 1]) + msgs[|msgs| - 1].payload
  }

  lemma {:induction false} CountIsRows(rows: seq<Row>, did: DID)
    ensures Count(rows, did) == |RowsOf(rows, did)|
  {
    if rows == [] {
      assert RowsOf(rows, did) == {};
    } else {
      var front, n := rows[..|rows| - 1], |rows| - 1;
      CountIsRows(front, did);
      assert RowsOf(rows, did) == RowsOf(front, did) + if rows[n].recipient == did then {n} else {};
    }
  }

  lemma {:induction false} BytesAreJoined(rows: seq<Row>, did: DID)
    ensures Bytes(rows, did) == |Joined(MsgsFor(rows, did))|
  {
    if rows == [] {
    } else {
      var front, last := rows[..|rows| - 1], rows[|rows| - 1];
      BytesAreJoined(front, did);
      var msgs := MsgsFor(front, did);
      assert (msgs + [last.msg])[..|msgs|] == msgs;
    }
  }

  // A row is added exactly when its id is new, its recipient has fewer than 100 rows,
  // and their payloads with its own come to no more than 10 MiB.
  lemma InsertExactly(rows: seq<Row>, row: Row)
    ensures var fits := && (forall r | r in rows :: r.msg.id != row.msg.id)
                        && |RowsOf(rows, row.recipient)| < 100
                        && |Joined(MsgsFor(rows, row.recipient)) + row.msg.payload| <= 10_485_760;
            Insert(rows, row) == if fits then rows + [row] else rows
  {
    CountIsRows(rows, row.recipient);
    BytesAreJoined(rows, row.recipient);
  }
}
