// The durable per-recipient buffer. Each method is the statements it runs against
// the table; the clock is a parameter.
module Buffers {
  import opened Wrappers
  import opened Table

  class Buffer {
    var rows: seq<Row>

    ghost predicate Valid()
      reads this
    {
      UniqueIds(rows) && WithinLimits(rows)
    }

    constructor ()
      ensures Valid() && rows == []
    {
      rows := [];
    }

    // SELECT ... WHERE id = ?
    method Find(id: Key) returns (row: Option<Row>)
      ensures row.Some? <==> Has(rows, id)
      ensures row.Some? ==> row.value in rows && row.value.msg.id == id
    {
      var i := 0;
      while i < |rows|
        invariant 0 <= i <= |rows|
        invariant forall k | 0 <= k < i :: rows[k].msg.id != id
      {
        if rows[i].msg.id == id {
          return Some(rows[i]);
        }
        i := i + 1;
      }
      row := None;
    }

    // Idempotent by id; refused when the recipient is at a limit.
    method Add(row: Row) returns (full: bool)
      requires Valid() && row.deliveredAt == None
      modifies this
      ensures Valid()
      ensures rows == Insert(old(rows), row)
      ensures full <==> !Has(old(rows), row.msg.id) && !Fits(old(rows), row)
      ensures Has(old(rows), row.msg.id) ==> rows == old(rows)
      ensures !full ==> Has(rows, row.msg.id)
    {
      InsertKeeps(rows, row);
      var stored := Find(row.msg.id);
      if stored.Some? {
        return false;
      }
      if Count(rows, row.recipient) < MAX_MESSAGES_PER_DID
         && Bytes(rows, row.recipient) + |row.msg.payload| <= MAX_BYTES_PER_DID {
        rows := rows + [row];
        assert row in rows;
        return false;
      }
      stored := Find(row.msg.id);
      full := stored.None?;
    }

    // All messages for one recipient in order of arrival, none deleted.
    method Peek(did: DID) returns (msgs: seq<Msg>)
      ensures msgs == Peeked(rows, did)
      ensures IsPeek(rows, did, msgs)
    {
      msgs := [];
      var i := 0;
      while i < |rows|
        invariant 0 <= i <= |rows|
        invariant msgs == Peeked(rows[..i], did)
      {
        assert rows[..i + 1][..i] == rows[..i];
        if rows[i].recipient == did {
          msgs := InsertByTime(msgs, rows[i].msg);
        }
        i := i + 1;
      }
      assert rows[..i] == rows;
      PeekedIsPeek(rows, did);
    }

    method DeleteIfExists(id: Key) returns (deleted: bool)
      requires Valid()
      modifies this
      ensures Valid()
      ensures rows == Without(old(rows), id)
      ensures deleted <==> Has(old(rows), id)
    {
      WithoutKeeps(rows, id);
      var stored := Find(id);
      rows := Without(rows, id);
      deleted := stored.Some?;
    }

    // A client may delete only its own messages.
    method DeleteForRecipient(id: Key, did: DID) returns (deleted: bool)
      requires Valid()
      modifies this
      ensures Valid()
      ensures rows == WithoutFor(old(rows), id, did)
      ensures deleted <==> exists r :: r in old(rows) && r.msg.id == id && r.recipient == did
      ensures !deleted ==> rows == old(rows)
    {
      WithoutForKeeps(rows, id, did);
      var stored := Find(id);
      deleted := stored.Some? && stored.value.recipient == did;
      if !deleted {
        WithoutForNothing(rows, id, did);
      }
      rows := WithoutFor(rows, id, did);
    }

    method MarkDelivered(id: Key, now: int)
      requires Valid()
      modifies this
      ensures Valid()
      ensures rows == Marked(old(rows), id, now)
    {
      MarkedKeeps(rows, id, now);
      rows := Marked(rows, id, now);
    }

    method RecipientOf(id: Key) returns (did: Option<DID>)
      requires Valid()
      ensures did.Some? <==> Has(rows, id)
      ensures did.Some? ==> did.value == RowOf(rows, id).recipient
    {
      var stored := Find(id);
      if stored.Some? {
        RowOfIs(rows, stored.value);
        did := Some(stored.value.recipient);
      } else {
        did := None;
      }
    }

    // Takes a row out for a cancel: was it there, and had it been delivered?
    method CancelBuffered(id: Key) returns (found: bool, delivered: bool)
      requires Valid()
      modifies this
      ensures Valid()
      ensures rows == Without(old(rows), id)
      ensures found <==> Has(old(rows), id)
      ensures delivered <==> found && RowOf(old(rows), id).deliveredAt.Some?
      ensures found ==> Count(rows, RowOf(old(rows), id).recipient) < MAX_MESSAGES_PER_DID
    {
      var stored := Find(id);
      if stored.None? {
        WithoutNothing(rows, id);
        return false, false;
      }
      RowOfIs(rows, stored.value);
      FilterFreesPlace(rows, (r: Row) => r.msg.id != id, stored.value);
      var _ := DeleteIfExists(id);
      found, delivered := true, stored.value.deliveredAt.Some?;
    }

    // Removes what is past the general TTL or its own expiry; counts it.
    method ExpireTTL(now: int) returns (removed: nat)
      requires Valid()
      modifies this
      ensures Valid()
      ensures rows == Swept(old(rows), now)
      ensures removed == |old(rows)| - |rows|
      ensures forall r :: r in old(rows) && r !in rows <==> r in old(rows) && Expired(r.msg, now)
    {
      SweptKeeps(rows, now);
      FilterLength(rows, (r: Row) => !IsStale(r.msg, now));
      var kept := Swept(rows, now);
      removed := |rows| - |kept|;
      rows := kept;
    }
  }
}
