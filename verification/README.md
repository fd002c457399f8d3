# A verified model of Dina's message relay, grant service and two helpers

Dina's message box (`msgbox/internal`) is a store-and-forward relay: a hub keeps
one current connection per DID and a durable buffer of rows, and goroutines that
connect, deliver, ack, cancel and sweep interleave freely. This project models it
in two layers.

* **Runs.** `Relay.dfy` is a step machine whose goroutines run `Register`,
  `Deliver`, `Ack` and `Cancel`. Every SQL statement, every section under `h.mu`
  and every socket write is one step; clocks and the outcome of a write are
  arbitrary; a restart keeps the rows and drops connections, locks and
  goroutines. `RelaySettled`, `RelayKept`, `RelayCancel` and `RelayPlace` prove
  what every run keeps, `RelayAck` what an ack does for good; `RelayRace` and `RelayFull` have the runs on which a
  cancel fails and on which its relay is refused, and so the exact conditions;
  `RelaySocket` is about the frames of one socket. `RelayEvents` reads off the
  steps of a run what happened in it: that fixes the history and who is connected.
  `LockTable.dfy` has the reference-counted lock table itself, each operation of
  `locksMu` and of each lock object a step of its own, and `Assembled.dfy` puts
  the relay on top of it: every run of the assembled relay is a run of `Relay`.
* **Bodies.** `Buffer.dfy` and `Hub.dfy` are the classes, `Drain.dfy` the theory
  of one drain, and `RelayAlone.dfy` proves that the step machine, left alone
  under a lock, changes the table exactly as the classes do. `RelayWhole.dfy` does
  so for whole goroutines, from the frame or the connection to the release.

The history fields of a run (`past`) record what happened; no step reads them,
except that a cancel notes whether its request's delivery was over when it began:
it had returned, or a restart had cut it off.
Assumptions such as "the id was submitted once" are facts about that history, so
no theorem restricts which runs there are.

Around the relay: the sliding-window limiter (`Limiter.dfy`) and the nonce cache
with the timestamp window before it (`NonceCache.dfy`), each refining a version
that never forgets; base58 and did:key (`Base58.dfy`, `DidKey.dfy`). The grant
service is an asynchronous pipeline (`Claims.dfy`, `Grants.dfy`) with a
single-flight token cache (`TokenMinter.dfy`). `Matching.dfy` and `Tagging.dfy`
are the greedy matcher and the comment insertion of the tagging script, and
`Semaphore.dfy` the promise-based semaphore of the backfill.

Where the code and its own words differ, the model follows the code:

* `handler.go:30` speaks of a pairing limit of ten per five minutes; every bucket
  uses the one-minute window of `handler.go:558`.
* The six-minute nonce window is described as five minutes of timestamp validity
  plus a minute for clock skew (`nonce_cache.go:9-10`). Timestamps are accepted
  five minutes ahead too, so a request accepted at least a minute before its own
  timestamp can be accepted again; `Nonces.ReplayWindow` says exactly when.
* `hub.go:248-252` says that a cancel always waits on the lock the drain holds.
  It reads the row's recipient before it takes a lock, so a cancel that begins
  before its request is stored, and names another recipient, waits on the wrong
  one. Since `handler.go:103-112` handles the frames of one socket one after
  another, this takes two live sockets of one DID: a cancel on the request's own
  socket is late (`RelaySocket.OwnSocketCancelIsLate`), and a late cancel waits on
  the right lock.
* `hub.go:243-248` says that the recipient never sees a request whose copy was
  deleted as never written. A restart between a write and its mark leaves a row
  that looks unwritten, and a later cancel deletes it silently.
  `RelayRace.CancelFailsExactly` shows that these two cases are all there is.
* `hub.go:262-272` relays a cancel under the lock that it holds, which can be
  another recipient's than the row's; the place the row leaves is then not in the
  buffer the relay needs (`RelayFull.RelayRefusedExactly`).
* The tagging script calls its novel ids new, but every run starts again at the
  number after the plan's last (`tag_integration_code.py:568-569`), so a function
  added after an earlier run gets a number that is taken (`Tagging.RerunRepeats`).
* The daily ceiling of the grant service can be passed by as many rows as there
  are further claims in flight: `Claims.DailyCeiling`, `Grants.CeilingIsReached`.

"Minted" means that `createCappedKey` resolved with a key.

## Model

| member | source | states |
|---|---|---|
| `RelaySettled.NoStrandedMessage` | msgbox/internal/hub.go:42-52 | After any run, a connection that has joined and since neither been unregistered nor replaced, in a relay not restarted since, is its DID's current one; and if no write to it failed and nobody holds the DID's lock, each row buffered for the DID has been written to an acking connection if it acks, and there is none if it does not. |
| `RelayEvents.ConnectedExactly` | msgbox/internal/hub.go:93-164 | After any run a connection is its DID's current one if and only if it has joined and since then neither been unregistered nor replaced, and the relay has not restarted. |
| `RelayEvents.HistoryIsExact` | msgbox/internal/hub.go:125-217 | The failed connections, the writes and the accepted deliveries that the other laws speak of are exactly those of the steps of the run. |
| `RelayEvents.SubmissionsAreExact` | msgbox/internal/hub.go:168-175 | An id counts as sent exactly when the run submitted it, and as reused exactly when at least twice. |
| `RelayKept.Conservation` | msgbox/internal/hub.go:125-217 | After any run, restarts included, an id submitted once whose delivery returned no error is buffered as sent, or was acked by its recipient, cancelled under a key prefix that is its sender's, dropped when expired, or written to a connection of its recipient that does not ack. |
| `RelayKept.RemovalsAreOwned` | msgbox/internal/buffer.go:204-215 | Over all runs an ack removes only rows of its own connection's DID, and a cancel only rows whose sender is its own connection's DID when both have two colons. |
| `RelayAck.AckTakesRow` | msgbox/internal/hub.go:230-238 | An ack takes its own connection's row of the acked id, and leaves every other row and everything else as it was. |
| `RelayAck.AckedIsNotWrittenAgain` | msgbox/internal/hub.go:119-153 | In every run, once a connection acked the message buffered for its DID, that message is in no later table and in no later write, whatever reconnects, sweeps and restarts follow, unless its id is submitted again. |
| `RelayKept.RowsAreKeyedAndBounded` | msgbox/internal/buffer.go:98-139 | In every reachable state ids are unique, each DID has at most 100 rows whose payloads joined come to at most 10 MiB, each id begins with its own sender and a colon, and a row marked delivered was written to an acking connection. |
| `RelayCancel.CancelIsExact` | msgbox/internal/hub.go:240-274 | In every run, restarts included, for an id submitted once and a cancel begun after its delivery was over or run under its recipient's lock: if silent, the request is gone from the buffer for good, and it is ever written, before or after, if and only if a restart had struck between a write of it and its mark; if not silent, it was relayed under a different key or no recipient was known. |
| `RelayRace.CancelFailsExactly` | msgbox/internal/hub.go:243-268 | Over all runs, for every request, lock and moment: a silent cancel of a request that is written all the same exists if and only if the cancel began before the delivery was over and took another recipient's lock, or took the right one after a restart struck between a write of the request and its mark. |
| `RelayRace.MisaimedCancelRace` | msgbox/internal/hub.go:255-268 | The first of these runs, for every request and every other recipient. |
| `RelayRace.CutCancel` | msgbox/internal/hub.go:195-210 | The second, for every request: stored, written, the relay restarted before the mark, then cancelled silently under the right lock. |
| `RelaySocket.OwnSocketCancelIsLate` | msgbox/internal/handler.go:103-112 | In every run a cancel frame handled when the goroutine of its request's frame is done, as on one socket, finds the delivery over, whatever recipient it names. |
| `RelayPlace.RelayFindsPlace` | msgbox/internal/hub.go:266-272 | A cancel relayed after removing a row of its recipient always finds the count below the limit when it is stored; only a stored id or the byte limit keeps it out. |
| `RelayFull.RelayRefusedExactly` | msgbox/internal/hub.go:262-272 | For any two recipients: a cancel that took a row of the one and relays to the other can be refused for the message count if and only if they differ. |
| `LockTable.LocksAreShared` | msgbox/internal/hub.go:60-81 | In every interleaving all goroutines using one DID's lock share the object in the map, `refs` is their number, at most one holds it, and the entry exists exactly while they do. |
| `LockTable.HoldersStep` | msgbox/internal/hub.go:70-80 | Seen from outside, only the mutex's own lock and unlock change who holds a DID, taking only a free lock and releasing only the holder's. |
| `LockTable.FindStep` | msgbox/internal/hub.go:60-81 | Some goroutine in the lock protocol can always step. |
| `Assembled.Refinement` | msgbox/internal/hub.go:62-81 | The steps that every run of the relay on the reference-counted lock table shows are a run of the relay on abstract locks, to the same state. |
| `Assembled.NoStrandedMessageAssembled` | msgbox/internal/hub.go:93-217 | No stranded message, with the real lock table, for every connection that has joined and neither left nor had a write fail. |
| `Assembled.HolderGoesOn` | msgbox/internal/hub.go:60-61 | Whoever holds a recipient lock has a next step of its own, inside Register, Deliver, Ack or Cancel or giving the lock back, and none takes another recipient lock. |
| `Assembled.SomeoneCanStep` | msgbox/internal/hub.go:60-81 | No deadlock: in every reachable state with a goroutine at work, one of those at work can take a step of its body or of its lock; sweeps, restarts and newcomers do not count. |
| `Envelope.RouteBindsConnection` | msgbox/internal/handler.go:192-345 | Whatever a frame says, it sends and withdraws only under the keys of the DID the connection proved, and acks only that DID's mail; a message goes on as it came, with the frame's expiry, to the recipient that the frame names. |
| `Envelope.RoutesExactly` | msgbox/internal/handler.go:149-345 | Which frames are forwarded, withdraw, ack or answer a ping, if and only if: complete ones, in the connection's own name where one is needed, that their limiter lets through. |
| `Envelope.CompositeKeyInjective` | msgbox/internal/handler.go:301 | Keys of two DIDs with equally many colons never collide, whatever their ids hold. |
| `Envelope.KeysCollideExactlyWhenNested` | msgbox/internal/handler.go:301 | Keys of two DIDs collide for some ids if and only if the DIDs are equal or one begins with the other and a colon. |
| `RelayAlone.DrainAlone` | msgbox/internal/hub.go:125-153 | The drain steps of one goroutine, a run of its own steps and no others, leave the table of `Drains.Drain`, write each message it sends, and stop just where a write fails. |
| `RelayAlone.DeliverAlone` | msgbox/internal/hub.go:168-217 | The delivery steps of one goroutine, a run of its own steps and no others, leave the table, the acceptance and the writes of `Hubs.DeliverTo`. |
| `RelayWhole.ConnectAlone` | msgbox/internal/hub.go:93-154 | A whole connect with nothing in between: the connection is current, and the table is that of a drain of what was buffered for its DID. |
| `RelayWhole.MessageFrameAlone` | msgbox/internal/handler.go:203-313 | A whole d2d or rpc frame: the table is that of a delivery of the raw frame under its connection's key to the recipient it names. |
| `RelayWhole.PostAlone` | msgbox/internal/handler.go:488-510 | A whole post to /forward, under the server's id. |
| `RelayWhole.AckFrameAlone` | msgbox/internal/handler.go:192-198 | A whole ack frame: of all rows just the connection's own of that sender and id is gone. |
| `RelayWhole.CancelFrameAlone` | msgbox/internal/handler.go:320-360 | A whole cancel frame: nothing without a recipient; a row never delivered goes and that is all; otherwise the row goes, if there is one, and the cancel is delivered to whoever holds the request. |
| `RelayWhole.SweepTakesExpired` | msgbox/internal/buffer.go:265-277 | A sweep of the running relay takes exactly the rows over 86400 seconds old or past their own expiry. |
| `RelayWhole.UnregisterTakesCurrent` | msgbox/internal/hub.go:157-164 | Unregistering takes the connection away exactly when it is the current one, and nothing else. |
| `RelayWhole.RestartKeepsRows` | msgbox/internal/buffer.go:45-47 | A restart keeps the rows and drops connections, locks and goroutines. |
| `Drains.DrainInOrder` | msgbox/internal/hub.go:125-153 | A drain writes exactly the unexpired messages before the first failed write, in non-decreasing order of arrival, whatever the order of ties; what is left begins with the unexpired message that failed. |
| `Drains.DrainKeepsRows` | msgbox/internal/hub.go:125-153 | No tail loss: rows read before the stop are marked when written to an acking connection and gone otherwise; every other row is still there unchanged. |
| `Table.ExpiryTestsAgree` | msgbox/internal/buffer.go:265-271 | The WHERE clause of the sweep and the test of the drain pick the same messages: those over 86400 seconds old or past their own expiry. |
| `Table.InsertExactly` | msgbox/internal/buffer.go:98-139 | A row is added if and only if no row has its id, its recipient has fewer than 100, and their payloads with its own come to at most 10485760 bytes. |
| `Drains.SweepAndDrainCommute` | msgbox/internal/buffer.go:265-277 | At one clock reading a sweep before or after a drain gives the same writes, in the same order with the same outcomes, and the same table. |
| `Hubs.DeliveryIsKept` | msgbox/internal/hub.go:175-217 | A delivery not refused is kept, or was written to a connection that does not ack; written to an acking one it is kept and marked; refused, it changes nothing and is written to no acking one; other rows stay. |
| `Hubs.StatusIsExact` | msgbox/internal/hub.go:175-225 | A delivery is reported delivered exactly when it was written, refused exactly when it was neither written nor can be kept, and buffered otherwise. |
| `Hubs.Hub.Register` | msgbox/internal/hub.go:93-154 | The new connection is current; table, attempts and frames are those of the drain of the peeked rows. |
| `Hubs.Hub.DrainTo` | msgbox/internal/hub.go:127-153 | The loop writes, marks and deletes exactly as `Drains.Drain` says. |
| `Hubs.Hub.Deliver` | msgbox/internal/hub.go:168-225 | Status, table, attempts and frames of both delivery disciplines; no other socket is touched. |
| `Hubs.Hub.Cancel` | msgbox/internal/hub.go:255-274 | Relayed unless nobody to tell or the row was never delivered; the row is gone, and the relay is delivered to the row's own recipient, with the table, attempt and frame of a delivery; no other socket is touched, and none by a quiet cancel. |
| `Hubs.Hub.Unregister` | msgbox/internal/hub.go:157-164 | Only the current connection is removed. |
| `Hubs.Hub.Ack` | msgbox/internal/hub.go:230-238 | Exactly the recipient's own row of that id goes; the answer says whether there was one. |
| `Buffers.Buffer.Add` | msgbox/internal/buffer.go:98-139 | Keeps ids unique and both limits; idempotent by id; refuses exactly a new id that does not fit. |
| `Buffers.Buffer.Peek` | msgbox/internal/buffer.go:175-195 | Exactly the recipient's messages in order of arrival, none deleted. |
| `Buffers.Buffer.CancelBuffered` | msgbox/internal/buffer.go:237-245 | Removes the row and tells whether it was there and delivered; a removed row's recipient has a free place. |
| `Buffers.Buffer.MarkDelivered` | msgbox/internal/buffer.go:220-222 | Marks the rows of the id and keeps everything else. |
| `Buffers.Buffer.DeleteForRecipient` | msgbox/internal/buffer.go:207-215 | Deletes only when id and recipient match. |
| `Buffers.Buffer.ExpireTTL` | msgbox/internal/buffer.go:265-277 | Deletes exactly the expired rows and counts them. |
| `Limiter.SenderLimiter.Allow` | msgbox/internal/handler.go:577-599 | Answers exactly as a limiter over every call it ever allowed, and keeps every closed one-minute window of every key within `max`. |
| `Limiter.AllowsExactly` | msgbox/internal/handler.go:577-599 | The next call passes if and only if fewer than `max` were allowed in the closed minute before it. |
| `Limiter.WithinRateExactly` | msgbox/internal/handler.go:558 | The rate that is kept: no closed span of 60 seconds holds more than `max` of the allowed calls. |
| `Limiter.SenderLimiter.Cleanup` | msgbox/internal/handler.go:601-621 | Forgets what is outside the window and changes no answer; no idle key is left. |
| `Limiter.AllowedKeepsRate` | msgbox/internal/handler.go:591-598 | A call the full-history limiter allows leaves every closed one-minute window with at most `max` calls. |
| `Limiter.CallTracks` | msgbox/internal/handler.go:581-598 | The trimmed tail's length decides as the count over the full history does, and the tail tracks it again afterwards. |
| `Limiter.BurstIsCut` | msgbox/internal/handler.go:591-594 | At one instant exactly the first `max` calls are allowed. |
| `Nonces.NonceCache.CheckAndStore` | msgbox/internal/nonce_cache.go:45-62 | Fresh exactly when no accepted use of the key in the whole history is nearer than the window; accepted uses of one key stay a window apart. |
| `Nonces.NonceCache.Cleanup` | msgbox/internal/nonce_cache.go:66-78 | Drops exactly the entries older than the window, counts them, and changes no answer. |
| `Nonces.SeenDecides` | msgbox/internal/nonce_cache.go:52-57 | The map alone decides what the full history decides. |
| `Nonces.Gate.Admit` | msgbox/internal/handler.go:408-473 | With one clock reading at the timestamp check and a later one at the nonce check, a signed request passes exactly when its timestamp is within five minutes of the first, on either side, and its nonce unused for six at the second. |
| `Nonces.AdmissibleExactly` | msgbox/internal/handler.go:414-473 | The same test in nanoseconds, with both bounds on the timestamp. |
| `Nonces.LoggedInBounds` | msgbox/internal/handler.go:414-473 | In any history of admissions every timestamp was within those bounds, and two uses of one nonce were six minutes apart. |
| `Nonces.ReplayWindow` | msgbox/internal/handler.go:39 | If no request spends more than `delay` between the two checks, a request accepted once can be accepted again later if and only if its timestamp was at least a minute less that delay ahead of the clock. |
| `Nonces.AcceptedOnce` | msgbox/internal/handler.go:470-473 | In any history of admissions within that delay, a request accepted twice was first accepted at least a minute less the delay before its timestamp, and six minutes earlier. |
| `Base58.RebaseBack` | msgbox/internal/auth.go:261-289 | Changing base with leading zeros kept is undone by changing back, for any two bases. |
| `Base58.Base58Encode` | msgbox/internal/auth.go:261-290 | The nested carry loops, with the carry below 256 on each turn, compute the positional encoding. |
| `Base58.Base58Decode` | msgbox/internal/plc_resolver.go:98-128 | The loops, the leading ones and the reversal compute the positional decoding, or nothing on a letter outside the alphabet. |
| `Base58.ScaledDigits` | msgbox/internal/auth.go:266-276 | One pass of the carry over the digits of a number yields the digits of that number times the multiplier plus the carry, without leading zeros. |
| `Base58.DecodeEncoded` | msgbox/internal/plc_resolver.go:98-128 | Every byte string is recovered from its encoding, leading zeros included. |
| `Base58.EncodeDecoded` | msgbox/internal/plc_resolver.go:98-128 | Exactly the strings over the alphabet decode, and each is the encoding of what it decodes to. |
| `Base58.AlphabetText` | msgbox/internal/auth.go:262 | The alphabet, as the one string it is. |
| `Base58.SampleEncodings` | msgbox/internal/auth.go:261-290 | Known encodings of a byte, and of the same after a zero. |
| `DidKeys.MultibaseKeyIsExact` | msgbox/internal/plc_resolver.go:86-95 | A multibase string yields a key if and only if the key has 32 bytes and the string is that key's one text. |
| `DidKeys.KeyIsRecovered` | msgbox/internal/plc_resolver.go:86-95 | Every 32-byte key is recovered from its did:key. |
| `DidKeys.DidKeyIsInjective` | msgbox/internal/auth.go:254-258 | No two keys of any length share a did:key. |
| `DidKeys.DidKeyText` | msgbox/internal/auth.go:254-258 | A did:key is `did:key:z` and then text that decodes to 0xed, 0x01 and the key. |
| `DidKeys.VerifyDIDKeyDirect` | msgbox/internal/auth.go:58-64 | Passes exactly the derived identifier, and at most one key for an identifier. |
| `DidKeys.DecodeMultibaseKey` | msgbox/internal/plc_resolver.go:86-95 | The loops and checks yield the key of `MultibaseKeyIsExact`, or nothing. |
| `Claims.DailyCeiling` | apps/grants-service/src/claim.ts:82-88 | With a positive ceiling, in every run and every closed window of 86400000 ms, the ledger has at most ceiling + k - 1 rows, k the most claims in flight together in any state of the run (at least one); so the ceiling when claims do not overlap. |
| `Claims.PeaksAreExact` | apps/grants-service/src/claim.ts:60-178 | The peaks that the history keeps are the most claims, and the most of one device, in any state of the run. |
| `Claims.RefusesExactly` | apps/grants-service/src/claim.ts:60-122 | Which claims are refused before the first await, and with what, if and only if; for the ceiling just when its number of rows is not older than 24 hours. |
| `Claims.CountSinceIsExact` | apps/grants-service/src/ledger.ts:41-46 | The count is the number of rows granted at or after the time given. |
| `Grants.CeilingIsReached` | apps/grants-service/src/claim.ts:82-167 | For every ceiling and every k >= 1 some run with k claims at once fills one window right up to that bound. |
| `Claims.DeviceGrants` | apps/grants-service/src/claim.ts:124-158 | In every run a device gets at most as many keys as it ever had claims in flight at once plus its failed setClaimed calls, and its bit is set only once a key was minted for it. |
| `Claims.KeysAreDelivered` | apps/grants-service/src/claim.ts:140-177 | Every minted key goes out in the 200 reply of its own claim when that claim is over, and every 200 reply carries a key minted for it. |
| `Claims.RowsMatchKeys` | apps/grants-service/src/claim.ts:140-171 | In every run keys minted = ledger rows + failed inserts + claims holding a key not yet recorded. |
| `Claims.DayIsRecent` | apps/grants-service/src/ledger.ts:41-46 | What `countSince` reports covers every later window. |
| `Grants.ProcessClaim` | apps/grants-service/src/claim.ts:60-178 | The pipeline in order: each refusal, and that only a grant hands out a key, sets the bit and appends a row. |
| `Grants.Ledger.Count` | apps/grants-service/src/ledger.ts:41-46 | The loop counts the rows granted at or after a time, and no others. |
| `Grants.FinishAlone` | apps/grants-service/src/claim.ts:124-177 | A claim that nothing interrupts, the run going on with its own steps alone, ends with the reply, bit and row that `ProcessClaim` gives. |
| `Grants.ClaimAlone` | apps/grants-service/src/claim.ts:60-178 | The same from the request on: refused at once with nothing changed, or judged. |
| `Grants.JudgesExactly` | apps/grants-service/src/claim.ts:123-152 | Which reply a claim gets from then on, if and only if: a key goes only to a device that the backend vouches for and whose bit is clear. |
| `TokenMinter.SingleFlight` | apps/grants-service/src/google_oauth.ts:105-114 | In every run at most one exchange is in flight, every call meanwhile is served from the cache or joins it, no call joins one that is over, and all that joined one exchange get one outcome. |
| `TokenMinter.ServedInTime` | apps/grants-service/src/google_oauth.ts:106-144 | A token served from the cache was received, and is served only before its response time plus its lifetime less the skew. |
| `TokenMinter.FreshTokenIsServed` | apps/grants-service/src/google_oauth.ts:105-143 | In every run a call made before response time plus lifetime less skew of the last token received is served that token and starts no exchange. |
| `TokenMinter.ExchangeAnswers` | apps/grants-service/src/google_oauth.ts:105-144 | A call that finds neither gets the token its own exchange receives; it is cached until its time, and the in-flight field is cleared. |
| `TokenMinter.AnswersAreIssued` | apps/grants-service/src/google_oauth.ts:116-144 | A token handed to a caller that waited is one that some exchange received. |
| `TokenMinter.GoogleAccessTokenMinter.GetAccessToken` | apps/grants-service/src/google_oauth.ts:105-114 | Serve, join or launch, and what becomes of the in-flight field. |
| `TokenMinter.GoogleAccessTokenMinter.Receive` | apps/grants-service/src/google_oauth.ts:130-143 | A missing or empty token leaves the cache alone; any other is cached until its time. |
| `Semaphores.BoundBreaks` | appview/scripts/backfill.ts:16-35 | From a state within the bound, a step breaks it if and only if it is an acquire that takes the place owed to a woken waiter. |
| `Semaphores.BackfillBound` | appview/scripts/backfill.ts:37-55 | When all acquires come before the first release, at most `max` jobs run, and a job is queued only while the running and the woken fill all places, so somebody will wake it. |
| `Semaphores.AllDone` | appview/scripts/backfill.ts:45-54 | When nothing more can happen every job has run to its end. |
| `Semaphores.JobsStay` | appview/scripts/backfill.ts:21-34 | No step loses a job or invents one. |
| `Semaphores.WokenInOrder` | appview/scripts/backfill.ts:21-34 | First come, first served in every run: as long as one job is in the queue, so is every job that queued after it, behind it. |
| `Semaphores.OvertakingExceeds` | appview/scripts/backfill.ts:21-34 | With an acquire between a release and the waiter's resumption, two jobs run under a bound of one. |
| `Semaphores.Semaphore.Release` | appview/scripts/backfill.ts:30-34 | Gives the place back and wakes the first in the queue. |
| `Matching.GreedyIsStable` | scripts/tag_integration_code.py:375-405 | On any scores and any order of ties the greedy pass is one-to-one over pairs of at least 1.5, every such pair meets a chosen one at least as good (so none blocks and none is left free), and its total is at least half that of any assignment. |
| `Matching.GreedyHalf` | scripts/tag_integration_code.py:392-402 | What the rest of the pass adds is at least half of any one-to-one assignment over the pairs still open. |
| `Matching.Match` | scripts/tag_integration_code.py:342-405 | The loops return such an assignment, the tags it uses, and the functions it leaves. |
| `Matching.UnmatchedExactly` | scripts/tag_integration_code.py:402-405 | The list left over has exactly the names with no tag, each as often as it was given. |
| `Matching.ScoreAll` | scripts/tag_integration_code.py:375-383 | All pairs with a positive score and no others. |
| `Tagging.ApplyInsertions` | scripts/tag_integration_code.py:473-476 | Inserting last index first equals inserting every block above its own line at once. |
| `Tagging.DeleteRestores` | scripts/tag_integration_code.py:473-476 | Deleting the inserted lines restores the file. |
| `Tagging.AssignNovelIds` | scripts/tag_integration_code.py:483-527 | The scan numbers the untagged functions in order and inserts their tags; count and next number are right. |
| `Tagging.EveryFunctionTagged` | scripts/tag_integration_code.py:501-527 | Afterwards no function is untagged, and a second pass changes nothing. |
| `Tagging.EachGetsItsNumber` | scripts/tag_integration_code.py:515-519 | The k-th untagged function has the k-th consecutive number right above its decorators. |
| `Tagging.NumbersDiffer` | scripts/tag_integration_code.py:515-519 | A later function's number is greater than an earlier untagged one's. |
| `Tagging.TagsDiffer` | scripts/tag_integration_code.py:515-519 | No two functions of a file get the same tag, in any numbering whose tags differ. |
| `Tagging.TagsDifferAcrossFiles` | scripts/tag_integration_code.py:574-578 | Nor do functions of two files of one run, the second going on from the first's next number. |
| `Tagging.TagsFreshExactly` | scripts/tag_integration_code.py:515-519 | A function gets a tag that the file already holds if and only if the file holds one of the consecutive numbers about to be given out. |
| `Tagging.RerunRepeats` | scripts/tag_integration_code.py:566-576 | For every starting number, a file tagged by one run, and then given another function, gets that number a second time. |
| `Tagging.NovelTagsDiffer` | scripts/tag_integration_code.py:516 | Different numbers give different tags. |
| `Tagging.TopsDiffer` | scripts/tag_integration_code.py:506-509 | No two functions share an insertion point. |
| `Tagging.TaggedAfter` | scripts/tag_integration_code.py:505-527 | A function is tagged in the new file exactly when it was before or got a tag. |
| `Tagging.FuncExactly` | scripts/tag_integration_code.py:494 | A line is a function's if and only if it is white space, `def test_`, word characters and a parenthesis, and anything after them. |
| `Tagging.DecoratorExactly` | scripts/tag_integration_code.py:495 | A line is a decorator's if and only if it is white space, an at sign, and anything after them. |
| `Tagging.TagExactly` | scripts/tag_integration_code.py:496 | A line is a tag if and only if it begins with `# TST-INT`. |
| `Tagging.NumeralIsDecimal` | scripts/tag_integration_code.py:516 | A number is written in decimal, with three digits below 1000 and no zero in front from there on. |
| `Tagging.NovelTagText` | scripts/tag_integration_code.py:516 | A novel id is `# TST-INT-` and that numeral. |

## Left out

- SQL errors: a statement succeeds or refuses for the reasons its own text gives; `Add`'s limits are the only refusal.
- WebSocket, HTTP, TLS, JSON, base64, logging, random ids: frames are datatypes, a write succeeds or fails as a whole, and fresh ids and the expiry of a relayed cancel are parameters.
- Signatures, hashes, PLC lookup, DeviceCheck, Play Integrity and the key provider: verified requests and arbitrary replies.
- The sections under `h.mu` are single steps, since they hold nothing else; in `LockTable` taking, using and releasing `locksMu` are separate steps.
- Closing a replaced connection and the timeout of a write: a replaced connection may still send frames, and a write that times out is one that failed.
- RelayCancel.CancelIsExact: of ids submitted more than once it says nothing, since `Add` keeps the first of two messages with one id.
- RelayKept.Conservation: follows a message sent once under its id; `Add` silently keeps the first of two messages with one id.
- RelayPlace.RelayFindsPlace: the count limit only; the bytes freed may be fewer than the relay's payload.
- FIFO between a live delivery and rows left by a failed drain, and the order of equal `stored_at`: the code promises neither.
- `Buffer.Drain`, `TotalCount` and `ConnectedCount`, which no message passes through; rows migrated from before the sender column; the resolver cache.
- Nonces.Gate.Admit: the clock at the nonce checks does not run backwards, and the timestamp is checked no later than the nonce.
- Limiter.SenderLimiter.Allow: the clock does not run backwards.
- Claims.DailyCeiling: the clock does not run backwards; the ledger's rows are counted, so a failed insert is a key the ceiling does not see (`Claims.RowsMatchKeys`).
- Claims.DeviceGrants: bits start clear and nothing clears them; a failed setClaimed may or may not have set the bit.
- The text of claim requests (`parseClaimGrantRequest` is not part of this model): a request is given, or it is not one.
- TokenMinter.ServedInTime: a caller that joins an exchange gets its token whatever its lifetime, as in the code; floating-point rounding is not modelled.
- Semaphores.BackfillBound: `max` is a whole number; the paging loops of the backfill are left out.
- Matching.Match: the keyword score is any function of name and tag, as the token maps make it; ties fall in any order where the script breaks them by name and tag.
- Tagging: `\s` and `\w` in ASCII, files as lists of lines; comment wrapping, docstrings, the manifest, and which functions `process_file` passes to the insertion are left out.
