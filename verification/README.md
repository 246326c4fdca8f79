# Verification of ws_gateway

ws_gateway relays binary packets between WebSocket connections that have joined rooms, and takes
packets in over UDP as well. A 24-byte header names a room, a user and a packet type; the gateway
decodes it, finds the addressed connections in a two-level registry, and pushes the packet into
each connection's bounded queue under a policy that depends on the packet type.

The project models this in five layers and proves what each promises.

- **Codec.** `GatewayProtocol` is the Rust crate, `Utf8` its check of text. `decode` accepts exactly the encodings of
  well-formed packets, and both round trips are identities. `JsCodec` and `PyCodec` are the two
  hand translations; they accept the same buffers with equal fields and encode to equal bytes.
- **Channel.** `Channel` has the bounded queue as a value with its history (accepted, received,
  evicted), a class for the shared object, and the exact accounting of every item over every
  interleaving. `Wakeup` goes below the queue's mutex, to the order of push, notify, look and park.
  `Backpressure` is the policy by which a packet is sent.
- **Registry and router.** `Registry` has the map of maps and the flat table it stands for;
  `Router` is the class with its methods, one call at a time.
- **The running gateway.** `Gateway` interleaves connection handlers, route calls, SystemCmd
  retries and two-phase unregistrations, each step one atomic access to the shared state. Pending
  route calls are an unordered map, as every packet is routed by a task of its own. The modules
  `GatewayKeys`, `GatewayRegistry`, `GatewayDelivery` and `GatewaySenders` hold the inductive
  invariants; `GatewayLog`, `GatewayLatest`, `GatewaySnapshot`, `GatewayRuns` and
  `GatewayEvictions` draw the theorems about every reachable state and every run;
  `GatewayService` says who is served, `GatewayFates` which step settles what becomes of a packet,
  `GatewayRetries` what a failed retry leads to, `GatewayGuards` who keeps out whom, and
  `GatewayProgress` that nothing gets stuck; `GatewayWire` states the laws on the bytes of the
  packets; `GatewayFailures` builds the runs in which a documented expectation fails.
- **Locks, heartbeat, addressing.** `Deadlock` nests the guards, `Heartbeat` is the event loop of a
  handler, `Displacement` its timing with `Wakeup`, `Addressing` says who can be reached by unicast.

Check everything with `dafny verify dfyconfig.toml`.

## Where the code and its documents differ

The model follows the code.

- Section 3.3 of `doc/rust_gateway_prd_v3.md` (line 60) lets the newer of two connections with the
  same key win. `unregister` removes by key, whoever's sender the key holds, so a displaced handler
  or a failed retry that cleans up late removes the newer connection.
  `GatewayLatest.LatestWinsExactly` says which steps break the rule, strictly and when a connection
  is excused that its own failed retry has disconnected; `GatewayLatest.LatestWinsThroughoutExactly`
  says so of runs. `GatewayFailures.DisplacedHandlerRemovesReplacement` gives a failing run for
  every admissible key, `GatewayFailures.FailedRetryRemovesReplacement` for every key that unicast
  reaches.
- The comment at `src/routing.rs:195-197` lets a replaced receiver notice its closure. Dropping a
  sender notifies nobody. When the last sender goes, the receiver goes on to notice by itself if
  and only if it is not deaf (`Wakeup.ClosureNoticedExactly`): it is deaf when it is parked, and
  also when it has found the queue empty, is about to park, and no notification is stored. Both
  are reached (`Wakeup.DropDoesNotNotify`), and no run gets a deaf receiver out of it without
  cancelling its wait (`Wakeup.DeafForGood`), as the handler's ping tick does. So a handler may
  outlive its last sender, but not its next tick (`Displacement.NoticedAtNextTick`).
- Acceptance criterion 2 (line 186) asks for clean-up within 30 s. A silent handler times out at the
  first tick after more than 30 s of silence, hence never within 30 s and always within 40
  (`Heartbeat.TimesOutExactly`), provided ticks are on time. The sooner it falls silent after the
  timer was reset, the closer it comes to 40 s (`Heartbeat.SilenceLastsFortySeconds`).
- A queue can exceed its capacity: at capacity 0, and there exactly from an evicting send to the
  next receipt (`Channel.ExceedsCapacityExactly`). The bound is max(capacity, 1).
- `send_drop_oldest` evicts the front packet whatever its type, so an accepted SystemCmd can be lost
  to later RawMotion: `GatewayFailures.SystemCmdIsEvicted` is such a run for every key that unicast
  reaches. A packet is lost if and only if it is at the front of a full queue when RawMotion is
  dispatched to it (`GatewayEvictions.EvictsExactly` for a step, `GatewayEvictions.LostExactly` for
  a run, `Channel.LosesExactlyByOverflow` for a channel by itself).
- The comment at `doc/gateway-protocol/src/lib.rs:321` trusts both `new` and `decode` to check the
  fields. `new` admits a NUL inside an id; such a header does not decode, or decodes to another id
  (`GatewayProtocol.NewEncodeDecode`). The WebSocket handler admits such ids too, and nobody can
  address the connection by unicast (`Addressing.AddressableExactly`).
- Section 4 of the same document calls the header 22 bytes long; its table and the code have 24.

## Model

| member | source | states |
|---|---|---|
| `GatewayWire.WireCodes` | doc/gateway-protocol/src/lib.rs:34-92 | what bytes 0 to 3 of an accepted buffer mean, code by code, and which bytes name its room and user |
| `GatewayProtocol.PacketType.AsU8` | doc/gateway-protocol/src/lib.rs:48-55 | `from_u8` gives back every packet type from its byte |
| `GatewayProtocol.PacketTypeFromU8` | doc/gateway-protocol/src/lib.rs:57-65 | a packet type for exactly the bytes 1 to 4 |
| `GatewayProtocol.TargetType.AsU8` | doc/gateway-protocol/src/lib.rs:78-83 | `from_u8` gives back every target type from its byte |
| `GatewayProtocol.TargetTypeFromU8` | doc/gateway-protocol/src/lib.rs:85-91 | a target type for exactly the bytes 1 and 2 |
| `GatewayProtocol.FirstZeroFrom` | doc/gateway-protocol/src/lib.rs:314 | the position it finds holds a zero, and no earlier one does |
| `GatewayProtocol.PackAsciiField` | doc/gateway-protocol/src/lib.rs:303-310 | fills the buffer with the id and zeros, and refuses exactly what is not ASCII or too long |
| `GatewayProtocol.NewSucceedsExactly` | doc/gateway-protocol/src/lib.rs:171-194 | when `new` accepts, which argument it blames otherwise, and what every header field then holds |
| `GatewayProtocol.EncodeHeader` | doc/gateway-protocol/src/lib.rs:207-218 | the buffer written field by field is the 24 header bytes |
| `GatewayProtocol.EncodePacket` | doc/gateway-protocol/src/lib.rs:221-226 | header bytes, then the payload |
| `GatewayProtocol.HeaderFields` | doc/gateway-protocol/src/lib.rs:207-226 | each field is read back, big-endian, from its offset in the encoded packet |
| `GatewayProtocol.U16ToBe` | doc/gateway-protocol/src/lib.rs:216 | big-endian positional value of the length bytes |
| `GatewayProtocol.U32ToBe` | doc/gateway-protocol/src/lib.rs:215 | big-endian positional value of the sequence bytes |
| `GatewayProtocol.DecodeOfEncode` | doc/gateway-protocol/src/lib.rs:221-298 | decoding an encoded packet succeeds iff it is well-formed, and then returns it unchanged |
| `GatewayProtocol.EncodeOfDecode` | doc/gateway-protocol/src/lib.rs:221-298 | re-encoding what was decoded restores the buffer byte for byte |
| `GatewayProtocol.DecodeAcceptsExactlyEncodings` | doc/gateway-protocol/src/lib.rs:242-298 | a buffer is accepted iff it encodes a well-formed packet; that packet is unique and is returned |
| `GatewayProtocol.FirstFaultIsReported` | doc/gateway-protocol/src/lib.rs:242-283 | a buffer is refused iff some error is true of it, and the one reported is the first in the order of the checks |
| `GatewayProtocol.LengthMismatchIsTheOnlyFault` | doc/gateway-protocol/src/lib.rs:274-283 | after a length mismatch, any payload of the declared length makes the header acceptable |
| `GatewayProtocol.TrimmedField` | doc/gateway-protocol/src/lib.rs:313-323 | packing undoes trimming on every valid field |
| `Utf8.ValidExactly` | doc/gateway-protocol/src/lib.rs:322 | what `from_utf8` accepts: an encoded character of RFC 3629, section 3, and then more of the same |
| `Utf8.FieldText` | doc/gateway-protocol/src/lib.rs:319-323 | the text of a field ends before its first zero; octets that are no text count as none |
| `GatewayProtocol.TrimInjective` | doc/gateway-protocol/src/lib.rs:319-323 | two valid fields with the same trimmed id are equal |
| `GatewayProtocol.PackedFieldTrims` | doc/gateway-protocol/src/lib.rs:303-323 | a packed id is a valid field iff its zeros are all at its end, and trims to itself iff it has none |
| `GatewayProtocol.NewEncodeDecode` | doc/gateway-protocol/src/lib.rs:171-298 | `new`, `encode`, `decode` succeeds iff no id has a zero before a non-zero byte and the lengths match |
| `JsCodec.PackAsciiField` | public/gateway_protocol.js:91-116 | accepts exactly ASCII strings without NUL that fit, and then packs what Rust packs |
| `JsCodec.UnpackAsciiField` | public/gateway_protocol.js:126-167 | accepts exactly the valid fields, and returns the Rust trim |
| `JsCodec.SetAt` | public/gateway_protocol.js:235-241 | overwrites the bytes from the offset on and no others |
| `JsCodec.Assemble` | public/gateway_protocol.js:224-241 | the assembled buffer: every header field at its place, then the payload |
| `JsCodec.JsEncode` | public/gateway_protocol.js:185-253 | accepts exactly the options in range, and returns the bytes of Rust `new` and `encode` |
| `JsCodec.JsDecode` | public/gateway_protocol.js:270-346 | accepts exactly what Rust decodes, with equal fields |
| `JsCodec.OnlyNulsDiffer` | public/gateway_protocol.js:91-109 | on typed arguments the JavaScript encoder refuses more than Rust only for NULs in ids |
| `JsCodec.EncodesOnlyTyped` | public/gateway_protocol.js:194-222 | the JavaScript encoder accepts exactly the options that hold version 2, arguments the Rust encoder takes, and ids without NUL |
| `PyCodec.EncodeAscii` | client_sdk/python/gateway_protocol.py:179-180 | succeeds exactly on ASCII text and keeps its characters |
| `PyCodec.Find` | client_sdk/python/gateway_protocol.py:103 | the first index of the byte, or -1 when there is none |
| `PyCodec.FieldAgrees` | client_sdk/python/gateway_protocol.py:98-128 | the Python field decoder accepts exactly the valid fields, and returns the Rust trim |
| `PyCodec.PyDecodeAgrees` | client_sdk/python/gateway_protocol.py:202-276 | accepts exactly what Rust decodes, with equal fields |
| `PyCodec.PyEncodeAgrees` | client_sdk/python/gateway_protocol.py:134-199 | encodes iff Rust does and no id holds a NUL, and then to identical bytes |
| `PyCodec.PyEncodeAcceptsOnly` | client_sdk/python/gateway_protocol.py:160-183 | every accepted call has arguments that Rust could be given |
| `Channel.StepAccounted` | src/routing.rs:106-168 | each operation keeps the accounting of every item and only extends the history |
| `Channel.RunAccounted` | src/routing.rs:106-168 | after any interleaving, for any capacity: the queue is the tail of what was accepted, everything before it was either received or evicted, receipts are in order, and the length is at most max(capacity, 1) |
| `Channel.EvictionIsFresh` | src/routing.rs:119-126 | every eviction of item i happens in the very step that accepts item i + max(capacity, 1) by `send_drop_oldest`, which ends up newest in the queue |
| `Channel.LosesExactlyByOverflow` | src/routing.rs:119-126 | a run loses an accepted item iff one of its steps is an evicting send to a full channel that holds something |
| `Channel.ExceedsCapacityExactly` | src/routing.rs:119-126 | the queue exceeds the capacity iff that is 0 and no receipt has followed an evicting send |
| `Channel.AloneExtends` | src/routing.rs:131-146 | what the environment does in any number of sleeps keeps the accounting and only extends the history |
| `Channel.SleepsFiveExactly` | src/routing.rs:142 | a clock is admissible iff consecutive attempts lie at least 5 ms apart |
| `Channel.NoEvictionIsFifo` | src/routing.rs:152-160 | without evictions, received followed by queued is what was accepted, in order |
| `Channel.LosslessWithoutDropOldest` | src/routing.rs:106-115 | a run without evicting sends loses nothing it accepted |
| `Channel.BoundedChannel.constructor` | src/routing.rs:90-102 | an empty channel with one sender and no stored permit |
| `Channel.BoundedChannel.TrySend` | src/routing.rs:106-115 | appends and notifies iff there is room, and changes nothing otherwise |
| `Channel.BoundedChannel.SendDropOldest` | src/routing.rs:119-126 | always appends, giving up the front item of a full queue |
| `Channel.BoundedChannel.CloneSender` | src/routing.rs:57-63 | one more live sender, and nothing else changes |
| `Channel.BoundedChannel.DropSender` | src/routing.rs:53-55 | one sender fewer, and nobody is notified |
| `Channel.BoundedChannel.PollRecv` | src/routing.rs:156-165 | the front item; with an empty queue None iff no sender is alive |
| `Channel.BoundedChannel.Sleep` | src/routing.rs:142 | while this task sleeps the channel undergoes exactly the operations of the others, whichever these are |
| `Channel.BoundedChannel.SendTimeout` | src/routing.rs:131-146 | for every environment and every clock: all attempts but the last meet a full channel before the time is up, the last succeeds iff there is room and fails only when the time is up, there are at most ceil(timeout/5)+1, and the channel ends up as the environment alone would have made it, plus the item once on success |
| `Wakeup.NextKeepsInv` | src/routing.rs:106-168 | each step of senders and receiver keeps the wakeup invariant |
| `Wakeup.NeverLosesWakeup` | src/routing.rs:106-168 | in every reachable state, if an item is queued while the receiver is parked or about to park, a notification is stored or about to be given |
| `Wakeup.ServedWithinThreeSteps` | src/routing.rs:152-169 | a queued item is handed out after at most three steps that need no other sender |
| `Wakeup.PushTakesIn` | src/routing.rs:106-126 | a push puts its item at the back of the queue; a full channel gives up its front for it |
| `Wakeup.PushIsDelivered` | src/routing.rs:106-168 | what was pushed is received after at most three due steps for each queued item, unless a later push evicts it |
| `Wakeup.QueuedIsHandedOut` | src/routing.rs:152-169 | so is everything queued |
| `Wakeup.ReceiptsTakeTheFront` | src/routing.rs:156-160 | only pushes and looks change the channel, and a look hands out the front item |
| `Wakeup.ItemMeetsParkedReceiver` | src/routing.rs:106-167 | a state with a queued item and a parked receiver is reachable |
| `Wakeup.SendersExactly` | src/routing.rs:53-63 | clones and drops, and nothing else, change who holds a sender |
| `Wakeup.SendersCan` | src/routing.rs:104-126 | when a holder can clone, drop and push |
| `Wakeup.NotificationsAreKept` | src/routing.rs:110-167 | only notifying leaves a notification, and only a receiver that goes on because of it uses it up |
| `Wakeup.LooksExactly` | src/routing.rs:154-166 | a look ends the stream iff nothing is queued and no sender is left, and makes the receiver wait iff nothing is queued and one is |
| `Wakeup.NoneIsFinal` | src/routing.rs:162-164 | after None nothing changes any more, no sender is left, and every accepted item was received or evicted |
| `Wakeup.ClosureNoticedExactly` | src/routing.rs:152-169 | with no sender left, the receiver goes on to end by itself iff it is neither parked nor about to park without a stored notification |
| `Wakeup.DeafForGood` | src/routing.rs:162-167 | from such a deaf state no run without a cancellation ends the stream |
| `Wakeup.ClosureNeedsAnotherPoll` | src/network.rs:297-331 | a deaf receiver can do nothing but park and be cancelled; polled again, it ends at once |
| `Wakeup.DropDoesNotNotify` | src/routing.rs:53-55 | both kinds of deaf states, parked and about to park, are reached by dropping the only sender |
| `Registry.FlatIs` | src/routing.rs:182 | the flat table is determined by the entries found under each room and user |
| `Registry.EnsureIsInvisible` | src/routing.rs:199-202 | creating a room leaves the flat table as it is |
| `Registry.InsertTakesEffect` | src/routing.rs:204 | the inner insert sets exactly its key |
| `Registry.RemoveTakesEffect` | src/routing.rs:230 | the inner remove clears exactly its key |
| `Registry.RemoveIfEmptyIsInvisible` | src/routing.rs:238 | `remove_if` discards no sender |
| `Registry.UserCountIsFlatSize` | src/routing.rs:381-383 | `user_count` is the size of the flat table |
| `Registry.RoomCountIsFlatRooms` | src/routing.rs:375-377 | `room_count` is the number of rooms in the flat table iff no room is empty |
| `Router.Router.constructor` | src/routing.rs:187-191 | an empty registry |
| `Router.Router.Register` | src/routing.rs:198-209 | room ensured, then sender inserted; reports whether a sender was replaced |
| `Router.RegisterSetsKey` | src/routing.rs:198-209 | the key holds the new sender, all other keys are as before |
| `Router.Router.Unregister` | src/routing.rs:223-242 | sender removed, then the room if it is empty; no empty room is left |
| `Router.UnregisterClearsKey` | src/routing.rs:223-242 | the key is free, all other keys are as before |
| `Router.Router.Dispatch` | src/routing.rs:307-371 | one send by the packet type's policy; a retry for the same packet, target and channel iff a SystemCmd met a full queue |
| `Router.Router.Snapshot` | src/routing.rs:266-269 | every member of the room once, with its sender |
| `Router.Targets` | src/routing.rs:263-300 | a packet's targets are the members of its room, all for a broadcast, the one it names for a unicast |
| `Router.Router.ChooseTargets` | src/routing.rs:263-300 | collects exactly those |
| `Router.Router.DispatchAll` | src/routing.rs:271-278 | every channel has taken part once for each of its targets, and retries make up for exactly the refused SystemCmds |
| `Router.Router.Route` | src/routing.rs:247-301 | the packet is sent once per target user and to no other channel; a SystemCmd is accepted or handed to a retry, target by target |
| `Router.Router.UserCount` | src/routing.rs:381-383 | the loop's sum is the size of the flat table |
| `GatewayKeys.NextKeepsBooks` | src/routing.rs:198-371 | every step keeps: each registry entry, snapshot target, fate and unregistration names a connection of that room and user; a call has a fate for exactly the targets it dispatched to |
| `GatewayKeys.SendTargetIsNew` | src/routing.rs:266-291 | the target about to be served is addressed by the packet and was not served before by this call |
| `GatewayRegistry.NextKeepsSound` | src/routing.rs:198-242 | every step keeps: guards exclude writers, entries belong to live handlers, empty rooms are attended to, the counter is exact |
| `GatewayRegistry.DeliveryLeavesRegistry` | src/routing.rs:247-371 | steps of route calls, retries and receivers leave the registry, the handlers and the counter alone |
| `GatewayLog.LastEventDecides` | src/routing.rs:204-230 | a key holds a sender iff the last insert or remove on that key inserted it |
| `GatewayLog.NextKeepsInv` | src/routing.rs:198-242 | every step keeps the whole registry invariant |
| `GatewayLog.ReachableInv` | src/routing.rs:198-371 | every reachable state satisfies it |
| `GatewayLog.RegistryRefinesFlatTable` | src/routing.rs:198-242 | after every run the two-level map is the replay of its inner inserts and removes on a flat table |
| `GatewayLog.CleanupRaceSafety` | src/routing.rs:223-242 | a present but empty room has a registering handler or an unregistration past its remove attending to it; no phase but the inner remove takes anything from the flat table |
| `GatewayLog.QuiescentCounts` | src/routing.rs:375-383 | when nothing is in progress no room is empty, and both counters count the flat table |
| `GatewayLog.ExactLoss` | src/network.rs:236-337 | a live handler's sender is absent iff, after its own register, a later register replaced it or somebody else's unregister on the key removed it |
| `GatewayLog.NoZombies` | src/network.rs:236-337 | every registered sender belongs to a handler whose own unregister has not removed yet, so entries never outnumber such handlers |
| `GatewayLog.LiveHandlersInPhases` | src/network.rs:236-337 | which handlers these are: past their insert, and their own unregister not past its removal |
| `GatewayGuards.LeavingUnregisters` | src/network.rs:333-337 | a handler has left its loop for good iff it runs its own unregister, under its own key, and past the removal it is not registered |
| `GatewayGuards.WritersExclude` | src/routing.rs:198-242 | a registering handler is alone in its room, and whoever is inside a room finds it there |
| `GatewayGuards.EntersExactly` | src/routing.rs:199-202 | a handler can take the entry guard iff nobody is inside its room |
| `GatewayGuards.CleansUpExactly` | src/routing.rs:238 | `remove_if` can run iff nobody is inside the room |
| `GatewayGuards.LooksUpExactly` | src/routing.rs:229-251 | a room can be looked up iff no handler is registering in it |
| `GatewayGuards.UnregistersInOrder` | src/routing.rs:228-241 | an unregistration ends at once iff there is no room; else the key is freed, and the room is swept iff that left it empty |
| `GatewayGuards.ArrivesExactly` | src/network.rs:102-109 | a buffer starts a route call, at any time, iff it encodes a well-formed packet |
| `GatewayGuards.ComesExactly` | src/network.rs:166-208 | a connection is admitted, at any time, iff its ids are ASCII and fit |
| `GatewayGuards.GoesExactly` | src/network.rs:281-333 | a serving handler, and no other, can leave its loop at any time |
| `GatewayLog.ActiveCounterExact` | src/network.rs:237-336 | the active counter is the number of handlers between its add and its sub, and never negative |
| `GatewayLatest.LatestWinsExactly` | doc/rust_gateway_prd_v3.md:60 | a step keeps "the last connection wins" iff it is not the removal of a sender that is not its own handler's; with forced disconnects excused, iff it is not a removal on behalf of another connection |
| `GatewayLatest.LatestWinsThroughoutExactly` | doc/rust_gateway_prd_v3.md:60 | the rule holds at every moment of a run iff the run has no such removal |
| `GatewayLatest.LatestWinsWithoutLateCleanup` | doc/rust_gateway_prd_v3.md:60 | the rule holds throughout every run without such a removal |
| `GatewayFailures.DisplacedHandlerRemovesReplacement` | src/network.rs:337 | for every admissible key there is a run in which the displaced handler's unregister removes the newest connection, which serves on |
| `GatewayFailures.FailedRetryRemovesReplacement` | src/routing.rs:343-352 | for every key that unicast reaches there is a run in which a failed retry to the older connection does so |
| `GatewayFailures.SystemCmdIsEvicted` | src/routing.rs:316-319 | for every key that unicast reaches there is a run in which an accepted SystemCmd is evicted |
| `GatewaySnapshot.NextKeepsSnapshots` | src/routing.rs:251-279 | every step keeps: a room that is being scanned only loses members, and the scan has seen only members |
| `GatewaySnapshot.BroadcastSnapshot` | src/routing.rs:264-279 | a finished broadcast has one target per user, all members at the end of its scan among them and only members at the beginning, and a fate for exactly those |
| `GatewaySnapshot.BroadcastServesScanned` | src/routing.rs:251-279 | in terms of the run: whoever is registered in every state from finding the room to the end of the scan is a target, and each target is registered in one of them |
| `GatewayService.ServesTheRegistered` | src/routing.rs:247-301 | a finished call, broadcast or unicast, has a fate for every connection that its packet is for and that was registered in its room in every state since the call arrived |
| `GatewayService.ServesOnlyTheRegistered` | src/routing.rs:247-301 | a call has a fate only for connections its packet is for and that were registered at some moment since; it finds no room, or a unicast no user, only if that was absent at some such moment |
| `GatewayWire.ServiceOnTheWire` | src/routing.rs:247-301 | the first of these, with the targets told by bytes 2, 4 to 9 and 10 to 17 of the buffer |
| `GatewayDelivery.NextKeepsDelivered` | src/routing.rs:305-371 | every step keeps: items are arrived buffers for this connection, each accepted at most once, and iff the fate says so; only RawMotion evicts |
| `GatewayRuns.CallsStemFromArrivals` | src/network.rs:102-110 | every route call stems from a buffer received in the run that decoded to its header and payload |
| `GatewayRuns.TransparentRelay` | src/network.rs:257-263 | everything a connection's queue ever took in is byte-identical to a received buffer, for its room and, if unicast, its user |
| `GatewayWire.RelayOnTheWire` | src/routing.rs:314 | the same, with room and user told by the bytes of the buffer |
| `GatewayRuns.QueuedAndReceivedWereAccepted` | src/network.rs:221-233 | the queue is the tail of what was accepted, at most 64 items; before it every item was either received or evicted, and receipts are in order, so each is made once |
| `GatewayRuns.ExactFate` | src/routing.rs:307-371 | one fate for each dispatched target and for nobody else; accepted exactly once iff the fate says so; which types can be dropped or retried; a failed retry has its unregistration |
| `GatewayRuns.DispatchOutcome` | src/routing.rs:307-371 | what one dispatch does to its target's queue and fate in each case, and that it touches no other channel |
| `GatewayWire.PolicyOnTheWire` | src/routing.rs:315-370 | what a queue of 64 does with a packet, told by byte 1: 1 is taken in at the expense of the front, 3 is retried, 2 and 4 are dropped |
| `GatewayFates.FatesSettledExactly` | src/routing.rs:315-370 | over a whole run, a packet was accepted, dropped or failed for a connection iff one of the steps did that, told by byte 1 and the length of the queue; a retry fails only at an attempt that meets 64 queued packets |
| `GatewayFates.SettledExactly` | src/routing.rs:315-370 | the same for one step; final fates stay |
| `GatewayFates.RetriesExactly` | src/routing.rs:133-139 | an attempt of a pending retry succeeds iff fewer than 64 packets are queued, and fails iff 64 are |
| `GatewayFates.RetryTakesIn` | src/routing.rs:338-342 | a successful retry adds the buffer that arrived to the back of its queue and changes no other channel |
| `GatewayFates.GivingUpUnregisters` | src/routing.rs:343-352 | a failed retry leaves the channels alone and starts to unregister its connection's key |
| `GatewayFates.ReceivesTheFront` | src/network.rs:297-299 | a serving handler can receive iff something is queued, and gets the front item |
| `GatewayRetries.FailedRetryDisconnectsForGood` | src/routing.rs:343-352 | in every reachable state in which a failed retry's unregister is past its removal, the connection it gave up is not registered |
| `GatewayRuns.FailedRetryDisconnects` | src/routing.rs:343-352 | the removal itself leaves that connection's key free |
| `GatewayEvictions.EvictsExactly` | src/routing.rs:316-319 | a step of any task makes an item lost iff it dispatches RawMotion to a queue of 64 with that item in front |
| `GatewayWire.EvictsExactlyOnTheWire` | src/routing.rs:316-319 | the same, with the packet type told by byte 1 |
| `GatewayEvictions.LostExactly` | src/routing.rs:316-319 | over a whole run, an item is lost iff one of the steps was such a dispatch |
| `GatewayRuns.EvictedByRawMotion` | src/routing.rs:119-126 | what an evicted packet gave way to: the RawMotion packet accepted exactly 64 later |
| `GatewayRuns.LosslessWithoutRawMotion` | src/routing.rs:316-319 | a connection that takes in no RawMotion gets everything it accepted, in order |
| `GatewayWire.LosslessOnTheWire` | src/routing.rs:316-319 | the same, with the packet types told by byte 1 |
| `GatewayRuns.NextKeepsClosed` | src/routing.rs:162-164 | once no sender is alive in handler, registry, snapshot or retry, no step revives one or sends |
| `GatewaySenders.NextKeepsCounted` | src/routing.rs:266-273 | every step keeps the count of a channel's senders equal to the number of handlers, entries, snapshot items and retry tasks that hold one |
| `GatewaySenders.SendersCountedExactly` | src/routing.rs:162 | so it is in every reachable state, and the count is 0 iff no sender exists |
| `GatewayRuns.NoneExactly` | src/routing.rs:152-165 | `recv`, which reads the count, returns None iff the queue is empty and no sender exists anywhere |
| `GatewayRuns.NoneIsFinal` | src/network.rs:308-311 | when `recv` gives None no sender exists, everything accepted was received or evicted, and nothing is accepted in any continuation |
| `Heartbeat.LastAliveIsLatest` | src/network.rs:242-287 | the recorded sign of life is the start or the time of a message, and no message came later |
| `Heartbeat.TicksAreCounted` | src/network.rs:243-246 | the number of ticks in a trace |
| `Heartbeat.OnTimeExactly` | src/network.rs:242-246 | what a trace on time is: from the origin of the ticks on, time does not go back, no event overtakes the next tick, and each tick comes n times 10 s after the origin |
| `Heartbeat.TicksLag` | src/network.rs:243-321 | while a handler lives, its last tick came at most 30 s after its last sign of life |
| `Heartbeat.ExitsWithinFortySeconds` | src/network.rs:215-332 | with ticks on time, whatever a living handler handles comes at most 40 s after its start or after some message |
| `Heartbeat.TimesOutExactly` | src/network.rs:316-331 | a handler times out at the first tick more than 30 s after the last sign of life and at no other, so after more than 30 s and at most 40 |
| `Heartbeat.SilenceLastsFortySeconds` | doc/rust_gateway_prd_v3.md:186 | for every d in the first interval: a handler that falls silent d after its timer was reset outlives the tick at 30 s and ends at the one at 40, after 40 s less d of silence |
| `Displacement.NoticedAtNextTick` | src/network.rs:297-331 | once no sender is left and the queue is empty, a handler that handles its next tick on time is gone when time has passed that tick, within 10 s |
| `Displacement.ParkedUntilNextTick` | src/network.rs:297-331 | the bound is reached: a handler parked when its last sender goes outlives it until that tick |
| `Heartbeat.Serve` | src/network.rs:242-333 | goes on over messages, successful sends and ticks only, and ends at the first other event for the reason that event gives; a timeout means more than 30 s since the start and every message |
| `Deadlock.OperationIsDisciplined` | src/routing.rs:106-298 | every operation takes room guard, members guard and queue mutex in that order and ends holding none |
| `Deadlock.NextKeepsInv` | src/routing.rs:106-298 | no step makes two tasks hold a lock in conflict or breaks the order |
| `Deadlock.SomebodyMoves` | src/routing.rs:106-298 | whoever is blocked, some task can step |
| `Deadlock.NoDeadlock` | src/routing.rs:106-298 | in every reachable state with unfinished work some task can step |
| `Deadlock.TakesExactly` | src/routing.rs:106-298 | which locks each operation takes, and in which mode |
| `Deadlock.HoldsRoomThroughout` | src/routing.rs:199-298 | whatever concerns a room holds its guard from the first to the last instruction |
| `Deadlock.HoldsAsProgrammed` | src/routing.rs:106-298 | in every reachable state a task holds only what its operation takes, in that mode, and in the end nothing |
| `Deadlock.MutualExclusion` | src/routing.rs:106-298 | two tasks are at one lock only if both merely share it: never at a queue, nor in a room where one registers or runs `remove_if` |
| `Deadlock.AcquiresExactly` | src/routing.rs:106-298 | a lock can be taken iff nobody else holds it or all merely share it, and released at any time |
| `Deadlock.SpawnedExactly` | src/network.rs:107 | a task exists iff it has been spawned |
| `GatewayProgress.NeverStuck` | src/routing.rs:198-301 | in every reachable state of the gateway, a handler, unregistration or route call in the middle of something can go on, or a task of the same room that it waits for can |
| `GatewayProgress.RetryGoesOn` | src/routing.rs:337-354 | a pending retry waits for nobody: its next attempt can be made, and the queue decides how it ends |
| `Addressing.AdmittedExactly` | src/network.rs:172-201 | the ids admitted to a connection are exactly those that `new` accepts for a header |
| `Addressing.RejectsFirstFault` | src/network.rs:171-201 | which of the four rejections is given: the first fault in the order of the checks |
| `Addressing.AddressableExactly` | src/network.rs:172-204 | an admitted connection is reachable by some decodable unicast iff neither of its ids contains NUL |
| `Addressing.AdmittedYetUnreachable` | src/network.rs:172-204 | an admitted connection that no unicast can name exists |

## Left out

- Sockets, the axum upgrade, WebSocket framing, TLS and static files: I/O. What remains are the events "buffer received", "sign of life", "tick" and "outbound send done or failed".
- `src/observability.rs`, log lines and the counters other than the active-connection one: nothing in routing depends on them. The wrap-around of the 64-bit counter is not modelled; it is shown never to go below zero.
- The DashMap's shards, Tokio's scheduler, memory order and the reference counts of `Bytes`: guarded maps with one guard a room, free choice of the next step, sequential consistency and immutable byte sequences. With guards a shard, fewer interleavings are possible than here.
- The methods of class Router do not adjust the sender counts of the channels they hand around. Module Gateway does, step by step; there a dispatch and the drop of the snapshot's sender after it are one step, and so are a retry task's last step and the drop of its sender.
- Router.Router.Route: one call without interference, on channels that stay the same objects; the interleaving with other tasks is module Gateway's. The spawned retry task is returned as a value, and its run is BoundedChannel.SendTimeout.
- GatewayFates.RetriesExactly: a retry may give up at any attempt that meets a full queue. That it goes on for 50 ms before, and gives up at the latest with the 11th attempt, is BoundedChannel.SendTimeout's.
- Channel.BoundedChannel.PollRecv: one pass of `recv` under the lock. Its loop and the wait between passes are the state machine of module Wakeup.
- Channel.BoundedChannel.SendTimeout: the others act only in its sleeps, as an attempt holds the mutex, and the clock is read where the source reads it. The environment and the clock are parameters of the model only.
- The receiver's drop and its notification (`src/routing.rs:81-87`): nobody can be waiting on a receiver that is being dropped.
- JsCodec.JsEncode: numbers are reals or not finite, which NaN and the infinities are alike; the payload is a byte array and its length its own. Arguments of other JavaScript types are not modelled, except ids that are no strings.
- JsCodec.JsDecode: the argument is the byte view that the first lines make of a buffer.
- PyCodec.PyEncodeAgrees: arguments have the annotated Python types.
- The kinds and messages of JavaScript and Python errors: the three check in different orders, so only acceptance and values are compared.
- Per-sender order and guaranteed delivery of SystemCmd: the code provides neither.
- Heartbeat.ExitsWithinFortySeconds: ticks are handled on time, so an outbound send does not stall the loop, and the timer is reset within a timeout after the first sign of life is read; likewise for the times of Heartbeat and Displacement otherwise.
- Starvation of a waiting task by others, panics inside a handler, process start and shutdown, `examples/stress.rs`, the HTML pages and the self-tests of the codecs.
