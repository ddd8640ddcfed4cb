# Verification of the modem library's protocols and codecs

This project models the parts of the library where several goroutines, several layouts or several
calls have to agree, and proves what the design promises about them. `dfyconfig.toml` lists the
sources, so `dafny verify dfyconfig.toml` covers the whole project.

Concurrent code is modelled as a state machine: every critical section under a mutex is one step,
and so is every channel send, system call or lock acquisition outside it. A run is any sequence of
steps by any threads, and what the environment decides (which goroutine runs, what a device
answers, when a context is cancelled, what time it is) is carried by the steps. The theorems are
about every state every run reaches. Beside each machine stands a class with the source's fields
whose methods are the source's critical sections; each is proved to be one step of the machine, so
the machine's theorems hold of it. The classes of the client, the pool and the modem also carry the
machine's invariant from call to call. Beside the invariants stand theorems that say, over every run
and in terms of the state alone, what each step achieves and what becomes of each call.

Byte-level code is modelled by a function for the layout, a function for what the decoder accepts,
methods with the source's loops proved equal to these functions, and lemmas that the two are inverse.
`uint32` values are integers below 2^32; every place where the source adds or converts them is either
written with an explicit remainder or typed so that a wrap-around would be a verification error.

| files | part of the library |
|---|---|
| `Channels`, `Responses`, `Indications`, `IndicationProofs`, `IndicationOrder`, `Dispatcher`, `DispatcherProofs`, `DispatcherTheorems`, `ResponseOutcomes`, `ListenerOutcomes`, `FailureOutcomes`, `Client` | the MBIM dispatcher: pending responses, indication queue, waiters, subscribers, leases, receiver failure |
| `Pool`, `PoolProofs`, `PoolTheorems`, `ClientPool` | the pool of shared direct clients |
| `Fragment`, `Reassembly`, `FragmentTheorems`, `ReassemblyTiming` | fragmentation, framing and timed reassembly (section 9 of the USB-IF MBIM 1.0 specification) |
| `Bytes`, `Wire`, `WireRefs`, `WireTheorems`, `Tables` | offset/size tables (section 10 of the same specification), their writers, validator and reader |
| `Codec`, `Tlv`, `Nssai`, `Tai`, `Utf16`, `Ladn` | self-delimiting values and their lists (S-NSSAI: section 9.11.2.8 of 3GPP TS 24.501; UTF-16: section 2 of RFC 2781) |
| `PacketFilters`, `Providers` | records with tables of their own inside a table of records |
| `Layouts`, `Decoders` | where the fields of these encodings lie, which values they admit, and what an accepted payload looks like |
| `Discovery`, `DiscoveryTheorems`, `UeventQueue`, `ControlNodes` | hot-plug discovery and its event queue |
| `Bearers`, `BearerProofs`, `BearerTheorems`, `ModemObject` | bearers and the teardown of a modem |
| `Conn` | descriptor lifetime of a cdc-wdm connection |

Points where the code decides more than its description:

- Re-encoding an accepted offset/size payload gives the same length only if the table starts at a
  multiple of four or is empty: behind an unaligned header the encoder pads although every value is
  empty. `WireTheorems.ReencodedLength` states exactly when, `WireTheorems.UnalignedTableGrows` gives
  a payload of nine octets that becomes twelve.
- An S-NSSAI whose absent fields are not zero encodes, but decodes to its normal form
  (`Nssai.RoundTripIff`; `Nssai.UnflaggedDifferentiatorIsLost` gives one).
- From MBIMEx 4.0 a LADN name with an unpaired surrogate is accepted and decodes to U+FFFD, so such
  an entry does not encode back to itself (`Utf16.ExactIff`, `Ladn.Encode4DecodedIff`,
  `Ladn.LADNList4ExactIff`; `Ladn.UnpairedNameChanges` gives one).

## Model

| member | source | states |
|---|---|---|
| `Responses.RegisterKeeps` | mbim/dispatcher.go:193-220 | registering a waiter keeps the table's invariant: one account per waiter, one slot each |
| `Responses.UnregisterKeeps` | mbim/dispatcher.go:222-229 | withdrawing a waiter by its channel keeps the invariant |
| `Responses.SettleKeeps` | mbim/dispatcher.go:426-451 | taking a waiter out to fail it or to deliver to it leaves exactly one goroutine owing it a result |
| `Responses.EvictKeeps` | mbim/dispatcher.go:468-557 | taking many waiters out at once leaves each owed exactly one error |
| `Responses.SendOwedKeeps` | mbim/dispatcher.go:426-451 | the send after unlocking pays the one debt into an empty slot |
| `IndicationProofs.PublishKeeps` | mbim/dispatcher.go:770-797 | publishing keeps the hub's invariant on queues, lines, calls and streams |
| `IndicationProofs.EnqueueKeeps` | mbim/dispatcher.go:799-805 | queueing keeps the bound of 32 and the queue a suffix of the arrivals |
| `IndicationProofs.DeliverKeeps` | mbim/dispatcher.go:807-821 | a delivery that races with its consumer keeps a stream a drop-oldest buffer |
| `IndicationProofs.SubscribeKeeps` | mbim/dispatcher.go:684-724 | a new subscriber preloaded with the queue starts at the oldest queued arrival and empties the queue |
| `IndicationProofs.UnsubscribeKeeps` | mbim/dispatcher.go:726-737 | unsubscribing takes one stream from its key, drops a key left empty and keeps the invariant |
| `IndicationProofs.CancelKeeps` | mbim/dispatcher.go:739-768 | a cancelled call leaves the line or still finds its indication |
| `IndicationProofs.StopKeeps` | mbim/dispatcher.go:468-500 | stopping the receiver keeps the invariant: no listener stays registered and each is accounted for by its debt |
| `IndicationProofs.CloseLeaseKeeps` | mbim/dispatcher.go:502-557 | closing a lease owes its listeners an error and leaves the others in order |
| `IndicationOrder.PublishExits` | mbim/dispatcher.go:770-797 | publishing keeps the record of what left: the first waiter is given the arrival just numbered |
| `IndicationOrder.PopExits` | mbim/dispatcher.go:627-645 | a call that finds its key queued is given the oldest queued arrival, under its own number |
| `DispatcherProofs.ApplyKeeps` | mbim/dispatcher.go:68-821 | every step of every goroutine keeps the combined invariant |
| `DispatcherProofs.RunKeeps` | mbim/dispatcher.go:68-821 | so does every run |
| `DispatcherTheorems.OnePartyPerWaiter` | mbim/dispatcher.go:193-557 | in every run each response waiter is accounted for by exactly one party, gets at most one result, and delivered data has the type it expects or reports a function error, and for an expected command names its service and command |
| `DispatcherTheorems.NoSendBlocks` | mbim/dispatcher.go:426-557 | in every run no owed send can block or hit a closed channel, and no queue exceeds 32 |
| `DispatcherTheorems.UnregisterTakesOwn` | mbim/dispatcher.go:222-229 | the Unregister step for an old waiter takes out that one or nothing, never a newer one with the same transaction ID |
| `DispatcherTheorems.StoppedForever` | mbim/dispatcher.go:468-500 | once the receiver failed, its error is permanent and nothing is ever registered again |
| `DispatcherTheorems.SweptForever` | mbim/dispatcher.go:502-557 | after the critical section of closeLease nothing of that lease is registered in any later state |
| `DispatcherTheorems.SweepFrame` | mbim/dispatcher.go:502-557 | closeLease takes exactly what its lease owns, owes each one an error and keeps the others and their order |
| `DispatcherTheorems.QueuedIffNobodyListens` | mbim/dispatcher.go:770-805 | an indication is queued exactly when nobody listens; otherwise every subscriber and the first waiter get it |
| `DispatcherTheorems.RunExits` | mbim/dispatcher.go:627-805 | in every run each recorded call was given the arrival of its recorded number, and every call that was given one is on record |
| `DispatcherTheorems.ArrivalOrder` | mbim/dispatcher.go:627-682 | the calls that were given an indication, each listed once and none missing, were given and return arrivals of rising number, all before what is queued; a nonempty queue means no listeners |
| `DispatcherTheorems.HandedIsReturned` | mbim/dispatcher.go:627-682 | a handed indication is returned even if the call is cancelled at the same time, and a blocked call is never forgotten |
| `DispatcherTheorems.StreamsDropOldest` | mbim/dispatcher.go:770-821 | a stream's buffer is a suffix of what was sent, what is received an in-order selection, an error comes last |
| `DispatcherTheorems.ErrorLands` | mbim/dispatcher.go:468-500 | the error owed to a stream always lands as its last value before the channel is closed |
| `ResponseOutcomes.RegisteredIff` | mbim/dispatcher.go:193-220 | in every run a request is registered exactly when its type is open, close or command, its lease, the client and the receiver are willing and its transaction is free; the waiter then expects the done message of that type on a fresh channel |
| `ResponseOutcomes.FirstReasonIsGiven` | mbim/dispatcher.go:75-89 | a refusal names the first of the five reasons that holds |
| `ResponseOutcomes.ClosingRefuses` | mbim/dispatcher.go:75-123 | once closing has begun only the messages of the close are registered, once it has finished nothing is, in any later state |
| `ResponseOutcomes.ClosedLeaseRefuses` | mbim/dispatcher.go:502-505 | from the moment the flag of a lease is set nothing is registered or handed out for it |
| `ResponseOutcomes.FlagThenSweep` | mbim/dispatcher.go:502-507 | the flag flips once and its critical section is then still to come |
| `ResponseOutcomes.DeliveredIff` | mbim/dispatcher.go:438-466 | in every run a message leaves its waiter owed exactly that message if and only if it answers a pending transaction; otherwise nothing changes |
| `ResponseOutcomes.FailedIsOwed` | mbim/dispatcher.go:426-436 | a failed transaction that is pending leaves the table and is owed the error; otherwise nothing changes |
| `ResponseOutcomes.ResponseArrives` | mbim/dispatcher.go:438-451 | a message that answered a request stays owed or delivered whatever happens afterwards, and the caller receives that message and no other |
| `ResponseOutcomes.FailureArrives` | mbim/dispatcher.go:426-436 | so does the error of a failed transaction |
| `ListenerOutcomes.NextDecides` | mbim/dispatcher.go:627-662 | NextIndication takes the oldest queued indication, joins the end of the line, or changes nothing, exactly as lease, client, queue and receiver decide |
| `ListenerOutcomes.CallReturns` | mbim/dispatcher.go:664-681 | a blocked call returns what is in its slot, or that the receiver stopped once the slot is closed and empty; a cancelled one returns what it was handed or the cancellation |
| `ListenerOutcomes.CancelDecides` | mbim/dispatcher.go:739-768 | a cancelled call in line leaves it, the others in order; one that is not looks into its slot and returns what it was handed |
| `ListenerOutcomes.SubscribeDecides` | mbim/dispatcher.go:684-724 | a subscriber gets a stream of everything queued, in order, registered with room for 32, or after a failure ended by it and closed |
| `ListenerOutcomes.UnsubscribeDecides` | mbim/dispatcher.go:726-737 | exactly that stream leaves that key |
| `ListenerOutcomes.StreamGives` | mbim/dispatcher.go:684-724 | a receive from a stream gets the oldest buffered value |
| `ListenerOutcomes.DeliveryDropsOne` | mbim/dispatcher.go:807-821 | a delivery loses nothing while there is room, and otherwise at most the one oldest value, whatever the consumer takes in between |
| `ListenerOutcomes.PublishFrame` | mbim/dispatcher.go:770-805 | publishing touches the streams of its key's subscribers, the first waiter and nothing else; unheard indications are kept up to the last 32 |
| `FailureOutcomes.StopFrame` | mbim/dispatcher.go:468-500 | stopping the receiver keeps the first error and owes this one to every pending response, every call in line and every subscriber, the latter two with the close after it; earlier debts stay |
| `FailureOutcomes.LeaseFrame` | mbim/dispatcher.go:502-557 | closing a lease owes its error to exactly the responses, calls and streams of that lease; earlier debts stay and the other lines keep their order |
| `FailureOutcomes.StreamGetsItsError` | mbim/dispatcher.go:480-490 | in every run an error owed to a stream stays owed until it is sent, and after four steps of the goroutine that owes it, it is the last value and a stopped receiver's stream is closed |
| `FailureOutcomes.CallGetsItsError` | mbim/dispatcher.go:491-499 | the same for a call, after two steps: the error is the one value its slot was sent |
| `Client.SplitWaiters` | mbim/dispatcher.go:531-545 | the loop that splits a line keeps the others in order and finds exactly the lease's waiters |
| `Client.TakeOwned` | mbim/dispatcher.go:509-516 | the loop over pending takes out exactly the lease's responses |
| `Client.RemoveWaiter` | mbim/dispatcher.go:739-768 | the search finds a waiter by its channel and removes only that one |
| `Client.DeliverWatchResult` | mbim/dispatcher.go:807-821 | the three selects deliver, or drop the oldest value and deliver |
| `Client.FanOut` | mbim/dispatcher.go:770-797 | the loop over subscribers delivers to each of them and to no other |
| `Client.Preload` | mbim/dispatcher.go:684-724 | preloading at most 32 indications never blocks |
| `Client.KeepOtherWaiters` | mbim/dispatcher.go:530-545 | the loop over all lines drops the lease's waiters and the keys left empty |
| `Client.KeepOtherSubscribers` | mbim/dispatcher.go:517-529 | the loop over all subscribers drops the lease's channels and the keys left empty |
| `Client.ClientState.EnsureReceiver` | mbim/dispatcher.go:75-106 | the checks before a registration, in the source's order, as one step |
| `Client.ClientState.RegisterResponse` | mbim/dispatcher.go:193-220 | the critical section is the machine's Register step; it grants exactly the admissible requests and names the reason for every refusal |
| `Client.ClientState.UnregisterResponse` | mbim/dispatcher.go:222-229 | the critical section is the machine's Unregister step |
| `Client.ClientState.FailResponse` | mbim/dispatcher.go:426-436 | the critical section is the machine's Fail step |
| `Client.ClientState.DeliverResponse` | mbim/dispatcher.go:438-466 | the critical section is the machine's Deliver step (see `ResponseOutcomes.DeliveredIff`) |
| `Client.ClientState.StopReceiver` | mbim/dispatcher.go:468-500 | the critical section is the machine's Stop step (see `FailureOutcomes.StopFrame`) |
| `Client.ClientState.BeginClose` | mbim/dispatcher.go:108-117 | only one caller begins to close |
| `Client.ClientState.FinishClose` | mbim/dispatcher.go:119-123 | the critical section is the machine's step |
| `Client.ClientState.SetLeaseClosed` | mbim/dispatcher.go:502-505 | the flag flips once, outside the mutex |
| `Client.ClientState.CloseLease` | mbim/dispatcher.go:507-546 | the critical section is the machine's Sweep step (see `FailureOutcomes.LeaseFrame`) |
| `Client.ClientState.NextIndication` | mbim/dispatcher.go:627-682 | the critical section is the machine's Next step; it returns the head of the queue, a place in line, or the first reason to refuse |
| `Client.ClientState.CancelIndicationWaiter` | mbim/dispatcher.go:739-768 | the critical section is the machine's Cancel step; it finds the call exactly if it stands in line, and leaves it returned or polling |
| `Client.ClientState.SubscribeIndication` | mbim/dispatcher.go:684-724 | the critical section is the machine's Subscribe step, preload included; it returns the new stream or the first reason to refuse |
| `Client.ClientState.UnsubscribeIndication` | mbim/dispatcher.go:726-737 | the critical section is the machine's Unsubscribe step |
| `Client.ClientState.PublishIndication` | mbim/dispatcher.go:770-805 | the critical section is the machine's Publish step |
| `PoolProofs.ApplyKeeps` | mbim/pool.go:26-150 | every step of racing acquirers and releasers keeps the pool's invariant |
| `PoolProofs.RunKeeps` | mbim/pool.go:26-150 | so does every run |
| `PoolProofs.CountedRelease` | mbim/pool.go:123-138 | a lease of an open entry reaches exactly that entry |
| `PoolProofs.LateRelease` | mbim/pool.go:123-138 | a lease whose entry no longer counts changes no entry |
| `PoolTheorems.OneConnectionPerDevice` | mbim/pool.go:26-150 | in every run at most one connection per device key is live, and it is the registered one |
| `PoolTheorems.RefsCountLeases` | mbim/pool.go:41-50 | for an owned entry that is not closing, refs is the number of unreleased leases and at least 1 |
| `PoolTheorems.ClosedAtMostOnce` | mbim/pool.go:140-150 | device and both broadcast channels are closed at most once; an entry that left has closed both channels |
| `PoolTheorems.ReleaseTouchesOwnEntry` | mbim/pool.go:123-138 | a release changes its own owner's entry or none; a late release never touches the replacement |
| `PoolTheorems.NobodyStranded` | mbim/pool.go:26-108 | a thread waiting on either channel is woken once the thread in charge takes its own remaining steps |
| `PoolTheorems.GoneForever` | mbim/pool.go:140-150 | an entry that left the pool never changes again and never comes back |
| `PoolTheorems.StaleIsReplaced` | mbim/pool.go:53-76 | an acquire that finds a dead owner is, once it has closed the entry and whatever others did meanwhile, back at the top of its loop with the key free, and its next look at a free key dials |
| `PoolTheorems.LastReleaseCloses` | mbim/pool.go:123-150 | the release of the last lease closes the device once, frees the key and returns |
| `PoolTheorems.DialedIsLeased` | mbim/pool.go:101-107 | a dial that works returns with the entry's one lease and wakes those who wait for it |
| `PoolTheorems.FailedDialFrees` | mbim/pool.go:89-99 | a dial that fails frees the key, closes both channels and returns |
| `PoolTheorems.CallsComeAndGo` | mbim/pool.go:26-67 | a call starts at the top of the loop; a cancelled wait returns and touches nothing |
| `PoolTheorems.DeadIsNotLeased` | mbim/pool.go:41-56 | no lease of an owner is given out once it has died |
| `ClientPool.DirectClientPool.Join` | mbim/pool.go:41-50 | for a thread about to look, joining a usable owner is the machine's Look step: one more reference, one new lease of that owner |
| `ClientPool.DirectClientPool.MarkStale` | mbim/pool.go:53-56 | for a thread about to look, giving up a dead owner is the machine's Look step, and that thread has the entry to close |
| `ClientPool.DirectClientPool.AddEntry` | mbim/pool.go:68-76 | for a thread about to look, a free key gets a fresh entry by the machine's Look step, and that thread dials |
| `ClientPool.DirectClientPool.AcquirePass` | mbim/pool.go:28-76 | one pass of the loop is the machine's Look step, keeps its invariant, and answers where the thread went |
| `ClientPool.DirectClientPool.PublishOwner` | mbim/pool.go:101-105 | for the dialing thread the section is the machine's DialSucceeds step, and it returns with the new lease |
| `ClientPool.DirectClientPool.DropEntry` | mbim/pool.go:93-99 | for the thread whose dial failed the section is the machine's DropFailed step; the key is free and it returns |
| `ClientPool.DirectClientPool.Release` | mbim/pool.go:123-138 | giving back a lease is the machine's Release step of that lease, which is released afterwards; the entry is returned exactly if this thread has to close it |
| `ClientPool.DirectClientPool.FinishCloseEntry` | mbim/pool.go:143-148 | for the thread that closed the device the section is the machine's RemoveEntry step: the key is free, an acquire looks again and a release returns |
| `ClientPool.DirectClientPool.Elsewhere` | mbim/pool.go:78-91 | the steps outside the mutex (dials, device closes, wake-ups, dying owners) leave the table as it is shown |
| `Fragment.ParseEncode` | mbim/fragment.go:135-163 | a fragment whose fields fit reads back as itself |
| `Fragment.EncodeParse` | mbim/fragment.go:135-163 | an accepted frame is the encoding of the fragment it holds |
| `Fragment.CutFacts` | mbim/fragment.go:21-59 | cutting keeps every octet, makes pieces of the right size and as many as computed |
| `Fragment.Frames` | mbim/fragment.go:21-59 | the loop produces the specified frames, or the source's error |
| `Fragment.Split` | mbim/fragment.go:21-59 | the inner loop cuts the payload into the specified pieces |
| `Reassembly.Receiver.CollectReceivedFrame` | mbim/dispatcher.go:313-362 | one frame changes the collectors and answers as specified, for its own key only |
| `Reassembly.Receiver.ExpireFragmentCollectors` | mbim/dispatcher.go:394-412 | expiry keeps exactly the collectors whose deadline is after now, and lists the transaction of each other one once |
| `Reassembly.Receiver.NextFragmentDeadline` | mbim/dispatcher.go:384-392 | the result is the minimum of the deadlines, or none |
| `Reassembly.NextDeadlineExpires` | mbim/dispatcher.go:384-412 | at the next deadline at least one collector expires |
| `ReassemblyTiming.DueOneSecondAfterLast` | mbim/dispatcher.go:335-351 | for any frames and timeouts a stored collector falls due one second after the last fragment of its key |
| `ReassemblyTiming.ExpiresAfterOneSecond` | mbim/dispatcher.go:394-412 | the timer takes a collector away exactly when a second has passed since that fragment |
| `ReassemblyTiming.RefusedIff` | mbim/dispatcher.go:313-362 | for any frames before it a frame is refused exactly when its header does not fit or it is not the next fragment of its message, and completes a message exactly when it is the last |
| `ReassemblyTiming.TimelyMessagesArrive` | mbim/dispatcher.go:313-412 | messages whose consecutive fragments are less than a second apart arrive complete under every interleaving with each other and with the timer |
| `FragmentTheorems.ReadBack` | mbim/protocol.go:344-362 | reading concatenated frames gives exactly those frames |
| `FragmentTheorems.WriteFull` | mbim/protocol.go:364-384 | whatever the connection answers, what was written is a prefix; no error is returned exactly when the answers take everything |
| `FragmentTheorems.ReadIff` | mbim/protocol.go:344-362 | a frame is read exactly when its length is 12 octets to 2 MiB and that many follow |
| `FragmentTheorems.FramesIff` | mbim/fragment.go:21-41 | what fits is sent as it is; what does not is split exactly when it has a fitting fragment header and the limit leaves room |
| `FragmentTheorems.FramesOfMessage` | mbim/fragment.go:21-59 | every frame of a message fits the maximum and is read back as the next fragment of its message |
| `FragmentTheorems.NextFrame` | mbim/dispatcher.go:313-362 | each frame of a message moves its collector on by one and the last one delivers the message |
| `FragmentTheorems.InterleavedMessagesArrive` | mbim/dispatcher.go:313-362 | any messages with distinct keys, interleaved in any way, arrive byte for byte at their last frame; no fault, no collector left |
| `FragmentTheorems.StreamDelivers` | mbim/protocol.go:344-362 | the same through the byte stream, with every frame within the maximum |
| `FragmentTheorems.AdvanceBacked` | mbim/fragment.go:86-125 | one frame keeps a collector backed by the history of its key |
| `FragmentTheorems.CollectorsBacked` | mbim/dispatcher.go:313-412 | for any frames and timeouts every stored collector is incomplete, keyed by its header and holds fragments 0 to current |
| `FragmentTheorems.CompletedIsItsFragments` | mbim/dispatcher.go:313-362 | a completed message is the last total fragments of its key in order; other keys are untouched |
| `Wire.AppendOffsetSizeElements` | mbim/wire.go:17-34 | the loop that patches the table while it appends produces the layout |
| `Wire.AppendRefValue` | mbim/wire.go:165-176 | one reference patched and one padded value appended, nothing for an empty value |
| `Wire.TerminalCapabilityData` | mbim/uicc.go:883-899 | the two independent loops produce one consistent layout |
| `Wire.TerminalCapabilityDataEx4` | mbim/uicc.go:901-918 | the same behind a slot ID |
| `Wire.RefHeader` | mbim/file.go:484-493 | the first loop writes the offsets the values will have |
| `Wire.AppendRefs` | mbim/file.go:495-505 | the second loop, which counts padding on its own offset, appends the values there |
| `Wire.FileStatusData` | mbim/file.go:268-270 | the two loops of a file status request make one layout |
| `Wire.WriteConnectStringRefs` | mbim/connect.go:495-505 | the in-place loop fills exactly the reference fields |
| `Wire.AppendConnectStrings` | mbim/connect.go:580-591 | the second loop appends the strings where the references point |
| `WireRefs.ReadOffsetSizeRef` | mbim/wire.go:187-195 | a reference is read exactly when its eight octets are there, and they are its offset and size in little-endian order |
| `WireRefs.ReadSizeOffsetRef` | mbim/wire.go:197-205 | the same with the size first |
| `WireRefs.ValueOf` | mbim/wire.go:220-225 | a validated reference selects size octets without an index out of range or a wrap |
| `WireRefs.DataBufferEnds` | mbim/wire.go:101-129 | the loop computes the ends of the last value or refuses |
| `WireRefs.EndsFromIff` | mbim/wire.go:101-129 | the loop accepts exactly the valid references whose nonempty values are consecutive |
| `WireRefs.ValidateDataBufferRefs` | mbim/wire.go:69-81 | accepts if and only if the values tile the data region up to the end of the payload |
| `WireRefs.ValidateRecordDataBufferRefs` | mbim/wire.go:83-99 | the same, also up to the unpadded end |
| `WireRefs.TilesApart` | mbim/wire.go:36-129 | accepted values are aligned, in order, disjoint and at most three octets apart |
| `WireRefs.AcceptedIsCells` | mbim/wire.go:36-129 | the data region is the values in order, each followed by at most three octets |
| `WireRefs.OffsetSizeRefs` | mbim/wire.go:36-54 | the reader returns the table's references if and only if they tile; no uint32 sum wraps |
| `WireTheorems.LayoutReadsBack` | mbim/wire.go:17-54 | for every aligned header and list of values, what any table writer lays out is accepted and read back as that list |
| `WireTheorems.ReencodedLength` | mbim/wire.go:17-54 | re-encoding an accepted payload gives the same length if and only if its table is aligned or empty |
| `WireTheorems.UnalignedTableGrows` | mbim/wire.go:17-54 | an accepted payload of nine octets behind a one-octet header is re-encoded as twelve |
| `Tables.UnmarshalTerminalCapability` | mbim/uicc.go:772-791 | the decoder returns the accepted table's values |
| `Tables.TerminalCapabilityRoundTrip` | mbim/uicc.go:883-899 | every list of capabilities, empty ones included, is decoded to itself |
| `Tables.SlotMappingsData` | mbim/slot.go:158-171 | offsets computed from the index select the slots appended afterwards |
| `Tables.UnmarshalSlotMappings` | mbim/slot.go:190-213 | the decoder accepts tables of four-octet values and returns the slots |
| `Tables.SlotMappingsRoundTrip` | mbim/slot.go:158-213 | every list of slots is decoded to itself |
| `Tables.ConnectSetData` | mbim/connect.go:518-532 | the payload is the fixed fields, the references and the strings |
| `Tables.ConnectStringsSelected` | mbim/connect.go:495-591 | the three references select exactly the strings, which tile the rest of the payload |
| `Decoders.TableIsRead` | mbim/wire.go:36-80 | an accepted table yields as many values as it counts, each selected by its own reference, and they fill the payload behind it |
| `Decoders.CapabilitiesAreRead` | mbim/uicc.go:772-791 | terminal capabilities are the table behind the first field; slot mappings are those of four octets each |
| `Codec.UnmarshalAll` | mbim/tlv.go:79-91 | the loop over a shrinking slice decodes the whole list or fails |
| `Codec.Bijection` | mbim/tlv.go:67-91 | a codec that inverts on single values, followed by anything admissible, is a bijection on lists |
| `Tlv.MarshalTLV` | mbim/tlv.go:97-108 | the record has its exact padding |
| `Tlv.UnmarshalTLVPrefix` | mbim/tlv.go:118-155 | the decoder with its padding loop accepts exactly the specified records |
| `Tlv.DecodeEncoded` | mbim/tlv.go:97-155 | an encoded record is read back, whatever follows it |
| `Tlv.EncodeDecoded` | mbim/tlv.go:118-155 | an accepted record is the encoding of its value and consumes input |
| `Tlv.TLVListBijection` | mbim/tlv.go:67-91 | lists of valid records and accepted strings are in bijection |
| `Tlv.MarshalTLVs` | mbim/tlv.go:67-77 | the list encoder fails exactly if a record is invalid |
| `Tlv.UnmarshalTLVs` | mbim/tlv.go:79-91 | the list decoder is the specified one |
| `Layouts.TLVOctets` | mbim/tlv.go:97-108 | where type, padding count, length, data and padding lie in a record |
| `Layouts.TLVAdmits` | mbim/tlv.go:157-162 | exactly the types 1 to 0xFFF0 are admitted, with any data |
| `Nssai.DecodeWholeEncoded` | mbim/nssai.go:121-185 | an encodable S-NSSAI decodes to its normal form |
| `Nssai.EncodeDecodedWhole` | mbim/nssai.go:155-185 | an accepted payload is the encoding of a valid normal-form value |
| `Nssai.RoundTripIff` | mbim/nssai.go:121-185 | a value survives the round trip if and only if its absent fields are zero |
| `Nssai.UnflaggedDifferentiatorIsLost` | mbim/nssai.go:121-185 | a slice differentiator without its flag encodes and is lost |
| `Nssai.EncodeIgnoresAbsent` | mbim/nssai.go:128-153 | absent fields do not reach the wire |
| `Nssai.SNSSAIListBijection` | mbim/nssai.go:420-447 | S-NSSAI lists and accepted strings are in bijection |
| `Nssai.MarshalSNSSAIList` | mbim/nssai.go:420-430 | the list encoder fails exactly if a value is not encodable |
| `Nssai.UnmarshalSNSSAIList` | mbim/nssai.go:432-447 | the list decoder is the specified one |
| `Nssai.RejectedListBijection` | mbim/nssai.go:249-315 | rejected S-NSSAI lists and accepted strings are in bijection |
| `Nssai.UnmarshalRejectedList` | mbim/nssai.go:266-286 | the decoder refuses the empty list and is otherwise the specified one |
| `Nssai.PreconfiguredListBijection` | mbim/nssai.go:324-411 | lists of one or two access types, each a record inside a record, and accepted strings are in bijection |
| `Nssai.MarshalPreconfiguredList` | mbim/nssai.go:324-343 | the encoder with its seen map fails exactly on the wrong count, a repeated access type or an invalid entry |
| `Nssai.UnmarshalPreconfiguredList` | mbim/nssai.go:346-374 | refusing early gives the same answer as decoding everything and checking |
| `Layouts.SNSSAIOctets` | mbim/nssai.go:128-153 | the octets of the five contents of an S-NSSAI |
| `Layouts.SNSSAIAdmits` | mbim/nssai.go:155-185 | exactly the five lengths are accepted |
| `Layouts.RejectedOctets` | mbim/nssai.go:58-78 | where the cause lies, and that causes 0 and 1 and slice types 1 to 3 are valid and no others |
| `Layouts.PreconfiguredOctets` | mbim/nssai.go:92-107 | access types 1 and 2 before a record of type 5 |
| `Layouts.PreconfiguredFits` | mbim/nssai.go:324-344 | one list, or two for different access types |
| `Tai.ValidBCDNibbles` | mbim/tai.go:230-238 | the shifting loop tests the lowest digits |
| `Tai.DecodeEncoded` | mbim/tai.go:27-50 | a valid list is read back, whatever follows it |
| `Tai.EncodeDecoded` | mbim/tai.go:103-161 | an accepted list is valid and is the encoding of its value |
| `Tai.TAIListBijection` | mbim/tai.go:64-101 | sequences of lists and accepted strings are in bijection |
| `Tai.MarshalTAIList` | mbim/tai.go:27-50 | the encoder's loops write the layout exactly for valid lists |
| `Tai.UnmarshalTAIListPrefix` | mbim/tai.go:103-161 | the decoder's loops accept exactly the specified strings |
| `Layouts.PLMNAdmits` | mbim/tai.go:204-238 | a PLMN is valid exactly if its codes are any three decimal digits, or two for a marked network code |
| `Layouts.TAIListAdmits` | mbim/tai.go:163-202 | a list is valid exactly if it has 1 to 16 three-octet codes, for type 1 a run from the first one up |
| `Layouts.TAIListRefuses` | mbim/tai.go:163-202 | a list of another type, or that mixes the contents of two types, is invalid |
| `Layouts.TAIListOctets` | mbim/tai.go:27-50 | where type, network, count and codes lie |
| `Utf16.RoundTrip` | mbim/wire.go:271-290 | every string of scalar values survives the round trip |
| `Utf16.ExactIff` | mbim/wire.go:271-290 | decoded octets are re-encoded unchanged if and only if they were well-formed UTF-16 |
| `Utf16.Utf16Bytes` | mbim/wire.go:283-290 | the loop appends the units in little-endian order |
| `Utf16.Utf16RawString` | mbim/wire.go:271-281 | the loop reads the units; an odd length is an error |
| `Layouts.UnitsCarry` | mbim/wire.go:283-290 | one unit below 2^16, otherwise two surrogates that carry ten bits each |
| `Ladn.ListsEncoded` | mbim/ladn.go:126-133 | the run of lists ends exactly where an octet above 2 or the end follows |
| `Ladn.ListsDecoded` | mbim/ladn.go:126-133 | an accepted run is the encoding of its lists and stops at such an octet |
| `Ladn.LADNList3Bijection` | mbim/ladn.go:21-138 | in the version 3 layout lists and accepted strings are in bijection, although nothing delimits the entries |
| `Ladn.LADNList4RoundTrip` | mbim/ladn.go:21-138 | in the version 4 layout every list is decoded to itself |
| `Ladn.Encode4DecodedIff` | mbim/ladn.go:95-138 | an accepted version 4 entry is re-encoded unchanged if and only if its name was well-formed |
| `Ladn.LADNList4ExactIff` | mbim/ladn.go:42-66 | an accepted version 4 list is re-encoded unchanged if and only if every name in it was well-formed |
| `Ladn.UnpairedNameChanges` | mbim/ladn.go:95-138 | an accepted entry named by one unpaired surrogate decodes to U+FFFD and does not encode back to itself |
| `Ladn.RecordRoundTrip` | mbim/ladn.go:21-66 | under every version what can be encoded is decoded to itself |
| `Ladn.RecordExact` | mbim/ladn.go:42-66 | before version 4 every accepted record is what its entries encode to |
| `Ladn.UnmarshalLists` | mbim/ladn.go:126-133 | the loop with a running offset is the specified run |
| `Ladn.UnmarshalLADNPrefix3` | mbim/ladn.go:95-138 | the decoder of one version 3 entry |
| `Ladn.UnmarshalLADNPrefix4` | mbim/ladn.go:95-138 | the decoder of one version 4 entry |
| `Layouts.LADNOctets3` | mbim/ladn.go:68-93 | names of 3 to 102 octets behind their length, then the lists, at least one |
| `Layouts.LADNOctets4` | mbim/ladn.go:68-93 | names as a record of type 10, then the lists, at least one |
| `Layouts.LADNVersions` | mbim/ladn.go:21-40 | which versions take which layout, and that the record has type 8 |
| `PacketFilters.ValidateIPPacketFilters` | mbim/ip_packet_filters.go:71-86 | accepts if and only if masks match their filters and, from version 3.0, identifiers differ |
| `PacketFilters.MarshalFilter` | mbim/ip_packet_filters.go:90-109 | the size appendRefValue leaves in the mask-offset field is overwritten; the record is as laid out |
| `PacketFilters.UnmarshalFilter` | mbim/ip_packet_filters.go:129-149 | the decoder of one record |
| `PacketFilters.RecordRoundTrip` | mbim/ip_packet_filters.go:88-149 | one record is decoded to its filter, with the identifier from version 3.0 on |
| `PacketFilters.MarshalFilters` | mbim/ip_packet_filters.go:64-113 | the encoder fails exactly on invalid lists |
| `PacketFilters.UnmarshalFilters` | mbim/ip_packet_filters.go:115-160 | the decoder of the payload |
| `PacketFilters.FiltersRoundTrip` | mbim/ip_packet_filters.go:64-160 | every validated list is decoded to itself, identifiers kept from MBIMEx 3.0 on |
| `Layouts.FilterOctets` | mbim/ip_packet_filters.go:88-113 | where size, offsets, identifier, filter and mask lie |
| `Decoders.FilterIsRead` | mbim/ip_packet_filters.go:115-160 | an accepted record holds filter and mask of one size where its offsets say, and nothing else |
| `Decoders.FiltersAreRead` | mbim/ip_packet_filters.go:115-160 | accepted filters are the accepted records of the table in order, and they validate |
| `Providers.MarshalProvider` | mbim/providers.go:56-67 | the patched record is as laid out |
| `Providers.ValidateUTF16Refs` | mbim/wire.go:238-258 | the loop checks bounds, even sizes and order |
| `Providers.UnmarshalProvider` | mbim/providers.go:77-126 | the decoder of one record, alone or nested |
| `Providers.ProviderRoundTrip` | mbim/providers.go:56-126 | every validated provider is decoded to itself, alone or nested |
| `Providers.MarshalProviders` | mbim/providers.go:128-133 | the encoder fails exactly on an invalid provider |
| `Providers.UnmarshalProviders` | mbim/providers.go:199-216 | the decoder of the list |
| `Providers.ProvidersRoundTrip` | mbim/providers.go:190-216 | every validated list is decoded to itself |
| `Layouts.ProviderOctets` | mbim/providers.go:56-67 | where the fixed fields and the two strings lie |
| `Layouts.ProviderAdmits` | mbim/providers.go:135-179 | a provider is valid exactly with up to six digits, a name of up to twenty units, the defined bits, and signal and error rate in range or unknown |
| `Decoders.ProviderIsRead` | mbim/providers.go:77-126 | an accepted record holds a valid provider, its texts where the references say, and nothing else |
| `Decoders.ProvidersAreRead` | mbim/providers.go:199-216 | accepted providers are the accepted records of the table in order |
| `Discovery.DevicesByKey` | modem/discovery.go:493-499 | the loop indexes by key, a later device replacing an earlier one |
| `Discovery.DeviceHasControlNode` | modem/discovery_linux.go:337-347 | the loop finds a control port with that node name, if there is one |
| `Discovery.SortedKeys` | modem/discovery_linux.go:359-359 | every key once, in ascending order |
| `Discovery.DiffDevices` | modem/discovery_linux.go:349-378 | the events are those of each key of either snapshot, in key order |
| `Discovery.ReconcileDeviceEvents` | modem/discovery_linux.go:313-335 | exactly the surviving devices with a re-created node are marked as reconnected |
| `DiscoveryTheorems.DiffReplays` | modem/discovery_linux.go:349-378 | replaying the events on the old snapshot gives the new one, and every event is legal when replayed |
| `DiscoveryTheorems.QuietIff` | modem/discovery_linux.go:359-376 | a key emits nothing if and only if its device is untouched or nowhere |
| `DiscoveryTheorems.UntouchedIsSilent` | modem/discovery_linux.go:349-378 | an unchanged device that was not reconnected is in no event |
| `DiscoveryTheorems.RecreatedReconnects` | modem/discovery_linux.go:313-378 | a re-created control node on a surviving device emits Removed directly followed by Added |
| `DiscoveryTheorems.EmitsReplays` | modem/discovery_linux.go:313-335 | one reconciliation is replayed to exactly the next snapshot, every event legal |
| `DiscoveryTheorems.WatcherSeesCurrent` | modem/discovery_linux.go:177-226 | after every round, with or without a rescan, the replayed view equals the snapshot the program holds |
| `DiscoveryTheorems.PushedRemovalReconnects` | modem/discovery_linux.go:68-226 | a control-node removal pushed before the stop, for a node a device has before and after, makes the next round send Removed and then Added, whatever happened to the queue in between |
| `ControlNodes.RemovalIsReported` | modem/discovery_linux.go:33-43 | a removal in a control subsystem is reported under the name of its node, with any directory and any spaces around it |
| `ControlNodes.OnlyRemovalsAreReported` | modem/discovery_linux.go:33-35 | no other action and no other subsystem is reported |
| `ControlNodes.ControlNodeRemoved` | modem/discovery_linux.go:33-43 | for one, the usbmisc removal of cdc-wdm0 |
| `ControlNodes.PortIsMeant` | modem/discovery_linux.go:337-347 | a QMI or MBIM port is meant by its name and by the ends of its paths, any other port never |
| `ControlNodes.KeyIsFirstNonempty` | modem/discovery.go:213-226 | the key of a device is the first nonempty of its physical path and its ports' sysfs and node paths |
| `UeventQueue.ApplyKeeps` | modem/discovery_linux.go:51-135 | every step of producers and consumer keeps the queue's invariant |
| `UeventQueue.NoLostWakeup` | modem/discovery_linux.go:68-120 | a consumer asleep before a ready queue has a token or a producer that still owes its signal |
| `UeventQueue.NamesMatchRemovals` | modem/discovery_linux.go:68-86 | removalNames is the duplicate-free names in removals, and removals imply a rescan |
| `UeventQueue.RemovalsRepresented` | modem/discovery_linux.go:122-135 | the next batch represents exactly the names pushed before the stop since the last one |
| `UeventQueue.PushRemembered` | modem/discovery_linux.go:68-86 | a named control-node removal pushed before the stop is recorded, also when its name was there already |
| `UeventQueue.RememberedUntilTaken` | modem/discovery_linux.go:68-86 | a pushed name stays until the next take |
| `UeventQueue.StopIsSticky` | modem/discovery_linux.go:88-96 | the first stop and its error are permanent |
| `UeventQueue.StopIsReported` | modem/discovery_linux.go:88-135 | a stop ends the wait: the consumer is on its way to a batch that is stopped with its reason |
| `UeventQueue.PushIsReported` | modem/discovery_linux.go:68-135 | so does any event pushed before the stop, with a batch that asks for a rescan |
| `UeventQueue.LookSleepsIff` | modem/discovery_linux.go:105-120 | the consumer sleeps exactly when nothing was pushed or stopped; a push after the stop changes nothing |
| `UeventQueue.DeviceUeventQueue.Push` | modem/discovery_linux.go:68-86 | the critical section is one step |
| `UeventQueue.DeviceUeventQueue.Stop` | modem/discovery_linux.go:88-96 | the critical section is one step |
| `UeventQueue.DeviceUeventQueue.Signal` | modem/discovery_linux.go:98-103 | a token, never two |
| `UeventQueue.DeviceUeventQueue.Poll` | modem/discovery_linux.go:105-120 | one pass of wait under the lock is one step |
| `UeventQueue.DeviceUeventQueue.Take` | modem/discovery_linux.go:122-135 | take empties the queue and returns what it held |
| `BearerProofs.ApplyKeeps` | modem/modem.go:60-84 | every step of Connect, Disconnect, Close and closeOwned keeps the invariant |
| `BearerProofs.DisposedAtMostOnce` | modem/modem.go:1045-1084 | every session is disposed of at most once in every run |
| `BearerProofs.NothingLeftLive` | modem/modem.go:60-84 | once Modem.Close and every Connect returned, every session was disposed of exactly once |
| `BearerProofs.UniqueIDs` | modem/modem.go:649-669 | bearer IDs match their key and are never given out twice |
| `BearerProofs.LockOrder` | modem/modem.go:746-753 | who holds the modem's lock waits for nothing, who waits for a bearer's lock holds nothing |
| `BearerProofs.NoDeadlock` | modem/modem.go:1045-1084 | the holder of the lock a thread waits for can go on, or waits for the modem's lock, whose holder can |
| `BearerTheorems.CloseBearerCloses` | modem/modem.go:1061-1087 | in every run in which Bearer.Close has returned the bearer is closed, its session disposed of exactly once and its number out of the table |
| `BearerTheorems.DisconnectCloses` | modem/modem.go:1045-1059 | the same for Disconnect, unless its session failed and stayed up |
| `BearerTheorems.AnswerDecides` | modem/modem.go:1045-1087 | a session that fails and stays up leaves its bearer open, and Close goes on to closeOwned; every other answer disposes of it once |
| `BearerTheorems.DialDecides` | modem/modem.go:649-657 | a dial that works brings one new session, one that fails none |
| `BearerTheorems.ConnectRegisters` | modem/modem.go:658-669 | on an open modem the session becomes an open bearer under a number no bearer ever had |
| `BearerTheorems.ConnectRejects` | modem/modem.go:658-663 | on a closed modem Connect disposes of the session once and registers nothing |
| `BearerTheorems.CallsStart` | modem/modem.go:60-84 | where each call starts, and that one thread closes the modem |
| `BearerTheorems.StepsRunOut` | modem/modem.go:60-84 | a thread that waits for no lock has a step to take, and each step brings its call nearer to its end |
| `BearerTheorems.OthersAddNothing` | modem/modem.go:60-84 | steps of others add nothing to what a call has left, but for bearers registered before Modem.Close takes the table |
| `ModemObject.Modem.Adopt` | modem/modem.go:656-668 | for the thread that registers, the section is one step: an open bearer under a new number, or the session handed back to close |
| `ModemObject.Modem.FinishSession` | modem/modem.go:1045-1084 | for the thread that holds the bearer the section is one step: the bearer is closed unless a disconnect failed with the session up, and then Close goes on to close the session itself |
| `ModemObject.Modem.RemoveBearer` | modem/modem.go:746-753 | with both locks held the section is one step: the bearer's number leaves the table and its lock is free |
| `ModemObject.Modem.BeginClose` | modem/modem.go:61-72 | the section is one step: the modem is closed, its table empty, and every registered bearer collected once |
| `ModemObject.Modem.Registered` | modem/modem.go:65-69 | the loop over the table lists every bearer, none twice |
| `Conn.ApplyKeeps` | cdcwdm/cdcwdm_linux.go:92-259 | every acquisition, release, system call and close step keeps the invariant |
| `Conn.ActiveOpsCounts` | cdcwdm/cdcwdm_linux.go:229-259 | activeOps is the number of outstanding acquisitions in every run |
| `Conn.ClosedOnceUnheld` | cdcwdm/cdcwdm_linux.go:153-193 | each descriptor is closed at most once, only while no operation holds it; no system call works on a closed one |
| `Conn.NoAcquireAfterClose` | cdcwdm/cdcwdm_linux.go:229-250 | after invalidation no acquisition succeeds in any continuation |
| `Conn.CloserIsWoken` | cdcwdm/cdcwdm_linux.go:177-179 | a sleeping closer has an operation to wait for, and its last release wakes it |
| `Conn.AcquireCounts` | cdcwdm/cdcwdm_linux.go:229-250 | on a valid connection an idle thread gets its operation and it is counted; on an invalid one nothing happens |
| `Conn.ReleaseUncounts` | cdcwdm/cdcwdm_linux.go:252-259 | a release ends the operation of its own thread and uncounts it |
| `Conn.HeldUntilRelease` | cdcwdm/cdcwdm_linux.go:153-259 | from an acquisition to its own release no run closes a descriptor |
| `Conn.CloseInvalidates` | cdcwdm/cdcwdm_linux.go:153-179 | Close invalidates at once and sleeps exactly if an operation is outstanding; a second Close changes nothing |
| `Conn.CloseFinishes` | cdcwdm/cdcwdm_linux.go:177-193 | once no operation is outstanding the closer's own steps close every descriptor, each once |
| `Conn.MisuseIsSeen` | cdcwdm/cdcwdm_linux.go:92-151 | misuse is recorded exactly for a system call on a closed descriptor of its kind |
| `Conn.Connection.AcquireFD` | cdcwdm/cdcwdm_linux.go:229-250 | acquisition is one step; it succeeds exactly if the thread is counted as a user |
| `Conn.Connection.ReleaseFD` | cdcwdm/cdcwdm_linux.go:252-259 | release is one step, uncounts the thread and broadcasts at zero |
| `Conn.Connection.StartClose` | cdcwdm/cdcwdm_linux.go:153-177 | Close up to its first wait is one step and invalidates the connection |

## Left out

- `watchDevices` ends after a batch with an error or a stop; the stream theorem is about the rounds before that.
- Real time, timers and contexts: clocks are natural numbers and cancellation is a step a run may take; that a step is eventually taken (liveness) is not stated.
- Sockets, serial ports, PC/SC, poll, eventfd, termios and sysfs walking: a device is whatever its steps answer.
- Fixed-size field decoders, constant tables and error texts: decoders return no value instead of a message that says why.
- Thin forwarding methods of `Modem` and the per-CID `Client` wrappers: they add only one-branch members.
- QMI requests, client-ID allocation and CAT claiming, APDU and `+CSIM` text codecs.
- Payloads of 2^32 octets and more: the layouts are stated below that bound, as the `uint32` length fields demand.
- The counters for bearer IDs, entries, owners and channels are unbounded.
- Channels are named by numbers instead of being references; `subs` stores the set of channels of a key, and the lease of a channel is recorded in the stream.
- A `NextIndication` call that finds its indication queued returns it without a channel; the model records it like a call whose slot the indication passed through.
- In `ClientPool` two entry objects are told apart by a ghost number, and slot activation of a lease (`connectLease`) is left to the lease's own release.
- `Modem.Close` is entered by one thread only; further callers of the `sync.Once` wait for it and do nothing.
- `Bearer` objects are kept as a sequence of records indexed by reference number, so aliasing between bearers is not modelled beyond that number.
- The backend's own close and `bearersChanged` notifications.
- Versions 3.0 and 4.0 of a connect request, which consist of TLVs that are proved separately.
- One loop, `Codec.UnmarshalAll`, stands for the list decoders whose loops have the same shape.
- DNN text in the version 3 layout is a sequence of octets, as the source copies it.
