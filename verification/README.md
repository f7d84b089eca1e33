# Verification of the Vome relay's core

This project models the parts of the repository whose behaviour is hardest to
see from one function, and proves what they promise over all inputs and all runs:

- the end-to-end TLS router, which finds the server name in a ClientHello that
  arrives in arbitrary pieces and then passes every byte on unopened
  (`ClientHello`, `ProxyLine`, `Intake`, `SniRouter`, and its WebSocket twin `RelayBridge`);
- the relay's bookkeeping under interleaved callbacks: the bounded change log of a
  live state watch (`WatchLog`), its waiting readers (`StateWatch`, and `WatchReaders` for
  one reader over a whole run), tunnels with the jobs that ride on them (`RelayTunnels`),
  single answers and streamed bodies (`RelayRequests`);
- guards that hold in real time: failed logins (`LoginGuard`, with the sharp bounds in
  `LoginBounds`), portal lookups (`RelayPortal`), and their shared arithmetic in `Rates`;
- exact packing and counting: base-32 through a wrapping 32-bit register (`Base32`),
  merged access events (`AccessEvents`);
- the store: the public directory against a full scan (`SwitchStore`), the tier limits
  (`TierLimits`), lamps that follow a live source (`Observe`), and the canonical form
  that is signed (`StableJson`, `SignedRequests`).

`Bytes`, `Options` and `Sequences` hold what several of them share.

## How the models are built

Code that changes things step by step has two sides here. A value-level state with a
`Step` function says what each callback, timer or request does, and `Run` what a run of
them does; the lemmas about runs are the results. A class with the source's own fields
(or a method with the source's own loop) carries out the updates one by one, and its
`ensures` say that it does exactly one `Step`. Every callback is one atomic step, which is
what a JavaScript event handler is between two awaits; the order of steps is arbitrary.
Functions without state are functions.

I/O, clocks and chance come in as parameters or events: chunks, acks, closes, timer
expiries and times are arguments of events, and `net.isIP`, `JSON.stringify` on sorted
values and the derivation of identifiers are function parameters about which nothing is
assumed.

## What the proofs found

Where a natural claim is false of the code, the code is kept and the exact condition is proved:

- The routing decision is independent of how the visitor's bytes are cut into chunks
  exactly for streams whose hello is not late (complete, but only after 64 KiB + 1024 + 1
  wire bytes); a small hello in one-byte records is such a late one
  (`Intake.ChunkingFreeIff`, `Intake.SlowHelloIsLate`). Behind a PROXY line the line must
  also be within 107 bytes; the comment at webserver/src/e2e/sniRouter.js:31 says a line is
  at most that long, but a longer one is accepted when it arrives in one piece
  (`Intake.ProxiedChunkingFreeIff`, `Intake.LongLineExists`).
- A PROXY line written by one router is read back by the next exactly when both addresses
  are written in the pattern's alphabet and the first is an IP address: an IPv6 zone or an
  unknown local address is refused (`ProxyLine.LineIsRead`).
- A client of the login guard can get more than ten wrong passwords answered within a quarter
  of an hour. The store rounds its times to live to seconds, so a block can read as over up to
  half a second early; thirteen get through when it is two milliseconds early or more, and
  never more than that (`LoginBounds.ShippedBound`, `LoginBounds.ThirteenInAQuarter`). Rounds
  of failures begin at least the window or the shortest block apart, whichever is smaller,
  exactly when a block reads as over no earlier than that (`LoginBounds.RoundsApartIff`); what
  a client gets through in one such period is `LoginBounds.PeriodBoundIff`.
- A blocked owner's public switches are left out of the directory exactly when the owner's
  identifier holds something other than digits: a hash field of 32 digits is read back as a
  number and never found in the set of blocked identifiers (`SwitchStore.BlockedIsHiddenIff`,
  `SwitchStore.DigitOwnerEscapes`).
- Of the caps of a tier only the one on the total holds in every run (`TierLimits.TotalCapped`).
  Which requests take the public count over its limit, and which the private count, is
  `TierLimits.PublicBreaksIff` and `TierLimits.PrivateBreaksIff`, and over whole runs
  `TierLimits.PublicCappedIff` and `TierLimits.PrivateCappedIff`. Without expiry the public cap
  holds, and without delistings the private one too (`TierLimits.CappedWithoutExpiry`).
- The canonical form keeps the value exactly when no sorted object has an own `__proto__`
  property (`StableJson.ValueIsKeptIff`). It is independent of the order of names exactly when
  objects with an own `constructor` property, which are not sorted, hold nothing that could
  come in another order (`StableJson.OrderDoesNotMatterIff`).
- A signed update is rebuilt identically by the server exactly when it names only metadata
  fields and does not give `publicize` as a text reading true or false, which validation turns
  into a boolean (`SignedRequests.UpdateAgreesIff`, `SignedRequests.TextVisibilityFails`).
- The merge key of an event tells it from every different event exactly when none of its five
  fields holds a bar (`AccessEvents.KeyTellsApartIff`, `AccessEvents.BarsConfuse`).

## Model

| member | source | states |
|---|---|---|
| ClientHello.PrefixStable | webserver/src/e2e/clientHello.js:27-66 | Once the answer is `ok` or `invalid`, every extension of the buffer gets the identical answer, so re-parsing the growing buffer is one parse of the stream |
| ClientHello.FragmentationIndependent | webserver/src/e2e/clientHello.js:32-60 | However a ClientHello within the size limit is cut into handshake records, and whatever follows, the answer depends on the joined message alone (RFC 8446 section 5.1) |
| ClientHello.ParsesIffCarried | webserver/src/e2e/clientHello.js:27-66 | Exactly which byte strings are read as which hello: those that begin with valid records whose joined fragments carry it |
| ClientHello.ShorterIsIncomplete | webserver/src/e2e/clientHello.js:33-45 | Every prefix short of the record that completes the hello is incomplete |
| ClientHello.RoundTrip | webserver/src/e2e/clientHello.js:27-117 | Printed, cut into any records and followed by anything, a hello of at most MAX_HELLO_BYTES gives back its first host name, lower-cased, and all ALPN protocols in order (RFC 6066 section 3, RFC 7301 section 3.1) |
| ClientHello.FirstHostIsFirst | webserver/src/e2e/clientHello.js:98-104 | The name read is that of the first host entry; entries of other types before it are skipped |
| ClientHello.ReadNames | webserver/src/e2e/clientHello.js:95-104 | The server_name loop finds the first host entry of the list, unless one was found before |
| ClientHello.ReadProtocols | webserver/src/e2e/clientHello.js:105-112 | The ALPN loop appends every protocol of the list in order |
| ClientHello.ReadExtension | webserver/src/e2e/clientHello.js:95-113 | One extension adds to the name and protocols exactly what it contributes to those of the whole list |
| ClientHello.ReadExtensions | webserver/src/e2e/clientHello.js:86-116 | The extension loop reads what the list of extensions says, and refuses one that claims more than there is |
| ClientHello.Skip8 | webserver/src/e2e/clientHello.js:70-80 | Skipping a field behind a one-byte length, or failing when it is cut short |
| ClientHello.Skip16 | webserver/src/e2e/clientHello.js:70-86 | Skipping a field behind a two-byte length, or failing when it is cut short |
| ClientHello.ParseBody | webserver/src/e2e/clientHello.js:68-117 | The cursor walk over a body agrees with reading it as nested length-prefixed fields (RFC 8446 section 4.1.2) |
| ClientHello.ParseClientHello | webserver/src/e2e/clientHello.js:27-66 | The record loop terminates, stays in bounds and gives the answer of the specification, reasons included |
| ProxyLine.IndexOfCrlf | webserver/src/e2e/sniRouter.js:42-46 | The first CRLF, or none anywhere |
| ProxyLine.LineIsRead | webserver/src/e2e/sniRouter.js:35-60 | What one router writes the next reads back, with every later byte left over, exactly when the addresses fit the pattern and the visitor's is an IP address; otherwise the line is refused |
| ProxyLine.FramedStable | webserver/src/e2e/sniRouter.js:42-53 | A line once read stays read when more bytes arrive, and they all come after it |
| Intake.ChunksDoNotMatter | webserver/src/e2e/sniRouter.js:204-243 | Every chunking of a stream without a late hello leads to the same decision |
| Intake.ChunkingFreeIff | webserver/src/e2e/sniRouter.js:228-240 | The decision is independent of the chunking if and only if the hello is not late |
| Intake.LateHelloDepends | webserver/src/e2e/sniRouter.js:229-238 | A late hello is routed when it comes at once and dropped when it stops just past the limit |
| Intake.SlowHelloIsLate | webserver/src/e2e/sniRouter.js:229-238 | A well-formed hello of 12 000 bytes in one-byte records is late |
| Intake.ProxiedChunksDoNotMatter | webserver/src/e2e/sniRouter.js:209-240 | The same behind a PROXY line, under the condition below |
| Intake.ProxiedChunkingFreeIff | webserver/src/e2e/sniRouter.js:209-240 | Behind a PROXY line the decision is independent of the chunking if and only if the hello is not late and the line is within the limit or followed by something refused anyway |
| Intake.LongLineExists | webserver/src/e2e/sniRouter.js:35-53 | Lines past the limit can be well formed |
| SniRouter.FirstForwardIsFirst | webserver/src/e2e/sniRouter.js:178-185 | A name goes to the first forwarded suffix it is under, and to none if it is under none |
| SniRouter.ServedExactly | webserver/src/e2e/sniRouter.js:178-202 | A name is served if and only if it is one DNS label under the suffix and under no forwarded one; the ACME responder gets it if and only if acme-tls/1 is offered |
| SniRouter.ByteTransparency | webserver/src/e2e/sniRouter.js:82-148 | In every run what was handed on followed by what is queued is exactly what the visitor sent after any PROXY line; nothing goes out before the ack, nothing stays back after it, and the home is the one the hello names |
| SniRouter.PassedOnTransparency | webserver/src/e2e/sniRouter.js:150-185 | In every run a router passed on to gets our PROXY line and then exactly what the visitor sent |
| SniRouter.CountersExact | webserver/src/e2e/sniRouter.js:82-102 | In every run each home's count is its bridges not yet released, absent at zero and within the cap, and the passed-on count is the connections passed on and still open, at most 256 |
| SniRouter.Live.PassOnTo | webserver/src/e2e/sniRouter.js:150-176 | Passing on counts the connection, or destroys it at the cap |
| SniRouter.Live.OnHello | webserver/src/e2e/sniRouter.js:209-240 | Until it is decided a connection reads on, is dropped, or is handed over with its buffer |
| SniRouter.Live.OnData | webserver/src/e2e/sniRouter.js:135-141 | A chunk is sent on, queued until the ack, or piped, in order |
| SniRouter.Live.CountTunnel | webserver/src/e2e/sniRouter.js:82-102 | A tunnel is counted before it opens and the count given back if that fails |
| SniRouter.Live.OnResolved | webserver/src/e2e/sniRouter.js:190-202 | Resolving a name bridges the connection or ends it |
| SniRouter.Live.OnAck | webserver/src/e2e/sniRouter.js:111-117 | The ack sends the queue and empties it |
| SniRouter.Live.OnClosed | webserver/src/e2e/sniRouter.js:142-146 | Closing releases exactly what the connection held |
| RelayBridge.NothingLostOrReordered | webserver/src/websocket/relayBridge.js:24-81 | Whenever the ack comes, the component gets exactly the client's messages in order, none before it; the client gets exactly what was sent while it was open |
| RelayBridge.Bridge.OnAck | webserver/src/websocket/relayBridge.js:30-36 | The ack sends the queue in order and empties it |
| WatchLog.PictureIsLast | webserver/src/websocket/stateWatch.js:112-113 | The live picture holds the last state reported of each entity, and no other entity |
| WatchLog.OnStatesKeeps | webserver/src/websocket/stateWatch.js:107-121 | A frame keeps the log the contiguous numbered tail of everything reported, trimmed or not |
| WatchLog.SinceIsSuffix | webserver/src/websocket/stateWatch.js:156-157 | The changes after a cursor are exactly the history after it |
| WatchLog.ReadCatchesUp | webserver/src/websocket/stateWatch.js:151-158 | One read brings a reader that was behind exactly up to date |
| WatchLog.FollowerHoldsThePicture | webserver/src/websocket/stateWatch.js:97-172 | A reader that starts at cursor 0 and follows the cursors it is given holds the live picture after every read, for any run of frames and reads and any trimming |
| WatchLog.LogIsContiguous | webserver/src/websocket/stateWatch.js:111-121 | In every run the kept numbers are contiguous, end at the job's number, and number the smaller of the history and MAX_CHANGES |
| StateWatch.ParkedMeansNothingNew | webserver/src/websocket/stateWatch.js:145-172 | In every reachable state a waiting reader's watch is running and has nothing new for it, and no home has more than ten running watches |
| StateWatch.ReleasedByEveryEnding | webserver/src/websocket/stateWatch.js:123-200 | Every frame, close, cancel and idle sweep leaves nobody waiting on its watch |
| StateWatch.EveryLogKeeps | webserver/src/websocket/stateWatch.js:97-172 | In every run each watch's log is the numbered tail, and its picture the last word, of exactly the states of its own entities in the frames it took in; a cursor behind it is always answered with something |
| WatchReaders.ReaderHoldsThePicture | webserver/src/websocket/stateWatch.js:97-200 | Over every run of frames, other readers, timeouts, cancellations and sweeps: a reader that starts at cursor 0 and reads on with the cursors it is given, answered at once or after waiting, holds the watch's live picture whenever it is answered |
| StateWatch.ChangeIsSeen | webserver/src/websocket/stateWatch.js:151-158 | A cursor behind the log is always answered with something |
| StateWatch.StateWatchJobs.CountRunning | webserver/src/websocket/stateWatch.js:54-54 | The filter counts the home's running watches |
| StateWatch.StateWatchJobs.Begin | webserver/src/websocket/stateWatch.js:53-89 | A watch starts unless the home has its share or the component cannot be asked |
| StateWatch.StateWatchJobs.WakeAll | webserver/src/websocket/stateWatch.js:133-138 | Running the closures releases every reader waiting on the job and nobody else |
| StateWatch.StateWatchJobs.LogStates | webserver/src/websocket/stateWatch.js:107-114 | The loop numbers and logs exactly the states of watched entities, in order |
| StateWatch.StateWatchJobs.OnData | webserver/src/websocket/stateWatch.js:97-124 | A frame is logged, trimmed, and wakes the readers |
| StateWatch.StateWatchJobs.ReadNow | webserver/src/websocket/stateWatch.js:145-169 | A read is refused to others, answered at once, or parked |
| StateWatch.StateWatchJobs.ReadOn | webserver/src/websocket/stateWatch.js:170-171 | A released reader gets what the log holds after its cursor |
| StateWatch.StateWatchJobs.CancelWatch | webserver/src/websocket/stateWatch.js:174-181 | Only the watch's own home can cancel it |
| StateWatch.StateWatchJobs.Sweep | webserver/src/websocket/stateWatch.js:193-200 | The sweep ends exactly the idle watches, one after another |
| RelayTunnels.UnfinishedIffRegistered | webserver/src/websocket/stateWatch.js:75-85 | In every reachable state a job of either table is unfinished if and only if its tunnel is registered for its server |
| RelayTunnels.NothingAfterTheEnd | webserver/src/websocket/relayManager.js:390-424 | A tunnel's onClose fires at most once, and no callback follows it or an unregistration |
| RelayTunnels.FramesStayHome | webserver/src/websocket/relayManager.js:390-403 | A frame calls and changes only tunnels and jobs of the server it came from |
| RelayTunnels.LostStaysHome | webserver/src/websocket/relayManager.js:405-424 | Losing a relay closes every tunnel and ends every job of that server and leaves all others as they were |
| RelayTunnels.RelayManager.StartBuildJob | webserver/src/websocket/esphomeStream.js:116-157 | A job starts with its tunnel, or neither stays |
| RelayTunnels.RelayManager.StartWatchJob | webserver/src/websocket/stateWatch.js:53-89 | A watch starts with its tunnel, or neither stays |
| RelayTunnels.RelayManager.OnData | webserver/src/websocket/esphomeStream.js:164-194 | A frame adds a line within the bounds, finishes the job, or is ignored |
| RelayTunnels.RelayManager.OnClose | webserver/src/websocket/esphomeStream.js:196-205 | A close ends the job, with an error if no result came before it |
| RelayTunnels.RelayManager.RouteTunnel | webserver/src/websocket/relayManager.js:390-403 | A frame is routed to its tunnel only if that is its sender's |
| RelayTunnels.RelayManager.DropTunnelsFor | webserver/src/websocket/relayManager.js:415-424 | The loop closes every tunnel of the server and no other |
| RelayTunnels.RelayManager.ReadBuild | webserver/src/websocket/esphomeStream.js:225-248 | A reader that follows its cursor gets the lines exactly, and a finished job goes only when read to the end |
| RelayTunnels.RelayManager.CancelBuild | webserver/src/websocket/esphomeStream.js:251-260 | Only the job's own server can cancel it |
| RelayRequests.SettledOnceByItsServer | webserver/src/websocket/relayManager.js:375-382 | In every run a request is pending exactly until it is settled, is settled at most once, and an answer came from the server it was sent to |
| RelayRequests.DeliveredExactlyOnce | webserver/src/websocket/relayManager.js:282-347 | After one head and with one attach, for every interleaving of pushes, ends and the attach, the consumer gets exactly the chunks the owner pushed before its end, in order, then the end once, whether it came before or after the attach |
| RelayRequests.RelayStreams.Ask | webserver/src/websocket/relayManager.js:438-464 | Asking settles at once when offline or unsendable, and waits otherwise |
| RelayRequests.RelayStreams.ResolvePending | webserver/src/websocket/relayManager.js:375-382 | A response settles its own server's request and no other |
| RelayRequests.RelayStreams.OnHead | webserver/src/websocket/relayManager.js:174-188 | A streaming head registers its stream before it settles the request |
| RelayRequests.RelayStreams.PushStream | webserver/src/websocket/relayManager.js:282-300 | A chunk is delivered, queued, or ignored when it is not the owner's or too late |
| RelayRequests.RelayStreams.EndStream | webserver/src/websocket/relayManager.js:303-313 | An end is delivered or kept for the attach |
| RelayRequests.RelayStreams.AttachStream | webserver/src/websocket/relayManager.js:323-347 | Attaching delivers what was queued, in order, and the end if it had come |
| LoginBounds.RoundsApartIff | webserver/src/proxy/loginGuard.js:120-170 | With d the smaller of the failure window and the shortest block: in every sequence of attempts without success at most ceil(T / d) rounds of failures begin in any interval of length T, if and only if a block reads as over no earlier than d after it was set |
| LoginBounds.PeriodBoundIff | webserver/src/proxy/loginGuard.js:120-170 | In an interval of length d at most 3 * failMax - 2 wrong passwords are answered, and at most 2 * failMax if and only if failMax is at most two or a block reads as over at most a millisecond too early for d |
| LoginBounds.PeriodsBoundGuesses | webserver/src/proxy/loginGuard.js:120-170 | The bound failMax * (ceil(T / d) + 1) for intervals of every length holds if a block reads as over no earlier than d, and for a threshold of three or more fails if it reads as over more than a millisecond before |
| LoginBounds.ShippedBound | webserver/src/config/config.js:167-173 | With the shipped settings and times to live rounded to seconds: at most thirteen in any quarter of an hour, and at most ten if and only if blocks read as over at most a millisecond early |
| LoginBounds.ThirteenInAQuarter | webserver/src/proxy/loginGuard.js:120-170 | A run in which thirteen wrong passwords are answered within a quarter of an hour |
| LoginGuard.GuessesAreBounded | webserver/src/proxy/loginGuard.js:120-170 | Attempts made one after another without success get at most failMax * (ceil(T / d) + 1) wrong passwords answered in any interval of length T, for every d that is at most the failure window and at most the shortest block less what a block can read as over early |
| LoginGuard.BlocksEscalate | webserver/src/proxy/loginGuard.js:148-153 | With a sorted ladder no block is shorter than the one before it, until the strikes lapse |
| LoginGuard.BlockHolds | webserver/src/proxy/uiProxy.js:553-568 | While a block is on every attempt is refused, whatever its outcome would have been |
| LoginGuard.SuccessForgives | webserver/src/proxy/loginGuard.js:173-190 | After a success a client may fail failMax - 1 times, whenever, without being blocked |
| LoginGuard.SuccessForgetsStrikes | webserver/src/proxy/loginGuard.js:173-180 | After a success the next block is the ladder's first |
| LoginGuard.BlockDuration | webserver/src/proxy/loginGuard.js:101-105 | A block's length is a step of the ladder |
| LoginGuard.Guard.CheckBlocked | webserver/src/proxy/loginGuard.js:120-130 | Whether the address is barred and for how many more seconds |
| LoginGuard.Guard.CountFailure | webserver/src/proxy/loginGuard.js:133-170 | A failure is counted and at the threshold turns into a block; nobody else's record changes |
| LoginGuard.Guard.ClearRecord | webserver/src/proxy/loginGuard.js:173-180 | A success wipes counters and strikes but not a block; nobody else's record changes |
| LoginGuard.Guard.Login | webserver/src/proxy/uiProxy.js:735-742 | Check, forward and observe, in this order, make one attempt |
| RelayPortal.LookupsAreBounded | webserver/src/utils/relayPortal.js:136-155 | With a clock that never goes back, at most 20 * (ceil(T / 1000) + 1) requests go to the portal in any interval of T milliseconds |
| RelayPortal.LookupsPerSecond | webserver/src/utils/relayPortal.js:136-143 | At most twice the budget in any half-open second, wherever it falls |
| RelayPortal.TwiceIsReached | webserver/src/utils/relayPortal.js:136-143 | That bound is attained |
| RelayPortal.CachedAnswersAreRecent | webserver/src/utils/relayPortal.js:149-182 | In every run a cached answer is what the portal last said about the name, less than thirty seconds ago, and the cache holds at most 10 001 names |
| RelayPortal.Routes.LookupAllowed | webserver/src/utils/relayPortal.js:136-143 | Spends one lookup and says whether it was within the budget |
| RelayPortal.Routes.FetchRoute | webserver/src/utils/relayPortal.js:145-155 | Answers from the cache, refuses, or asks the portal |
| RelayPortal.Routes.OnAnswer | webserver/src/utils/relayPortal.js:156-182 | Caches a usable answer, clearing an overgrown cache first |
| Base32.Base32Encode | webserver/src/utils/crypto_v2.js:17-43 | The wrapping 32-bit loop computes the regrouping of the bits, highest first, into fives (RFC 4648 section 6, unpadded), for byte strings of every length |
| Base32.DecodeEncode | webserver/src/utils/crypto_v2.js:17-43 | Decoding gives every byte string back |
| Base32.EncodeIsInjective | webserver/src/utils/crypto_v2.js:17-43 | No two byte strings, of whatever lengths, share an encoding |
| Base32.ShiftInAppends | webserver/src/utils/crypto_v2.js:27-28 | Shifting a byte into the register appends its bits to those pending, wrap-around or not |
| Base32.Take5Removes | webserver/src/utils/crypto_v2.js:31-32 | The field taken out is the five highest pending bits |
| Base32.LastField | webserver/src/utils/crypto_v2.js:37-38 | The last field is what is pending, filled up with zeros |
| Base32.SwitchUidIsValid | webserver/src/utils/crypto_v2.js:87-96 | Every digest gives an identifier the v2 pattern accepts, and identifiers agree only when the digests' first 16 bytes do |
| AccessEvents.EveryRun | webserver/src/utils/accessEvents.js:58-130 | Over every interleaving of records and flushes, for any selection of keys, the counts accepted equal the counts sent plus those queued; the queue stays within its cap, each key once and equal to its entry's merge key, and keys leave in the order in which they first came |
| AccessEvents.NewestIsKept | webserver/src/utils/accessEvents.js:79-87 | In every run a queued entry carries the time of the last report merged into it, and its path and agent when that report had them |
| AccessEvents.KeyTellsApartIff | webserver/src/utils/accessEvents.js:29-33 | The key of an event differs from that of every different event if and only if none of its five fields holds a bar |
| AccessEvents.BarsConfuse | webserver/src/utils/accessEvents.js:29-33 | For every event with a bar in a field there is a different one with the same key |
| AccessEvents.KeyTellsApart | webserver/src/utils/accessEvents.js:29-33 | Two events without bars before the host are merged if and only if all five fields agree |
| AccessEvents.Merge | webserver/src/utils/accessEvents.js:81-87 | Merging adds the counts and does not change the key |
| AccessEvents.Emitter.RecordEvent | webserver/src/utils/accessEvents.js:58-95 | An event is merged, queued, or dropped when the queue is full |
| AccessEvents.Emitter.TakeBatch | webserver/src/utils/accessEvents.js:98-109 | A flush takes the oldest entries up to the batch size and nothing else |
| SwitchStore.DirectoryAgrees | webserver/src/utils/redis.js:701-747 | In every reachable store, however the index is enumerated, the directory is what a scan of all switches gives: the live v2 public ones that are not redirected and not seen as blocked, each once, promoted first, otherwise in index order |
| SwitchStore.EveryRun | webserver/src/utils/redis.js:442-520 | Over every run of creations, updates, state writes, deletions and expiries every live public switch is in the public index and every v2 switch knows its name |
| SwitchStore.BlockedIsHiddenIff | webserver/src/utils/redis.js:719-721 | In every reachable store a blocked owner's public switch is left out if and only if the owner's identifier, 32 hex characters, is not all digits |
| SwitchStore.DigitOwnerEscapes | webserver/src/utils/redis.js:540-560 | A run in which an owner of 32 digits is blocked and still listed |
| SwitchStore.ThoseAreSelected | webserver/src/utils/promote.js:15-57 | Sorting by what the entries say agrees with the switches' own promotion, as long as the sort is not earlier than the scan |
| SwitchStore.Store.CreateSwitchV2 | webserver/src/utils/redis.js:479-520 | Creating a v2 switch keeps the index complete and indexes it for its owner |
| SwitchStore.Store.UpdateSwitch | webserver/src/utils/redis.js:1599-1622 | An update rewrites the hash and moves it in or out of the index |
| SwitchStore.Store.SetSwitchState | webserver/src/utils/redis.js:385-399 | Writing a state brings an expired switch back bare |
| SwitchStore.Store.DeleteSwitchAdmin | webserver/src/utils/redis.js:1624-1660 | A deletion removes the switch from the store and its indexes |
| SwitchStore.Store.SortPublicSwitches | webserver/src/utils/promote.js:46-57 | Promoted entries first, each group in its order |
| SwitchStore.Store.GetPublicSwitches | webserver/src/utils/redis.js:701-747 | The scan over the index gives exactly the directory |
| TierLimits.TotalCapped | webserver/src/routes/route-helpers.js:168-251 | In every run of requests by all owners an owner's total count stays within its tier's limit |
| TierLimits.PublicCappedIff | webserver/src/routes/route-helpers.js:213-250 | A run keeps the public count within its limit throughout if and only if none of its requests breaks it |
| TierLimits.PrivateCappedIff | webserver/src/routes/route-helpers.js:213-250 | The same for the private count |
| TierLimits.PublicBreaksIff | webserver/src/routes/v2-routes.js:153-183 | A request keeps the public cap unless another owner, with the count full, creates or makes public a switch that is in this owner's index |
| TierLimits.CappedWithoutExpiry | webserver/src/routes/route-helpers.js:168-251 | Where nothing expires the total and public counts stay within the limits whatever is asked for, delistings, deletions and taken keys included; without delistings the private count does too |
| TierLimits.TotalAndPublicCapped | webserver/src/routes/route-helpers.js:168-251 | With expiry as well, the total and public counts stay within the limits if nobody else creates a switch with the owner's keys |
| TierLimits.PrivateBreaksIff | webserver/src/routes/admin-routes.js:55 | A request keeps the private cap unless, with the count full, it delists, expires or makes private a public switch of this owner's index, or deletes one out of another's |
| TierLimits.DelistBreaksPrivate | webserver/src/routes/admin-routes.js:55 | A run in which a delisting breaks the private cap |
| TierLimits.SharedKeyBreaksPublic | webserver/src/routes/v2-routes.js:155-183 | A run in which a key used by two owners breaks the public cap |
| TierLimits.CountSwitchesInSet | webserver/src/utils/redis.js:617-638 | The loop counts the set, the live public ones in it, and the rest as private |
| TierLimits.CreateRequest | webserver/src/routes/v2-routes.js:153-183 | A creation is served if the name is free, the limits allow it and the other checks pass |
| TierLimits.UpdateRequest | webserver/src/routes/v2-routes.js:352-417 | An owner's update is served if the switch is its own, the limits allow it and the other checks pass |
| Observe.LastSuccessWins | catalogue/lib/refresh.js:90-94 | From a lamp never fetched and off, after any observations the desired state is on if and only if the last success said on and is no older than the lamp's patience |
| Observe.CatalogueShowsLastSuccess | catalogue/lib/observe.js:160-220 | The same over any run of catalogue passes, whichever of them skip the lamp |
| Observe.MarkedStale | catalogue/lib/observe.js:51-65 | The stale mark is there if and only if a failure came too late since the last success, and then the lamp is off |
| Observe.StoredState | catalogue/lib/observe.js:24-156 | What the stored entry holds after any run of observations |
| Observe.StaleAfterHours | catalogue/lib/stale.js:14-20 | The patience is at least an hour |
| Observe.ObserveSelected | catalogue/lib/observe.js:175-209 | The loop records a replacement for exactly the entries the pass observes |
| Observe.ObserveCatalogue | catalogue/lib/observe.js:160-220 | A pass gives every entry its own observation or leaves it as it is, and fails on unknown names |
| StableJson.OrderDoesNotMatterIff | webserver/src/utils/crypto_v2.js:45-63 | A value has one canonical form in whatever order its names come, at any depth, if and only if its objects with an own `constructor` hold nothing that could come in another order |
| StableJson.SortIsIdempotent | webserver/src/utils/crypto_v2.js:45-59 | Sorting twice is sorting once, whatever names occur |
| StableJson.ValueIsKeptIff | webserver/src/utils/crypto_v2.js:50-56 | The canonical form has the same value at every depth if and only if no sorted object has an own `__proto__` |
| StableJson.SortDependsOn | webserver/src/utils/crypto_v2.js:50-56 | An object's form depends only on the values found under its names, `__proto__` excepted |
| StableJson.SortedLookup | webserver/src/utils/crypto_v2.js:50-56 | What a sorted object holds under each name |
| SignedRequests.CreateAgrees | webserver/src/routes/route-helpers.js:280-323 | For every metadata, the text rebuilt from the body of a creation is the text the client signed |
| SignedRequests.PayloadsAgree | catalogue/lib/requests.js:17-35 | The payload read from the validated body and the client's payload have the same canonical form |
| SignedRequests.UpdateAgreesIff | webserver/src/routes/route-helpers.js:291-351 | An update is rebuilt as it was signed if and only if it names nothing but metadata fields and gives `publicize` as nothing that validation converts |
| SignedRequests.TextVisibilityFails | webserver/src/utils/validation.js:127 | An update signed with the text "true" is rebuilt with the boolean |
| SignedRequests.ListAgrees | catalogue/lib/requests.js:71-88 | For a listing, the text rebuilt from the body is the text the client signed |
| SignedRequests.AccessKeyAgrees | webserver/src/routes/v2-routes.js:464-474 | For a new access key, the text rebuilt from the body is the text the client signed |
| SignedRequests.SetStateAgrees | catalogue/lib/requests.js:116-136 | Setting a state, the text rebuilt from the body is the text the client signed, whatever the parameters; only a list of parameters is refused |

The remaining methods of the classes each carry out one further case of the step
function named in their `ensures`.

## Left out

- Sockets, HTTP, WebSocket framing, DNS, timers and `fetch`: they appear as events and parameters only.
- Base64 and the parsing of frames as JSON: frames arrive as what they say. SHA-256, HMAC, Ed25519 and JWT are not part of this model; a digest is any byte string.
- Bytes that arrive while a connection's name is being looked up: the socket is paused then, so no such event occurs.
- The byte stream from the home back to the visitor in the TLS router, which is written straight through.
- ProxyLine.LineIsRead: assumes that socket addresses are ASCII without blanks or line ends, and ports below 65536.
- Cleaning up tunnels and streams when a relay socket is replaced or pruned by the heartbeat: the code does not do it (webserver/src/websocket/relayManager.js:129-137, 616-629).
- RelayRequests.DeliveredExactlyOnce: is about one head and one attach; the code does not check who sends a head (webserver/src/websocket/relayManager.js:177-180), and detaching or aborting a stream is not modelled.
- The texts of error messages, snapshot numbers, keepalive and statistics of watches and jobs.
- LoginGuard.GuessesAreBounded: is about attempts made one after another; attempts in flight at the same time pass the gate together, and storage errors let attempts through. Settings are assumed to be positive and the ladder not empty.
- The store's time to live is rounded to seconds, so a block can read as over up to half a second early; the parameter `early` is that margin. The bounds on rounds and periods are for ladders whose first step is the shortest, as every sorted ladder is, and for margins of at most half a period, which rounding to seconds never exceeds.
- LoginBounds.PeriodsBoundGuesses: leaves open thresholds of one and two, and blocks that read as over exactly a millisecond too early, where the bound on long intervals depends on the later steps of the ladder and on when strikes lapse.
- The per-home login tally is kept but nothing reads it.
- Concurrent requests against the store: each store operation, and each request with its check, is one atomic step.
- Store fields other than the ones named, listing overrides (they never change name, promotion or visibility), user counts, the v1 owner index, legacy migrations, and statistics sets.
- How a number read back from a field prints (`Printer`), and what a field in brackets or braces parses to.
- TierLimits.CappedWithoutExpiry: like `TierLimits.TotalAndPublicCapped` it is about owners whose identifier is not all digits; the identifier of any other is read back as a number, so the owner can never update its switches. The step and run conditions are about every owner.
- Requests of legacy (v1) owners, whose limits are checked the same way against another index; changing tiers during a run; Joi validation beyond its defaults; captcha, nonces and image ingestion (one flag says whether they let a request through).
- SignedRequests.UpdateAgreesIff: is about updates that validation lets through; what it refuses (an update without metadata fields, values of the wrong type or length) is answered before any signature is looked at.
- The builders that have no client here.
- Observe.ObserveCatalogue: is about catalogues with distinct identifiers, which catalogue/lib/validate.js:192 enforces.
- Values that JSON.parse does not produce, and prototypes: an object is its own properties.
- The text of copy fields updated by an observation, other schedule kinds, and the catalogue's scrapers.
