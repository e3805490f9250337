# Sero, verified

A Dafny model of Sero, a header-only C++ service protocol for small devices, and proofs about
it. Everything is a fixed-size table, a run-to-completion step or a buffer, and all arithmetic
wraps at 8, 16 or 32 bits; the model keeps those widths, written out.

The project has two layers. Specification functions say what each operation does to its table,
as a function of sequences. Classes do it in place, with the program's arrays, counts and loops,
and every method is proved to change the table as the specification says. What the protocol
promises is then proved about the specification: over single steps, over whole runs, and over
two devices with a network between them.

| files | what they model |
|---|---|
| `Words`, `Tables`, `Wire`, `Layout` | fixed widths, wrapping clocks, swap-removal, headers and payloads; every byte on the wire, and known answers |
| `Crc16`, `Sha256`, `Sha256Answer`, `Hmac` | the integrity stack, against a bitwise register, FIPS 180-4 (with its constants and its example) and RFC 2104 |
| `RequestTracker`, `RequestRuns`, `E2EProtection` | request correlation and the sequence window, over whole runs |
| `EventManager` | event subscribers and their leases |
| `Discovery`, `DiscoveryRuns`, `OfferRuns`, `ConsumerRuns`, `Subscriptions`, `FindRuns` | service discovery, and what its runs guarantee |
| `Surprises` | short runs from empty tables on which a promise fails |
| `Frame`, `Node`, `NodeEffects`, `NodeOutputs`, `NodeTheorems` | frames, and one whole device as a function of its tables |
| `Calls`, `Received` | requests, answers and one-way calls through two devices; what frames that arrive do |
| `NodeRequests`, `NodeTimeouts` | requests and timeouts over whole runs of a device |
| `Runtime` | the runtime object that drives the tables in place |
| `LeaseSystem`, `LeaseProvider`, `LeaseConsumer`, `Leases` | two devices in true time, and both lease invariants |
| `LeaseBefore`, `LeaseJoin`, `LeaseGrant`, `LeaseStart` | the lease theorems for every run from power-on |
| `LeaseReboot` | the offer lease after a reboot of the provider |
| `DtcStore`, `Diagnostics` | trouble codes, the diagnostics answers and the scanner that reads them |

Run `dafny verify dfyconfig.toml` in this directory.

## How to read the model

- Bytes and words are bounded integers; bit-vectors appear only where the code works on bits.
  An address is an opaque byte sequence. Integers written back to a field are reduced modulo
  its width.
- Outputs are values: an operation of the discovery tables returns the messages, callbacks and
  peer resets it causes, in order, and the runtime carries them out. The transport is a
  function from the number of the attempt to whether it succeeds; `wire` and `app` record every
  attempt and everything the application was told.
- Service handlers are one function from service, method and payload to return code and
  response. A response longer than MaxPayloadSize is cut, since a handler may fill at most the
  response buffer.
- `Limits.maxEvents` stands for the event table's size, `MaxServices * MaxEvents` in the code.
- `Link` in the lease theorems names the two devices, their clock offsets and the bounds P
  (`gapP`, `gapC`), D (`delay`) and G (`Granted`). Other devices may send anything to either
  side except frames that speak for this service or this subscription. The applications may
  call anything, except that the provider offers the service once and does not stop, and the
  consumer does not search a service it has and, if the subscription counts, subscribes once and
  stays. With `sub` false nothing is assumed about subscriptions. `before` is the session
  of the provider's previous boot; what may happen does not depend on it. A run ends where a device
  misses its cycle or a packet its deadline; nothing is said beyond that point.

## Where the code and the prose differ

The model follows the code.

- `protocol-definition.md:391` says the AUTH flag is ignored when a service does not require
  authentication; the code verifies every frame that carries it (`AuthAlwaysVerified`).
- `protocol-definition.md:447` says counters wrap; they saturate (`BumpOne`).
- `protocol-definition.md:329` forbids retrying a refused subscription; a returning provider
  revives it (`RefusedIsRevived`).
- The code checks the total size between steps 4 and 5 of section 7.4 of the protocol
  definition, and exempts discovery messages from the sequence check of step 8.

## Properties that fail, and exactly when they hold

Each with the condition, for all inputs, and a run or an input that fails.

- What the application was told agrees with the table after every operation except `find` on a
  FOUND service (`AgreementStep`; `FoundAndForgotten`).
- A new `subscribe_event` takes effect at the next pass exactly when no unsubscribe is pending
  (`ResubscribeTakesEffect`; `SubscribedIntoNothing`). It is sent 3 - r times when r retries
  were used before, so the full three times only for r = 0 (`SendsAfterSubscribe`; `OneTryLeft`).
- A FOUND consumer reports a relevant offer after a reboot as lost and found exactly when the two
  boot times do not collide (`RebootDetected`; `RebootMissed`).
- An unanswered search ends, after SdFindRetryCount + 1 broadcasts, exactly for a count below 255
  (`SearchEnds`; `SearchesForEver`).
- `get_granted_ttl` is right for a running lease exactly when less than a second is left or the
  clock does not wrap before the end, and for an ended one that is not evicted yet exactly when
  the clock has not wrapped since the end or the difference vanishes in 16 bits
  (`RemainingIsTrue`; `RemainingHidden`, `RemainingInvented`).
- A fresh message is accepted exactly when the messages sent elsewhere in between leave it
  inside the window (`SharedCounter`; `FreshButStale`).
- E_TIMEOUT tells that the deadline has passed unless an answer carried that code
  (`TimeoutsAreLate`); a handler that returns it gets it through (`RequestAnswered`).
- A passed deadline reads as passed while it is less than 2^31 ms past, and not from there up to
  2^32 ms (`ClockComparison`; `ClockComparisonFails`).

## Model

| member | source | states |
|---|---|---|
| `Words.ClockComparison` | include/sero/service/service_discovery.hpp:705-710 | the 32-bit `time_after` and `time_after_or_eq` agree with comparing true times less than 2^31 ms apart, across any clock wrap |
| `Words.ClockComparisonFails` | include/sero/service/service_discovery.hpp:705-707 | a deadline that passed 2^31 up to 2^32 ms ago reads as still ahead |
| `Crc16.BuildTable` | include/sero/security/crc16.hpp:15-27 | the nested loops fill entry i with eight shift-register steps of i in the high byte |
| `Crc16.Compute` | include/sero/security/crc16.hpp:35-42 | the table-driven loop returns the bitwise polynomial-0x1021 register, started at 0xFFFF, over every bit of the data |
| `Crc16.TableStep` | include/sero/security/crc16.hpp:38-39 | one table look-up equals eight bitwise steps, by xor-linearity of the register |
| `Crc16.Append` | include/sero/security/crc16.hpp:46-50 | writes exactly the two checksum bytes behind the data and leaves the rest of the buffer |
| `Crc16.Verify` | include/sero/security/crc16.hpp:54-60 | accepts exactly the frames of two or more bytes whose checksum over all bytes, trailer included, is zero |
| `Crc16.TrailerMatches` | include/sero/security/crc16.hpp:54-60 | the checksum over data and trailer is zero exactly when the trailer is the checksum of the data |
| `Crc16.SealedIsValid` | include/sero/security/crc16.hpp:46-60 | what append writes, verify accepts |
| `Crc16.RegisterInjective` | include/sero/security/crc16.hpp:17-25 | feeding the same bits keeps two different registers different: a step is a bijection |
| `Crc16.BurstDetected` | include/sero/security/crc16.hpp:54-60 | any change confined to 16 consecutive bits, anywhere in a frame of any length, trailer included, is rejected |
| `Crc16.AdjacentBytesDetected` | include/sero/security/crc16.hpp:54-60 | any change confined to two adjacent bytes is rejected |
| `Crc16.OddFlipsDetected` | include/sero/security/crc16.hpp:54-60 | any odd number of flipped bits is rejected |
| `KnownAnswers.CrcOfDigits` | test/test_crc16.cpp:19-24 | the checksum of "123456789" is 0x29B1 |
| `Sha256.Sha256.Reset` | include/sero/security/sha256.hpp:18-25 | the state is that of the empty message |
| `Sha256.Sha256.Update` | include/sero/security/sha256.hpp:27-41 | from having absorbed M to having absorbed M + data: state the fold of the compression function over M's full blocks, buffer the remainder, count the length modulo 2^64 |
| `Sha256.Sha256.Transform` | include/sero/security/sha256.hpp:107-128 | one call is the compression function of FIPS 180-4, section 6.2.2, on the buffered block |
| `Sha256.Sha256.Finalize` | include/sero/security/sha256.hpp:43-65 | after absorbing M, with |M| < 2^61, writes the digest of M as sections 5.1.1 and 6.2.2 of FIPS 180-4 define it, on both padding branches |
| `Sha256Spec.OneLastBlock` | include/sero/security/sha256.hpp:46-57 | a remainder below 56 bytes: one more block, and it is the standard's padding |
| `Sha256Spec.TwoLastBlocks` | include/sero/security/sha256.hpp:47-57 | a remainder of 56 bytes or more: two more blocks, and they are the standard's padding |
| `Sha256Spec.PadIsWhole` | include/sero/security/sha256.hpp:43-57 | the padded message is a whole number of blocks |
| `Sha256.Sha256.Hash` | include/sero/security/sha256.hpp:68-72 | the one-shot form gives the same digest |
| `Sha256.HashChunks` | include/sero/security/sha256.hpp:27-65 | for every way of splitting a message into update calls the digest is that of the whole message |
| `Sha256Answer.RoundConstants` | include/sero/security/sha256.hpp:80-97 | round constant t is the first 32 fractional bits of the cube root of the t-th prime: with c the integer cube root of p, (2^32 c + K)^3 <= 2^96 p < (2^32 c + K + 1)^3 |
| `Sha256Answer.InitialValue` | include/sero/security/sha256.hpp:18-25 | word i of the initial state is the first 32 fractional bits of the square root of the i-th prime |
| `Sha256Answer.DigestOfAbc` | test/test_sha256.cpp:49-57 | the digest of "abc" is ba7816bf ... f20015ad, through the 64 literal rounds |
| `Hmac.DeriveKey` | include/sero/security/hmac.hpp:19-28 | keys longer than a block are hashed, shorter ones zero-filled to a block |
| `Hmac.HmacSha256` | include/sero/security/hmac.hpp:15-51 | equals HMAC of RFC 2104, section 2, with SHA-256 |
| `Hmac.HmacSha256Truncated` | include/sero/security/hmac.hpp:54-61 | its leftmost 16 bytes, as in section 5 of RFC 2104 |
| `Hmac.TwoPart` | include/sero/security/message_authenticator.hpp:115-155 | hashing header and payload as two parts gives the HMAC of their concatenation, truncated to the length asked for, for every key length |
| `Hmac.HmacEqual` | include/sero/security/hmac.hpp:64-70 | the OR-accumulating loop answers true exactly when all 16 bytes agree |
| `Hmac.MessageAuthenticator.SetKey` | include/sero/security/message_authenticator.hpp:27-51 | registers or replaces one peer's key and no other, refused only for a new peer in a full table |
| `Hmac.MessageAuthenticator.Compute` | include/sero/security/message_authenticator.hpp:55-73 | the tag of header and payload under the peer's key, or false without a key |
| `Hmac.MessageAuthenticator.Verify` | include/sero/security/message_authenticator.hpp:77-91 | accepts exactly the tag that `compute` makes under the same key |
| `Layout.HmacIs` | include/sero/security/hmac.hpp:15-51 | HMAC with the key block, the bytes 0x36 and 0x5C and both passes written out |
| `Layout.TagDecides` | include/sero/security/message_authenticator.hpp:77-91 | a received tag is accepted exactly when there is a key for the sender and the tag is the HMAC, under it, of all bytes before it |
| `RequestTracker.RequestTracker.Allocate` | include/sero/service/request_tracker.hpp:30-70 | takes the first free slot and the identifier the bounded probe ends on |
| `RequestTracker.RequestTracker.Complete` | include/sero/service/request_tracker.hpp:74-93 | frees the first active slot with that identifier and completes it once; otherwise nothing |
| `RequestTracker.RequestTracker.EvictExpired` | include/sero/service/request_tracker.hpp:96-109 | frees exactly the expired slots and completes each with E_TIMEOUT, in table order |
| `RequestTracker.RequestTracker.ActiveCount` | include/sero/service/request_tracker.hpp:111-115 | the number of active slots |
| `RequestRuns.FreshId` | include/sero/service/request_tracker.hpp:38-54 | pigeonhole: with a slot free the probe ends on an identifier no active entry holds, also across the 32-bit wrap |
| `RequestRuns.IdRecurrence` | include/sero/service/request_tracker.hpp:30-70 | in every run an identifier recurs only after k allocations with k times the table size at least 2^32 |
| `RequestRuns.LateResponse` | include/sero/service/request_tracker.hpp:74-93 | until then a late response completes its own request or nothing |
| `RequestRuns.RequestConservation` | include/sero/service/request_tracker.hpp:30-115 | in every run successful allocations = active entries + completions, and none is completed twice |
| `RequestRuns.TimeoutsAreTrue` | include/sero/service/request_tracker.hpp:96-109 | in every timely run a request times out only strictly after its true deadline, and an eviction after the deadline leaves none pending |
| `Calls.NoSlotNoCall` | include/sero/runtime.hpp:827-841 | a request that finds no free slot sends nothing and changes nothing |
| `E2EProtection.E2EProtection.NextSequence` | include/sero/security/e2e_protection.hpp:33-37 | hands out the counter and advances it modulo 256 |
| `E2EProtection.E2EProtection.ValidateSequence` | include/sero/security/e2e_protection.hpp:56-93 | the window decision and the table after it |
| `E2EProtection.E2EProtection.ResetPeerState` | include/sero/security/e2e_protection.hpp:41-53 | the table after swap-removal of the peer |
| `E2EProtection.ValidateKeeps` | include/sero/security/e2e_protection.hpp:56-93 | touches only the sender's last sequence, and only when it takes the message up |
| `E2EProtection.ResetForgets` | include/sero/security/e2e_protection.hpp:41-53 | forgets exactly the one peer, although another entry moves |
| `E2EProtection.AfterReset` | include/sero/security/e2e_protection.hpp:41-93 | after a peer's reset its next message is never Duplicate or Stale, whatever it carries; of a peer that was tracked it is taken up |
| `E2EProtection.AcceptsExactlyNewer` | include/sero/security/e2e_protection.hpp:41-93 | over every run of arrivals and resets inside the window, a message of a tracked peer is accepted exactly when its unbounded index exceeds the last taken up since the peer's last reset, a duplicate exactly when equal, stale exactly when smaller |
| `E2EProtection.TakenUpIncreases` | include/sero/security/e2e_protection.hpp:41-93 | between resets of a peer the indices taken up from it strictly increase |
| `E2EProtection.ReplayDistance` | include/sero/security/e2e_protection.hpp:41-93 | without a reset of the peer in between, two acceptances of one byte value are k acceptances apart with k * W >= 256 |
| `E2EProtection.SharedCounter` | include/sero/security/e2e_protection.hpp:33-37 | one counter for all destinations: exactly which gaps a receiver accepts, and that W or more messages to others make a fresh message stale |
| `EventManager.EventManager.RegisterEvent` | include/sero/service/event_manager.hpp:24-48 | registering is idempotent and refused only when the table is full |
| `EventManager.EventManager.SubscribeClient` | include/sero/service/event_manager.hpp:52-88 | enters or renews one subscriber of one event |
| `EventManager.EventManager.UnsubscribeClient` | include/sero/service/event_manager.hpp:91-106 | swap-removes one subscriber |
| `EventManager.EventManager.EvictExpired` | include/sero/service/event_manager.hpp:109-125 | the compacting loop over every active event |
| `EventManager.EventManager.Notify` | include/sero/service/event_manager.hpp:129-138 | calls the sender once for each subscriber, in table order |
| `EventManager.EventManager.RemainingTtl` | include/sero/service/event_manager.hpp:147-162 | what `get_granted_ttl` computes |
| `EventManager.RegisterKeeps` | include/sero/service/event_manager.hpp:24-48 | registering succeeds exactly for an event that is there or finds room; then it is there, and no lease changes |
| `EventManager.SubscribeRefines` | include/sero/service/event_manager.hpp:52-88 | as a mapping from client to lease: exactly that client's lease changes, to one that ends after the requested time or the default; accepted exactly when the event is registered and has the client or room for it |
| `EventManager.UnsubscribeRefines` | include/sero/service/event_manager.hpp:91-106 | as a mapping: exactly that client's lease is removed |
| `EventManager.EvictAllRefines` | include/sero/service/event_manager.hpp:109-125 | as a mapping: eviction keeps exactly the unexpired leases, although entries move |
| `EventManager.EvictByTrueTime` | include/sero/service/event_manager.hpp:109-125 | a lease survives eviction exactly when its true end is not past, across clock wrap |
| `EventManager.RemainingIsTrue` | include/sero/service/event_manager.hpp:147-162 | the reported time is the true one exactly when: of a running lease, less than a second is left or the clock does not wrap before the end; of an ended one not yet evicted, the clock has not wrapped since the end or the difference shown vanishes in 16 bits |
| `EventManager.RemainingHidden` | include/sero/service/event_manager.hpp:154-158 | a lease of 100 seconds taken 50 seconds before the clock wraps is reported as 0 |
| `EventManager.RemainingInvented` | include/sero/service/event_manager.hpp:154-158 | a lease that ended 10 ms before the clock wrapped is reported 15 ms later as 35127 seconds |
| `Wire.WriteU16` | include/sero/core/message_header.hpp:39-42 | writes two bytes, high first, and nothing else |
| `Wire.WriteU32` | include/sero/core/message_header.hpp:43-48 | writes four bytes, high first, and nothing else |
| `Wire.SerializeHeader` | include/sero/core/message_header.hpp:70-82 | fills exactly the first 20 bytes |
| `Wire.HeaderRoundTrip` | include/sero/core/message_header.hpp:52-82 | reading a serialized header gives it back |
| `Wire.HeaderCanonical` | include/sero/core/message_header.hpp:52-82 | serializing what was read gives the same 20 bytes |
| `Layout.HeaderLayout` | include/sero/core/message_header.hpp:70-82 | the 20 bytes: every field at its offset, high byte first |
| `Layout.SdHeaderIs` | include/sero/service/service_discovery.hpp:631-645 | every field of a discovery message's header |
| `Layout.PayloadLayout` | include/sero/service/service_discovery.hpp:30-107 | the bytes of every discovery payload |
| `SdMessages.LongEnough` | include/sero/service/service_discovery.hpp:30-107 | which payloads are read: exactly those long enough for their method; what follows the fields is ignored |
| `SdMessages.PayloadRoundTrip` | include/sero/service/service_discovery.hpp:30-107 | every discovery message survives its payload |
| `Discovery.ServiceDiscovery.OfferService` | include/sero/service/service_discovery.hpp:148-169 | the provider table after `offer`, and whether there was room |
| `Discovery.ServiceDiscovery.StopOfferService` | include/sero/service/service_discovery.hpp:172-180 | the provider table after `stop_offer` |
| `Discovery.ServiceDiscovery.FindServiceById` | include/sero/service/service_discovery.hpp:185-201 | the consumer table after `find`; a FOUND entry silently returns to SEARCHING |
| `Discovery.ServiceDiscovery.SubscribeToEvent` | include/sero/service/service_discovery.hpp:205-223 | the tracker table after `subscribe_event`; neither the pending unsubscribe nor the retry count is cleared |
| `Discovery.ServiceDiscovery.UnsubscribeFromEvent` | include/sero/service/service_discovery.hpp:226-232 | the tracker table after `unsubscribe_event` |
| `Discovery.ServiceDiscovery.RunOffers` | include/sero/service/service_discovery.hpp:240-263 | sends an offer for, and restamps, exactly the entries that are due; `OfferSchedule` says when that is |
| `Discovery.ServiceDiscovery.RunFinds` | include/sero/service/service_discovery.hpp:268-308 | sends a find for exactly the due entries, with backoff or exhaustion |
| `Discovery.ServiceDiscovery.BackoffDelay` | include/sero/service/service_discovery.hpp:297-301 | the loop's product, wrapping at 32 bits |
| `Discovery.ServiceDiscovery.RunConsumerTtls` | include/sero/service/service_discovery.hpp:314-331 | expires exactly the FOUND entries past their lease: peer reset, lost callback, session invalid |
| `Discovery.ServiceDiscovery.RunRenewals` | include/sero/service/service_discovery.hpp:336-390 | one step for each tracker: unsubscribe, first send, renewal, retry or giving up |
| `Discovery.ServiceDiscovery.OnOffer` | include/sero/service/service_discovery.hpp:395-461 | entry, callbacks and flagged subscriptions after an offer, for reboot, new address, first find and renewal |
| `Discovery.ServiceDiscovery.FlagAll` | include/sero/service/service_discovery.hpp:669-680 | flags exactly the application's subscriptions on the service |
| `Discovery.ServiceDiscovery.OnFind` | include/sero/service/service_discovery.hpp:466-488 | answers with every matching offered service |
| `Discovery.ServiceDiscovery.OnAck` | include/sero/service/service_discovery.hpp:491-512 | the tracker after an acknowledgement or refusal, and the callback |
| `Discovery.ServiceDiscovery.GetProviderAddress` | include/sero/service/service_discovery.hpp:520-527 | the address while the service is FOUND |
| `Discovery.ServiceDiscovery.DetectProviderReboot` | include/sero/service/service_discovery.hpp:537-543 | a FOUND entry with a valid, different session |
| `DiscoveryLog.StepDistinct` | include/sero/service/service_discovery.hpp:148-232 | no operation enters a service or subscription key twice |
| `CallbackView.CallbackHistory` | include/sero/service/service_discovery.hpp:268-461 | on every run: a FOUND entry's last callback is found with its current address and its session is valid; a NOT_FOUND entry's last callback is lost; service ids are distinct |
| `CallbackView.AgreementStep` | include/sero/service/service_discovery.hpp:185-201 | what the application was last told equals what `get_provider_address` answers after every operation except exactly `find` on a FOUND service |
| `OfferRuns.OfferSchedule` | include/sero/service/service_discovery.hpp:148-263 | on every paced run from empty tables, across clock wraps: a pass broadcasts a service, with what its `offer` call said, exactly when it is offered and this is the first pass since the call, or 500 ttl ms after the last broadcast |
| `OfferRuns.FindAnswered` | include/sero/service/service_discovery.hpp:466-488 | on every paced run: a find is answered with a service, to its sender, exactly when it is offered and the find names it or all |
| `OfferRuns.StopIsFinal` | include/sero/service/service_discovery.hpp:172-180 | after `stop_offer` no operation of any run without a new `offer` broadcasts the service or answers a find with it |
| `ConsumerRuns.FoundExactly` | include/sero/service/service_discovery.hpp:185-461 | on every regular run from empty tables, across clock wraps: a service is FOUND, at the address of the last offer that counts, exactly until the first lease pass after its true end, or a new `find` |
| `ConsumerRuns.ToldExactly` | include/sero/service/service_discovery.hpp:314-461 | a lease pass reports a service lost exactly when its lease is over; an offer reports it found exactly when that is news, with lost before it exactly for another session |
| `ConsumerRuns.RenewalSchedule` | include/sero/service/service_discovery.hpp:205-390 | a renewal pass sends a subscription exactly when the service is found, it is active with no unsubscribe pending, and it is flagged, or 500 G ms of its granted time have passed, or nothing is granted, 1000 SubscriptionTtlSeconds ms have passed and it was retried less than twice; it unsubscribes exactly when that is pending |
| `ConsumerRuns.CallsAnswer` | include/sero/service/service_discovery.hpp:185-232 | `find` and `subscribe_event` succeed exactly for what the table has or has room for, `unsubscribe_event` exactly for what it has |
| `ConsumerRuns.AckReported` | include/sero/service/service_discovery.hpp:491-512 | every acknowledgement is reported as it came, whether or not a subscription waits for it |
| `Subscriptions.UnsubscribeIsFinal` | include/sero/service/service_discovery.hpp:226-232 | from any reachable state, after `unsubscribe_event` no run without a new `subscribe_event` sends another subscribe for the key, and at most one unsubscribe |
| `Subscriptions.ResubscribeTakesEffect` | include/sero/service/service_discovery.hpp:205-223 | subscribing again is sent at the next pass exactly when no unsubscribe was pending; otherwise the pass unsubscribes and deactivates it |
| `Subscriptions.RetriesBounded` | include/sero/service/service_discovery.hpp:360-388 | over every run without stimulus an unacknowledged tracker sends at most its budget, never more than three times |
| `Subscriptions.GivesUp` | include/sero/service/service_discovery.hpp:376-388 | it goes inactive exactly when the budget is used up and the last send is a subscription lifetime back |
| `Subscriptions.SendsAfterSubscribe` | include/sero/service/service_discovery.hpp:205-223 | from any reachable state, a subscription asked for with r retries used up before and answered by nothing is sent exactly 3 - r times before it goes inactive, and 3 - r - b times while it may still send b |
| `Subscriptions.GivenUpAfter` | include/sero/service/service_discovery.hpp:360-388 | while the service is FOUND each pass that acts sends it once until the budget is used up, and the next makes it inactive |
| `Subscriptions.Revival` | include/sero/service/service_discovery.hpp:412-460 | a reboot, address change or re-find makes every registered tracker without pending unsubscribe send again, to the new address, at the next pass |
| `Subscriptions.RefusedIsRevived` | include/sero/service/service_discovery.hpp:669-680 | a refused subscription is among them |
| `SessionIds.HashCollision` | include/sero/service/service_discovery.hpp:686-693 | two boot times hash alike exactly when they agree modulo 2^16, whatever the client: the multiplier is odd |
| `SessionIds.SessionCollision` | include/sero/service/service_discovery.hpp:686-693 | session ids collide exactly then, or when the hashes are 0 and 1 |
| `SessionIds.RebootDetected` | include/sero/service/service_discovery.hpp:412-440 | a FOUND consumer that holds a valid session reports a relevant offer of another boot as lost and found exactly when the two boots do not collide |
| `KnownAnswers.SessionOf` | include/sero/service/service_discovery.hpp:686-693 | the session of client 7, service 0x1000, offered at 123456 ms |
| `KnownAnswers.JitterOf` | include/sero/service/service_discovery.hpp:697-703 | the jitter before retry 2 of client 7 for service 0x1000 |
| `FindBackoff.BackoffIsExponential` | include/sero/service/service_discovery.hpp:297-301 | without 32-bit overflow the product is I * M^k |
| `FindBackoff.NextRetryIs` | include/sero/service/service_discovery.hpp:284-306 | after a send that leaves k done the delay is I * M^k + j modulo 2^32 with |j| at most the jitter |
| `FindBackoff.SearchSchedule` | include/sero/service/service_discovery.hpp:185-308 | from any reachable state, over every run after `find`: broadcasts happen when due, and while the search goes on after k of them the entry has retry count k and the due time that follows from the k-th |
| `FindBackoff.SearchTiming` | include/sero/service/service_discovery.hpp:268-308 | in numbers: the next broadcast is due at the time of the k-th + I * M^k + j modulo 2^32 |
| `FindBackoff.SearchEnds` | include/sero/service/service_discovery.hpp:280-296 | on every run without an answer the search goes on exactly while at most SdFindRetryCount broadcasts were made, or the count is 255 |
| `FindBackoff.SearchesForEver` | include/sero/service/service_discovery.hpp:286-296 | with 255 the 8-bit count wraps: from empty tables there is a run with any number of broadcasts after one `find` |
| `FindBackoff.FindsBounded` | include/sero/service/service_discovery.hpp:268-308 | from any reachable state one `find` causes at most SdFindRetryCount + 1 broadcasts, when that count is below 255 |
| `Surprises.FoundAndForgotten` | include/sero/service/service_discovery.hpp:185-201 | find, offer, find from empty tables: the application was told of the service, `get_provider_address` knows none |
| `Surprises.SubscribedIntoNothing` | include/sero/service/service_discovery.hpp:205-223 | subscribe, refusal, unsubscribe, pass, subscribe, pass: the last pass sends an unsubscribe and no subscribe |
| `Surprises.OneTryLeft` | include/sero/service/service_discovery.hpp:205-223 | with the provider's offer heard in every cycle: after a subscription was sent three times and given up, subscribing again is sent once and given up at the first retry |
| `Surprises.RebootMissed` | include/sero/service/service_discovery.hpp:686-693 | two boots 65536 ms apart: the second offer makes no callback, for every client, service and boot time |
| `Surprises.FreshButStale` | include/sero/security/e2e_protection.hpp:33-93 | 15 messages to another device make the next one to this device stale, although nothing was lost |
| `Frame.FirstFailureDecides` | include/sero/runtime.hpp:394-473 | a frame is rejected with the counter of the first check it fails |
| `Frame.NoFailurePasses` | include/sero/runtime.hpp:394-473 | it goes on to the sequence check exactly when none fails |
| `Frame.BuildRoundTrip` | include/sero/runtime.hpp:861-895 | every frame built from a well-formed header passes all of them with the identical header, payload and tag |
| `Frame.TagAccepted` | include/sero/runtime.hpp:509-520 | its tag is accepted when both sides hold the same key |
| `Layout.FrameLayout` | include/sero/runtime.hpp:861-895 | a frame is header, payload, tag and checksum: the tag the HMAC of what is before it, or zeros without a key, the checksum over everything before it, high byte first |
| `NodeTheorems.RejectedFrame` | include/sero/runtime.hpp:394-473 | a frame rejected before the sequence check bumps exactly that counter and changes no table |
| `NodeTheorems.StoppedLate` | include/sero/runtime.hpp:475-533 | a frame stopped by sequence or authentication changes only counters and its sender's sequence state |
| `NodeTheorems.DeliveredIntact` | include/sero/runtime.hpp:394-540 | a built frame is dispatched with identical header and payload, unless the sequence check stops it or the service asks for a tag it lacks |
| `NodeTheorems.DamagedFrameDropped` | include/sero/runtime.hpp:407-413 | a built frame changed in two adjacent bytes is dropped as a checksum error and changes no table |
| `NodeTheorems.FailedSend` | include/sero/runtime.hpp:847-854 | a failed send calls back E_NOT_OK once, frees the slot and returns no identifier |
| `NodeTheorems.OversizedRequest` | include/sero/runtime.hpp:827-868 | an oversized request takes a slot and sends an empty frame, which every receiver drops |
| `Calls.SequenceCounted` | include/sero/runtime.hpp:475-504 | a duplicate bumps only DuplicateMessages, a stale frame only StaleMessages, and both stop; a frame that finds the peer table full bumps DroppedMessages and goes on; discovery frames are exempt |
| `Calls.RequestAnswered` | include/sero/runtime.hpp:577-675 | end to end, with both headers written out: the ready service's handler gets the very payload, and its code, and its bytes cut to the buffer if the code is E_OK, complete exactly this request |
| `Calls.UnknownService` | include/sero/runtime.hpp:577-620 | end to end: an unregistered service is answered by an ERROR with code 2 and no bytes, and no handler runs |
| `Calls.UnreadyService` | include/sero/runtime.hpp:577-620 | end to end: an unready service is answered by an ERROR with code 4 and no bytes, and no handler runs |
| `Calls.OneWayHeard` | include/sero/runtime.hpp:197-228 | a one-way call puts one frame on the wire for the provider; there a ready service runs on the very payload, an unready one does nothing, an unknown one counts a dropped message; nothing is sent back, unless the sequence check stops the frame |
| `Calls.OneWayNowhere` | include/sero/runtime.hpp:197-202 | without a FOUND provider a one-way call is refused and nothing is sent |
| `Calls.StrayAnswer` | include/sero/runtime.hpp:653-675 | an answer to a request that is not pending leaves no trace but in the sequence state |
| `Calls.NobodyListens` | include/sero/runtime.hpp:679-692 | a notification without a handler leaves no trace but in the sequence state |
| `NodeTheorems.QueuedAnswerWins` | include/sero/runtime.hpp:78-91 | an answer waiting in the queue beats its own timeout: draining comes before eviction |
| `NodeTheorems.NotifiesEach` | include/sero/runtime.hpp:253-284 | a notification sends one frame to each subscriber with consecutive sequence counters and touches no table |
| `NodeTheorems.NotificationHeard` | include/sero/runtime.hpp:679-692 | each subscriber's handler gets the very payload |
| `NodeTheorems.MisnumberedEvent` | include/sero/runtime.hpp:456-465 | an event identifier without bit 15 can be registered, but every device drops its notifications |
| `NodeTheorems.AckTellsLease` | include/sero/runtime.hpp:778-822 | code 0 with the requested time, or the default for zero, exactly when the event is registered and has the client or room; the table then holds that lease. Code 1 with zero otherwise, and the table is unchanged. No other lease changes |
| `NodeEffects.SdFrameSeen` | include/sero/runtime.hpp:919-952 | every device sees exactly the message in a discovery frame; frames of client identifier zero are never seen |
| `NodeEffects.ReceiveIsHandle` | include/sero/runtime.hpp:394-775 | what a frame does to the discovery and event tables depends only on the message seen in it |
| `NodeEffects.CarriedOut` | include/sero/runtime.hpp:919-970 | what carrying out one output does: a discovery message of at most MaxPayloadSize + 16 bytes of payload is sent with the next discovery sequence number, a longer one silently is not |
| `NodeEffects.FirstOutputFirst` | include/sero/runtime.hpp:88-115 | the outputs of a pass are carried out in their order |
| `Received.SubscribeHeard` | include/sero/runtime.hpp:740-822 | the frame of an SD_SUBSCRIBE_EVENT enters exactly its sender's lease, for the requested time or the default, and the source is told so; without the event or room it is refused and no lease changes |
| `Received.AckHeard` | include/sero/runtime.hpp:750-763 | the frame of an SD_SUBSCRIBE_ACK, from whomever, changes at most the subscription it names: grants it for code 0, ends it otherwise; it is reported in any case |
| `Received.UnsubscribeEnds` | include/sero/runtime.hpp:764-772 | the frame of an SD_UNSUBSCRIBE ends exactly its sender's lease on that event; the next notification goes to each other subscriber and to nobody else |
| `Received.FindHeard` | include/sero/runtime.hpp:719-738 | the frame of an SD_FIND: its sender's next message is stopped by no sequence check, and it gets an offer of exactly the offered services it asks for |
| `Received.OfferHeard` | include/sero/runtime.hpp:702-718 | the frame of an SD_OFFER with another session than the FOUND one: the provider's next message is stopped by no sequence check; any other offer leaves all sequence state alone |
| `Received.ExpiredForgotten` | include/sero/runtime.hpp:103-109 | a lease pass: the next message of a provider whose lease is over is stopped by no sequence check; all other peers stay as they were |
| `Received.MalformedIgnored` | include/sero/runtime.hpp:696-775 | a discovery frame with an unknown method or too short a payload leaves the device as it was |
| `Received.OldestFirst` | include/sero/runtime.hpp:78-86 | a cycle handles the oldest frames first, at most MaxReceiveQueueSize, and then the rest of its steps |
| `Received.NotifiesLessees` | include/sero/runtime.hpp:253-284 | as a mapping: a notification sends to the holder of each lease on the event and to nobody else |
| `Received.NobodyTold` | include/sero/runtime.hpp:253-284 | a notification without subscribers sends nothing, and the caller is told which it was |
| `NodeRequests.RunFollows` | include/sero/runtime.hpp:69-115 | on every run of a device its request table and what its application is told about requests are those of a run of the tracker alone, in order |
| `NodeRequests.CalledBackOnce` | include/sero/runtime.hpp:653-675 | on every run of a device, whatever arrives and whatever is called: each request the application is told of is one it asked for, with its callback; none is told twice; and one with a callback that found a slot was told or is pending, and not both |
| `NodeTimeouts.RunTraces` | include/sero/service/request_tracker.hpp:30-109 | every timely run of a device is a timely run of the tracker, with the true deadlines of the requests entered and the times the application was told |
| `NodeTimeouts.TimeoutsAreLate` | include/sero/runtime.hpp:78-109 | on every timely run of a device, across clock wraps: when the application is told E_TIMEOUT the request's true deadline has passed, unless a received answer to it carried that code; and none is pending that was due before the last cycle |
| `Runtime.Runtime.BuildMessage` | include/sero/runtime.hpp:861-895 | leaves exactly the frame in the transmit buffer: header, payload, tag or zeros, checksum |
| `Runtime.Runtime.SendSdMessage` | include/sero/runtime.hpp:919-952 | stamps byte 10 with the discovery counter, seals and sends; over-long messages are silently not sent |
| `Runtime.Runtime.Validate` | include/sero/runtime.hpp:394-473 | the cascade of checks on the received bytes |
| `Runtime.Runtime.CheckSequence` | include/sero/runtime.hpp:475-504 | discovery messages skip it; a full table still lets the frame through |
| `Runtime.Runtime.SetLocalAddress` | include/sero/runtime.hpp:61-65 | only the local address changes, in the discovery tables |
| `Runtime.Runtime.CheckAuth` | include/sero/runtime.hpp:509-533 | tag verification or the missing-AUTH policy |
| `Runtime.Runtime.ValidateAndDispatch` | include/sero/runtime.hpp:394-540 | receives one frame |
| `Runtime.Runtime.DispatchMessage` | include/sero/runtime.hpp:544-573 | dispatches by service and type |
| `Runtime.Runtime.HandleServiceRequest` | include/sero/runtime.hpp:577-620 | answers a request |
| `Runtime.Runtime.HandleOneWay` | include/sero/runtime.hpp:624-649 | runs a one-way request; an unknown service counts as dropped, an unready one does not |
| `Runtime.Runtime.HandleCompletion` | include/sero/runtime.hpp:653-675 | completes a request |
| `Runtime.Runtime.HandleSdMessage` | include/sero/runtime.hpp:696-775 | resets the sender's sequence state on find and the provider's on reboot, then handles the message |
| `Runtime.Runtime.HandleSubscribeRequest` | include/sero/runtime.hpp:778-822 | enters the subscriber and acknowledges |
| `Runtime.Runtime.DrainQueue` | include/sero/runtime.hpp:78-86 | takes at most MaxReceiveQueueSize frames, in order |
| `Runtime.Runtime.RunHousekeeping` | include/sero/runtime.hpp:88-115 | steps 2 to 7 in their order |
| `Runtime.Runtime.RunCycle` | include/sero/runtime.hpp:69-115 | one call of `process` |
| `Runtime.Runtime.Request` | include/sero/runtime.hpp:827-858 | allocates, builds and sends, and undoes on a failed send |
| `Runtime.Runtime.NotifyEvent` | include/sero/runtime.hpp:253-284 | notifies every subscriber in table order; false without any |
| `Runtime.Runtime.SendAndForget` | include/sero/runtime.hpp:197-228 | sends a one-way request to the provider while it is FOUND |
| `Runtime.SequencePatched` | include/sero/runtime.hpp:919-930 | overwriting byte 10 of a serialized message is choosing its sequence counter |
| `LeaseProvider.ProviderCycle` | include/sero/runtime.hpp:88-115 | a provider's cycle keeps its offer and an unexpired lease, and sends the offer when it is due |
| `LeaseProvider.ProviderReceives` | include/sero/runtime.hpp:696-822 | a frame renews the subscriber's lease exactly when it is its subscribe message, and is then acknowledged with the lease recorded |
| `LeaseConsumer.ConsumerCycle` | include/sero/service/service_discovery.hpp:314-390 | a consumer's cycle before the lease ends keeps the service, renews exactly when half the lease is over, and reports no loss |
| `LeaseConsumer.ConsumerReceives` | include/sero/service/service_discovery.hpp:395-512 | a frame extends the consumer's lease exactly when it is the offer, and grants the subscription exactly when it is the acknowledgement |
| `Leases.LeaseStep` | include/sero/runtime.hpp:69-115 | every action of the two devices keeps both lease invariants in true time |
| `Leases.OfferLeaseHolds` | include/sero/service/service_discovery.hpp:240-331 | from any state with the offer lease invariant, on every run in time with 500 ttl + P + D <= 1000 ttl, the consumer keeps the service FOUND at the provider's address and hears of no loss, across 32-bit wrap of both clocks |
| `Leases.SubscriptionLeaseHolds` | include/sero/service/event_manager.hpp:52-125 | from any state with both invariants, on every run in time with the offer bound and 2D <= 500 G, 2D < 1000 SubscriptionTtlSeconds and 500 G + P + D <= 1000 G, the provider never evicts the subscriber |
| `Leases.CycleIsActions` | include/sero/runtime.hpp:69-115 | receiving the queued frames one by one and then housekeeping is exactly one call of `process` |
| `Leases.QueuedOfferCounts` | include/sero/runtime.hpp:78-109 | an offer waiting in the queue keeps a service whose lease is over: draining comes before expiry |
| `LeaseBefore.ReceivesAsStep` | include/sero/runtime.hpp:696-775 | receiving a frame is one discovery operation, or none, and sends only its outputs, the answer to a subscribe message, or frames that are no discovery frames |
| `LeaseBefore.CourseStep` | include/sero/service/service_discovery.hpp:148-461 | every action keeps a run from power-on in its phases: not offered, offered and not heard, under lease |
| `LeaseBefore.OnceFoundKept` | include/sero/service/service_discovery.hpp:240-331 | on every run in time from power-on, without regard to subscriptions: once the consumer has found the service it has it at the provider's address for the rest of the run, and hears of no loss |
| `LeaseJoin.FirstSubscribe` | include/sero/runtime.hpp:778-822 | without a lease so far, the subscribe message starts it and is acknowledged with it, or is refused and no lease starts |
| `LeaseJoin.JoinReceivesP` | include/sero/runtime.hpp:696-822 | a frame that is not the consumer's message about the subscription, and does not speak for it, starts no lease and causes no answer to it |
| `LeaseJoin.JoinCycleC` | include/sero/service/service_discovery.hpp:336-390 | a cycle of the consumer does to the subscription what its renewal step does, and puts no more messages about it on the wire |
| `LeaseGrant.GrantStep` | include/sero/service/service_discovery.hpp:205-512 | every action keeps a run from power-on in its phases: unsent, sent once and waiting, refused, inactive, under lease |
| `LeaseGrant.AgreedFromPowerOn` | include/sero/service/event_manager.hpp:52-125 | on every run in time from power-on: a lease is held only for an active subscription and with time left to run, a granted subscription is held, and one waits for its answer at most 2D |
| `LeaseGrant.OnceLeasedKept` | include/sero/service/event_manager.hpp:52-125 | on every run in time from power-on: once the provider has entered the subscriber it holds it, with time left to run, for the rest of the run, and the consumer keeps the service and hears of no loss |
| `LeaseReboot.StepTurns` | include/sero/service/service_discovery.hpp:395-461 | the old service ends with a lost callback, alone at its expiry or directly before the found callback of the new boot; the new one begins with a found callback, and the old one never comes back |
| `LeaseReboot.RebootFromLease` | include/sero/runtime.hpp:696-775 | any state under the offer lease in which the provider loses its tables while no offer is on its way is a start of the next row, when the new boot has another session |
| `LeaseReboot.RebootRecovered` | include/sero/service/service_discovery.hpp:314-461 | on every run in time after the provider's reboot the consumer has the old service at most one cycle beyond its lease; once it has not, the application was told of the loss; once it has the new one, of the find after it; and then it keeps it at the provider's address and hears of no further loss |
| `LeaseStart.OfferSentOut` | include/sero/service/service_discovery.hpp:148-263 | a device with empty tables that offers broadcasts the offer in its next cycle |
| `LeaseStart.ServiceFound` | include/sero/service/service_discovery.hpp:395-461 | a consumer with empty tables that searches finds the service when that offer arrives |
| `LeaseStart.SubscribeSentOut` | include/sero/service/service_discovery.hpp:205-366 | a new subscription is sent to the provider in the next cycle |
| `LeaseStart.LeaseGranted` | include/sero/runtime.hpp:778-822 | the first subscribe message is granted and acknowledged |
| `LeaseStart.FromPowerOn` | include/sero/runtime.hpp:69-115 | there is a run from power-on on which the service is found, the lease is held and the subscription is granted |
| `LeaseStart.OfferAlone` | include/sero/service/service_discovery.hpp:240-331 | a state with both lease invariants has the offer's alone, without the bounds on the subscription |
| `DtcStore.DtcTable.ReportDtc` | include/sero/core/dtc_store.hpp:33-54 | the table after a report |
| `DtcStore.DtcTable.ClearDtc` | include/sero/core/dtc_store.hpp:57-67 | the table after a swap-removal |
| `DtcStore.DtcTable.ClearAll` | include/sero/core/dtc_store.hpp:70-75 | every used slot is reset |
| `DtcStore.DtcTable.Find` | include/sero/core/dtc_store.hpp:78-85 | what the table says about a code |
| `DtcStore.ReportRefines` | include/sero/core/dtc_store.hpp:33-54 | as a mapping: only that code changes; refused exactly for a new code in a full table |
| `DtcStore.ClearRefines` | include/sero/core/dtc_store.hpp:57-67 | as a mapping: exactly that code is forgotten, although entries move |
| `DtcStore.TableSummarizes` | include/sero/core/dtc_store.hpp:33-75 | after every run the table holds, for each code, the saturating number of accepted reports since it was cleared, the first and last times and the last severity |
| `Diagnostics.DiagnosticsService.HandleGetDtcs` | include/sero/service/diagnostics_service.hpp:109-137 | fills the buffer with the count and as many records as fit |
| `Diagnostics.DiagnosticsService.HandleClearDtcs` | include/sero/service/diagnostics_service.hpp:141-161 | clears one code, or all for 0xFFFF, with its return codes |
| `Diagnostics.DiagnosticsService.HandleGetCounters` | include/sero/service/diagnostics_service.hpp:165-181 | nine counters, or refusal below 36 bytes |
| `Diagnostics.DiagnosticsService.HandleGetServiceList` | include/sero/service/diagnostics_service.hpp:185-208 | the count and as many services as fit |
| `Diagnostics.DiagnosticsService.HandleGetDeviceInfo` | include/sero/service/diagnostics_service.hpp:212-225 | eight bytes of device information, or refusal |
| `Diagnostics.ScannedDevice.OnDtcs` | examples/diag_scanner.cpp:162-182 | keeps the records announced and present, or leaves the device alone |
| `Diagnostics.ScannedDevice.OnServiceList` | examples/diag_scanner.cpp:141-160 | likewise for services |
| `Diagnostics.ScannedDevice.OnCounters` | examples/diag_scanner.cpp:184-195 | nine counters from 36 bytes or more |
| `Diagnostics.ScannedDevice.OnDeviceInfo` | examples/diag_scanner.cpp:128-139 | device information from 8 bytes or more |
| `Diagnostics.DtcsReadBack` | include/sero/service/diagnostics_service.hpp:109-137 | reading the answer gives the table's entries, field for field: the longest prefix that fits, up to the wrap of the 16-bit count |
| `Diagnostics.WholePrefixRead` | include/sero/runtime.hpp:42-43 | the response buffer holds MaxPayloadSize <= 8192 bytes: the scanner reads every trouble code that fits, field for field |
| `Diagnostics.WholeServicesRead` | include/sero/runtime.hpp:42-43 | likewise every service that fits |
| `Diagnostics.CountSuffices` | include/sero/service/diagnostics_service.hpp:109-137 | for a buffer of any size the whole fitting prefix is read exactly when the 16-bit count holds it |
| `Diagnostics.ServicesReadBack` | include/sero/service/diagnostics_service.hpp:185-208 | likewise for the service list |
| `Diagnostics.CountersReadBack` | include/sero/service/diagnostics_service.hpp:165-181 | all nine counters come back |
| `Diagnostics.InfoReadBack` | include/sero/service/diagnostics_service.hpp:212-225 | the device information comes back |
| `Diagnostics.ClearForgets` | include/sero/service/diagnostics_service.hpp:141-161 | a clear request forgets exactly the code in its first two bytes, or all for 0xFFFF: 0, 1 for an unknown code, 7 for a short payload |
| `Diagnostics.NoRoomRefused` | include/sero/service/diagnostics_service.hpp:109-225 | each query answers 1 and nothing exactly when its fixed part does not fit |
| `Layout.DtcLayout` | include/sero/service/diagnostics_service.hpp:109-137 | the 16 bytes of a trouble code |
| `Layout.ServiceLayout` | include/sero/service/diagnostics_service.hpp:185-208 | the 6 bytes of a service |
| `Layout.CountersLayout` | include/sero/service/diagnostics_service.hpp:165-181 | counter i stands in bytes 4 i to 4 i + 3, high byte first |
| `Layout.CounterOrder` | include/sero/core/types.hpp:71-82 | the order of the nine counters |
| `Layout.InfoLayout` | include/sero/service/diagnostics_service.hpp:212-225 | the 8 bytes of the device information |

## Left out

- UDP sockets, multicast and clocks (`examples/udp_transport.hpp`) and the Node binding (`node-module/`): input and output; the transport is a parameter.
- CRTP, type erasure and function pointers: a callback is a number, a handler a function.
- Callbacks that call back into the runtime: callbacks are recorded, and run after the table pass that causes them.
- `MethodDispatcher` and the table of consumer event handlers: the same swap-remove table with easier claims; a finite map and a set stand for them.
- `request` by service identifier: `request` to the address that `get_provider_address` answers, or nothing; `RequestTo` is the latter half, and `OneWayHeard` shows the look-up.
- Logging and diagnostic callbacks: no effect on protocol state; only the saturating counters are kept.
- Uptime tracking in `process`, `enable_diagnostics` and the wiring of the diagnostics service into the runtime: no further state worth a claim.
- Requests, notifications and one-way calls in the lease files: the two-device runs send discovery messages and answers; other frames come from other devices.
- A device that offers before its own address is set: the code then offers an all-zero address, the model an empty one.
- Array slots beyond a table's count, which the code resets to defaults: nothing reads them; `ClearAll` states the reset.
- The `active` flags of the discovery entries: a provider's always equals its state, a consumer's is always true.
- Constant-time comparison, key secrecy and cryptographic strength: not functional properties.
- Static assertions on memory use, the example programs and the scanner's dashboard.
- RequestRuns.TimeoutsAreTrue: assumes timeouts and gaps between evictions below 2^31 ms, the range in which the 32-bit comparison is meaningful; `ClockComparisonFails` shows why.
- OfferRuns.OfferSchedule: assumes that offer passes come within 2^31 ms of each other, for the same reason.
- OfferRuns.FindAnswered: assumes the same.
- OfferRuns.StopIsFinal: assumes the same.
- ConsumerRuns.FoundExactly: assumes that lease and renewal passes come within 2^30 ms of each other; with the longest lease of 65535 s that is inside the same range.
- ConsumerRuns.ToldExactly: assumes the same.
- ConsumerRuns.RenewalSchedule: assumes the same.
- NodeTimeouts.TimeoutsAreLate: assumes the same bounds, with cycles for evictions.
- LeaseBefore.OnceFoundKept: one provider and one consumer of the service; a second provider of the same service is among the frames the other devices must not send.
- LeaseReboot.RebootRecovered: the offer lease only. The two ends' agreement about a subscription is not promised after a reboot: the refusal of an old renewal may arrive after the new subscribe message was sent. `Revival` and `RefusedIsRevived` say what the consumer does.
- LeaseReboot.RebootFromLease: offers of the old boot that are still on their way at the reboot are not modelled.
- LeaseGrant.OnceLeasedKept: the consumer's application subscribes once; `UnsubscribeIsFinal` and `ResubscribeTakesEffect` speak of one device that unsubscribes and subscribes again.
