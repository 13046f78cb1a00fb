# The U2F extension, modelled and proved in Dafny

This project models the hard core of the Chrome U2F extension and of its C++ test client, and proves what they
promise. `dafny verify dfyconfig.toml` checks all of it.

| part | files |
|---|---|
| JavaScript numbers and 32-bit operators | `words.dfy` |
| U2FHID frames, their reader, the channel lock | `framing.dfy`, `lock.dfy` |
| The two device drivers, their clients | `hiddevice.dfy`, `usbdevice.dfy`, `clientlist.dfy` |
| A client reading replies, and exchanging commands for them | `gnubby.dfy`, `exchange.dfy` |
| The C++ implementation of the same framing | `u2futil.dfy` |
| SHA-256: FIPS 180-4, and the streaming hasher | `sha256spec.dfy`, `sha256constants.dfy`, `sha256.dfy` |
| Base64url: RFC 4648, and the codec | `base64spec.dfy`, `base64.dfy` |
| ASN.1 signatures | `asn1.dfy` |
| The request queue | `requestqueue.dfy` |
| Sign and enroll requests with their watchdogs | `signrequest.dfy`, `enrollrequest.dfy` |
| Many sign requests in one queue | `signqueue.dfy` |
| Signing with one device | `singlesigner.dfy` |
| Shared opens, racing helpers, countdown timers | `gnubbies.dfy`, `delegatinghelper.dfy`, `countdowntimer.dfy` |

Code that changes state in place is a class whose methods are proved to have the effect of a specification function.
Code driven by callbacks is in addition a state machine: `Step` is one event (a call, a timer, the end of a transfer, a
reply), `Run` any sequence of events, and the theorems hold after every run. Events that are not enabled change nothing,
so a run is every interleaving that the browser and the device can produce, and more. Where a callback is called last,
what it does is the next event; where it is called in the middle (`SharedOpen`, `SignRequests`, `GoToSuccess` of
`SignerStates`), it is called there. In `SignQueue` the next request is begun behind the event of the one that ends, which
is proved to make no difference (`SignQueue.CompleteCommutes`).

Methods without a row below, most of them in the USB driver, the enroller, the single signer and the countdown timer,
have the effect of the step function of the same name, and no more is said of them.

Some things that the code is for are true only under a condition. They are stated as exact conditions, with an input
or a run that breaks them:

- A framed message comes back whole exactly up to 7609 bytes (`Framing.RoundTrip`).
- A message of more than 7845 bytes can take the channel lock, because frame number 132 looks like a LOCK command
  (`ChannelLock.MessageLocksByItsCommand`, `ChannelLock.LongMessageTakesLock`).
- Closing a client under a pending read makes `readFrame_` throw exactly if a received frame waits for that read; if none
  does, the continuation is only registered, and `close` forgets it (`GnubbyClient.CloseMakesReadThrow`, and a run in
  `GnubbyClient.CloseThenThrow`).
- The length field of the hash is exact exactly below 2^29 bytes (`Sha256Hasher.LengthFieldExact`).
- A key handle is found again after decoding and encoding exactly if it was written canonically
  (`Base64Spec.EncodeDecode`, `KeyHandles.KeyHandleFound`).
- A sign request whose device signs can lose its success, and is then never answered, exactly if the page lists a key
  handle that is not canonical without its canonical spelling: the success callback throws, after the watchdog's timer was
  cleared (`SignRequests.SuccessLostIff`, `SignRequests.CanonicalPageIsAnswered`, and a run in
  `SignRequests.UnansweredPage`).
- A printed signature can be parsed exactly if its body has at most 127 bytes (`Asn1.RoundTrip`).
- Completing a token that is neither first nor last in its queue begins another one out of turn
  (`QueueSchedule.OutOfTurn`, `QueueSchedule.MiddleCompletion`).
- The watchdog's timer answers an open request exactly if it was ever set, which it is not if the page asks for half a
  second or less, and, for signing, no success was lost (`SignRequests.RespondsOnce`, `EnrollRequests.RespondsOnce`). A sign
  request without timers is answered when the queue begins it (`SignRequests.UntimedWaitsForTheQueue`); an enroll request
  without them whose tab cannot be looked up is never answered (`EnrollRequests.NeverAnswered`).
- Sign requests of one origin are at work one at a time, except those whose token has timed out, as long as none in the
  middle of their queue ends (`SignQueue.OneAtATime`). The end of one that is not the first sets a second one to work exactly
  if some request behind it has a timer and an app id (`SignQueue.SecondBeginsIff`); and the next one is told at once that it
  has timed out exactly if it is at work already or had no timer (`SignQueue.NextIsTimedOut`, and a run of both in
  `SignQueue.ClosedTab`).
- A signer that is done starts a helper when a late app id check succeeds (`SignRequests.HelperLeftRunning`).
- An enroll request whose tab cannot be looked up reports a timeout, if its watchdog fires before the port closes, and
  nothing otherwise, but never the error it means to report (`EnrollRequests.TabErrorIsLost`).
- A device that enrolls for a challenge of the page is answered with a success exactly if the challenge names its version; a
  challenge without one is enrolled as U2F_V1 and answered with an error (`EnrollRequests.UnnamedVersionFails`).
- The cache of the single signer, keyed by key handle alone, is harmless exactly if the challenges agree on their
  handles (`SignOutcome.MeetsIffHandlesAgree`).
- Closing a single signer ends it exactly if it has its device already, or will never have one, or has nothing to sign;
  while the first open is under way it takes no notice, and signs when the device is there
  (`SignerStates.CloseIsFinal`).
- A closed signer calls a method of no device exactly when it learns, after asking for the version, that the device is busy
  or in step again (`SignerStates.ThrowsWhenClosed`, and a run in `SignerStates.ClosedThenThrows`).
- A failed open breaks off its notifications exactly if it meets a client without a callback
  (`SharedOpen.FailedOpenBreaksOff`). After that the device is never opened again, and whoever asks for it while it is
  enumerated waits for ever (`SharedOpen.NeverOpenedAgain`, and a run in `SharedOpen.NullComesFirst`). The only caller in the
  repository always passes a callback (u2f-chrome-extension/gnubby.js:108,123).
- A helper that fails before its `run` returns upsets the race, except in two cases (`HelperRace.EarlyFailure`).
- A second read loop starts exactly when a client registers while the loop of the earlier clients is still under way
  (`ClientList.SecondLoop`, and a run in `ClientList.TwoLoops`).

The code and its comments disagree in two places. `sendResponseOnce` is said to use a sentinel, but the flag is passed by
value and always false; one response is ensured by closing the watchdog first, and the model does just that. The comment
in `singlesigner.js` on an empty list of challenges is about a branch of `doSign` that nothing reaches, because only
`doSign` itself opens a device.

## Model

| member | source | states |
|---|---|---|
| `Framing.CidRoundTrip` | u2f-chrome-extension/hidgnubbydevice.js:337-342 | the four bytes that carry a channel id read back as the same signed 32-bit number, for negative ones too |
| `Framing.RoundTrip` | u2f-chrome-extension/hidgnubbydevice.js:298-329 | the reader reports OK with exactly the payload if and only if the command has bit 7 set, the payload has at most 7609 bytes and the message is not a one-byte ERROR |
| `Framing.ErrorMessage` | u2f-chrome-extension/gnubby.js:363-376 | a one-byte ERROR message ends a read of any command with the negated code |
| `Framing.NoLongMessages` | u2f-chrome-extension/gnubby.js:304-409 | no stream of 64-byte packets whatever makes the reader report more than 7609 bytes |
| `Framing.OtherChannelsVanish` | u2f-chrome-extension/gnubby.js:433-441 | however two packet sequences interleave, a client is left with exactly the one for its channel |
| `Framing.MessageReachesClient` | u2f-chrome-extension/gnubby.js:222-238 | the packets of one message survive any interleaving with packets for other nonzero channels |
| `Framing.Trace` | u2f-chrome-extension/gnubby.js:304-409 | a message reported from an arbitrary packet stream is the payload of an initialization packet for the command and of continuation packets numbered 0, 1, 2, ..., with none dropped between them, cut to the announced length |
| `Framing.FailureTrace` | u2f-chrome-extension/gnubby.js:304-409 | a read that fails on an arbitrary packet stream says why: the negated code of an error packet, or a continuation packet out of sequence |
| `Framing.FaultsEnd` | u2f-chrome-extension/gnubby.js:304-409 | an error packet, and a continuation packet with the wrong number, end a read at once; foreign commands and stray packets change nothing |
| `ChannelLock.UpdateLockKeepsInv` | u2f-chrome-extension/hidgnubbydevice.js:256-289 | the lock is held if and only if exactly its own timer is live, and a holder is only replaced by nobody |
| `ChannelLock.PacketRenewsLock` | u2f-chrome-extension/hidgnubbydevice.js:256-289 | another channel's packets change nothing; of the others only LOCK changes the holder, and for how long, to 1000 ms per second and 100 more; each packet of the holder gives the lock a new timer in place of the old one |
| `ChannelLock.TimerFrees` | u2f-chrome-extension/hidgnubbydevice.js:279-288 | the lock is freed by its own timer and by no other |
| `ChannelLock.BusyEndsRead` | u2f-chrome-extension/hidgnubbydevice.js:218-247 | the answer to a refused command is for its channel alone and ends any read there with BUSY |
| `ChannelLock.GoneEndsRead` | u2f-chrome-extension/hidgnubbydevice.js:51-59 | the last packet of a device is for every channel and ends any read with GONE |
| `ChannelLock.MessageLocksByItsCommand` | u2f-chrome-extension/hidgnubbydevice.js:256-329 | the continuation packets of a message leave the lock as its first packet did, exactly unless the message has more than 7845 bytes and its first byte says otherwise |
| `ChannelLock.HolderChangesThroughFree` | u2f-chrome-extension/hidgnubbydevice.js:256-289 | a whole message, of any length, leaves a held lock with its holder or free |
| `ChannelLock.LongMessageTakesLock` | u2f-chrome-extension/hidgnubbydevice.js:298-329 | every command other than LOCK with more than 7845 bytes, the first not zero, takes any free lock |
| `HidDriver.QueueMessageEffect` | u2f-chrome-extension/hidgnubbydevice.js:298-358 | a command puts its message into the queue in one piece, and starts a transfer of its first packet only if the queue was empty |
| `HidDriver.RunKeepsInv` | u2f-chrome-extension/hidgnubbydevice.js:364-407 | over all runs: exactly one transfer or scheduled pump while a working device has packets, none otherwise; no packet lost, repeated or reordered; messages contiguous; a lock timer live if and only if the lock is held |
| `HidDriver.WireIsPrefix` | u2f-chrome-extension/hidgnubbydevice.js:364-407 | what has reached the wire is a prefix of the accepted messages, and all of them once a working device is at rest |
| `HidDriver.LockSafety` | u2f-chrome-extension/hidgnubbydevice.js:218-289 | over all runs: while a channel holds the lock, only its own commands and SYNC and INIT are accepted, any other is answered BUSY, and the lock never passes to another channel directly |
| `HidDriver.LockDecides` | u2f-chrome-extension/hidgnubbydevice.js:218-329 | a working device takes every command while nobody or its own channel holds the lock, and SYNC and INIT always, queues exactly its packets and says nothing; any other command changes nothing and is answered BUSY; a dead device does nothing |
| `HidDriver.OwnPackets` | u2f-chrome-extension/hidgnubbydevice.js:42-108 | over all runs, the packets that the driver makes itself are one BUSY for each refused command, in order, and GONE once, at the end of the device |
| `HidDriver.TransferEnds` | u2f-chrome-extension/hidgnubbydevice.js:372-399 | a transfer that succeeds drops the packet the wire has and schedules the next; one that fails keeps the queue and schedules the destruction |
| `HidDriver.HidGnubbyDevice.SendCommand` | u2f-chrome-extension/hidgnubbydevice.js:298-329 | `queueCommand`: nothing on a dead device, BUSY under another's lock, else the whole message queued |
| `HidDriver.HidGnubbyDevice.Fragment` | u2f-chrome-extension/hidgnubbydevice.js:308-329 | the loop that fills 64-byte buffers byte by byte queues exactly the packets of the message |
| `HidDriver.HidGnubbyDevice.NewBuffer` | u2f-chrome-extension/hidgnubbydevice.js:304-327 | a fresh zero-filled buffer begins with the channel id and the given fields |
| `HidDriver.HidGnubbyDevice.SetCid` | u2f-chrome-extension/hidgnubbydevice.js:337-342 | writes the channel id into the first four bytes and nothing else |
| `HidDriver.HidGnubbyDevice.MayQueue` | u2f-chrome-extension/hidgnubbydevice.js:218-247 | `checkLock_`: refuses exactly what the lock forbids, and answers it with a BUSY packet |
| `HidDriver.HidGnubbyDevice.TouchLock` | u2f-chrome-extension/hidgnubbydevice.js:256-289 | `updateLock_`: the new holder, its time and the replacement of the timer |
| `HidDriver.HidGnubbyDevice.PushFrame` | u2f-chrome-extension/hidgnubbydevice.js:353-358 | `queueFrame_`: updates the lock, appends, and starts the pump on an empty queue |
| `HidDriver.HidGnubbyDevice.SendComplete` | u2f-chrome-extension/hidgnubbydevice.js:372-399 | the end of a transfer drops the packet that was sent, and schedules the next one or a destruction |
| `HidDriver.HidGnubbyDevice.Destroy` | u2f-chrome-extension/hidgnubbydevice.js:42-83 | publishes GONE once, clears the lock timer, and is idempotent |
| `UsbDriver.RunKeepsInv` | u2f-chrome-extension/usbgnubbydevice.js:140-278 | over all runs: at most one transfer or continuation, exactly one while a working device has requests; neither 'inTransferPending!' nor 'outTransferPending!' is thrown; requests reach the wire once each in order |
| `UsbDriver.LockSafety` | u2f-chrome-extension/usbgnubbydevice.js:287-390 | over all runs: under a lock only the holder's requests and SYNC and INIT are queued, and the lock never passes to another channel directly |
| `UsbDriver.LockDecides` | u2f-chrome-extension/usbgnubbydevice.js:287-390 | the same decision as for the other driver, with the whole command as one request |
| `UsbDriver.RequestIsRead` | u2f-chrome-extension/usbgnubbydevice.js:367-390 | a request is read back as its channel, command and payload exactly if the payload has at most 65535 bytes |
| `UsbDriver.RepliesArePublished` | u2f-chrome-extension/usbgnubbydevice.js:140-185 | over all runs, the clients are told each reply read from a working device and each refusal, in order, and GONE once, at the end |
| `UsbDriver.OneAfterTheOther` | u2f-chrome-extension/usbgnubbydevice.js:140-278 | a request that is out is followed by the read of its reply, unless the device is being updated, that by the next request, and any failure by a destruction |
| `UsbDriver.ThrowsIff` | u2f-chrome-extension/usbgnubbydevice.js:140-278 | in any state, the two throws are reached exactly if a transfer is to start while one of its kind is pending |
| `UsbDriver.UsbGnubbyDevice.SendCommand` | u2f-chrome-extension/usbgnubbydevice.js:367-390 | `queueCommand`: nothing on a dead device, BUSY under another's lock, else the lock updated and the request queued, and written if it is alone |
| `ClientList.EachGetsItsOwn` | u2f-chrome-extension/hidgnubbydevice.js:91-108 | however many open clients share a device, publishing any packets leaves each with exactly those of its channel and those for all, once each and in order |
| `ClientList.EachIsSupplied` | u2f-chrome-extension/hidgnubbydevice.js:91-209 | over all runs, whatever other clients register, close and leave, and whatever the driver publishes by itself: each open client has queued exactly the packets of its channel and those for all that were published since it registered, in order |
| `ClientList.ClosedLeave` | u2f-chrome-extension/hidgnubbydevice.js:91-108 | publishing drops exactly the closed clients and keeps the order of the others |
| `ClientList.StaysListed` | u2f-chrome-extension/hidgnubbydevice.js:91-157 | an open client stays in the list until it leaves, is closed, or the device is destroyed |
| `ClientList.ClientsAreServed` | u2f-chrome-extension/hidgnubbydevice.js:114-209 | over all runs: while a live device that is not updating has clients, a read, a scheduled loop or a scheduled destruction is under way |
| `ClientList.LoopGoesOn` | u2f-chrome-extension/hidgnubbydevice.js:160-209 | a read that is answered is followed by the loop, a read that fails by a destruction, and the loop reads as long as there are clients and no update |
| `ClientList.SecondLoop` | u2f-chrome-extension/hidgnubbydevice.js:114-209 | a step makes two read loops of one exactly if a client registers with an empty list while a loop is under way |
| `ClientList.TwoLoops` | u2f-chrome-extension/hidgnubbydevice.js:114-209 | a run from a fresh device that reaches two read loops |
| `ClientList.OneLoop` | u2f-chrome-extension/hidgnubbydevice.js:114-209 | over all runs without such a late registration there is at most one read loop |
| `ClientList.Clients.PublishFrame` | u2f-chrome-extension/hidgnubbydevice.js:91-108 | the loop over the clients has exactly that effect |
| `ClientList.Clients.RegisterClient` | u2f-chrome-extension/hidgnubbydevice.js:114-123 | a client that is in the list is not added again, and the first client starts the read loop |
| `GnubbyClient.ReadCallsBackOnce` | u2f-chrome-extension/gnubby.js:257-416 | for every packet stream, timer and close interleaving: the callback is called at most once; a message it gets is a reassembly of received packets; `readFrame_` finds an empty queue only after `close`; until the callback is due the timer runs and would end the read |
| `GnubbyClient.ReadReportsMessage` | u2f-chrome-extension/gnubby.js:257-416 | a message of at most 7609 bytes, interleaved with other channels and with the scheduling of the continuations in any way, is reported with OK once nothing is scheduled any more |
| `GnubbyClient.NothingScheduled` | u2f-chrome-extension/gnubby.js:207-238 | a read with nothing scheduled has used every frame that came, or has finished before |
| `GnubbyClient.Closing` | u2f-chrome-extension/gnubby.js:156-200 | closing is done at once on an idle client, and left to the end of the read with a command pending; a closed client has no queue, no registration and no device; a device that goes leaves its client closed with GONE queued; nothing opens it again |
| `GnubbyClient.ReadEnds` | u2f-chrome-extension/gnubby.js:274-302 | when a read ends, one reply is due, the command is pending no more, and a client that was to close is shut; a timeout ends it with TIMEOUT and a closed client |
| `GnubbyClient.ReadBegins` | u2f-chrome-extension/gnubby.js:257-416 | a read on an open client waits for its first frame with all queued frames before it; on a closed one it fails with GONE |
| `GnubbyClient.CloseMakesReadThrow` | u2f-chrome-extension/gnubby.js:156-174 | closing an open client under a waiting read makes the read throw if and only if a frame is queued for it |
| `GnubbyClient.ThrowsWithoutDevice` | u2f-chrome-extension/gnubby.js:244-249 | an event makes `readFrame_` throw if and only if it runs a scheduled continuation of a waiting read on a client whose device has been given up |
| `GnubbyClient.CloseThenThrow` | u2f-chrome-extension/gnubby.js:156-174 | a run from the start of a read that throws |
| `GnubbyClient.StepKeepsInv` | u2f-chrome-extension/gnubby.js:207-416 | every event keeps: one continuation or one registered callback per waiting read, progress equal to the reader's on the frames read, nothing queued lost except by `close` |
| `GnubbyReader.Gnubby.ReceivedFrame` | u2f-chrome-extension/gnubby.js:222-238 | queues frames for the channel and schedules the registered continuation once |
| `GnubbyReader.Gnubby.NotifyFrame` | u2f-chrome-extension/gnubby.js:207-214 | schedules the continuation if frames wait, else registers it |
| `GnubbyReader.Gnubby.Close` | u2f-chrome-extension/gnubby.js:156-174 | empties the queue and forgets the continuation, if the device is open |
| `GnubbyReader.Gnubby.StartRead` | u2f-chrome-extension/gnubby.js:257-416 | `read_`: GONE at once on a closed client, else a fresh read waiting for its first frame |
| `GnubbyReader.Gnubby.ScheduleCb` | u2f-chrome-extension/gnubby.js:274-287 | the callback is scheduled once, the timer cleared, a pending close carried out |
| `GnubbyReader.Gnubby.ReadTimeout` | u2f-chrome-extension/gnubby.js:289-302 | destroys the device and ends the read with TIMEOUT, unless it has ended |
| `GnubbyReader.Gnubby.RunInitFrame` | u2f-chrome-extension/gnubby.js:355-409 | `init_frame` does what the reader does with a first packet |
| `GnubbyReader.Gnubby.RunContFrame` | u2f-chrome-extension/gnubby.js:304-353 | `cont_frame` does what the reader does with a continuation packet |
| `GnubbyReader.Gnubby.CopyPayload` | u2f-chrome-extension/gnubby.js:341-352 | the copy loop stops at the end of the packet or of the message, and finishes or waits accordingly |
| `Exchanges.ExchangeCallsBackOnce` | u2f-chrome-extension/gnubby.js:466-484 | through all repetitions of a command to a busy device: every write is followed by one read; the callback is called at most once, with BUSY only after the wait was over, and with a message only if its last read reassembled it |
| `Exchanges.NextRead` | u2f-chrome-extension/gnubby.js:466-484 | a read that is started after a BUSY reply finds no continuation of the one before it, and every frame still queued |
| `Exchanges.ReplyEnds` | u2f-chrome-extension/gnubby.js:466-484 | a reply other than BUSY, or BUSY when the wait is over, is the result; after BUSY before that the command is written and read once more, or ends with GONE on a closed client |
| `Exchanges.EndsByReply` | u2f-chrome-extension/gnubby.js:466-484 | nothing but a delivered reply ends an exchange |
| `Exchanges.StepKeepsInv` | u2f-chrome-extension/gnubby.js:449-484 | every event keeps that, and a result once called back is final |
| `TestClient.MessageReceived` | u2f-tests/HID/u2f_util.cc:286-335 | for every message of every size and any interleaving with other channels: exactly the wanted part is returned if it has at most 7609 bytes, else INVALID_SEQ |
| `TestClient.RoundTripC` | u2f-tests/HID/u2f_util.cc:251-335 | with a large enough buffer, the payload sent by either implementation comes back whole if and only if it has at most 7609 bytes |
| `TestClient.RecvIgnoresOthers` | u2f-tests/HID/u2f_util.cc:297-323 | frames of other channels change nothing about what is received |
| `TestClient.RecvFails` | u2f-tests/HID/u2f_util.cc:297-323 | a reception that fails says why: an error frame of its channel, a frame out of sequence, or that no more frames came |
| `TestClient.SendersAgree` | u2f-tests/HID/u2f_util.cc:251-284 | for every size the test client sends the same packets as the extension, except for padding bytes: 0xEE in the one, 0 in the other |
| `TestClient.U2Fob.Send` | u2f-tests/HID/u2f_util.cc:251-284 | the do-while loop writes the packets of the message, or as many as the system accepts, and says which |
| `TestClient.U2Fob.Receive` | u2f-tests/HID/u2f_util.cc:286-335 | the two loops return what the specification says for any incoming reports, and leave the rest unread |
| `TestClient.U2Fob.InitFrame` | u2f-tests/HID/u2f_util.cc:259-266 | the first frame, with the channel id in network order |
| `Sha256Hasher.RotrPattern` | u2f-chrome-extension/sha256.js:62 | the rotation by signed shifts has the bit pattern of ROTR of FIPS 180-4 |
| `Sha256Hasher.SmallSigmaPatterns` | u2f-chrome-extension/sha256.js:74-78 | the message expansion's signed operators have the patterns of the small sigma functions |
| `Sha256Hasher.BigSigmaPatterns` | u2f-chrome-extension/sha256.js:89-93 | the round's signed operators have the patterns of the big sigma functions |
| `Sha256Hasher.ChoicePatterns` | u2f-chrome-extension/sha256.js:91-94 | the round's signed choice and majority have the patterns of Ch and Maj |
| `Sha256Hasher.RoundPatterns` | u2f-chrome-extension/sha256.js:89-105 | one round on unreduced numbers is congruent to a round of section 6.2.2 of FIPS 180-4, and its sums stay exact |
| `Sha256Hasher.SHA256.Compress` | u2f-chrome-extension/sha256.js:58-115 | after any number of blocks below the precision limit, the chaining values are congruent mod 2^32 to those of FIPS 180-4 and within an explicit bound |
| `Sha256Hasher.SHA256.Expand` | u2f-chrome-extension/sha256.js:64-78 | the two loops compute the message schedule of section 6.2.2 |
| `Sha256Hasher.SHA256.Update` | u2f-chrome-extension/sha256.js:120-131 | hashes the bytes at any fill level of the buffer; a length of 0 means all of them |
| `Sha256Hasher.SHA256.UpdateRange` | u2f-chrome-extension/sha256.js:138-147 | hashes exactly the range |
| `Sha256Hasher.SHA256.Digest` | u2f-chrome-extension/sha256.js:155-182 | the 32 bytes are the SHA-256 of all bytes since the last reset, followed by the arguments |
| `Sha256Hasher.HashOfCalls` | u2f-chrome-extension/sha256.js:120-182 | any mix of `update` and `updateRange` calls followed by `digest` equals one pass over the concatenation padded as in section 5.1.1 |
| `Sha256Hasher.HashOfString` | u2f-chrome-extension/webrequest.js:250-254 | `sha256HashOfString` is SHA-256 of the bytes of the string |
| `Sha256Hasher.LengthFieldExact` | u2f-chrome-extension/sha256.js:160-172 | the length field equals that of section 5.1.1 if and only if the message is shorter than 2^29 bytes |
| `Sha256Constants.KIsCubeRoot` | u2f-chrome-extension/sha256.js:21-38 | each of the 64 round constants is the first 32 bits of the fraction of the cube root of its prime |
| `Sha256Constants.HIsSquareRoot` | u2f-chrome-extension/sha256.js:47-50 | each of the eight initial words is the first 32 bits of the fraction of the square root of its prime |
| `Base64Spec.DecodeEncode` | u2f-chrome-extension/b64.js:8-90 | every byte sequence survives encoding and decoding |
| `Base64Spec.EncodeDecode` | u2f-chrome-extension/b64.js:8-90 | a string survives decoding and encoding if and only if it is canonical in the sense of section 3.5 of RFC 4648 |
| `KeyHandles.KeyHandleFound` | u2f-chrome-extension/signer.js:555-559 | in the table of challenges by key handle, the handle of a reply, decoded and encoded again by the helper, finds an entry with the handle that was signed if and only if that was written canonically, and then the last such challenge; else it finds another entry exactly if the canonical spelling is listed too |
| `Base64.AccumulatePattern` | u2f-chrome-extension/b64.js:17-18 | the 32-bit accumulator drops what overflows and keeps the low bits |
| `Base64.ExtractPattern` | u2f-chrome-extension/b64.js:21-29 | the signed shift and mask give the bits wanted even when the accumulator is negative |
| `Base64.OutChar` | u2f-chrome-extension/b64.js:10-11 | the output table is that of section 5 of RFC 4648 |
| `Base64.InMap` | u2f-chrome-extension/b64.js:64-72 | the input table is its inverse, and zero everywhere else |
| `Base64.B64Encode` | u2f-chrome-extension/b64.js:8-33 | the loops compute the unpadded encoding of RFC 4648, for every length argument |
| `Base64.B64Decode` | u2f-chrome-extension/b64.js:74-90 | the loop computes the decoding, and nothing at all for a character outside the alphabet |
| `Asn1.ParseIffEncodes` | u2f-chrome-extension/util.js:173-195 | the parser accepts exactly the byte strings of a SEQUENCE with short lengths that starts with two INTEGERs, and returns their contents |
| `Asn1.RoundTrip` | u2f-chrome-extension/util.js:173-230 | a printed signature is parsed back, with a zero byte before numbers whose top bit was set, if its body has at most 127 bytes, and rejected otherwise |
| `Asn1.PositiveKeepsValue` | u2f-chrome-extension/util.js:206-213 | the printed number, read as signed, is the unsigned number given; a byte is added exactly if it would be misread without |
| `Asn1.ValuesSurvive` | u2f-chrome-extension/util.js:173-230 | printing and parsing keep both numbers |
| `Asn1.JsonSignature.ToAsn1` | u2f-chrome-extension/util.js:202-230 | fills the buffer with the printed form and leaves the zero bytes in the caller's arrays |
| `QueueSchedule.RunKeepsInv` | u2f-chrome-extension/requestqueue.js:129-165 | over all runs: the waiting tokens are in order, and the head has been begun or has its start scheduled |
| `QueueSchedule.WaitingAreUncompleted` | u2f-chrome-extension/requestqueue.js:49-57 | after any calls on any tokens, repeated or not, the waiting tokens are exactly those queued and not completed |
| `QueueSchedule.OnlyWaitingBegin` | u2f-chrome-extension/requestqueue.js:129-165 | an event begins at most one token, never a completed one |
| `QueueSchedule.RunsInTurn` | u2f-chrome-extension/requestqueue.js:129-165 | if only tokens at the ends are completed: tokens begin in insertion order, at most once, and only the head is begun and not completed |
| `QueueSchedule.OutOfTurn` | u2f-chrome-extension/requestqueue.js:129-136 | a completion begins a token that is not the head if and only if the completed token was neither first nor last |
| `QueueSchedule.MiddleCompletion` | u2f-chrome-extension/requestqueue.js:129-136 | a run with two requests at work at once, and one of them begun twice |
| `LinkedQueue.RequestToken.Complete` | u2f-chrome-extension/requestqueue.js:49-57 | completing a token again does nothing; the first time it leaves the list and its successor begins |
| `LinkedQueue.RequestQueue.InsertToken` | u2f-chrome-extension/requestqueue.js:84-95 | the links, head and tail describe the old sequence with the token at its end |
| `LinkedQueue.RequestQueue.RemoveToken` | u2f-chrome-extension/requestqueue.js:102-122 | the links, head and tail describe the old sequence without the token, whose own links are null |
| `LinkedQueue.RequestQueue.CompleteToken` | u2f-chrome-extension/requestqueue.js:129-136 | the list loses the token, and the successor it had is begun |
| `LinkedQueue.RequestQueue.QueueRequest` | u2f-chrome-extension/requestqueue.js:150-165 | a fresh token at the end, whose start is scheduled if the queue was empty |
| `LinkedQueue.RequestQueue.RunScheduledStart` | u2f-chrome-extension/requestqueue.js:159-163 | begins the token unless it has been completed |
| `SignRequests.RespondsOnce` | u2f-chrome-extension/signer.js:29-61 | for every interleaving of queue, promises, helper, timers and port, and whichever timers were set: at most one response, a success naming a challenge of the page, none after the watchdog was closed, silence only if the port closed; the watchdog's timer is live, and answers, exactly while the request is open, if it was set at all and no success was lost; after a lost success there is no response |
| `SignRequests.EventAnswers` | u2f-chrome-extension/signer.js:412-563 | what each event tells the page of an open request: a helper's reply is passed on, a success under the key handle it was found by; every failed check is BAD_REQUEST; the watchdog, and a begin that comes too late, answer TIMEOUT; all else nothing |
| `SignRequests.ToldOnce` | u2f-chrome-extension/watchdog.js:70-97 | in every run the page has been told exactly what the event that closed the watchdog had to tell |
| `SignRequests.TimersFireOnce` | u2f-chrome-extension/requestqueue.js:153-155 | each timer fires once; that of the token completes the token and does nothing else; that of the request closes it |
| `SignRequests.SuccessIsSigned` | u2f-chrome-extension/signer.js:555-561 | in every run, a success that the page is told names a key handle and a signature that a helper reported |
| `SignRequests.SignatureReachesPage` | u2f-chrome-extension/signer.js:537-563 | in every run, the signature for a canonical key handle reaches the page under that key handle, if the signer is at work with a helper and the request is open |
| `SignRequests.SuccessLostIff` | u2f-chrome-extension/signer.js:555-561 | some run loses a success exactly if the page lists a key handle that is not canonical, without its canonical spelling, and the request has timers |
| `SignRequests.CanonicalPageIsAnswered` | u2f-chrome-extension/watchdog.js:70-97 | other pages are answered, or have a live timer that will answer them, in every run in which their port stays open |
| `SignRequests.UnansweredPage` | u2f-chrome-extension/signer.js:39-45 | a run in which the device signs and the page is never answered |
| `SignRequests.UntimedWaitsForTheQueue` | u2f-chrome-extension/signer.js:99-154 | a request without timers of its own is answered, with a timeout, exactly when the queue begins it |
| `SignRequests.StepKeepsInv` | u2f-chrome-extension/watchdog.js:49-97 | every event keeps: a response sent means the watchdog closed; a closed watchdog means request, token and signer finished; a signer done means the token completed and the watchdog closed or the success lost; a helper runs only with the table complete |
| `SignRequests.StepSends` | u2f-chrome-extension/webrequest.js:228-244 | one event sends at most one response, and only by closing the open watchdog; the timer goes out only by that or by losing the success, and nothing is sent after a loss |
| `SignRequests.HelperLeftRunning` | u2f-chrome-extension/signer.js:412-425 | a finished signer gets a running helper exactly by an app id check that succeeds after it is done |
| `SignRequests.LateCheckStartsHelper` | u2f-chrome-extension/signer.js:412-467 | a run in which that happens |
| `SignRequests.SecondBeginTimesOut` | u2f-chrome-extension/signer.js:245-264 | a request begun a second time is answered with a timeout |
| `SignRequestObjects.SignRequest.SendOnce` | u2f-chrome-extension/webrequest.js:228-244 | closes the watchdog, then responds |
| `SignRequestObjects.SignRequest.CloseWatchdog` | u2f-chrome-extension/watchdog.js:49-56 | ends everything without a response, though the request and the signer call back while they are closed |
| `SignRequestObjects.SignRequest.WrappedCallback` | u2f-chrome-extension/watchdog.js:90-97 | responds exactly if the watchdog is open and the callback does not throw; clears the timer even if it throws |
| `SignRequestObjects.SignRequest.WatchdogFires` | u2f-chrome-extension/watchdog.js:70-82 | responds with a timeout exactly if nobody has been called back and the watchdog is open |
| `SignRequestObjects.SignRequest.Close` | u2f-chrome-extension/signer.js:215-231 | `QueuedSignRequest.close`, although it is re-entered before it sets `closed_` |
| `SignRequestObjects.SignRequest.Begin` | u2f-chrome-extension/signer.js:245-264 | a timeout for an expired request, else a signer, which may fail at once |
| `SignRequestObjects.SignRequest.Notify` | u2f-chrome-extension/signer.js:508-529 | the first outcome of the signer completes the token and is passed on, later ones are dropped |
| `SignRequestObjects.SignRequest.CloseSigner` | u2f-chrome-extension/signer.js:492-501 | closes the helper and, unless an outcome is being reported, reports a timeout |
| `SignRequestObjects.SignRequest.StoreChallenges` | u2f-chrome-extension/signer.js:434-453 | the loop that adds every challenge to the table by its key handle, later ones replacing earlier ones |
| `SignRequestObjects.SignRequest.HelperSigns` | u2f-chrome-extension/signer.js:555-561 | a success answers with the challenge found in the table, and without one ends the signer and the token unanswered |
| `SignQueue.RunIsConsistent` | u2f-chrome-extension/requestqueue.js:129-165 | over all runs of many requests, with begins nested in completions: the queue's waiting tokens are those of the requests not completed, begun or not as the queue has it |
| `SignQueue.CompleteCommutes` | u2f-chrome-extension/requestqueue.js:129-136 | beginning the successors of a request, however many, neither depends on what that request has still to do nor changes it |
| `SignQueue.NeverStuck` | u2f-chrome-extension/requestqueue.js:129-165 | over all runs the first waiting request has its start scheduled, or is at work with its page still waiting |
| `SignQueue.EachRespondsOnce` | u2f-chrome-extension/signer.js:99-154 | over all runs each of the requests is answered at most once, never after its own end, whatever happens to the others, and stays silent only if its own port closed |
| `SignQueue.OneAtATime` | u2f-chrome-extension/requestqueue.js:129-165 | while no request in the middle of the queue ends, requests begin in order of arrival and only the first is at work, or one whose token has timed out |
| `SignQueue.CompletionEffect` | u2f-chrome-extension/requestqueue.js:129-136 | all that completing a token does, with everything nested in it: the requests behind it are begun up to the first that stays at work, those before that one leave the queue, and nobody else is touched |
| `SignQueue.SecondBeginsIff` | u2f-chrome-extension/requestqueue.js:129-136 | after every run in which no request in the middle has ended: the end of a request sets a second one to work if and only if it was not the first and one behind it has a timer and an app id |
| `SignQueue.NextIsTimedOut` | u2f-chrome-extension/signer.js:245-251 | in every run, when a request ends, the one behind it is answered with a timeout at once if and only if it was at work already or had no time |
| `SignQueue.ClosedTab` | u2f-chrome-extension/requestqueue.js:129-136 | a run in which closing the tab of a waiting request puts the next one to work beside the first, and the end of the first times it out |
| `EnrollRequests.RespondsOnce` | u2f-chrome-extension/enroller.js:21-88 | for every interleaving, whether the watchdog's timer was set or not: at most one response, none after the watchdog was closed, silence only if the port closed, a live timer exactly while the request is open and if it was set, and no helper outlives the enroller |
| `EnrollRequests.EventAnswers` | u2f-chrome-extension/enroller.js:291-395 | what each event tells the page of an open request, as for signing; a success is passed on exactly if the page names its version; an enroller that is done leaves only the watchdog to tell anything |
| `EnrollRequests.ToldOnce` | u2f-chrome-extension/watchdog.js:70-82 | in every run the page has been told exactly what the event that closed the watchdog had to tell |
| `EnrollRequests.SuccessIsEnrolled` | u2f-chrome-extension/enroller.js:31-43 | in every run, a success that the page is told is an enrollment that a helper reported, of a version that the page names |
| `EnrollRequests.UnnamedVersionFails` | u2f-chrome-extension/enroller.js:404-413 | a device that enrolls for a challenge of a valid request is answered with a success if and only if the challenge names its version |
| `EnrollRequests.RunKeepsInv` | u2f-chrome-extension/enroller.js:512-547 | over all runs; an enroller done without a response was closed by the port or by a failed tab lookup |
| `EnrollRequests.TabErrorIsLost` | u2f-chrome-extension/enroller.js:291-298 | after a failed tab lookup and any further events, the response is the timeout of the watchdog if it was set and fires before the port closes, and none otherwise |
| `EnrollRequests.NeverAnswered` | u2f-chrome-extension/countdowntimer.js:137-143 | with a watchdog timer that was never set, a request whose tab cannot be looked up is never answered |
| `SignOutcome.MeetsIffHandlesAgree` | u2f-chrome-extension/singlesigner.js:305-442 | signing succeeds exactly at the first challenge answered OK and enrolling exactly if all are refused, for every device, if and only if every challenge agrees with the first one of its key handle |
| `SignOutcome.OutcomeMeets` | u2f-chrome-extension/singlesigner.js:366-442 | the loop with its cache meets that search from every reachable point |
| `SignOutcome.MaskedOutcome` | u2f-chrome-extension/singlesigner.js:334-341 | a refused first challenge hides an acceptable later one with its key handle |
| `SignOutcome.CacheIsTransparent` | u2f-chrome-extension/singlesigner.js:334-341 | where equal key handles mean equal challenges, the cache does not change the result, not even its code |
| `SignerStates.StepKeepsInv` | u2f-chrome-extension/singlesigner.js:114-507 | every event keeps: at most one result; the outstanding replies and timers, which are counted, are at most one, and none after the result |
| `SignerStates.RunOutcome` | u2f-chrome-extension/singlesigner.js:224-507 | in every undisturbed run, whatever BUSY, touch and timeout retries it takes, the result is the outcome of the search, and the signer never stops without it |
| `SignerStates.DoSignProceeds` | u2f-chrome-extension/singlesigner.js:305-346 | in any state with a device: TIMEOUT if time is up; else the device is asked about the first challenge that is neither refused already nor for another version; if there is none, refusal is reported, which is a success for enrolling |
| `SignerStates.ReplyLeads` | u2f-chrome-extension/singlesigner.js:224-455 | in any state, disturbed or not, what each awaited reply and timer leads to: the result with its code, or what is awaited next |
| `SignerStates.SignSuccessIsEarned` | u2f-chrome-extension/singlesigner.js:374-442 | in every run, signing succeeds only with the challenge and the code of a signature that the device reported |
| `SignerStates.EnrollSuccessIsEarned` | u2f-chrome-extension/singlesigner.js:374-442 | in every run, enrolling succeeds only if each challenge has a key handle that the device refused, or that of a challenge for another version than the device reported |
| `SignerStates.CloseIsFinal` | u2f-chrome-extension/singlesigner.js:114-124 | after any run, a signer that is closed asks for no other signature in any continuation, if and only if it was not still to open its device or has no challenges |
| `SignerStates.Closes` | u2f-chrome-extension/singlesigner.js:114-133 | a signer that is closed gives up its device at once, or when the device has answered, and until then learns nothing any more |
| `SignerStates.EndedAsksNoMore` | u2f-chrome-extension/singlesigner.js:305-309 | a closed signer with no open under way asks for nothing in any run |
| `SignerStates.ThrowsWhenClosed` | u2f-chrome-extension/singlesigner.js:275-299 | exactly when a closed signer calls a method of no device |
| `SignerStates.ClosedThenThrows` | u2f-chrome-extension/singlesigner.js:275-299 | a run in which that happens |
| `SingleSigner.SingleGnubbySigner.DoSign` | u2f-chrome-extension/singlesigner.js:305-346 | `doSign_` with its synchronous recursion over cached and mismatched challenges |
| `SingleSigner.SingleGnubbySigner.Decide` | u2f-chrome-extension/singlesigner.js:374-442 | what each final code leads to, in both modes |
| `SingleSigner.SingleGnubbySigner.Handle` | u2f-chrome-extension/singlesigner.js:114-507 | every reply, timer and call has the effect of a step |
| `SharedOpen.EveryoneCalledOnce` | u2f-chrome-extension/gnubbies.js:274-356 | over all runs, with callbacks that ask again during the calls: everyone with a callback is called once or waits; at most one open is under way, none for a device that is open; nobody waits without one, unless the calls were broken off |
| `SharedOpen.AddAnswers` | u2f-chrome-extension/gnubbies.js:279-355 | a client of a device that is enumerated but not open waits and is told nothing; any other is told at once, before anything else: OK if the device is open and not closing, else NODEVICE |
| `SharedOpen.AnswersAfterChange` | u2f-chrome-extension/gnubbies.js:279-355 | what an enumeration, a closing and a removal mean for the next client |
| `SharedOpen.OpenTellsTruth` | u2f-chrome-extension/gnubbies.js:314-336 | after a successful open, all who wait, and all who ask meanwhile and are answered, are told OK up to the call in which somebody makes the device close, and NODEVICE after it |
| `SharedOpen.FirstIsToldFirst` | u2f-chrome-extension/gnubbies.js:331-336 | the first who waits is told first |
| `SharedOpen.FailureTellsWhy` | u2f-chrome-extension/gnubbies.js:290-298 | after a failed open, all who wait, and all whom these add, are told why it failed, first come first served, up to a client without a callback |
| `SharedOpen.OpenIsTold` | u2f-chrome-extension/gnubbies.js:331-336 | a run in which one client waits and is told that the device is open |
| `SharedOpen.StepKeepsInv` | u2f-chrome-extension/gnubbies.js:274-356 | every event keeps that |
| `SharedOpen.AddClientConserves` | u2f-chrome-extension/gnubbies.js:274-356 | one `addClient`, with all it causes, loses no client |
| `SharedOpen.DrainOpenedConserves` | u2f-chrome-extension/gnubbies.js:331-336 | the calls after a successful open leave nobody waiting |
| `SharedOpen.FailedOpenBreaksOff` | u2f-chrome-extension/gnubbies.js:290-298 | the calls after a failed open are broken off exactly if a client without a callback waits or is added on any level |
| `SharedOpen.NeverOpenedAgain` | u2f-chrome-extension/gnubbies.js:344-355 | after that, in every continuation, the device is never opened again, and all who wait or ask while it is enumerated wait for ever |
| `SharedOpen.NullComesFirst` | u2f-chrome-extension/gnubbies.js:290-298 | a run that leaves a client with a callback waiting so |
| `GnubbiesObject.Gnubbies.AddClient` | u2f-chrome-extension/gnubbies.js:274-356 | calls back at once, waits for the open under way, or starts it |
| `GnubbiesObject.Gnubbies.DrainPending` | u2f-chrome-extension/gnubbies.js:331-336 | the loop over a list that its callbacks extend |
| `GnubbiesObject.Gnubbies.NotifyOpenResult` | u2f-chrome-extension/gnubbies.js:290-298 | the loop that a null callback breaks off |
| `HelperRace.RaceIsFair` | u2f-chrome-extension/delegatinghelper.js:51-123 | for any asynchronous helpers replying in any order and repeatedly, and an owner who may close the race at any time: the counter is accepted minus failed until done, and the callback gets the first success in order of arrival or the last failure of all, once, if it comes before the close, and nothing after it |
| `HelperRace.AllCounted` | u2f-chrome-extension/delegatinghelper.js:51-72 | after `run` the counter is the number of accepted helpers |
| `HelperRace.EarlyFailure` | u2f-chrome-extension/delegatinghelper.js:64-67 | exactly when a failure before `run` returns does no harm |
| `HelperRace.LoneEarlyFailureIsLost` | u2f-chrome-extension/delegatinghelper.js:64-67 | a lone helper that fails too early is never reported, whatever follows |
| `HelperRace.DelegatingRequestHandler.Run` | u2f-chrome-extension/delegatinghelper.js:51-72 | the loop over the helpers, and whether any accepted |
| `Countdown.CountdownFires` | u2f-chrome-extension/countdowntimer.js:40-100 | a countdown of T that is not cleared calls back exactly once, at a time in [T, T+200) |
| `Countdown.ClearedNeverFires` | u2f-chrome-extension/countdowntimer.js:61-68 | a cleared timer is expired, never fires, and can be set again |
| `Countdown.ChainFires` | u2f-chrome-extension/countdowntimer.js:86-100 | the last of k clones, each taken before expiry, fires in [T, T+200(k+1)) after the first timer was set |
| `Countdown.CloneIsLater` | u2f-chrome-extension/countdowntimer.js:86-88 | a clone is due no earlier than its original and at most one interval later |

## Left out

- chrome.hid, chrome.usb, timers and message ports are events and parameters; their results are arbitrary.
- Logging, hex dumps and the redaction of logged requests have no state that matters.
- `Gnubby.sync` and opening a client (u2f-chrome-extension/gnubby.js:79-145,514-683) are not modelled.
- Exchanges.ExchangeCallsBackOnce: `exchange_` is modelled on values, as what continues when a read calls back, not as a method of the client's class.
- Enumeration and inactivity closing (u2f-chrome-extension/gnubbies.js:127-265), `MultipleGnubbySigner`, the USB sign and enroll handlers and the software token: many small branches with weaker properties.
- ECDSA, JSON, app id fetching, origin lists, request validation and the message formats of the helpers.
- u2f-tests/NFC and the device tests: I/O.
- Packets shorter than eight bytes, which neither driver produces. An ERROR packet with code 0 would be reported as rc 0 without data, and is here.
- GnubbyReader.Gnubby.CopyPayload: the message buffer is modelled by its filled part, not by an array of the announced length.
- ClientList.Clients.PublishFrame: clients are values in the list, not shared objects; a client of two devices is not modelled.
- HidDriver.HidGnubbyDevice.Destroy: the clients that it closes and removes are part of the list of clients, not of this state, and the entry in the registry is part of neither.
- GnubbyReader.Gnubby.StartRead: a client runs one read at a time; a second command given to it before the first is answered is not modelled.
- GnubbiesObject.Gnubbies.AddClient: the calls of `removeClient` for an absent or closing device are not modelled.
- Sha256Hasher.SHA256.Digest: takes at most 2^28 - 512 bytes, where all sums are exact doubles; what happens beyond that is not modelled, only the length field alone.
- Base64.B64Encode: the padded variant `base64_encode` is not modelled.
- Asn1.JsonSignature.ToAsn1: r and s are two arrays, not one array given twice.
- Sha256Constants.KIsCubeRoot: that the primes listed are the first 64 is not proved.
- SignRequests.SuccessLostIff: key handles are strings, and the signer's tables have only the entries put into them, not the properties that every JavaScript object inherits.
- SignQueue.EachRespondsOnce: the queue and the requests are put together on values; as objects they are modelled one by one (`LinkedQueue`, `SignRequestObjects`).
- SignRequests.RespondsOnce: requests that are refused before they are queued are not modelled; the browser's own failure to deliver a response is not seen by the code either.
- SignRequests.Begin: the two branches of `setChallenges` that need a used or expired signer are not modelled, as `begin` makes a new one with a timer that has time left.
- EnrollRequests.RespondsOnce: the flag `calledBack_` is not modelled, since the callbacks that set it are never used for enrolling.
- SignerStates.CloseIsFinal: opens have no canceller, as with the one factory of devices in the repository; the retried open is an event, and its misplaced arguments are not modelled.
- ClientList.EachGetsItsOwn: about open clients while nobody comes or goes; `ClientList.EachIsSupplied` is about the runs in which they do.
- SharedOpen.EveryoneCalledOnce: no driver implements the cancelling of an open, which is not modelled; one device; the maps of the registry keep devices apart. Which clients the open device has is not modelled.
- Countdown.CountdownFires: the system timer is ideal, and the numbers are reals.
- The queues of different origins (u2f-chrome-extension/requestqueue.js:171-195) are separate queues, kept apart by a key that joins app id and origin with a space.
