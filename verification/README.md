# Verification of the signaling hub and the TURN packet layers

A Dafny model of two parts of the server, with proofs of what they promise.

- **The signaling hub** (`signaling/`) pairs a device and a phone per session id and passes their
  frames on. Other goroutines can run between a locked region and the effects that follow it, so the
  model has two layers. `HubModel` is a state machine over values in which every locked region and
  every effect after an unlock is a step of its own, as are a timer firing, its goroutine's three
  stages, and each turn of a peer's writer. `HubTheorems`, `HubCouples`, `HubClosing`,
  `HubForwards` and `HubTimers` hold the properties of every run of that machine, for any
  interleaving, and `HubOutcomes` says what an operation comes to, without the step functions. `Hub` and
  `Connection` are the classes, with the source's maps, queues, slots, timers and loops. Each `Hub`
  object carries a ghost `model`; `Valid()` says that the fields agree with it and that some run of
  the state machine leads to it, and each operation is proved to move the model by exactly the steps
  it stands for, so the properties of every run hold of the objects too.
- **The TURN packet layers** (`turn/`) are the STUN attribute walk, the address decoder, the in-place
  MESSAGE-INTEGRITY rewriter, and the logger, filter and rewriter stacked on the UDP socket. Bytes and
  16-bit fields are modelled with their widths. The walk is held against an encoder, the decoder
  against the encoding of section 15.2 of RFC 5389, and the rewriter against the check of
  section 15.4 of RFC 5389, with MD5 and HMAC-SHA1 as arbitrary functions.

A peer is identified by its place in the order of joins, which stands for its pointer. Histories
(what was offered to a queue and why, what was accepted, written, forwarded, paired, and how peers
gave up their slots) are part of the model state. `strings.ToLower` may
be any function, and tokens may be any strings.

## Findings

- The header length that the rewriter signs is converted to `uint16`. It is never cut for a UDP datagram,
  nor for any message under 65556 octets, nor where the attribute has room for a MAC: it is the true
  length exactly when the MESSAGE-INTEGRITY starts before offset 65532 (`Rewalk.LengthIsTrueIff`). Only a
  longer byte slice, which no datagram can fill, has it cut (`Rewalk.LengthCanBeCut`).
- The rewriter checks for room in the message and not in the attribute, so on a MESSAGE-INTEGRITY
  shorter than 17 octets it can overwrite the attribute that follows. `Rewalk.Roomy` is the exact
  condition under which the attributes survive, whatever the MAC (`Rewalk.RewriteKeepsAttributes`,
  `Rewalk.CrampedRewriteBreaksAttributes`). `Rewalk.CrampedMessage` is a message of 64 octets that
  does not meet it.
- Where the code and its comments disagree, the model follows the code. `forgeIntegrity` is said to
  report whether it changed the buffer (turn/anyauth.go:48-49), but it also reports true when the MAC
  was right already. The flush is said to run with the connection context already cancelled
  (signaling/conn.go:214-216), but a close request does not cancel it. Past the cap every request is
  said to be treated as a first one (turn/stunlog.go:10-13), but a source that is already in the table
  keeps its count.

## Model

| member | source | states |
|---|---|---|
| `HubTheorems.RegistryAgrees` | signaling/hub.go:83-99 | in every state of every run: no stored session is empty, `readySent` holds exactly when both slots are filled, each slot holds a peer of its role and of the session's key, which is the lowercased id, and the gauge is the session count plus, inside `Close`'s gap, what it will correct |
| `HubTheorems.PeersAreConserved` | signaling/hub.go:183-287 | joins = peers seated + replaced + left + expired + cleared, in every state of every run |
| `HubTheorems.Quiescence` | signaling/hub.go:233-252 | once every peer's leave has taken the lock, in any order and mixed with replacements, expiries and stale timers, no session is left and the gauge shows nothing but what `Close` has yet to correct, which is zero outside its gap |
| `HubTheorems.CloseFindsNothing` | signaling/hub.go:83-99 | when every peer was served by a connection, `Close` finds no session and corrects the gauge by nothing |
| `HubTheorems.LateLeaveIsInert` | signaling/hub.go:230-239 | a peer that lost its slot at any earlier point of the run changes no queue, session, count or act of anyone when it leaves |
| `HubTheorems.JoinReplaces` | signaling/hub.go:183-203 | a join seats its peer, unseats exactly the holder of that slot of that session and nobody else, and adds no bye to any stream |
| `HubTheorems.JoinIsForItsSession` | signaling/hub.go:154-203 | a join has a session and one of the two roles, and brings one peer, with the name, the lowercased key and the role of the message, to the session of that key; a session that was there keeps its name, its token and the holder of the other slot, and takes over an IMEI that the message gives; a new one has the token made for it; every other session stays |
| `HubOutcomes.TogetherIsCounterpart` | signaling/hub.go:121-141 | the opposite slot of a seated peer holds exactly the one other peer that is seated in the same session, which has the other role |
| `HubClosing.NobodyIsForgotten` | signaling/hub.go:183-295 | in every state of every run each peer holds its slot, or gave it up itself, or has been asked to close, or is still owed that by the join that replaced it or the expiry that evicted it; only `Close` forgets peers, and only such as no connection served |
| `HubClosing.DisplacedIsClosed` | signaling/hub.go:205-207 | whoever a join replaced or an expiry evicted is asked to close in every later state, unless the goroutine that displaced it has yet to go on; the reason it then gives, "replaced by a new device", "replaced by a new phone" or "no receiver", stays, unless one was given before |
| `HubClosing.AskedStays` | signaling/hub.go:117-119 | a close request stays, with the reason first given |
| `HubTheorems.StaleTimerIsInert` | signaling/hub.go:276-282 | the timer of a device that lost its slot at any earlier point changes nothing whenever it fires |
| `HubTheorems.ExpiryEvictsOnlyItsDevice` | signaling/hub.go:276-289 | an expiry has an effect exactly when its device still holds its slot and nobody else sits in its session; it then deletes exactly that session, and touches no other peer and no queue under the lock |
| `HubTheorems.LonelyIsCurrent` | signaling/hub.go:145-199 | a session's timer belongs to its current device, the session has no phone, and the timer is armed or has fired and not yet run |
| `HubTimers.OnlyLoneDevicesAreTimed` | signaling/hub.go:191-199 | without a timeout no peer ever has a timer, and no phone has one; the timer of a device that sits with a phone is never pending |
| `HubTimers.LeaverIsUntimed` | signaling/hub.go:240-242 | a device that leaves its slot has no pending timer |
| `HubCouples.LoneDeviceIsTimed` | signaling/hub.go:191-199 | with a timeout set, a seated device that has faced no phone in any state so far has its own timer, armed or fired and pending |
| `HubTheorems.StreamsOpenInOrder` | signaling/hub.go:189-197 | each peer's stream opens with an accepted `joined`, the only one, and no forwarded frame or counterpart's bye is offered before the ready of that very pairing |
| `HubCouples.CouplesAreRecorded` | signaling/hub.go:183-197 | in every state the device and the phone of a full session are on record as a pairing, under the token of that session |
| `HubCouples.PairingsSatTogether` | signaling/hub.go:183-197 | every pairing on record sat together in some state so far, in a session with its token |
| `HubCouples.CoupleGetsReady` | signaling/hub.go:193-197 | whenever a device and a phone sit in one session, the device has been offered one ready frame for that couple with initiator false and the phone one with initiator true, and neither ever gets a second one; each frame names the STUN server of the settings and, if they name a TURN server, that one with the session's token as user and password, and none otherwise |
| `HubCouples.ReadyMeansCouple` | signaling/hub.go:193-197 | a ready frame is offered only to a peer that sat in a full session; its initiator flag is true exactly for the phone, and its STUN and TURN fields are those of the settings and of the token of that session |
| `HubCouples.ReadyPerPartner` | signaling/hub.go:183-197 | a peer has been offered exactly as many ready frames as there are peers it has faced across a session |
| `HubTheorems.ReadyPerPairing` | signaling/hub.go:191-197 | the ready frames offered to a peer are exactly those of its pairings on record, in order, and nothing else is a ready |
| `HubTheorems.PairingsDiffer` | signaling/hub.go:183-197 | no two pairings on record are of the same two peers |
| `HubTheorems.ReadyOncePerSide` | signaling/hub.go:194-196 | each pairing on record has given its device one ready with initiator false and its phone one with initiator true, once each, with the servers of the settings and the token on record |
| `HubTheorems.ForwardingIsFifo` | signaling/hub.go:258-274 | what one peer's forwards and leave placed in another's stream is, frame for frame, in order and once each, the acts whose locked lookup found that peer, but for one still pending |
| `HubForwards.ActsAreForwards` | signaling/hub.go:230-274 | the acts of a peer are the bytes of its forward steps, unchanged and in order, and then at most one bye, after which it is unseated and gone |
| `HubForwards.WireFollowsForwards` | signaling/hub.go:258-274 | the frames on a peer's wire that came from another are frames that the other asked to forward, byte for byte, in the order in which it asked and none twice, and at most its bye at the end |
| `HubForwards.WireHasSender` | signaling/hub.go:258-274 | every client frame on a wire came from a peer of the same session and the opposite role |
| `HubTheorems.ForwardAddresses` | signaling/hub.go:258-266 | a forward records the client's bytes unchanged, addressed to the other peer that sits in the sender's session at the lookup, of the other role, or to nobody if there is none, and changes nothing else |
| `HubTheorems.LeaveAddresses` | signaling/hub.go:233-252 | a leave from the slot records one bye, addressed to the other peer that sits in the session, or to nobody if there is none, and leaves every queue alone |
| `HubTheorems.JoinIsAnnounced` | signaling/hub.go:219-228 | a join offers one `remote_joined` with the client's spelling of the session to every seated peer but the joiner, and none to the joiner or to the peer it replaced |
| `HubTheorems.NoSilentLoss` | signaling/hub.go:108-119 | a queue never outgrows its buffer; written, lost and queued frames are the accepted ones in order, and all offered ones while no close was requested; a drop implies a close request; a close request never meets a full channel |
| `HubTheorems.WriterMoves` | signaling/conn.go:187-235 | a write takes the first frame of the queue to the end of the wire; a failed one loses it and ends the writer; a close request starts the flush under the reason that was asked; the close frame goes out with the queue empty; nothing else changes |
| `HubTheorems.FlushBeforeClose` | signaling/conn.go:219-236 | when the close frame is out, every frame accepted before the close request is on the wire at its place in the accepted order |
| `HubTheorems.LoneDeviceHearsBye` | signaling/hub.go:293-294 | a device closed for want of a receiver has its bye on the wire before the close frame |
| `HubRuns.RunInv` | signaling/hub.go:154-295 | the linked invariant of registry, streams, queues, counts and timers holds in every state of every run |
| `HubRuns.RunExtends` | signaling/hub.go:154-295 | any enabled step can follow any run: no reference it follows is stale |
| `HubRuns.NeverReturns` | signaling/hub.go:230-241 | a peer that has lost its slot never gets one again |
| `HubRuns.OffersStay` | signaling/hub.go:108-115 | what was offered to a queue stays in its history at its place |
| `HubRuns.JoinSeats` | signaling/hub.go:183-184 | after a join exactly the joiner and those seated before, but for the replaced peer, are seated |
| `HubSteps.NextKeepsInv` | signaling/hub.go:154-295 | every single step keeps the invariant and only adds to the streams |
| `HubModel.AnnounceToMore` | signaling/hub.go:221-226 | visiting one more session, whichever sessions were visited before, is one send to each of its slots but the joiner's |
| `HubModel.AnnounceToAll` | signaling/hub.go:219-228 | having visited every session amounts to one send to every seated peer but the joiner |
| `HubModel.CalmToMore` | signaling/hub.go:93-95 | stopping the timer of one more session, whichever were stopped before, adds that session to the stopped ones |
| `PeerModel.SendKeepsOutbox` | signaling/hub.go:108-119 | a send, accepted or dropped, keeps the balance of written, lost and queued against accepted frames, and the order of close request and drops |
| `PeerModel.SendOffers` | signaling/hub.go:108-119 | a queue with room takes the frame at its end; a full one stays as it is and costs the peer its connection, with "send buffer full" as the reason unless one was given before |
| `PeerModel.FlushEndKeepsOutbox` | signaling/conn.go:231-233 | the close frame goes out only when all that was accepted before the request has been written |
| `Hub.Hub.Join` | signaling/hub.go:154-211 | rejects an empty session and an unknown role, each with its own error and without a change, and nothing else; otherwise the object moves by the locked join step and then by the close of the replaced peer: the new peer is the one the message asks for, in the session it names, and whoever held the slot has lost it and been asked to close |
| `Hub.Hub.JoinLocked` | signaling/hub.go:172-203 | the locked region of join is one join step of the state machine, and its peer and the replaced one are those of that step |
| `Hub.Hub.AnnounceJoin` | signaling/hub.go:219-228 | the loop over the map sends as the announcement of the state machine does, whatever order it visits the sessions in |
| `Hub.Hub.SendReady` | signaling/hub.go:193-197 | marks the session and sends the two ready frames, device first |
| `Hub.Hub.StopLonely` | signaling/hub.go:145-150 | stops a pending timer and forgets it; a fired one is only forgotten |
| `Hub.Hub.Leave` | signaling/hub.go:233-254 | the object moves by the locked leave step and, if there is a counterpart, by the send of its bye: exactly the peer that sat in the same session is offered a bye; the leaver is then unseated and gone |
| `Hub.Hub.Forward` | signaling/hub.go:258-274 | the object moves by the locked lookup and, if it found a counterpart, by the send: exactly the peer that sits in the same session is offered these bytes, and the acts of the sender grow by them |
| `Hub.Hub.ExpireLonely` | signaling/hub.go:276-295 | the object moves by the locked expiry step and, if it evicted the device, by its bye and then its close: a device that is alone loses its session, is offered a bye and asked to close for want of a receiver, and nobody else is touched; for any other device nothing changes |
| `Hub.Hub.Close` | signaling/hub.go:83-100 | empties the registry, stops the timer of every session that was left, brings the gauge to zero, and leaves every queue alone |
| `Hub.Hub.HandleFrame` | signaling/conn.go:158-175 | exactly a frame of type offer, answer or candidate is offered, unchanged, to the peer that sits with the sender; a bye is reported, and anything else changes nothing |
| `Hub.Hub.ReadLoop` | signaling/conn.go:143-156 | forwards exactly the text offers, answers and candidates before the first bye or read error, in order, byte for byte, and tells whether it was a bye that ended it |
| `Hub.PassedAre` | signaling/conn.go:143-175 | what is passed on are the bytes of all text frames of type offer, answer and candidate before the first text bye or read error, in order; the result tells whether that was a bye |
| `Hub.Hub.HandleConn` | signaling/conn.go:38-86 | joins exactly when the first frame has type join, decodes, and names a session and one of the two roles; the peer that joins is the one that the decoded message asks for, in the session it names, with the token that was made if that session is new; its acts are then the frames that the client sent to be passed on, in order and unchanged, and one bye; the leave is counted once, and the peer is unseated |
| `Connection.Conn.RequestClose` | signaling/conn.go:116-121 | puts the reason in an empty closing channel and drops it otherwise |
| `Connection.Peer.Send` | signaling/hub.go:108-115 | puts the frame at the end of the queue if there is room, and otherwise drops it, records the drop and requests the close with "send buffer full" |
| `Connection.Peer.Close` | signaling/hub.go:117-119 | only the first close reaches the connection |
| `Connection.Peer.FlushAndClose` | signaling/conn.go:219-236 | whatever others send meanwhile, without a failed write the frames queued at the start reach the socket in order, and once the loop has had more turns than frames were queued and pushed it has sent the close frame under its reason, with the queue empty |
| `Connection.Peer.WriteLoop` | signaling/conn.go:179-210 | under any schedule of its turns and of other goroutines, a loop that ends with a close frame has written every frame accepted before the close request, at its place in the accepted order; k turns that go well take the first k queued frames to the socket in order, or all there are; a turn that takes a close request that was pending ends in the close frame with its reason; and the end of the context or an unanswered ping ends the loop without one |
| `Connection.SmoothTurns` | signaling/conn.go:187-197 | turns that go well carry the queue to the socket, frame by frame and in order, whatever others push or ask meanwhile |
| `Connection.FlushTurns` | signaling/conn.go:219-236 | in a flush without a failed write each turn takes one frame to the socket or, with none left, ends with the close frame |
| `WriterSteps.TurnIsStep` | signaling/conn.go:187-235 | each turn of a started write loop is an enabled step of the state machine with that effect, or leaves the channels alone |
| `Protocol.RoleName` | signaling/protocol.go:20-21 | a role is read back from its name |
| `Stun.BindingRequestOctets` | turn/stun.go:32-45 | a packet is a binding request exactly when it has a whole header, type 0x0001 and the magic cookie |
| `Stun.BindingResponseOctets` | turn/stun.go:47-55 | a packet answers a binding request exactly when it has a whole header, the magic cookie and type 0x0101 or 0x0111, and is a success exactly for 0x0101 |
| `Stun.MessageTypeOfPrefix` | turn/stun.go:32-40 | what a packet is depends on its header only |
| `Stun.ForEachAttribute` | turn/stun.go:83-109 | on every byte string the loop ends, stays in bounds, and leaves in the callback's variables what a fold over the walk's attributes leaves, with the callback's early stop |
| `Stun.WalkIsTheWalk` | turn/stun.go:83-109 | the walk is the one list of adjacent, in-bounds attributes of the message that starts after the header and ends only where no attribute fits: a list is the walk if and only if it is such a list |
| `Stun.AttributesAreDisjoint` | turn/stun.go:92-107 | attributes start at multiples of four, strictly increasing, each ends before the next one starts, and the next one starts less than four octets later |
| `Stun.TruncationYieldsPrefix` | turn/stun.go:87-97 | a message cut short yields exactly the attributes that still fit, as a prefix of all |
| `Stun.WalkInvertsEncode` | turn/stun.go:83-109 | the walk gives back any list of attributes, each padded to a multiple of four by at most three octets, with a body of at most 65535 octets, whatever the padding holds and whatever follows the message |
| `Addresses.DecodeAddress` | turn/stun.go:111-141 | the loop over the mask computes the decoded address or none, for every value and message |
| `Addresses.DecodedBits` | turn/stun.go:111-137 | an address comes out exactly of values with family 1 and at least 8 octets or family 2 and at least 20; unmasked its octets are those of the value, and masked each bit differs exactly where the cookie 0x2112A442, or from the fifth octet on the transaction id, has a bit set, and the port where 0x2112 has |
| `Addresses.DecodeInvertsEncode` | turn/stun.go:125-137 | an address is decoded from exactly the values that carry its encoding, masked or not, for IPv4 and IPv6, every port and every transaction id |
| `Addresses.MappedAddress` | turn/stun.go:65-77 | the first attribute in order that decodes gives the address; none is given if and only if none decodes |
| `Addresses.ResponseCarriesAddress` | turn/stunlog_test.go:11-36 | end to end: a response built by the encoder gives back the address encoded in its first decodable attribute |
| `Octets.XorInvolution` | turn/stun.go:129-137 | masking twice with one mask gives the number back |
| `Octets.XorBit` | turn/stun.go:129-137 | the mask works bit by bit |
| `AnyAuth.NoteKeepsLast` | turn/anyauth.go:60-68 | the callback is left with the last user name and the last MESSAGE-INTEGRITY |
| `AnyAuth.ForgeIntegrity` | turn/anyauth.go:54-91 | in place: writes the MAC of the text up to the chosen attribute, under the key of its user name, exactly when there is a non-empty last user name, a MESSAGE-INTEGRITY and room in the message; restores the header; leaves the buffer beyond the message alone |
| `AnyAuth.ForgedFrame` | turn/anyauth.go:69-90 | no octet but the twenty of the MAC can change, in any message |
| `Forgery.ForgedMessageVerifies` | turn/anyauth.go:76-90 | a message with a user name and one 20-octet MESSAGE-INTEGRITY comes out with the same header and attributes except for that value, and passes the check of section 15.4 of RFC 5389 under the MD5 of user name, realm and user name joined by colons, which is the key that `AllowAllAuth` yields |
| `Forgery.ForgeableIff` | turn/anyauth.go:54-74 | of all encoded messages exactly those are rewritten whose last user name is not empty and whose last MESSAGE-INTEGRITY, of whatever length, has twenty octets of packet after its header; and the MAC goes there |
| `Forgery.ForgedIsAdmissible` | turn/anyauth.go:47-91 | of any packet at all: a message with a user name and one 20-octet MESSAGE-INTEGRITY comes out signed so that it passes the check, a packet that lacks the one or the other comes out as it was, and no octet outside a MAC ever changes |
| `Forgery.ForgedUnchangedIffVerifies` | turn/anyauth.go:54-91 | such a message is left as it is if and only if it passed that check already |
| `Forgery.MacIsWanted` | turn/anyauth.go:80-86 | the MAC is computed over the text the check asks for, for every key, realm and header |
| `Rewalk.RewriteKeepsAttributes` | turn/anyauth.go:69-90 | in a roomy message, walking the result gives the same types, offsets and lengths and the same values, but for the MESSAGE-INTEGRITY, which holds the MAC |
| `Rewalk.RewriteIsIdempotent` | turn/anyauth.go:54-91 | a second rewrite of a roomy message changes nothing |
| `Rewalk.CrampedRewriteBreaksAttributes` | turn/anyauth.go:72-74 | in a message that is not roomy, for some MAC function the attributes of the result differ, so the condition is exact |
| `Rewalk.CrampedMessage` | turn/anyauth.go:72-74 | a well-formed message of 64 octets that is rewritten and not roomy |
| `Rewalk.ProperLengthIsRoomy` | turn/anyauth.go:72-89 | a MESSAGE-INTEGRITY of 17 octets or more, so in particular one of 20, is roomy |
| `Rewalk.LengthIsTrueIff` | turn/anyauth.go:84-85 | the 16-bit length is the true one exactly when the attribute starts before offset 65532, and it does in messages under 65556 octets and for attributes of 20 octets or more |
| `Rewalk.LengthCanBeCut` | turn/anyauth.go:84-85 | a byte slice of 65556 octets, longer than any datagram, whose signed length is cut to zero |
| `PacketLayers.Socket.ReadFrom` | turn/stunlog.go:41-45 | gives the next datagram as far as it fits the buffer |
| `PacketLayers.StunFilterConn.ReadFrom` | turn/stunfilter.go:30-44 | returns the next event that is not a binding request, adds the requests before it to the counter, and reads no further |
| `PacketLayers.FilterIsExact` | turn/stunfilter.go:36-39 | the filter drops binding requests and nothing else, and delivered and dropped events make up the stream |
| `PacketLayers.FilterCommutesWithForging` | turn/turn.go:117-133 | on any stream, filtering and rewriting give the same result in either order, the logger counts the same requests, and every packet comes out of the rewriter signed, or as it was, as `Forgery.Admissible` says |
| `PacketLayers.AnyCredentialConn.ReadFrom` | turn/anyauth.go:36-45 | gives the caller the filter's next event; a message with a user name and one 20-octet MESSAGE-INTEGRITY comes out signed under its user name's key, a packet without the one or the other as it was, and no octet outside a MAC has changed |
| `PacketLayers.AnyCredentialConn.ReadHistory` | turn/turn.go:107-133 | over any number of reads through all three layers: the caller got the packets that are not binding requests, in order, each signed or as it was in that sense; the rest were counted as dropped; and the attempt table and the untracked calls add up to the dropped requests |
| `PacketLayers.StunLogConn.Count` | turn/stunlog.go:78-88 | adds one to the key's entry unless the table is full of other keys, and returns the entry, or 1 |
| `PacketLayers.StunLogConn.ReadFrom` | turn/stunlog.go:41-55 | passes each event on unchanged, and for a binding request counts its source and logs the attempt, at info exactly for attempt 1 |
| `PacketLayers.StunLogConn.WriteTo` | turn/stunlog.go:57-75 | passes each packet on unchanged, and for a binding response logs the failure, the error, or the success with the first address it carries and the source's attempts |
| `Attempts.TallyIsExact` | turn/stunlog.go:78-88 | after any calls the table holds as many sources as were seen, up to 1024, each with its exact number of calls, and all of them while they are at most 1024 |
| `Attempts.TrackedIff` | turn/stunlog.go:81-86 | a source is in the table exactly when fewer than 1024 other sources had been seen at one of its calls |
| `Attempts.AttemptIsExact` | turn/stunlog.go:77-88 | a call returns the source's number of calls if it is tracked and 1 if not, and the first call for a source returns 1 |
| `Attempts.CallsAreConserved` | turn/stunlog.go:78-88 | all calls are the sum of the table's values and the untracked calls |

## Left out

- WebSocket, HTTP, UDP and TCP input and output: a write succeeds or fails by the schedule, a read gives what the environment chose.
- Real time: a timer may fire at any step after it is armed; pings and deadlines appear only as turns that go well or end the writer.
- The close frame that `handleConn` sends itself after both loops, and the bound on the length of a close reason.
- JSON: frames are values, a client's frame is its bytes, and its type is a parameter.
- Token generation: a token is a parameter of the join; that tokens differ between sessions is not modelled.
- Metrics other than the active-session gauge, and all logging of the signaling side.
- Joins and connections that start after `Hub.Close` has begun, and a second call of `Close`, which the source makes a no-op.
- Mutual exclusion itself: a locked region is one step. The methods of `Hub` run their locked region and the effects after it without interruption; what may happen in between is covered by the state machine, whose steps they are.
- The gap inside `peer.send` between finding the queue full and requesting the close: a drop and its close request are one step. Likewise the several sends of one locked region are one step with it, so writer turns and pending sends of other goroutines, which do not take the mutex, come before or after all of them.
- Termination of the hub and of its connections: the properties are of every reachable state, not of progress.
- Overflow of the 64-bit counters.
- The formatting of addresses as text: addresses are octets and a port, and packet sources are strings.
- FINGERPRINT, which the rewriter does not recompute.
- The TURN server behind the packet layers: allocations, permissions and nonces.
- The stack of packet layers with a layer switched off: the classes model the stack of turn/turn.go:107-133 with all three layers on. Rewriting without the filter, or filtering without the logger, is covered by the stream functions only.
- `PacketLayers.Socket.ReadFrom`: a socket that has nothing left to give fails, where the real one would block.
- The default that `New` puts for a non-positive send buffer, and `sessionCount`, which only reads the size of the registry.
- The HTTP server, flags, health check, relay port range and TURN event log.
