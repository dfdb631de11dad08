# Codex Nomad: the encrypted session protocol and its helpers

Codex Nomad lets a phone drive an agent that runs on a desktop machine. A daemon on the
machine and an app on the phone exchange end-to-end encrypted frames through a relay that
sees only headers. This project models that system in Dafny and proves what it is built to
keep.

The primary model is a step system with three parties.

* The **daemon** numbers and seals events, holds them in a bounded buffer until a phone has
  paired, drops on a full outbound queue, refuses replays, and executes commands only for a
  device its registry authorizes (`Sender`, `Registry`, `Daemon`); `Answers` says what each
  hello, command and local event is answered with.
* The **phone** numbers its frames with a counter that is stored before each frame is sent. Its
  `sendCommand` calls may overlap each other, connects and closes; it may crash between any two
  awaits; and it opens inbound frames in any interleaving (`Phone`, `Numbering`,
  `NumberingLimits`). `PhoneRuns` follows a command to the daemon and its answers back.
* The **hub** of the relay binds each connection to one session and forwards frames to the
  session's other connections; every lock acquisition and every single channel send is a
  separate step (`Hub`). `HubTurns` says what a whole turn of a read loop adds to each queue.

`Network` joins daemon and phone over a network that may drop, duplicate, delay, reorder and
rewrite frames but never returns a box to its maker. `Relayed` puts the hub in between, with
strangers that may join sessions and pass on what they are given, and shows that the hub is such
a network while sessions are private; `Echo` shows that this condition is exact. `Conservation` follows every sealed frame
through the four queues on its way to one phone.

Cryptography is ideal: a shared key is the unordered pair of the two public keys, so it agrees
in both directions (section 6.1 of RFC 7748); a sealed box is a term that decrypts exactly under
its key and nonce.

The other modules are complete models of single components: path confinement and the file
commands (`Text`, `Paths`, `Files`), the git status parser (`Status`), unpadded base64 in both
languages (`Base64`), relay tickets (`Ticket`), the chat history (`History`), the port list
(`Ports`), automatic reconnection (`Reconnect`, and `ReconnectRuns` for what the events alone say
about it), the rate limiter (`Limits`) and newline
normalization (`Newlines`).

Components that change state in place are also classes (`SecureSender`, `DeviceRegistry`,
`Session`, `CryptoService`, `KeyStore`, `RelayService`, `RelayHub`, `Workspace`,
`LocalChatHistoryStore`, `SessionController`, `Limiter`, `PseudoTerminal`). Their methods are
proved to take exactly the steps of the step systems above, so every theorem about runs is about
them. A method's `ensures` names the step function, and what that function means is proved by
the lemmas of the module it lives in.

`dafny verify dfyconfig.toml` checks everything.

## What the code does not keep

Some statements one would like to make are false of the code. Each is a lemma here.

* "Accepted implies made by the other side": both directions use one key and neither side looks at
  the envelope's sender. A phone with two connections in one session accepts its own command
  (`Echo.PhoneHearsItself`), and a stranger in the session can send the daemon's first event
  back to it as a phone's message (`Echo.StrangerReturns`). The property holds of all runs in
  whose states no session holds two open connections of the phone, and none a stranger about to
  pass a box on to the daemon or the phone (`Relayed.EndToEndInPrivateSessions`); with either
  condition dropped it fails (`Echo.PrivateSessionsExactly`). `Echo.EndToEndExactly` says the same
  of what is forwarded, and `Relayed.EchoExactly` when a forward returns a box.
* "Frames go out in increasing number": `sendCommand` calls overlap (app_providers.dart:896 and
  1314 start two in one turn), and two that finish in the other order put 2 before 1 on the wire
  (`NumberingLimits.OverlapSendsOutOfOrder`). The daemon then refuses the smaller one as a
  replay. Numbers increase exactly when frames are sent in the order they were sealed
  (`Numbering.NumberingIsCrashSafe`), and nothing honest is refused exactly when they increase
  (`Network.NeverRefusedExactly`).
* "Numbers are never reused": after a `connect` to another session that fails before its counter
  is loaded, the old object is used with the new session's counter (relay_service.dart:36-53,
  123-141). `NumberingLimits.StaleSendExactly` gives the exact condition under which such a send
  is harmless, whatever calls are in flight, and `NumberingLimits.StaleSendRepeatsANumber` a run in
  which it is not. And a connect
  that makes a new object for a session is safe exactly when no `sendCommand` of that session is
  between seal and save (`NumberingLimits.RenewExactly`).
* "Every authorized device can be revoked": one whose stored id has surrounding blanks never can,
  because `Revoke` trims what it is given and `Authorize` does not (`Registry.RevocableExactly`,
  `Registry.BlankIdExample`).
* With `/` as project root the path check refuses every path but the root itself
  (`Paths.SafePathExactly`).
* When the directory above the project root is missing and can be created, the file commands
  create it, which is outside the root (`Files.ConfinedExactly`).
* A rename that changes only letter case reports success and does nothing
  (`Files.RenameSucceedsExactly`).
* The status parser misreads a copy record, or a code such as `DR`, whose second path is long
  enough to look like a record (`Status.HarmlessExactly` says exactly which records are safe, `Status.PrintParse` that a
  list of safe ones is read correctly).
* The port list can lose a listener when process ids contain colons; `Ports.ListExactly` says
  exactly for which sets of process ids it never does.
* The rate limiter reads the clock before it takes its lock (ratelimit.go:24-26), so requests that
  overlap at the end of a window may be counted in the order early, late, early, late, and each
  change of window clears the counts: a limit of one admits all four (`Limits.LateLocksClear`). A
  window admits exactly the lesser of limit and requests, for every limit, if and only if no
  request of another window takes the lock between a client's requests of that window
  (`Limits.WindowExactly`).
* The rate limit holds of a minute exactly when the minute is a window, or nothing is admitted at
  all (`Limits.PlainLimitExactly`); around the end of a window a client gets twice the limit
  (`Limits.TwiceIsReached`).
* A reconnect timer that is pending when another session's history is opened still connects to
  the pairing it was started for (`Reconnect.TimerConnectsElsewhere`; `Reconnect.AimExactly`
  says exactly which events leave a pending timer aimed at the pairing shown).

## Model

| member | source | states |
|---|---|---|
| Relayed.EndToEndThroughTheHub | services/relay/internal/ws/hub.go:73-221 | Over every interleaving of daemon, phone, stranger and hub steps from the start in which no forward gives a party a box only it made, what the daemon accepts in a key period from the phone's session, and what each CryptoService object accepts, is a strictly number-increasing subsequence of what the other side made |
| Relayed.HubIsANetwork | services/relay/internal/ws/hub.go:208-221 | In such a run the hub is, for the two ends, a network that never invents a box and never returns one to its maker |
| Relayed.EndToEndInPrivateSessions | services/relay/internal/ws/hub.go:73-221 | The same of every interleaving in whose states no session holds two open connections of the phone, and none a stranger with a box to forward beside the daemon or the phone |
| Echo.PrivateSessionsExactly | services/relay/internal/ws/hub.go:189-221 | Of the two conditions on who shares a session, both are needed: the end-to-end property holds of all runs in which the members are allowed if and only if neither two phone connections nor a stranger carrying a box are |
| Echo.EndToEndExactly | services/relay/internal/ws/hub.go:211-219 | The same in terms of forwards: the property holds of all runs if and only if no phone's frame may be forwarded to that phone and no stranger may pass a party's own boxes back to it |
| Echo.PhoneHearsItself | daemon/internal/e2ee/e2ee.go:111-149 | With two phone connections in a session and nothing else unusual, a careful run from the start in which the phone's object accepts the very message the phone put on the wire while the daemon has sealed nothing, so the property fails |
| Echo.StrangerReturns | daemon/internal/e2ee/e2ee.go:111-149 | With a stranger that passes on boxes and nothing else unusual, a careful run from the start in which the daemon accepts the very message it sealed while the phone has made nothing, so the property fails |
| Relayed.EchoExactly | services/relay/internal/ws/hub.go:208-221 | A forward hands a party a box only it made exactly when another open connection of that party is bound to the sender's session |
| Network.DaemonAcceptsWhatThePhoneSent | daemon/internal/session/session.go:1160-1217 | Over any admissible network, the messages accepted in the current key period have increasing numbers, and those of a session are a subsequence of what the phone put on the wire for it, in the order it was sealed |
| Network.PhoneAcceptsWhatTheDaemonSealed | apps/android/flutter-app/lib/core/services/crypto_service.dart:110-148 | The same for each CryptoService object and what the daemon sealed, however opens interleave and keys change |
| Network.NeverRefusedExactly | daemon/internal/session/session.go:1203-1217 | A daemon paired with the phone accepts everything that an order-preserving lossy link brings it of frames numbered above its counter if and only if their numbers increase |
| Network.NewPhoneHeard | daemon/internal/session/session.go:1160-1179 | Whatever state a daemon is in, once it has admitted the hello of a phone with another key text than the present peer's, it accepts every frame that phone sends it in increasing number |
| Network.HonestFramesNeverRefused | daemon/internal/session/session.go:1203-1217 | So after any careful run of the phone, with overlapping calls, crashes and restarts, a daemon that admits its hello never refuses a session's frames if they were sent in the order they were sealed |
| Network.InOrderAllAccepted | daemon/internal/session/session.go:1203-1217 | Frames arriving in increasing number above the counter are all accepted, whichever were lost, and the counter ends at the last |
| Numbering.NumberingIsCrashSafe | apps/android/flutter-app/lib/core/services/relay_service.dart:123-141 | In any careful run of connects, closes, crashes, restarts and overlapping sendCommand calls, the frames of a session on the wire carry distinct numbers, none above the stored counter, and they increase if and only if they were sent in the order they were sealed |
| Numbering.NumberingKeeps | apps/android/flutter-app/lib/core/services/relay_service.dart:36-73 | The invariant behind it (stored counter, counters in use, calls in flight and wire) is kept by every single careful step |
| Numbering.InTurnIncreases | apps/android/flutter-app/lib/core/services/relay_service.dart:123-141 | When each send takes the earliest call of its session in flight, as calls awaited one after the other do, the numbers on the wire increase |
| NumberingLimits.OverlapSendsOutOfOrder | apps/android/flutter-app/lib/providers/app_providers.dart:896-903 | A careful run of two overlapping calls that puts 2 before 1 on the wire |
| NumberingLimits.StaleSendExactly | apps/android/flutter-app/lib/core/services/relay_service.dart:36-53 | After a send with an object made for another session, whatever calls are in flight, no careful continuation repeats a number if and only if the object's next number covers what of the session is on the wire or saved and waiting to be sent |
| NumberingLimits.StaleSendRepeatsANumber | apps/android/flutter-app/lib/core/services/relay_service.dart:36-53 | A concrete run of two sessions, a failed connect and a restart that puts a number on the wire twice |
| NumberingLimits.RenewExactly | apps/android/flutter-app/lib/core/services/relay_service.dart:40-51 | After a connect that makes a new object, no careful continuation repeats a number if and only if no sendCommand of its session was between seal and save |
| NumberingLimits.SendCommandEffect | apps/android/flutter-app/lib/core/services/relay_service.dart:123-141 | An undisturbed sendCommand advances the counter by one, stores it, and puts exactly that box on the socket |
| Phone.SavedThenLoaded | apps/android/flutter-app/lib/core/services/local_device_key_store.dart:33-44 | A saved counter is read back as saved, and saving one session's counter changes no other's |
| Phone.SeedLeavesCounters | apps/android/flutter-app/lib/core/services/local_device_key_store.dart:16-31 | Creating or loading the box seed leaves every stored counter alone |
| PhoneRuns.OneIdentity | apps/android/flutter-app/lib/core/services/local_device_key_store.dart:16-31 | Over every run, and every run after a restart on the storage it leaves, all CryptoService objects have one and the same key pair |
| PhoneRuns.ReadyBringsInTouch | apps/android/flutter-app/lib/core/services/relay_service.dart:156-165 | With the key a daemon_ready shows, the phone shares the key of the daemon that is paired with it |
| PhoneRuns.CommandRoundTrip | apps/android/flutter-app/lib/core/services/relay_service.dart:123-197 | A command the phone sends is executed by the daemon if it is a known one, and the phone opens exactly the events that answer it, in order |
| PhoneRuns.SilentUntilConnect | apps/android/flutter-app/lib/core/services/relay_service.dart:199-211 | After a close or a crash nothing is sealed or sent until the next connect, whatever calls were in flight |
| Daemon.EveryExecutionJustified | daemon/internal/session/session.go:376-388 | Over any run the log of executed commands only grows, and each entry was added while the registry held exactly the peer's id and key, from a box sealed under that key with a fresh number |
| Daemon.RevokedNeverExecutesAgain | daemon/internal/session/session.go:329-333 | A device revoked after the pairing window closed never gets another command executed in the session |
| Daemon.AuthorizedOnlyShrinks | daemon/internal/session/session.go:329-346 | After expiry the set of authorized (id, key) pairs only shrinks, however registry writes fail |
| Daemon.HelloPairsExactly | daemon/internal/session/session.go:312-362 | A hello pairs if and only if it names a device and a key that parses and is known, or the window is open and the registry can be written; the peer is then the one named and may run commands, and a new key text starts the replay counter at zero while the same one keeps it; otherwise the peer and counters are untouched |
| Answers.HelloWelcomed | daemon/internal/session/session.go:312-362 | An admitted hello is answered, in this order, with the events that had been waiting, the daemon's public key, and a session_ready, boxed under consecutive numbers so that the phone can open them |
| Answers.HelloRefused | daemon/internal/session/session.go:321-352 | Any other hello leaves the sender alone and is answered with the one notice it deserves, or none for a key that does not parse |
| Answers.HelloRecorded | daemon/internal/session/session.go:345-352 | An admitted hello whose write completes leaves one entry for the device with its key and the time, and every other entry as it was |
| Answers.CommandAnswered | daemon/internal/session/session.go:376-540 | Behind the gate, a fresh message of the peer is accepted, executed if it is a known command, and answered with exactly the events of that command, or one error, in order under the next numbers |
| Answers.OthersRefused | daemon/internal/session/session.go:363-388 | Any other ciphertext frame executes nothing, moves no counter, and is answered with one error, or not at all without a peer |
| Answers.NewPhoneObeyed | daemon/internal/session/session.go:302-374 | Whatever daemon admits a new phone and can note it down, it executes every known command the phone then sends in increasing number, in order |
| Answers.LocalEventExactly | daemon/internal/session/session.go:1187-1201 | A local event of a paired daemon goes out at once whether or not it may wait; only a failed seal or a full queue loses it |
| Answers.LocalEventsLeaveInOrder | daemon/internal/session/session.go:1187-1252 | Over any run of local events, drains and revocations, the events leave behind what was queued, in order, under consecutive numbers, each readable by the peer |
| Answers.NothingWaitsOncePaired | daemon/internal/session/session.go:1160-1201 | In every run of the daemon the buffer is empty while a phone is paired |
| Daemon.NextMoves | daemon/internal/session/session.go:302-374 | One step either only sends, or pairs anew (same key text keeps the period), or accepts the message boxed in the frame |
| Daemon.NextKeeps | daemon/internal/session/session.go:302-374 | Every step keeps the sender's invariant |
| DaemonSessionObject.Session.HandleHello | daemon/internal/session/session.go:312-362 | The in-place hello handler takes exactly the daemon's hello step |
| DaemonSessionObject.Session.HandleCiphertext | daemon/internal/session/session.go:363-367 | The in-place command handler, with its gate, dispatch and error report, takes exactly the command step |
| DaemonSessionObject.Session.HandleInbound | daemon/internal/session/session.go:302-374 | One turn of the inbound loop is one frame step |
| Sender.ReceiveKeeps | daemon/internal/session/session.go:1203-1217 | A message is accepted only with a number above every one accepted in this period |
| Sender.SetPeerKeeps | daemon/internal/session/session.go:1160-1179 | Pairing, with its flush and its reset of the replay counter, keeps the sender's invariant |
| Sender.SendLockedKeeps | daemon/internal/session/session.go:1220-1242 | Each seal spends a fresh number, whether or not sealing and queueing succeed, and the queue stays within its capacity |
| Sender.BufferHoldsTheLast | daemon/internal/session/session.go:1187-1199 | After any run of sends before the first pairing the buffer is the last 128 bufferable events, in order, and no number is spent |
| Sender.FirstPairingFlushes | daemon/internal/session/session.go:1160-1179 | The first pairing queues exactly those events with numbers 1 to m, ahead of later ones, and loses none if m slots are free |
| SecureSenderObject.SecureSender.Send | daemon/internal/session/session.go:1187-1201 | The in-place send, with its overlapping copy, takes the send step |
| SecureSenderObject.SecureSender.MoveDown | daemon/internal/session/session.go:1193-1196 | The overlapping copy leaves the last 128 events at the front |
| SecureSenderObject.SecureSender.SetPeer | daemon/internal/session/session.go:1160-1179 | The in-place pairing takes the pairing step, or none when the key does not parse |
| SecureSenderObject.SecureSender.Open | daemon/internal/session/session.go:1203-1217 | The in-place open takes the receive step and returns its result |
| SecureSenderObject.SecureSender.SealAndQueue | daemon/internal/session/session.go:1220-1242 | The in-place sendLocked takes the sealing step |
| SecureSenderObject.SecureSender.PeerIdentity | daemon/internal/session/session.go:1181-1185 | Returns the current peer's id and key text, or says there is none |
| SecureSenderObject.Channel.Offer | daemon/internal/session/session.go:1244-1252 | A non-blocking send appends, or drops on a full queue |
| Conservation.EveryFrameAccountedFor | daemon/internal/session/session.go:1220-1252 | From the start of a key period, whatever sealed for other keys or in earlier periods is still queued: frames sealed since = accepted + dropped at outbound + dropped at the hub + on the way; the accepted ones ascend; the numbers missing below the last accepted are exactly the drops below it |
| Conservation.WithRoomNoGaps | services/relay/internal/ws/hub.go:150-180 | While both bounded queues have room, the phone accepts every number of the period up to its last without a gap, and all others are on the way |
| Conservation.EverythingArrives | services/relay/internal/ws/hub.go:150-180 | From wherever a run has got to, moving on alone empties the line, drops nothing more, and every frame no queue had dropped is accepted |
| Conservation.NextKeeps | services/relay/internal/ws/hub.go:150-180 | Every step of the four-stage pipeline keeps the ledger balanced |
| Conservation.ReceivePosts | apps/android/flutter-app/lib/core/services/crypto_service.dart:139-142 | On the line's order the phone refuses nothing |
| E2ee.OpenExactly | daemon/internal/e2ee/e2ee.go:111-149 | Which envelopes the daemon opens and to what, and which the phone opens, as two equivalences |
| E2ee.OpenGivesCarried | daemon/internal/e2ee/e2ee.go:138-148 | Header binding: whatever the header, what comes out is the message in the box, under the number shown |
| E2ee.SealedOpensAtOtherEnd | daemon/internal/e2ee/e2ee.go:73-109 | Each side opens, unchanged, what the other sealed for it |
| E2ee.OtherKeysNeverOpen | daemon/internal/e2ee/e2ee.go:134-137 | A box for one pair of keys opens for no other pair |
| E2ee.EncodeParse | daemon/internal/e2ee/e2ee.go:56-71 | A public key survives encoding and parsing |
| Hub.HubPromise | services/relay/internal/ws/hub.go:73-221 | After any interleaving: an open connection is in a session's set exactly when bound to it, a closed one in none, no empty set is kept, and everything queued came from other connections of the same session, naming that session and no other role than its sender's, each sender's frames in order and none twice |
| Hub.NextKeeps | services/relay/internal/ws/hub.go:182-221 | Every step at lock granularity keeps the hub's invariant |
| Hub.SessionNeverChanges | services/relay/internal/ws/hub.go:88-95 | A connection's session and role never change once set |
| HubTurns.TurnExactly | services/relay/internal/ws/hub.go:73-105 | What a whole turn adds to every queue: a fitting ping one pong to the sender alone, any other fitting frame itself once to every other open member with room, anything else nothing; an unbound connection is bound to the session and role it names |
| HubTurns.TicketHolds | services/relay/internal/ws/hub.go:59-66 | Over any run, whoever came with a ticket is heard only in its session, by that session's members, and in no other role |
| HubTurns.ClosedForGood | services/relay/internal/ws/hub.go:182-206 | A connection that closes stands in no session's set ever after, and nothing more is queued for it |
| Hub.ForwardOrderIrrelevant | services/relay/internal/ws/hub.go:211-220 | Whatever order the map gives a forward its peers in, the outcome is the same |
| Hub.HandledIsRun | services/relay/internal/ws/hub.go:73-105 | A whole turn of a read loop is one of the interleavings |
| RelayHubObject.RelayHub.HandleFrame | services/relay/internal/ws/hub.go:73-105 | The in-place read-loop turn takes exactly that turn of the step machine |
| RelayHubObject.RelayHub.Forward | services/relay/internal/ws/hub.go:208-221 | The in-place forward gives the frame to every other member once, dropping on full queues, and touches nothing else |
| RelayHubObject.RelayHub.AcceptConn | services/relay/internal/ws/hub.go:59-66 | A new connection starts unbound, or bound and registered by its ticket |
| RelayHubObject.RelayHub.CloseConn | services/relay/internal/ws/hub.go:182-187 | Closing takes the close step |
| RelayHubObject.RelayHub.Register | services/relay/internal/ws/hub.go:189-196 | Registering adds the connection to its session's set |
| RelayHubObject.RelayHub.Unregister | services/relay/internal/ws/hub.go:198-206 | Unregistering removes it, and the set when it becomes empty |
| RelayHubObject.RelayHub.WriteOne | services/relay/internal/ws/hub.go:150-169 | The write loop delivers the queue's head |
| RelayServiceObject.CryptoService.Seal | apps/android/flutter-app/lib/core/services/crypto_service.dart:76-108 | The in-place seal spends the next number, also when encryption then fails |
| RelayServiceObject.CryptoService.Open | apps/android/flutter-app/lib/core/services/crypto_service.dart:110-148 | The in-place open advances the peer counter exactly when it accepts |
| RelayServiceObject.CryptoService.SetPeerPublicKey | apps/android/flutter-app/lib/core/services/crypto_service.dart:64-74 | The in-place key change takes the key step |
| RelayServiceObject.KeyStore.SaveSequence | apps/android/flutter-app/lib/core/services/local_device_key_store.dart:39-44 | Overwrites the session's stored counter, or nothing when the write fails |
| RelayServiceObject.KeyStore.LoadSequence | apps/android/flutter-app/lib/core/services/local_device_key_store.dart:33-37 | Reads the stored counter, 0 when missing or not a number |
| RelayServiceObject.KeyStore.LoadOrCreateBoxSeed | apps/android/flutter-app/lib/core/services/local_device_key_store.dart:16-31 | Returns the stored seed, or stores a new one |
| RelayServiceObject.RelayService.Connect | apps/android/flutter-app/lib/core/services/relay_service.dart:36-91 | The in-place connect, with reuse or renewal of the CryptoService and each way it can fail, takes the connect step |
| RelayServiceObject.RelayService.SendCommand | apps/android/flutter-app/lib/core/services/relay_service.dart:123-141 | The in-place sendCommand, with nothing in between, is the seal, save and send steps in turn, whatever calls are in flight |
| RelayServiceObject.RelayService.SealCommand | apps/android/flutter-app/lib/core/services/relay_service.dart:123-133 | Its first part takes the seal step |
| RelayServiceObject.RelayService.SaveCounter | apps/android/flutter-app/lib/core/services/relay_service.dart:134 | Its second part takes the save step, with the counter as it then is, or gives the call up |
| RelayServiceObject.RelayService.Transmit | apps/android/flutter-app/lib/core/services/relay_service.dart:135-145 | Its third part takes the send step |
| RelayServiceObject.RelayService.Close | apps/android/flutter-app/lib/core/services/relay_service.dart:199-204 | The in-place close takes the close step |
| RelayServiceObject.RelayService.HandleCiphertext | apps/android/flutter-app/lib/core/services/relay_service.dart:185-197 | An inbound ciphertext is one open |
| RelayServiceObject.RelayService.HandleDaemonReady | apps/android/flutter-app/lib/core/services/relay_service.dart:156-165 | A daemon_ready with a key takes the key step |
| Registry.AuthorizedExactly | daemon/internal/session/devices.go:35-118 | Starting empty, a pair is authorized if and only if that non-empty key is the one of the id's last Authorize since its last Revoke; ids stay unique |
| Registry.OnlyAuthorizeAdds | daemon/internal/session/devices.go:78-118 | Touch and Revoke never add a pair, however their write goes |
| Registry.RevokeRemoves | daemon/internal/session/devices.go:96-118 | A revoke that reaches the file leaves no key authorized for the trimmed id |
| Registry.RevocableExactly | daemon/internal/session/devices.go:96-118 | An authorized device can be revoked by some typed id if and only if its stored id has no surrounding blanks |
| Text.TrimExactly | daemon/internal/session/devices.go:96-97 | What Revoke's trimming leaves is the text without its surrounding blanks and nothing else |
| Registry.BlankIdSurvives | daemon/internal/session/devices.go:51-118 | A device authorized under an id with surrounding blanks stays authorized through any revokes and touches |
| Registry.BlankIdExample | daemon/internal/session/devices.go:96-118 | A device authorized as " a" is still authorized after a revoke of " a" |
| Registry.AuthorizeGrants | daemon/internal/session/devices.go:51-76 | A completed Authorize lets its pair through |
| Registry.AuthorizeRecords | daemon/internal/session/devices.go:51-76 | A completed Authorize leaves exactly one entry for the device, with this key and time, a given name in place of the old one, and no other entry changed |
| Registry.TouchRecords | daemon/internal/session/devices.go:78-94 | A completed Touch sets when a listed device was last seen, and nothing else |
| Registry.WithoutUnique | daemon/internal/session/devices.go:105-113 | Compaction keeps ids unique |
| DeviceRegistryObject.DeviceRegistry.Compact | daemon/internal/session/devices.go:105-113 | The in-place compaction equals the functional filter, and reports whether anything went |
| DeviceRegistryObject.DeviceRegistry.Revoke | daemon/internal/session/devices.go:96-118 | The in-place revoke takes the revoke step and says exactly when a device was removed |
| DeviceRegistryObject.DeviceRegistry.Authorize | daemon/internal/session/devices.go:51-76 | The in-place authorize takes the authorize step and fails exactly when loading or writing does |
| DeviceRegistryObject.DeviceRegistry.Touch | daemon/internal/session/devices.go:78-94 | The in-place touch takes the touch step |
| DeviceRegistryObject.DeviceRegistry.IsAuthorized | daemon/internal/session/devices.go:35-49 | The search loop finds the pair exactly when the file holds it |
| Paths.SafePathExactly | daemon/internal/files/files.go:234-250 | An absolute path is refused; any other is resolved element by element from the root and accepted exactly when the result is the root or below it (with / as root, only / itself) |
| Paths.PrefixTest | daemon/internal/files/files.go:246-248 | The string test equals "the root's components are a prefix of the target's", for every root but / |
| Paths.WalkCleaned | daemon/internal/files/files.go:242 | Cleaning a relative path first changes nothing about where it leads |
| Files.RunConfined | daemon/internal/files/files.go:179-232 | Over any sequence of commands and faults, including ones that remove the root itself, nothing outside the root's subtree changes and the tree stays a tree |
| Files.ConfinedExactly | daemon/internal/files/files.go:179-232 | All commands are confined if and only if the directory above the root exists or cannot be created |
| Files.WriteExactly | daemon/internal/files/files.go:179-188 | A successful write put exactly the bytes at the target and at most directories above it; without faults it succeeds exactly for an accepted path with no file in the way and no directory at the target |
| Files.WriteThenRead | daemon/internal/files/files.go:161-177 | Reading back a written file gives its bytes, or refuses them as too large exactly above the limit |
| Files.MkdirExactly | daemon/internal/files/files.go:226-232 | A successful mkdir added exactly the missing directories on the way; without faults it succeeds exactly for an accepted path with no file in the way or at the target |
| Files.MadeOrDeletedThenRead | daemon/internal/files/files.go:161-232 | A directory just made reads as one, and what was just deleted is not found |
| Files.RenamedThenRead | daemon/internal/files/files.go:161-224 | What was renamed reads under its new name as it did under the old one, which is not found any more |
| Files.DeleteExactly | daemon/internal/files/files.go:190-206 | A successful delete leaves exactly the nodes outside the target's subtree; a missing target counts as deleted unless a file is in the way |
| Files.RenameExactly | daemon/internal/files/files.go:208-224 | A successful rename did nothing (paths equal up to case) or moved the whole subtree, left nothing behind and kept everything else |
| Files.RenameSucceedsExactly | daemon/internal/files/files.go:208-224 | A case-only rename reports success and does nothing; any other succeeds without faults if and only if the source exists, no file is in the way, and the target is neither inside the source, nor a directory, nor a file that a directory would replace |
| Files.RenameBack | daemon/internal/files/files.go:208-224 | Renaming to a free name in an existing directory and back restores the tree |
| WorkspaceObject.Workspace.Write | daemon/internal/files/files.go:179-188 | The in-place command takes the write step and is confined |
| WorkspaceObject.Workspace.Delete | daemon/internal/files/files.go:190-206 | The in-place command takes the delete step and is confined |
| WorkspaceObject.Workspace.Rename | daemon/internal/files/files.go:208-224 | The in-place command takes the rename step and is confined |
| WorkspaceObject.Workspace.Mkdir | daemon/internal/files/files.go:226-232 | The in-place command takes the mkdir step and is confined |
| Status.ParseStatus | daemon/internal/files/files.go:83-99 | The index-advancing loop computes the recursive reading of the parts |
| Status.PrintParse | daemon/internal/files/files.go:83-99 | Reading what git prints for a list of tolerated records (see HarmlessExactly) gives, for every path, the trimmed code of its last record, and nothing else |
| Status.TableExactly | daemon/internal/files/files.go:93-96 | With distinct paths that is one entry per record and no rename source among them |
| Status.HarmlessExactly | daemon/internal/files/files.go:93-95 | A record is read correctly among all tolerated ones if and only if it is tolerated itself: a second path just for renames, or one after another code that is too short for a record or repeats the record |
| Base64.CrossLanguageRoundTrip | apps/android/flutter-app/lib/core/utils/base64x.dart:4-20 | The Go and Dart encoders and decoders undo each other, in both alphabets and both directions |
| Base64.StripThenPad | apps/android/flutter-app/lib/core/utils/base64x.dart:13-20 | Stripping "=" gives Go's raw encoding, and adding (4 - n%4)%4 pads restores the padded text |
| Base64.DecodeRawExactly | daemon/internal/session/session.go:456-461 | Go's decoder accepts exactly the encoding, up to line breaks and unused trailing bits |
| Base64.SameBits | apps/android/flutter-app/lib/core/utils/base64x.dart:4-11 | The sextets written spell the bits of the bytes, first to last, filled up with zero bits |
| Base64.PackUnpack | apps/android/flutter-app/lib/core/utils/base64x.dart:4-11 | Bytes and sextets correspond one to one, up to trailing bits |
| Ticket.VerifySigned | services/relay/internal/auth/ticket.go:22-75 | Verifying a signed ticket returns its claims with the defaults filled in, or precisely the refusal they deserve at that time |
| Ticket.AcceptedExactly | services/relay/internal/auth/ticket.go:43-75 | A token is accepted with given claims if and only if it is a payload decoding to them, a dot and the MAC of that payload, with version 1, a session, a role and time left |
| Ticket.PayloadForcesToken | services/relay/internal/auth/ticket.go:51-56 | Two accepted tokens with one payload are the same token |
| History.ReplayExactly | apps/android/flutter-app/lib/core/services/local_chat_history_store.dart:30-37 | After any log of saves the list is the at most 80 most recently saved distinct sessions, newest first, each cut to its last 160 messages and 120 activities |
| History.StoredExactly | apps/android/flutter-app/lib/core/services/local_chat_history_store.dart:30-66 | In plain numbers: at most 80 entries, newest first, the most recent last saves of the log, each with the last 160 messages and 120 activities of its save |
| History.LoadedWritten | apps/android/flutter-app/lib/core/services/local_chat_history_store.dart:12-28 | A written list is read back as written exactly when every session in it has an id |
| HistoryStoreObject.LocalChatHistoryStore.Save | apps/android/flutter-app/lib/core/services/local_chat_history_store.dart:30-37 | The in-place save appends to the log and stores what the whole log calls for |
| HistoryStoreObject.LocalChatHistoryStore.Load | apps/android/flutter-app/lib/core/services/local_chat_history_store.dart:12-28 | Returns the named sessions; unreadable text is removed |
| Ports.DedupePorts | daemon/internal/session/session.go:996-1020 | The result is the first 40 of a stable sort by (port, address) of the first eligible entries for each key |
| Ports.StableSortExactly | daemon/internal/session/session.go:1010-1015 | That order is unique: only one sequence is sorted and keeps entries of equal rank in place |
| Ports.FirstsExactly | daemon/internal/session/session.go:999-1009 | With colon-free process ids the entries kept are exactly the first of each eligible (address, port, pid) |
| Ports.KeyInjective | daemon/internal/session/session.go:1003 | With colon-free process ids the key tells listeners apart, although addresses may contain colons |
| Ports.KeysClashExactly | daemon/internal/session/session.go:999-1004 | The keys of two entries that are not skipped can clash if and only if one process id, after a colon, ends in a colon, the number of a port that is not skipped, a colon and the other process id |
| Ports.ListExactly | daemon/internal/session/session.go:999-1009 | For all lists with process ids in a given set, exactly the first entry of every eligible listener is kept, if and only if no process id of the set is confusable with another |
| Reconnect.RunKeeps | apps/android/flutter-app/lib/providers/app_providers.dart:1676-1742 | In every order of events at most one timer runs, none while the session is ended, and between resets there are at most four connects, after 1, 2, 4 and 8 seconds |
| Reconnect.StepKeeps | apps/android/flutter-app/lib/providers/app_providers.dart:899-931 | Every event keeps the invariant tying timer, attempts and connects |
| Reconnect.FailuresEnd | apps/android/flutter-app/lib/providers/app_providers.dart:1676-1736 | After a lost connection, every mix of connects that throw and sockets that report failure once or more goes through the four delays and ends in the give-up state, in which further reports start no timer |
| ReconnectRuns.DelaysExactly | apps/android/flutter-app/lib/providers/app_providers.dart:1676-1742 | In every order of events, the delays after which timers have connected since the last event that ends a row of attempts are the first of 1, 2, 4, 8 |
| ReconnectRuns.LossExactly | apps/android/flutter-app/lib/providers/app_providers.dart:1676-1700 | After any events, a loss starts a timer exactly when the session was not ended, there is a pairing, none runs and fewer than four have connected; its delay is the next one, its target the pairing on show or last stored; after four it gives up |
| ReconnectRuns.DueExactly | apps/android/flutter-app/lib/providers/app_providers.dart:1700-1736 | A timer that goes off connects exactly if the connection is still lost, and runs no more either way |
| ReconnectRuns.StartsAfresh | apps/android/flutter-app/lib/providers/app_providers.dart:846-868 | After session_ready, or any other event that ends a row of attempts, no timer runs and, unless the session is ended, the next loss waits one second, whatever came before |
| ReconnectRuns.FieldsExactly | apps/android/flutter-app/lib/providers/app_providers.dart:833-1020 | Status, pairing, stored pairing and "ended by the user" are what the events alone say |
| Reconnect.AimExactly | apps/android/flutter-app/lib/providers/app_providers.dart:1678-1700 | A pending timer stays aimed at the pairing shown if and only if history is opened only while the last pairing is its target, and pairings are restored or saved only while one is shown or for its target |
| Reconnect.TimerConnectsElsewhere | apps/android/flutter-app/lib/providers/app_providers.dart:448-470 | A run in which the timer connects to one session while another is shown |
| SessionControllerObject.SessionController.Deliver | apps/android/flutter-app/lib/providers/app_providers.dart:833-1020 | Handling an event in place takes exactly its step and keeps the invariant |
| SessionControllerObject.SessionController.ScheduleAutoReconnect | apps/android/flutter-app/lib/providers/app_providers.dart:1676-1700 | The in-place scheduler takes the scheduling step |
| SessionControllerObject.SessionController.OnTimer | apps/android/flutter-app/lib/providers/app_providers.dart:1700-1708 | The timer callback takes the firing step |
| SessionControllerObject.SessionController.ResetAutoReconnect | apps/android/flutter-app/lib/providers/app_providers.dart:1738-1742 | Resetting cancels the timer and clears the count |
| Limits.WindowExactly | services/relay/internal/ratelimit/ratelimit.go:22-33 | For every limit, every client and window get exactly the lesser of the limit and what was asked, if and only if a client's requests of a window take the lock with none of another window in between |
| Limits.LateLocksClear | services/relay/internal/ratelimit/ratelimit.go:24-30 | Four overlapping requests around a window's end that a limit of one admits, two in each window |
| Limits.InOrderTogether | services/relay/internal/ratelimit/ratelimit.go:24-26 | Requests that take the lock in the order of the times they read meet that condition |
| Limits.AnyMinute | services/relay/internal/ratelimit/ratelimit.go:22-33 | Under that condition any sixty seconds admit at most twice the limit per client |
| Limits.TwiceIsReached | services/relay/internal/ratelimit/ratelimit.go:24-30 | That bound is reached, for every limit, in the minute from any start that is not a window's own |
| Limits.PlainLimitExactly | services/relay/internal/ratelimit/ratelimit.go:22-33 | The limit itself holds of every client and every trace in time order in the minute from a given start if and only if that is a window's start or nothing is admitted at all |
| LimiterObject.Limiter.Allow | services/relay/internal/ratelimit/ratelimit.go:22-33 | The in-place decision takes the limiter's step and keeps its invariant, whatever time was read |
| Newlines.NormalizeInput | daemon/internal/terminal/process_windows.go:290-308 | The loop computes "collapse each CR LF to LF, then expand each LF to CR LF" |
| Newlines.NormalizedExactly | daemon/internal/terminal/process_windows.go:290-308 | No bare line feed is left, and one byte is added per bare line feed |
| Newlines.FixedExactly | daemon/internal/terminal/process_windows.go:290-308 | Input is unchanged exactly when it has no bare line feed; normalizing is idempotent |
| Newlines.AgreeExactly | daemon/internal/terminal/process_windows.go:290-308 | Two inputs give the same bytes exactly when they agree after collapsing |
| Newlines.PseudoTerminal.WriteAll | daemon/internal/terminal/process_windows.go:253-265 | Emits the bytes in order without gaps or repeats, all of them on success, and fails exactly when a call fails or takes nothing |
| Newlines.PseudoTerminal.Send | daemon/internal/terminal/process_windows.go:171 | On success typing emits exactly the normalized input |

## Left out

Assumptions of the step systems:

- Cryptography: the cipher, curve and MAC are terms with the laws stated above; X25519's refusal of low-order points is one of the ways a seal can fail. `Ticket` takes JSON and the MAC as parameters; only "decoding undoes encoding" is assumed of JSON.
- Clocks, randomness, storage failures, the outcome of each command and each registry write are parameters of the steps.
- Sequence numbers are unbounded; the code uses uint64 in Go and int in Dart.
- Time zones, `sent_at` and the JSON text of messages are not modelled; an envelope is its parsed fields, and a ciphertext field either is base64 text or is not.
- A connect is one step: a timer's connect overlapping a user's connect between their awaits is not modelled, nor is a command started in the middle of a connect; one that starts after a failed connect is.
- The daemon opens one connection to the hub and never a second (daemon/internal/relay/relay.go).
- Registry reads and writes of one call are atomic; two processes overlapping their read-modify-write cycles are not modelled.
- Handling of one inbound frame by the daemon is atomic with respect to local events; the sender's mutex allows local events between two replies, which only changes the numbers of those replies.

Statements narrower than one might expect:

- Relayed.EndToEndThroughTheHub: is about runs in private company (Echo.EndToEndExactly and Echo.PrivateSessionsExactly show that this is exact) and careful steps of the phone (NumberingLimits.StaleSendExactly, NumberingLimits.RenewExactly).
- Network.DaemonAcceptsWhatThePhoneSent: is per key period, the time the encoded peer key text stays the same, because the replay counter is zeroed when it changes.
- Network.PhoneAcceptsWhatTheDaemonSealed: is per CryptoService object, because a new one starts its peer counter at 0.
- Numbering.NumberingIsCrashSafe: a save reads the counter and writes it in one step, so stored values take effect in the order the saves start, as calls on one platform channel do.
- Conservation.EveryFrameAccountedFor: is about one phone connected throughout a key period, with sealing never failing and each inbound frame handled atomically; a period may begin with anything still queued.
- Answers.CommandAnswered: the frames are stated for seals that succeed and a queue with room for three more (Answers.LocalEventExactly says what happens otherwise); what the answers' data hold is a parameter.
- Daemon.RevokedNeverExecutesAgain: needs the revocation's write to reach the file and this session and Revoke to be the registry's only writers.
- History.ReplayExactly: is about saves whose sessions have an id; a save without one is dropped on the next load (History.LoadedWritten).
- Limits.WindowExactly: a trace lists the requests in the order in which they take the lock; which orders overlapping requests and a clock that is set back produce is not modelled, so every order is covered.
- Files.RenameExactly: models EqualFold on ASCII letters only.
- Ports.FirstsExactly: needs colon-free process ids, which is what netstat and lsof print; Ports.ListExactly covers the rest.

Not modelled:

- Symlinks, Windows path separators, file modes and times; the file commands work on a tree of directories and files.
- Dart spellings of numbers other than plain digits (signs, blanks, hexadecimal) in the stored counter and in envelope numbers, and percent-escapes that Dart's normalize accepts.
- Invalid UTF-8: text is a sequence of characters, and the status parser's byte offsets are character offsets.
- Bind addresses, process names and URLs of the port list are carried along but not computed.
- After the controller's dispose nothing happens, and replaceAll of the chat history is left out; both are short.
- Websocket, HTTP and process input and output, ping frames at the websocket level, logging and the relay's leak audit.
- The permission detector, git execution, provisioning, billing, webhooks, screens, notifications and installers.
