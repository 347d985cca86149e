# Yappy, modelled and proved

Yappy is a chat service: a gateway that streams events to sockets, an iOS client that
resumes them, end-to-end encrypted conversations, voice channels, a desktop shell that
updates itself, and a bot that keeps reminders. This project models the parts of it that
are protocols, state machines or algorithms, and proves what each is for.

`dafny verify dfyconfig.toml` checks everything.

| module | what it models |
|---|---|
| `Text`, `Wrappers` | decimal numerals, string order, joining with a separator; the optional value |
| `Ratchet` | the Double Ratchet over session values ("The Double Ratchet Algorithm", sections 2.6 and 3.3 to 3.5), with the loops of `skipTo` and `decrypt` |
| `Conversation` | a run of two sessions over a network that reorders, loses and repeats messages |
| `Cipher` | the envelope: header, associated data, signature, the restart from a preamble |
| `CrossedStarts`, `CrossedRuns` | two devices that both start a session before hearing from each other: when they still read each other, and when never again |
| `Devices` | a device's disk, its one-time prekey pool, opening a message with a crash in between |
| `Messaging` | two devices end to end: what each shows for every message posted |
| `Evictions`, `Restarting` | the run in which the bound takes a newer key, and what restarting from the preamble then costs |
| `GatewaySession`, `GatewayClient` | the replay ring; the client's cursor, outbox and subscriptions |
| `ClientRuns`, `GatewayResume` | every run of the client by itself, and every run of the client and the server together |
| `VoiceChannels` | the one voice seat and the operations that drain in order |
| `SharedSession` | token rotation shared by the app and its share extension |
| `Endpoints` | domain failover shared by concurrent requests |
| `Subscriptions` | reference-counted bus topics, deferred unsubscribes, removals that cascade |
| `Updater` | the desktop updater: the scanners, the reference graph, the staged swap |
| `Clock` | the wall clock inverted across a change of offset; durations said and read back |
| `Reminders` | the crash-safe reminder list and its timers |
| `PngBadge` | the table-driven CRC-32 and PNG chunk framing (RFC 2083, sections 3.2 and 3.4) |

## How the models are built

- Keys are terms of a free algebra: derivations agree exactly when they hash the same
  things, a Diffie-Hellman agreement is the same from both ends, and a sealed body opens
  only under its own key and associated data. Random keys are numbers a caller supplies.
- A protocol is a value and a function (or relation) per step; a step ends where the
  source awaits. `Run` is any finite sequence of enabled steps, so a theorem about runs is
  about every interleaving. The source's mutable objects are classes whose methods are
  proved to do what those functions say.
- What the environment decides (the bus taking a subscription, a refused join, when a
  process dies, which disk write fails) is a parameter or a step.

## What the code does that its documentation does not say

- `Ratchet.swift:359-362` calls what it drops "oldest first". It sorts names as text. Over a
  stretch of one chain that is by age if and only if the stretch holds no power of ten with the
  number before it (`Ratchet.NamesSortByAge`); a run in which message 10's key goes and
  message 2's stays is `Evictions.NewerKeyGoes`.
- `Ratchet.swift:412` asks for more than a tag's sixteen bytes, so an empty text seals and
  never opens; delivery is stated with that condition.
- `Cipher.swift:263-267` calls rebuilding from the preamble the way back. When both devices
  start at once it can leave each holding the session the other gave up. They go on reading
  each other if and only if not both have given their own start up
  (`CrossedRuns.CrossedExactly`), and once both have nothing said afterwards is ever read
  (`CrossedRuns.CrossedForGood`).
- Without a one-time prekey the same branch reads a first-chain message whose key was lost, and
  puts a session that has read nothing since in place of the live one
  (`Messaging.ShownExactly`). If the initiator has turned by then the two never read each other's
  later chains again (`Restarting.PartedForGood`; a history that comes to it is
  `Restarting.LostMessageParts`).
- `DeviceKeys.swift:126-132` makes a prekey one-time by consuming it last. A crash between
  writing the text down and consuming it leaves it held for good, because the retry finds
  the text and never comes to the prekey (`Devices.CrashThenRetry`, an if-and-only-if).
- `E2E.swift:205-220` saves the session before it writes the text. A process that dies between
  the two loses every message but one its preamble can rebuild (`Restarting.DiedSavingLoses`).
- `SharedSession.swift:68-69` has the two processes take turns. A refresh the app makes while it
  cannot read the shared record goes round the lease (`ApiClient.swift:275-303`): it can overlap
  another, and leaves a superseded token to be shown (`SharedSession.PrivateOverlaps`,
  `PrivateSupersedes`). Signing out at such a moment is undone (`UnreadSignOutReturns`).
- `GatewayClient.swift:498` sets the cursor back at READY, so an event dispatched before it
  can be handled again after a resume, exactly while more came before READY than has come up to
  the cursor since (`GatewayResume.RepeatsExactly`).
- `GatewayClient.swift:355-361` promises a conversation asked for is asked of every later connection too. Asked for
  while the socket is down, or cut off while the queue drains, it is not asked of a session that is
  then resumed, and asking again does nothing until the next READY (`ClientRuns.UnsaidExactly`, an
  if-and-only-if; `ClientRuns.ResumedUnasked`).
- `clock.ts:129-131` corrects twice. That is enough for one change of offset and not for
  two (`Clock.TwoChangesCanMiss`); a time the clocks skip is missed by exactly what they skip.
- `clock.ts:196` looks a unit up in an object literal, so `5 constructor` finds a
  function and the sum is no number: exactly when `constructor` is among the units read
  (`Clock.SumIsNoNumber`).
- `reminders.ts:80-91`: a cancel stops a reminder if and only if no add of it is still waiting,
  for its write or to set its timer (`Reminders.CancelStops`), and a crash before the removal
  is written undoes it (`CrashUndoesCancel`). A start drops an unsent reminder exactly when it
  is overdue in a zone that does not exist (`BadZoneLoses`).

## Model

| member | source | states |
|---|---|---|
| Text.DecimalInjective | ios/Yappy/Data/Cipher.swift:77-89 | two numbers spelled alike are the same number |
| Text.SignedInjective | ios/Yappy/Data/Cipher.swift:84-88 | the same with a sign |
| Text.JoinInjective | ios/Yappy/Data/Cipher.swift:77-89 | separator-free lists of one length joined alike are alike |
| Text.JoinCounts | ios/Yappy/Data/Cipher.swift:77-89 | a join holds as many separators as it was given, and no more only when no field holds one |
| Text.BeforeAfterPrefix | ios/Yappy/Data/Ratchet.swift:362 | how names that share a key sort |
| Ratchet.NameInjective | ios/Yappy/Data/Ratchet.swift:354 | no two stored keys share a name |
| Ratchet.KeptKeepsLastNames | ios/Yappy/Data/Ratchet.swift:359-363 | the bound on stored keys: never more than 2000, nothing dropped below it, and whatever goes sorts before whatever stays |
| Text.NumeralsSort | ios/Yappy/Data/Ratchet.swift:362 | numerals sort as text in the order of their numbers over a range if and only if no power of ten stands in it with the number before it |
| Ratchet.NamesSortByAge | ios/Yappy/Data/Ratchet.swift:354-363 | over a stretch of one chain names sort by age if and only if that is so |
| Ratchet.OldestGoFirst | ios/Yappy/Data/Ratchet.swift:359-363 | where it is so, everything dropped is older than everything left |
| Evictions.NewerKeyGoes | ios/Yappy/Data/Ratchet.swift:344-368 | from every claimed bundle a run reaches a state in which a newer key of a chain was dropped and an older one kept |
| Evictions.LostIsRefused | ios/Yappy/Data/Ratchet.swift:411-464 | in that state the older message opens and the newer one never will |
| Ratchet.StoreHolds | ios/Yappy/Data/Ratchet.swift:350-357 | skipping stores exactly the keys passed over, each the message key at its own number |
| Ratchet.FindFirst | ios/Yappy/Data/Ratchet.swift:362 | the loop finds the one name that sorts first |
| Ratchet.DropOverflow | ios/Yappy/Data/Ratchet.swift:359-363 | the eviction loop leaves what the bound keeps |
| Ratchet.StorePassed | ios/Yappy/Data/Ratchet.swift:350-357 | the skip loop: where it stops, the chain key there, and what it stored |
| Ratchet.SkipTo | ios/Yappy/Data/Ratchet.swift:344-368 | the whole of `skipTo`, its refusal past 1000 included |
| Ratchet.DecryptMessage | ios/Yappy/Data/Ratchet.swift:411-464 | the whole of `decrypt`, every failure included, equal to the specification the theorems are about |
| Ratchet.AcceptsOwnPreKeys | ios/Yappy/Data/Ratchet.swift:259-287 | a preamble builds a session if and only if this device holds the prekeys it names, and the session starts fresh |
| Conversation.KeysDistinct | ios/Yappy/Data/Ratchet.swift:161-175 | no two chain positions of a conversation share a message key |
| Conversation.SendKeepsInv | ios/Yappy/Data/Ratchet.swift:302-334 | a send by either end keeps the two-party invariant |
| Conversation.SkipKeepsEnd | ios/Yappy/Data/Ratchet.swift:344-368 | skipping within a chain keeps an end's half of the invariant, or is refused exactly past 1000 |
| Conversation.TurnKeepsEnd | ios/Yappy/Data/Ratchet.swift:371-399 | a turn takes an end exactly one rung past its peer |
| Conversation.OpenKeptKeepsEnd | ios/Yappy/Data/Ratchet.swift:428-435 | opening a late message spends its key and no other |
| Conversation.DecryptExact | ios/Yappy/Data/Ratchet.swift:411-464 | a packet opens, to what was said, if and only if its key was kept or it is ahead and near enough; what the end then holds |
| Conversation.PastIsRefused | ios/Yappy/Data/Ratchet.swift:406-411 | a message passed, whose key is gone, never opens |
| Conversation.BeginningHoldsInv | ios/Yappy/Data/Ratchet.swift:220-287 | `initiate` and `accept` reach one root, with or without a one-time prekey |
| Conversation.DeliverKeepsInv | ios/Yappy/Data/Ratchet.swift:411-464 | any delivery of any packet keeps the invariant |
| Conversation.RunsKeepInv | ios/Yappy/Data/Ratchet.swift:302-464 | so does every run of sends and deliveries, reordered, lost or repeated |
| Conversation.EndsAgree | ios/Yappy/Data/Ratchet.swift:371-399 | the ends are at most one turn apart: one reads a prefix of what the other sends, and one turn lets the other read back |
| Conversation.DeliveriesExact | ios/Yappy/Data/Ratchet.swift:406-464 | in every reachable state a delivery opens to exactly its text or changes nothing |
| Conversation.RedeliveryRefused | ios/Yappy/Data/Ratchet.swift:406-411 | a message opened once never opens again, and trying changes neither session |
| Conversation.OpeningSpends | ios/Yappy/Data/Ratchet.swift:432-434 | a delivery that opens spends its message |
| Conversation.KeysNeverReused | ios/Yappy/Data/E2EStore.swift:80-87 | no message key ever seals twice, in either direction |
| Conversation.FirstDeliveryOpens | ios/Yappy/Data/Ratchet.swift:302-464 | a first delivery opens if and only if its key was not lost to the bound, no skip exceeds 1000 and the text is not empty |
| Conversation.DecryptAccounts | ios/Yappy/Data/Ratchet.swift:344-368 | which keys an opening delivery loses to the bound of 2000, and that it loses none if and only if it fits |
| Conversation.RunsAccount | ios/Yappy/Data/Ratchet.swift:344-464 | over every run each end accounts for exactly the keys its deliveries lost |
| Conversation.FittingRunsDropNothing | ios/Yappy/Data/Ratchet.swift:359-363 | a run loses no key at either end if and only if every delivery of it that opens fits the bound |
| Conversation.HonestMessagesOpen | ios/Yappy/Data/Ratchet.swift:302-464 | from a claimed bundle on, in every run whatever it drops, a first delivery opens to what was said if and only if its key was not lost, no skip is too long and it says something |
| Conversation.ReachedIsOk | ios/Yappy/Data/Ratchet.swift:220-464 | every run from a claimed bundle keeps the two-party invariant |
| Conversation.EndsAlwaysAgree | ios/Yappy/Data/Ratchet.swift:371-399 | in every such run the ends are at most one turn apart |
| Conversation.OpensAtMostOnce | ios/Yappy/Data/Ratchet.swift:406-464 | in every such run a message opens at most once, a repeat changes nothing, and no key seals two |
| Conversation.StoredKeysAreExact | ios/Yappy/Data/Ratchet.swift:344-368 | in every such run the stored keys are exactly those of the messages passed, not opened and not lost to the bound, never more than 2000 |
| Cipher.FieldsHoldNoSeparator | ios/Yappy/Data/Cipher.swift:73-90 | no field of a header with uuid identifiers holds the separator |
| Cipher.FieldsInjective | ios/Yappy/Data/Cipher.swift:73-90 | the associated data determines the header, whatever identifiers the other header holds, separators included |
| Cipher.PreamblesInjective | ios/Yappy/Data/Cipher.swift:86-88 | the three preamble fields determine the preamble |
| Cipher.SealedIsBelieved | ios/Yappy/Data/Cipher.swift:142-189 | what the opener rebuilds from the header is what was sealed and signed |
| Cipher.SealedSays | ios/Yappy/Data/Cipher.swift:142-189 | a copy names its author and its reader, stands at the next place of the chain, and is signed over all of it |
| Cipher.OpenedIsSigned | ios/Yappy/Data/Cipher.swift:235-249 | for every envelope, session and key: what opens is signed, header and body, by the key the server names, and addressed to this device by the account the server names |
| Cipher.SignatureOpensOnlyItsOwn | ios/Yappy/Data/Cipher.swift:241-249 | a signature over one header and body opens no other, nor under another key |
| Cipher.OpenEnvelope | ios/Yappy/Data/Cipher.swift:228-274 | the whole of `openSealed`, in its own order of guards, build, open and restart |
| Cipher.OnlyTheSealedText | ios/Yappy/Data/Cipher.swift:228-274 | whatever session is tried, only the sealed text ever comes out |
| Cipher.SpentPreKeyBuildsNothing | ios/Yappy/Data/Cipher.swift:209-218 | with its one-time prekey gone a preamble builds nothing, so what the stored session refuses stays refused |
| CrossedStarts.StartReplacesStart | ios/Yappy/Data/Cipher.swift:263-273 | a first message that meets the reader's own unanswered start is read and replaces it |
| CrossedStarts.DecryptKeepsBase | ios/Yappy/Data/Ratchet.swift:411-464 | a session opens only what comes down its own agreement, and stays on it |
| CrossedStarts.ReadKeepsLine | ios/Yappy/Data/Cipher.swift:251-273 | what a device reads comes down its session's line or travels under its author's preamble; the session left comes down the message's line |
| CrossedStarts.BothTurnedAreDeaf | ios/Yappy/Data/Cipher.swift:255-273 | once each device has given up its start nothing either says from then on is read, whatever else arrives, repeats or crashes |
| CrossedRuns.ReadIsDelivery | ios/Yappy/Data/E2E.swift:198-229 | in step, whatever is read is a delivery of its start's conversation that opens |
| CrossedRuns.SteadyRunsStayInStep | ios/Yappy/Data/E2E.swift:119-229 | every run in which no device gives its session up twice keeps both starts' conversations and both disks in step |
| CrossedRuns.OneTurnedIsOneTalk | ios/Yappy/Data/Cipher.swift:255-273 | where one device gave up its start the two sessions are the ends of one conversation, at most one turn apart |
| CrossedRuns.NextIsRead | ios/Yappy/Data/E2E.swift:119-229 | the next message either says is read as said while not both gave up their start, and refused once both have |
| CrossedRuns.CrossedExactly | ios/Yappy/Data/E2E.swift:119-229 | from two crossing starts on, in every such run, a near next message is read if and only if not both have given up their start |
| CrossedRuns.CrossedForGood | ios/Yappy/Data/E2E.swift:119-229 | in every run at all, once both have, nothing said later is ever read |
| CrossedRuns.UnbrokenRunsAreSteady | ios/Yappy/Data/E2E.swift:218-229 | with one-time prekeys and no crash no device gives its session up twice |
| CrossedRuns.CrossedStartsDeafen | ios/Yappy/Data/Cipher.swift:263-273 | two starts whose first messages both arrive are both read, and both are given up |
| Devices.E2EStore.SaveSession | ios/Yappy/Data/E2EStore.swift:60-66 | one device's session is replaced, the others stay |
| Devices.E2EStore.Seal | ios/Yappy/Data/E2E.swift:168-178 | a send seals with the stored session, or one begun from a claimed bundle, and stores it stepped; a send that fails leaves the store alone |
| Devices.E2EStore.Remember | ios/Yappy/Data/E2EStore.swift:91-96 | one message's text is written down |
| Devices.TopUpAddsOnlyNewIds | ios/Yappy/Data/DeviceKeys.swift:180-202 | a top-up adds exactly the next ids and disturbs no key held |
| Devices.ConsumedBuildsNothing | ios/Yappy/Data/DeviceKeys.swift:126-138 | no later run of consuming and topping up lets a consumed prekey's preamble build a session |
| Devices.DeviceKeys.MintAndPublish | ios/Yappy/Data/DeviceKeys.swift:142-165 | the minting loop fills a new pool from id 1 |
| Devices.DeviceKeys.ConsumePreKey | ios/Yappy/Data/DeviceKeys.swift:133-138 | one prekey is forgotten |
| Devices.DeviceKeys.TopUp | ios/Yappy/Data/DeviceKeys.swift:180-202 | the top-up loop continues the numbering |
| Devices.E2E.Open | ios/Yappy/Data/E2E.swift:198-229 | the disk and the answer of `open`, for a process that dies after any number of its writes |
| Devices.AnsweredIsSigned | ios/Yappy/Data/E2E.swift:198-229 | a message not written down is answered, or changes the disk, only when it is so signed, and the answer is the text that was sealed |
| Devices.PreambleOpens | ios/Yappy/Data/Cipher.swift:251-261 | while the prekeys are held a starting message opens exactly when it says something and is near enough |
| Devices.StarterIsReadable | ios/Yappy/Data/Cipher.swift:251-273 | whatever session is stored, or none, such a message can be read |
| Devices.CrashThenRetry | ios/Yappy/Data/E2E.swift:218-229 | after any number of crashes at any writes, whatever session was stored, a retry reads and records the message; its prekey is spent if and only if the first try to write the text rebuilt the session and came to its third write |
| Devices.SavedSessionRefuses | ios/Yappy/Data/Ratchet.swift:406-411 | the session that opened a starting message does not open it twice |
| Messaging.SaidIsSent | ios/Yappy/Data/E2E.swift:168-178 | a send through the store is a send of the conversation, and posts that packet's envelope |
| Messaging.PreambleBuilds | ios/Yappy/Data/Cipher.swift:251-273 | a preamble alone opens exactly the near, non-empty messages of the first chain, while its one-time prekey is held or it names none |
| Messaging.RestartExact | ios/Yappy/Data/Cipher.swift:263-273 | restarting opens what the stored session refused if and only if the message's key was lost, it is among the first 1001 of the first chain and the preamble names no one-time prekey |
| Messaging.ReadingIsDecrypting | ios/Yappy/Data/E2E.swift:198-218 | what the device is told is what its end of the conversation answers, or, where that refuses, what a restart does |
| Messaging.SaidKeepsWorld | ios/Yappy/Data/E2E.swift:168-178 | sends keep the two devices' disks and the conversation in step |
| Messaging.ArrivedKeepsWorld | ios/Yappy/Data/E2E.swift:198-229 | so do arrivals that do not restart the session |
| Messaging.ShownExactly | ios/Yappy/Data/E2E.swift:188-229 | a message is shown, as exactly what was said, if and only if it was opened before, can be opened now, or restarts the session |
| Messaging.RestartReplaces | ios/Yappy/Data/Cipher.swift:263-273 | what a restart leaves on disk: the text, and in place of the live session one that has read the first chain and nothing since |
| Messaging.MetHoldsWorld | ios/Yappy/Data/E2E.swift:169-176 | a claimed bundle starts the two devices in step |
| Messaging.HistoriesKeepWorld | ios/Yappy/Data/E2E.swift:119-229 | every history up to a restart keeps them so, and accounts for every key lost |
| Messaging.PreKeyedIsUndisturbed | ios/Yappy/Data/E2E.swift:119-229 | where the bundle held a one-time prekey no history restarts anything |
| Messaging.EveryMessageIsShown | ios/Yappy/Data/E2E.swift:119-229 | from a claimed bundle on a message never opened is shown if and only if it says something, is near, and was not lost to the bound unless it stands near the start of the first chain of a bundle without a one-time prekey |
| Messaging.EveryHistoryShowsExactly | ios/Yappy/Data/E2E.swift:119-229 | the same by what each end can open, with or without a one-time prekey |
| Restarting.PartedForGood | ios/Yappy/Data/Cipher.swift:255-273 | after a restart, if the initiator had turned, in every run neither device opens anything of the other's but what is left of the first chain |
| Restarting.RestartParts | ios/Yappy/Data/Cipher.swift:263-273 | a restart leaves the two in step if the initiator has not turned, and parts them if it has |
| Restarting.LostMessageParts | ios/Yappy/Data/Cipher.swift:263-273 | from every bundle without a one-time prekey a history comes to a message that is shown and parts the two |
| Restarting.DiedSavingLoses | ios/Yappy/Data/E2E.swift:205-220 | a message opened by a process that dies between saving the session and writing the text is read on retry if and only if its preamble can still build a session |
| Restarting.RepostedIsRead | ios/Yappy/Data/E2E.swift:198-229 | an opened message posted again under another id is read again, replacing the session, if and only if it is a near, non-empty one of the first chain from a bundle without a one-time prekey |
| Messaging.OpenUndoesSeal | ios/Yappy/Data/Cipher.swift:142-274 | `openSealed` undoes `sealWith` for every pair of sessions that agree, and they agree afterwards |
| GatewaySession.WindowMoves | apps/gateway/src/session.ts:117-120 | pushing and shifting moves the ring on by exactly one event |
| GatewaySession.BufferedSession.Dispatch | apps/gateway/src/session.ts:97-138 | the ring is the last 256 events, numbered without a gap; what is sent, and when a slow reader is closed instead |
| GatewaySession.BufferedSession.ReplayFrom | apps/gateway/src/session.ts:147-158 | true exactly when seq - length <= after <= seq, and then sends what follows, in order |
| GatewaySession.BufferedSession.Park | apps/gateway/src/session.ts:176-179 | a parked session keeps its history and ring, and expires exactly when the window has passed since |
| GatewaySession.BufferedSession.Resume | apps/gateway/src/session.ts:181-185 | a resumed one keeps them too, rides the new socket, and does not expire |
| GatewaySession.BufferedSession.Close | apps/gateway/src/session.ts:187-194 | the socket is closed and let go |
| GatewayClient.Client.Handle | ios/Yappy/Data/GatewayClient.swift:475-533 | each frame's effect on the whole client: cursor, state, queue, what is handled, what is written |
| GatewayClient.Client.HandshakeComplete | ios/Yappy/Data/GatewayClient.swift:395-416 | a fresh session is told every subscription, then the queue, in order |
| GatewayClient.Client.FlushSome | ios/Yappy/Data/GatewayClient.swift:405-415 | twenty frames at a time, none lost or reordered |
| GatewayClient.Client.Send | ios/Yappy/Data/GatewayClient.swift:289-297 | nothing but a handshake is written before it completes; the newest 64 wait |
| GatewayClient.Client.SubscribeTo | ios/Yappy/Data/GatewayClient.swift:362-368 | recorded once, asked for at once when possible |
| GatewayClient.Client.HandleClose | ios/Yappy/Data/GatewayClient.swift:595-632 | which close codes keep the session, forget it or end it; the subscriptions and the queue stay, and an orphan's close changes nothing |
| GatewayClient.Client.Disconnect | ios/Yappy/Data/GatewayClient.swift:199-211 | a pause keeps the cursor, signing out forgets it |
| GatewayClient.Client.Connect | ios/Yappy/Data/GatewayClient.swift:131-151 | an attempt begins under a new stamp unless one is under way or a socket is open |
| GatewayClient.Client.TicketArrives | ios/Yappy/Data/GatewayClient.swift:152-187 | only the latest attempt, not called off since, opens a socket; any other ticket changes nothing |
| GatewayClient.Client.ReconnectNow | ios/Yappy/Data/GatewayClient.swift:226-232 | starting over lets the socket go and keeps the session, the queue and the subscriptions |
| GatewayClient.Client.StallExpires | ios/Yappy/Data/GatewayClient.swift:251-260 | an attempt that comes to nothing is given up |
| ClientRuns.StampsAreFresh | ios/Yappy/Data/GatewayClient.swift:139-151 | in every run no attempt opens two sockets, and one that may still open one has opened none |
| ClientRuns.CommandsFollowHandshake | ios/Yappy/Data/GatewayClient.swift:87-101 | in every run nothing but a handshake is written on a socket before READY or RESUMED has come on that very socket |
| ClientRuns.HoldsLastNamed | ios/Yappy/Data/GatewayClient.swift:190-211 | in every run the client holds exactly the session the server last named, through pauses and closes, until something replaces it |
| ClientRuns.CloseDecides | ios/Yappy/Data/GatewayClient.swift:595-632 | which codes give up for good, and whether the next socket says RESUME or IDENTIFY |
| ClientRuns.WantsExactly | ios/Yappy/Data/GatewayClient.swift:102-107 | in every run the client wants exactly what it was asked for since it last signed out |
| ClientRuns.ReadyAsksAgain | ios/Yappy/Data/GatewayClient.swift:395-404 | after every run READY asks for each of those, once, and then sends what was waiting |
| ClientRuns.NewestWait | ios/Yappy/Data/GatewayClient.swift:283-297 | until the handshake the newest 64 commands wait, in the order they were sent |
| ClientRuns.AllIsWritten | ios/Yappy/Data/GatewayClient.swift:405-415 | twenty at a time everything queued is written, in order |
| ClientRuns.UnsaidExactly | ios/Yappy/Data/GatewayClient.swift:355-404 | in every run a conversation wanted goes unsaid to the server's session if and only if since its READY it was first asked for while no handshake stood, or was cut off before it was written |
| ClientRuns.ResumedUnasked | ios/Yappy/Data/GatewayClient.swift:362-404 | from every connected state a drop, a new subscription and a resume come to such a conversation |
| GatewayResume.ReplayStreams | apps/gateway/src/session.ts:147-158 | a replay followed by RESUMED continues the history from the offered number to its end |
| GatewayResume.ReceiveKeeps | ios/Yappy/Data/GatewayClient.swift:495-524 | handling one frame keeps the two ends' invariant |
| GatewayResume.IdentifyKeeps | apps/gateway/src/server.ts:276-420 | so does IDENTIFY |
| GatewayResume.ResumeKeeps | apps/gateway/src/server.ts:422-500 | and RESUME, honoured or refused |
| GatewayResume.EmitKeeps | apps/gateway/src/session.ts:97-138 | and a dispatch, to a socket, a slow socket or nobody |
| GatewayResume.StillKeeps | apps/gateway/src/server.ts:259-269 | and drops, parking, forgetting and reaping |
| GatewayResume.RunsKeep | apps/gateway/src/server.ts:276-583 | and every run of them |
| GatewayResume.NothingMissing | ios/Yappy/Data/GatewayClient.swift:475-524 | in every run the client has handled every event up to its cursor, each as it was dispatched |
| GatewayResume.ResumeAnswered | apps/gateway/src/server.ts:451-474 | a RESUME gets exactly what followed the cursor, or InvalidSession and no session |
| GatewayResume.OffersHighestExactly | ios/Yappy/Data/GatewayClient.swift:495-524 | in every run the number the client would offer is the highest it has handled if and only if no more came before READY than has come up to it |
| GatewayResume.RepeatsExactly | apps/gateway/src/session.ts:147-158 | in every run a RESUME the server honours sends again something the client handled if and only if more came before READY than has come up to the number offered |
| GatewayResume.NothingRepeated | apps/gateway/src/server.ts:401-404 | when no dispatch precedes READY, no session's event is handled twice and none is missing |
| GatewayResume.EarlyEventIsHandledTwice | apps/gateway/src/server.ts:317-404 | an event dispatched before READY, then a dropped socket, is handled twice |
| VoiceChannels.LeftKeeps | ios/Yappy/Data/VoiceChannels.swift:143-154 | leaving queues the leave its join needs |
| VoiceChannels.JoinedKeeps | ios/Yappy/Data/VoiceChannels.swift:103-112 | joining leaves first and stamps the new join |
| VoiceChannels.ReplyKeeps | ios/Yappy/Data/VoiceChannels.swift:124-138 | an answer, late or refused, leaves every seat owed to someone |
| VoiceChannels.StepKeeps | ios/Yappy/Data/VoiceChannels.swift:103-154 | every step keeps every seat accounted for |
| VoiceChannels.RunsKeep | ios/Yappy/Data/VoiceChannels.swift:103-154 | so does every run |
| VoiceChannels.OneSeat | ios/Yappy/Data/VoiceChannels.swift:103-154 | the server never holds two seats, and once the queue drains it holds the session's or none |
| VoiceChannels.JoinMoves | ios/Yappy/Data/VoiceChannels.swift:103-112 | what joining changes, and that a call up or being there already changes nothing |
| VoiceChannels.LeaveMoves | ios/Yappy/Data/VoiceChannels.swift:143-154 | what leaving changes |
| VoiceChannels.OnlyTheSessionAsks | ios/Yappy/Data/VoiceChannels.swift:113-124 | only the join the session stands for asks for the microphone, and only it, with no call up, asks the server |
| VoiceChannels.AnswerSettles | ios/Yappy/Data/VoiceChannels.swift:124-138 | whatever account is signed in by then, a join's answer keeps the session only where media connects, and gives back a seat its account still holds |
| VoiceChannels.StaleAnswerSettles | ios/Yappy/Data/VoiceChannels.swift:124-138 | a join left behind gives its seat back and touches nobody's session |
| VoiceChannels.SettlesAsBound | ios/Yappy/Data/VoiceChannels.swift:103-154 | however the queue drains, granted and answered, it ends with the seat the client was bound for and no other |
| VoiceChannels.CanSettle | ios/Yappy/Data/VoiceChannels.swift:103-154 | from every state the invariant allows, it can drain |
| VoiceChannels.JoinArrives | ios/Yappy/Data/VoiceChannels.swift:103-142 | with no call up joining comes to exactly that seat, unless the client is there already and that join has been refused or is being undone |
| VoiceChannels.LeaveArrives | ios/Yappy/Data/VoiceChannels.swift:143-154 | leaving comes to no seat at all, whatever was under way |
| VoiceChannels.RunsUseOwnCredentials | ios/Yappy/Data/VoiceChannels.swift:115-153 | accounts changing at any moment, no request for one goes out under another |
| VoiceChannels.VoiceClient.Join | ios/Yappy/Data/VoiceChannels.swift:103-112 | `join` up to the operation it queues: with no call up the session is the channel's, the old one's leave and then the join are queued |
| VoiceChannels.VoiceClient.Leave | ios/Yappy/Data/VoiceChannels.swift:143-154 | `leave` up to the operation it queues |
| VoiceChannels.VoiceClient.BeginJoin | ios/Yappy/Data/VoiceChannels.swift:113-116 | the join's turn comes |
| VoiceChannels.VoiceClient.AfterPermission | ios/Yappy/Data/VoiceChannels.swift:117-124 | after the permission wait |
| VoiceChannels.VoiceClient.AfterJoin | ios/Yappy/Data/VoiceChannels.swift:125-138 | after the server's answer |
| VoiceChannels.VoiceClient.AfterUndo | ios/Yappy/Data/VoiceChannels.swift:126-128 | after the seat was given back |
| VoiceChannels.VoiceClient.BeginLeave | ios/Yappy/Data/VoiceChannels.swift:149-153 | the leave's turn comes |
| SharedSession.StepKeeps | ios/Shared/SharedSession.swift:40-100 | every step of every process but a refresh outside the lease keeps the lease, the record and the tokens in order |
| SharedSession.RunsKeep | ios/Shared/SharedSession.swift:40-100 | so does every interleaving in which the app can read the record whenever it refreshes |
| SharedSession.ReplacedIdsStayGone | ios/Yappy/Data/SessionStore.swift:89-165 | once a sign-in or sign-out replaces the shared record no refresh, leased or private, ever writes its id again |
| SharedSession.UnreadSignOutReturns | ios/Yappy/Data/SessionStore.swift:120-141 | signing in or out while the record cannot be read replaces nothing: once it can, the former account is back |
| SharedSession.RefreshesNeverOverlap | ios/Shared/SharedSession.swift:70-79 | two refreshes are never past the lease at once, and none goes round it, while the app can read the record whenever it refreshes |
| SharedSession.NoSupersededTokenShown | ios/Shared/SharedSession.swift:80-99 | and no refresh token is shown after its replacement was stored |
| SharedSession.ReadableIsLeased | ios/Yappy/Data/ApiClient.swift:275-283 | which is so wherever the record is readable throughout |
| SharedSession.PrivateOverlaps | ios/Yappy/Data/ApiClient.swift:284-303 | from every signed-in state a refresh made while it is not readable can overlap one under the lease |
| SharedSession.PrivateSupersedes | ios/Yappy/Data/ApiClient.swift:284-303 | and leaves a superseded token that the next refresh under the lease shows |
| SharedSession.LeasedExactly | ios/Yappy/Data/ApiClient.swift:275-303 | no superseded token is shown in any continuation without such a refresh, and in some continuation with one it is |
| SharedSession.WritesOverWhatItRead | ios/Shared/SharedSession.swift:96-99 | a refresh replaces exactly the record it read, or nothing |
| SharedSession.ShowsForRefused | ios/Shared/SharedSession.swift:80-90 | in every run a refresh shows a token only while it goes by a record of its account that held the refused access token |
| SharedSession.ReadsExactly | ios/Shared/SharedSession.swift:80-83 | a refresh goes on with exactly such a record, or ends having asked and changed nothing |
| SharedSession.RotatedOnce | ios/Shared/SharedSession.swift:82-99 | in every run one refused access token leads to at most one stored rotation, however many refreshes it sets off |
| SharedSession.Keychain.ReadForRefresh | ios/Shared/SharedSession.swift:80-83 | the record, exactly when it is this account's, signed in, and still holds the refused token; why not otherwise |
| SharedSession.Keychain.StoreRotated | ios/Shared/SharedSession.swift:96-99 | compare before writing |
| SharedSession.SessionStore.LoadIfNeeded | ios/Yappy/Data/SessionStore.swift:120-141 | private credentials move once; from then on the shared record, a tombstone included, decides |
| SharedSession.SessionStore.SaveTokens | ios/Yappy/Data/SessionStore.swift:155-165 | signing in replaces the record under a new id |
| SharedSession.SessionStore.SaveRefreshedTokens | ios/Yappy/Data/SessionStore.swift:89-107 | tokens are kept if and only if their account is still the one signed in |
| SharedSession.SessionStore.Clear | ios/Yappy/Data/SessionStore.swift:295-304 | signing out leaves a tombstone |
| Endpoints.CleanedKeepsEachOnce | ios/Yappy/Data/Endpoints.swift:30-35 | every address that says anything is kept exactly once |
| Endpoints.TrimmedIs | ios/Yappy/Data/Endpoints.swift:30-35 | nothing but space goes, and none is left at either end |
| Endpoints.Endpoints.constructor | ios/Yappy/Data/Endpoints.swift:29-38 | the cleaning loop |
| Endpoints.Endpoints.ApiBase | ios/Yappy/Data/Endpoints.swift:40-43 | the active address |
| Endpoints.Endpoints.FailOver | ios/Yappy/Data/Endpoints.swift:60-67 | compares and advances together, by at most one domain |
| Endpoints.FailKeeps | ios/Yappy/Data/ApiClient.swift:213-221 | a failed attempt keeps every request's trail of ever later domains |
| Endpoints.RunsKeep | ios/Yappy/Data/ApiClient.swift:184-229 | so do any concurrent requests, and the index only grows |
| Endpoints.FailoverIsFair | ios/Yappy/Data/ApiClient.swift:184-229 | every domain passed over failed a request while active, and no request tries one twice |
| Endpoints.TriesEveryDomain | ios/Yappy/Data/ApiClient.swift:184-229 | a request whose every attempt fails tries each domain from the active one on, in order, and gives up after the last |
| Subscriptions.WithoutOneMore | apps/gateway/src/subscriptions.ts:105-110 | removing conversation after conversation comes to the same in any order |
| Subscriptions.SubscriptionManager.Add | apps/gateway/src/subscriptions.ts:113-133 | `add`, a refused subscription included |
| Subscriptions.SubscriptionManager.Remove | apps/gateway/src/subscriptions.ts:135-151 | `remove`, and the timer it leaves |
| Subscriptions.SubscriptionManager.Fire | apps/gateway/src/subscriptions.ts:141-147 | a timer going off |
| Subscriptions.SubscriptionManager.Subscribe | apps/gateway/src/subscriptions.ts:166-170 | one conversation added to a topic and to the session's index |
| Subscriptions.SubscriptionManager.Unsubscribe | apps/gateway/src/server.ts:843-849 | the unsubscribe command, held or not |
| Subscriptions.SubscriptionManager.AddUser | apps/gateway/src/subscriptions.ts:153-155 | a session put on its account's topic |
| Subscriptions.SubscriptionManager.DropConversation | apps/gateway/src/subscriptions.ts:95-111 | the loop takes exactly the conversation and the channels of it the session holds |
| Subscriptions.SubscriptionManager.RemoveAll | apps/gateway/src/subscriptions.ts:175-182 | the loop takes everything |
| Subscriptions.SubscriptionManager.Destroy | apps/gateway/src/server.ts:563-573 | a session closed and forgotten |
| Subscriptions.SubscriptionManager.Handle | apps/gateway/src/subscriptions.ts:35-93 | who an event goes to, and what it then takes from them, in whatever order they are visited |
| Subscriptions.AddedKeeps | apps/gateway/src/subscriptions.ts:113-133 | adding keeps topics, bus and timers in step and puts exactly one session on one topic |
| Subscriptions.RemovedKeeps | apps/gateway/src/subscriptions.ts:135-151 | removing takes exactly one off |
| Subscriptions.FiredKeeps | apps/gateway/src/subscriptions.ts:141-147 | a timer, stray or not, takes nobody off |
| Subscriptions.StepKeeps | apps/gateway/src/subscriptions.ts:35-182 | every step keeps bus, topics, timers and both indexes in agreement |
| Subscriptions.RunsKeep | apps/gateway/src/subscriptions.ts:35-182 | so does every run |
| Subscriptions.ReachesExactly | apps/gateway/src/subscriptions.ts:35-60 | in every run an event reaches exactly the sessions holding its conversation, less those it excludes, and a topic somebody is on is subscribed |
| Subscriptions.OtherDevicesHear | apps/gateway/src/subscriptions.ts:50-58 | an event that names its device goes to the account's others and not to that one |
| Subscriptions.SubscribingHolds | apps/gateway/src/subscriptions.ts:113-170 | a conversation is held, with its space, if and only if its topic is there or the bus takes it on |
| Subscriptions.UnsubscribingLetsGo | apps/gateway/src/server.ts:843-849 | and let go of by itself |
| Subscriptions.GreetingRegisters | apps/gateway/src/subscriptions.ts:153-155 | a session is registered on its account's topic on the same condition |
| Subscriptions.OnlyTimersUnsubscribe | apps/gateway/src/subscriptions.ts:135-151 | nothing but a timer of its own takes a topic off the bus |
| Subscriptions.RemovalTakesChannels | apps/gateway/src/subscriptions.ts:62-111 | a kick or deletion takes the space and every held channel of it from exactly the sessions it reaches, and nothing else |
| Subscriptions.RevocationSilences | apps/gateway/src/subscriptions.ts:82-91 | a revoked session the event reached is on no topic at all |
| Subscriptions.OutStaysOut | apps/gateway/src/subscriptions.ts:95-111 | a session taken off a conversation hears nothing of it until it asks again |
| Subscriptions.TimersLetGo | apps/gateway/src/subscriptions.ts:141-150 | once every timer has gone off the bus delivers exactly the topics somebody is on |
| Updater.AssetRefs | desktop/src-tauri/src/main.rs:121-147 | the scanner lists exactly the absolute references of a text, each once |
| Updater.RelativeRefs | desktop/src-tauri/src/main.rs:89-118 | and the other exactly the relative ones, resolved |
| Updater.RefsAre | desktop/src-tauri/src/main.rs:89-147 | what a reference is: where it begins, where it ends, which are kept |
| Updater.ReadsOver | desktop/src-tauri/src/main.rs:128-145 | stepping to a reference's end misses none |
| Updater.AbsoluteRefsAre | desktop/src-tauri/src/main.rs:121-147 | what an absolute reference is, character by character |
| Updater.RelativeRefsAre | desktop/src-tauri/src/main.rs:89-118 | and a relative one |
| Updater.ClosedHoldsReachable | desktop/src-tauri/src/main.rs:191-218 | files closed under naming hold everything reachable |
| Updater.Follow | desktop/src-tauri/src/main.rs:204-212 | what one body adds to the worklist |
| Updater.PushNew | desktop/src-tauri/src/main.rs:206-210 | the list grows by what is new, each once |
| Updater.Updater.FetchOne | desktop/src-tauri/src/main.rs:195-217 | one turn of the worklist |
| Updater.Updater.FetchAll | desktop/src-tauri/src/main.rs:191-218 | the worklist ends on every finite site; what was fetched is reachable, and each once |
| Updater.Updater.Stage | desktop/src-tauri/src/main.rs:187-221 | the staging folder holds the page and exactly the reachable files, or the attempt failed for a named reason |
| Updater.Updater.CheckForUpdate | desktop/src-tauri/src/main.rs:161-230 | kept exactly when unmarked or the same; updated to exactly that bundle; a failed fetch leaves the current one untouched, and only the last rename can cost it, the new one being staged |
| Updater.BundleIsClosed | desktop/src-tauri/src/main.rs:191-221 | in an updated folder is whatever the page, or any script or style sheet there, refers to, as the site has it |
| Updater.NothingStray | desktop/src-tauri/src/main.rs:191-221 | and nothing else: each file is referred to by the page, or by a script or style sheet itself there |
| Clock.ZonedTime | bots/utility/src/clock.ts:133-150 | the two-correction loop |
| Clock.FindsEveryTime | bots/utility/src/clock.ts:125-150 | with one change of offset nearby the result reads the time asked for if and only if some instant does |
| Clock.PicksOfTwo | bots/utility/src/clock.ts:133-150 | which of two such instants it is |
| Clock.MissesByTheGap | bots/utility/src/clock.ts:133-150 | a skipped time is missed by exactly the gap, and which way |
| Clock.TwoChangesCanMiss | bots/utility/src/clock.ts:129-131 | two changes of an hour within half a day can hide a time that exists |
| Clock.ReadDuration | bots/utility/src/clock.ts:190-202 | the duration loop of `parseWhen` |
| Clock.SumIsNoNumber | bots/utility/src/clock.ts:190-202 | for every text the sum is no number if and only if one of the units read is `constructor` in any letter case |
| Clock.ConstructorIsAUnit | bots/utility/src/clock.ts:195-199 | `5 constructor` is such a text |
| Clock.FractionIsWholeTakenDown | bots/utility/src/clock.ts:198 | the digits after a point are the same number so many places down |
| Clock.UnitsAgree | bots/utility/src/clock.ts:10-32 | the units make one another up, and their long names are theirs |
| Clock.Format | bots/utility/src/clock.ts:284-301 | the parts pushed and cut to two |
| Clock.MatchesPart | bots/utility/src/clock.ts:161 | the pattern reads one printed part and no further |
| Clock.ShownReadsBack | bots/utility/src/clock.ts:190-202 | one or two printed parts read back as their sum, leaving nothing |
| Clock.HeardIs | bots/utility/src/clock.ts:284-301 | exactly how much of a duration is printed |
| Clock.SaidReadsBack | bots/utility/src/clock.ts:190-202 | a duration printed, to the nearest second, and read back loses less than an hour, nothing below an hour, and nothing is left unread |
| Reminders.Store.Set | bots/utility/src/store.ts:49-55 | the state now, a write to follow |
| Reminders.BeginKeeps | bots/utility/src/store.ts:57-58 | making the text a write will put in the file keeps every promise: it holds what must not be lost and nothing forgotten |
| Reminders.Store.Commit | bots/utility/src/store.ts:59-62 | the file is replaced whole, one write after another |
| Reminders.Reminders.Add | bots/utility/src/reminders.ts:65-68 | `add` up to its wait |
| Reminders.Reminders.AddGoesOn | bots/utility/src/reminders.ts:69-70 | and after it |
| Reminders.Reminders.Cancel | bots/utility/src/reminders.ts:80-91 | only the owner's, its timer and its entry |
| Reminders.Reminders.Schedule | bots/utility/src/reminders.ts:93-107 | one timer, chained past the longest wait |
| Reminders.Reminders.GoOff | bots/utility/src/reminders.ts:97-106 | what a timer does |
| Reminders.Reminders.Fire | bots/utility/src/reminders.ts:109-125 | up to the send |
| Reminders.Reminders.FireEnds | bots/utility/src/reminders.ts:128-131 | after it, sent or not |
| Reminders.Reminders.Resume | bots/utility/src/reminders.ts:47-53 | the loop fires what is overdue and schedules the rest |
| Reminders.Reminders.Flush | bots/utility/src/store.ts:50-54 | a finished write and whoever waited for it |
| Reminders.WithoutLeaves | bots/utility/src/reminders.ts:89 | filtering takes exactly one id |
| Reminders.StepKeeps | bots/utility/src/reminders.ts:47-132 | every step, a crash and a start in any zone included, keeps every promise on disk |
| Reminders.RunsKeep | bots/utility/src/reminders.ts:47-132 | so does every run |
| Reminders.KeptUntilSent | bots/utility/src/reminders.ts:65-71 | a reminder whose add came back, or that a start found, is on disk until its send is attempted, its owner cancels it or a start drops it, and has a timer while the bot runs |
| Reminders.WrittenStays | bots/utility/src/store.ts:4-12 | a written removal is never undone by a crash, and a quiet file is the list in memory: no change loses another's |
| Reminders.NeverEarly | bots/utility/src/reminders.ts:24-26 | no timer waits longer than it can, none fires early, and one that fires does so when it is due or at once |
| Reminders.AddIsWaiting | bots/utility/src/reminders.ts:65-68 | an add puts its reminder on the list, disturbs no other, and waits for its write |
| Reminders.CancelIsItsOwners | bots/utility/src/reminders.ts:80-91 | a cancel by its owner takes a reminder and its timer and no other; one by anybody else does nothing |
| Reminders.SendTakesOne | bots/utility/src/reminders.ts:128-131 | sent or not, that reminder alone is taken off |
| Reminders.SentOncePerStart | bots/utility/src/reminders.ts:109-131 | between two starts a reminder is sent at most once |
| Reminders.BadZoneLoses | bots/utility/src/reminders.ts:111-131 | from every state a start can come from, it loses an unsent reminder of the file if and only if the zone does not exist and the reminder is overdue |
| Reminders.CancelStops | bots/utility/src/reminders.ts:80-91 | from every running state a cancelled reminder is never sent, starts after its removal is written included, if and only if no add of it was waiting |
| Reminders.WaitingIsSent | bots/utility/src/reminders.ts:65-107 | an add waiting for its write or its timer is sent in some run however far off it is, its timers chained |
| Reminders.CrashUndoesCancel | bots/utility/src/store.ts:49-62 | a process that dies before a removal is written brings the reminder back at the next start |
| PngBadge.MakeTable | desktop/gen-badge.js:23-27 | the table is eight shifts of each byte |
| PngBadge.LookUp | desktop/gen-badge.js:30 | one look in the table is eight bits fed one by one |
| PngBadge.Crc32 | desktop/gen-badge.js:28-32 | the table-driven CRC is the bit-by-bit one, for every message |
| PngBadge.FeedWord | desktop/gen-badge.js:28-32 | up to a word of bits is one addition and as many shifts |
| PngBadge.FeedIsRemainder | desktop/gen-badge.js:28-32 | the register is a polynomial remainder |
| PngBadge.CrcIsRemainder | desktop/gen-badge.js:28-32 | the CRC is, reversed and complemented, what is left on dividing the message by the generator |
| PngBadge.BurstShows | desktop/gen-badge.js:28-32 | no change within a run of 32 bits goes unnoticed |
| PngBadge.ChangeShows | desktop/gen-badge.js:28-32 | nor any change of up to four bytes in a row |
| PngBadge.LengthReadsBack | desktop/gen-badge.js:34-35 | a length written big-endian reads back |
| PngBadge.Word4IsBigEndian | desktop/gen-badge.js:37-38 | the CRC's four bytes, read most significant first, are its value |
| PngBadge.FramedSays | desktop/gen-badge.js:33-40 | a chunk is its length, type and data, and the CRC of the last two, both numbers most significant byte first |
| PngBadge.Chunk | desktop/gen-badge.js:33-40 | length, type, data and CRC, or the error for a length past 32 bits |
| PngBadge.ChunkReadsBack | desktop/gen-badge.js:33-40 | a chunk reads back as it was put in if and only if its type is four single-byte characters |
| PngBadge.ChangedChunkIsRefused | desktop/gen-badge.js:36-38 | a chunk with up to four bytes in a row changed is refused |
| PngBadge.ChunksReadBack | desktop/gen-badge.js:48-55 | any run of chunks reads back as itself |

## Left out

- Real cryptography, base64 and JSON: terms and injective text stand for them; a key or an
  envelope that does not decode is `Garbled` or `Unreadable`.
- 64-bit overflow of counters, and key pairs that collide.
- The signature is over a pair of the header text and the ciphertext, not their concatenation.
- Sealing to many devices at once, the directory cache and the choice of format: each copy
  is sealed on its own, and one pair of devices is followed.
- A second initiator: `Conversation` and `Messaging` fix one per run; what two do is in `CrossedStarts` and `CrossedRuns`.
- CrossedRuns.CrossedExactly: runs in which a device that gave up its start gives up a session again are covered by `CrossedForGood` alone.
- Messaging.EveryMessageIsShown: histories up to the first restart; what one does and what follows it is in `Restarting`.
- The keychain, files, HTTP and WebSockets beyond the atomic effect each call is meant to have.
- Conversation.KeysNeverReused: sends go through the store one at a time, as its actor makes them; the actor is not modelled.
- The bus itself and races inside a pending subscription: `add` is one step; PgBus is not part of this model.
- Batches of thirty-two in `addConversations`: each conversation is a step of its own.
- Subscriptions.SubscriptionManager.Handle: the serialised frame is not modelled, and a Set's own visiting order is any order.
- How long an unsubscribe is deferred: a timer may go off at any moment after it is set.
- The per-socket frame budget, heartbeats, presence, read and delivery cursors, commands other than subscribe and unsubscribe.
- A connection cap under concurrent IDENTIFYs.
- SharedSession.ReplacedIdsStayGone: a relaunch of the app, which would read its private items anew, is not a step; nor is a write to the shared item that fails while reads succeed.
- The single-flight refresh per process and the one retry after a 401 in `ApiClient`.
- The lease's polling every 50 ms and its 35 s limit: a waiting refresh may give up at any moment.
- The gateway address that follows the API index, and when the stall watchdog, the backoff, the heartbeat and the network watcher act: the client may give up or start over at any moment.
- VoiceChannels.RunsUseOwnCredentials: a request reads its token in the step that checks the account, as one lock makes it.
- VoiceChannels.OneSeat: one account throughout, and leave requests that succeed; rosters, media and the mute button are left out.
- Updater.Updater.FetchAll: one site throughout an update, and distinct paths for distinct files; a folder removal happens whole or not at all.
- The updater's event to the page, the protocol handler and the tray.
- Calendar arithmetic and `Intl`: a zone is an offset in whole minutes at each instant.
- The rest of `parseWhen` (clock times, prefixes, zones) and rounding of fractional numbers.
- Reminders.KeptUntilSent: writes succeed; a write that fails is logged by the source and lost.
- `setTimeout` firing early, and the order of turns within one tick.
- Compression and the pixels of the badge.
