# A verified model of the offline-first messaging engine

This project models the core of the mobile client in `core/src`: the local event
log and the room state derived from it, the outbound queue with its local echoes,
the pass that drives MLS group state and the plaintext cache from the log, the
to-device Welcomes, and the sync loop with its opaque token. It proves what these
parts promise one by one and, above all, what they promise together when the sync
loop, several inbound passes, the flush pass, the server and crashes interleave
call by call.

## How it is built

- **Values.** `Events`, `Tables`, `Mls` and `Render` describe stored rows, the four
  tables, the engine with its keystore copy, and what the user is shown. `Effects`
  says what each transaction and read comes to in the fields of wires and rows.
  `Inbound`, `Flush`, `Sync` and `Welcoming` give each pass as a function of the
  tables, the engine and what the environment decides (replies, keystore outcomes,
  engine verdicts).
- **Classes.** `LocalStore`, `E2ee`, `PigeonClient` and `ChatViewModel` are the
  imperative code, with the loops and the early exits of the original. Each method
  is proved equal to the function of the same step.
- **The machine.** `Machine` splits the same activities into single store and
  engine calls and lets them interleave freely, with any number of sync loops and
  inbound passes, a server that takes requests late and more than once, and a
  crash at any point. `Invariants` and `Steps` prove one inductive invariant,
  `Runs` draws the theorems from it, `KeyUse` carries the ratchet's theorems over
  to all runs, `Overlap` and `CatchUp` do so for epoch tracking, `JoinTiming` says
  when a Welcome may come, and `Uninterrupted` proves that an inbound pass, a flush
  pass and a sync round left alone in the machine are the sequential functions, so
  both halves speak of the same program.

MLS is symbolic and follows RFC 9420: a commit applies at its own epoch only
(section 12.4.2), a Welcome puts the joiner at the post-commit epoch (section
12.4.3.1), a message key opens once (section 9.2), and nobody opens their own
ciphertext. A failed engine operation leaves the device as it was; a failed
keystore write leaves memory ahead of the keystore and hides the result.

## What turned out to need care

Several promises do not hold of the code on all inputs. Each of them comes with an
input or a run on which it fails, and with the exact condition under which it holds.

- **Ties in depth.** Replaying an older batch with a tied state event flips the
  winner (`ReplayFlipsTie`). The order in which events are applied is irrelevant
  exactly when no slot is tied at its greatest depth (`OrderIrrelevantIff`), a
  replay is harmless exactly when it flips no tie (`ReplayHarmlessIff`), and
  `SilentRoundHarmlessIff` carries this to a sync round that does not notify.
- **A Welcome for a held group.** An engine that accepts one starts the group over
  and repeats keys. There are two ways to get there. The client asks whether the
  group is held only when the Welcome names its room, so an unnamed one that
  arrives twice does it (`UnnamedWelcomeRepeatsKey`). And asking and joining are
  two calls: two sync loops can both ask before either joins, and then one named
  Welcome seals two different messages under one key (`OneKeyTwoMessages`). A
  named Welcome starts a held group over exactly when it is accepted and some step
  between its loop's check and its join acquired the group
  (`NamedJoinStartsOverIff`); without such a race no run repeats a key
  (`NamedRunsNeverRepeat`) and only a crash can take a group back
  (`NamedRunsFallByCrashOnlyIff`). In general no run repeats a key exactly when no
  step starts a group at or before an epoch something was released in
  (`KeysNeverRepeatIff`, `StartIsSafeIff`, `WriteAheadRatchetIff`). For one list
  handled without interruption `HeldGroupKeptIff`, `JoinedAtMostOnceIff` and
  `ReplayIsNoOpIff` say exactly which lists do no harm.
- **Epochs that fall.** A held group moves to an earlier epoch exactly when a
  Welcome starts it further back or a crash comes between raising a group and the
  next keystore write that succeeds (`NoRollBackIff`, `EpochsNeverFallIff`).
- **Failed writes and loads.** A message whose write or load fails at its turn is
  given up without its text (`FailedOpeningLosesMessage`); every other one since the
  join is readable, and epochs are right either way (`EveryPassCatchesUp`). Only a
  commit whose load fails leaves its group behind (`FailedLoadStrandsGroup`), and a
  pass gets all epochs right exactly when no commit that applies does
  (`EpochsRightIff`).
- **Two questions, two calls.** `has_group` and `is_room_encrypted` are separate
  calls, and `GroupBetweenTheQuestions` is a run in which a group appears between
  them. A plaintext send was decided with no group held exactly when no step in
  between acquired it (`HeldWhenDecidedIff`); in any case the pass first saw no
  group and later no marker (`PlaintextWasDecided`), and a stored marker ends
  plaintext for good (`NoPlaintextFallback`).
- **A question that fails.** When the engine cannot say whether it holds a group,
  the sync loop skips the Welcome and still acknowledges it, so it is lost
  (`UnaskedWelcomeIsLost`), and it stays lost exactly until its group is acquired or
  the same Welcome is delivered again and refused (`UnaskedStaysLostIff`); an inbound
  pass stops and ends the loop after the batch was stored, without calling the
  observer (`UnannouncedMessage`, `FatalRoundIff`); and a flush pass fails the send,
  which may overtake one that waits (`PassLeavesSuffixIff`).
- **Joining in the middle of a pass.** A pass works from a snapshot and skips the
  rooms it has no group for. If the Welcome is joined before it gets to a later
  commit of such a room, the messages it skipped are lost
  (`JoinInMidPassLosesMessage`). Joining leaves every later pass able to catch up
  exactly when no pass has an event of the room ahead that would leave behind one it
  has skipped (`JoinIsHarmlessIff`); then every pass catches up however it overlaps
  with others (`EveryWholePassCatchesUp`).
- **Text that is image JSON.** A typed text that parses as `p.image` content shows
  as typed when the acknowledgement comes first and as an image when the sync does
  (`OrderShowsThroughImageText`); `AckAndSyncConverge` gives the exact condition.
- **A cached row given up later.** Its text and image stay; a captionless image
  also shows the placeholder line (`CachedLooksTheSame`).
- **An acknowledged message may leave the page.** The echo takes the server's id at
  its own depth, so a tied row may sort above it; `PromotedOnPageIff` gives the exact
  condition and `TieTakesPage` an input.
- **Adding devices is not atomic.** The inviter's group moves when a device is
  added, so a delivery that fails after that leaves earlier members one epoch
  behind; `MembersKeepUpIff` gives the exact condition.
- **Transaction ids.** `docs/ARCHITECTURE.md:103` says the server does not dedup on
  the transaction id, `core/src/api.rs:457-459` says that it does. The model
  follows the code.

## Assumptions

- The server dedups sends per room on the transaction id, never assigns an id with
  the `$local-` prefix, and an event id determines its event. Transaction ids and
  provisional ids are fresh. The server only delivers events it has, or events that
  do not parse.
- A keystore write that reports success is durable.
- The machine has an engine; the sequential functions also cover a session without
  one.

## Model

| member | source | states |
|---|---|---|
| Store.LocalStore.ApplyEvents | core/src/store.rs:330-349 | A batch is applied if and only if every wire in it has its six required fields; then exactly the new ids get a row, with the columns of the first wire that brings them, every slot a wire aims at is taken at least at its depth, and the number of new rows is returned; otherwise nothing changes and the error names a missing field |
| Events.WireParses | core/src/store.rs:162-196 | A wire event parses if and only if its six required fields are there, and each column is that field, the state key included |
| Effects.BatchIsStored | core/src/store.rs:757-794 | The same of the batch as a function of the tables, row by row and slot by slot |
| CurrentState.ApplyAllKeeps | core/src/store.rs:330-349 | Any batch keeps columns equal to payloads and every state slot at a deepest logged event of its room, type and key, and never lowers a slot's depth |
| CurrentState.WinnerIsLastDeepest | core/src/store.rs:780-794 | What a batch offers a slot is its last event among the deepest |
| CurrentState.FoldTakesWinner | core/src/store.rs:780-794 | With ties or without, a slot after a batch is the incumbent or that offer, whichever is deeper, and the offer on a tie |
| CurrentState.TwiceIsOnce | core/src/store.rs:330-349 | Applying one batch twice in a row equals applying it once, from any store |
| CurrentState.OrderIrrelevantIff | core/src/store.rs:330-349 | Every permutation, re-batching and repetition of a set of events leaves the same store if and only if no slot is tied at its greatest depth |
| CurrentState.ReplayHarmlessIff | core/src/store.rs:780-794 | Replaying logged events changes nothing if and only if each slot they target is held by their own winner or by something strictly deeper |
| CurrentState.ReplayFlipsTie | core/src/store.rs:780-794 | A concrete tied pair where replaying the older batch renames the room |
| CurrentState.InsertedCountsNew | core/src/store.rs:757-774 | A batch reports zero insertions if and only if it held nothing new |
| CurrentState.RoomListMatchesLog | core/src/store.rs:405-438 | A room is listed and marked encrypted exactly as a scan of its whole log says, and its name and topic are those of a deepest event, absent only if there is none |
| CurrentState.RoomListIsLastDeepest | core/src/store.rs:405-438 | Over a whole history name and topic are those of the last applied of the deepest name and topic events |
| CurrentState.RowReadsBack | core/src/store.rs:800-814 | Reading a stored row back never fails and its cursor is the depth the queries filter on |
| Store.LocalStore.Rooms | core/src/store.rs:405-438 | Exactly the rooms with a state event in the log, each once, most recent activity first and then by room id, the activity being the greatest time stamp of the room, 0 when it has no row |
| Effects.StateRead | core/src/store.rs:462-484 | A state read gives a deepest logged event of its room, type and key, confirmed and undecrypted, and nothing if and only if there is none |
| Store.LocalStore.Timeline | core/src/store.rs:358-399 | The page is the newest eligible rows, oldest first, and fails only if one of its rows does not parse |
| Timeline.PageIsSlice | core/src/store.rs:358-399 | Each page is the contiguous slice of the full timeline that ends at the cursor |
| Timeline.PagingReturnsExactly | core/src/store.rs:358-399 | Paging backwards ends, never repeats or misorders a row, and leaves out exactly the commits and the rows a depth tie skips |
| Timeline.PagesConcatenate | core/src/store.rs:358-399 | With distinct depths the pages are the whole timeline |
| Order.AscendingUnique | core/src/store.rs:373-399 | Two sorted lists with the same members are equal, so reading newest first and reversing gives the sorted timeline |
| Store.LocalStore.QueueSend | core/src/store.rs:505-546 | Echo and queue row are written together, or nothing is when an id is taken: the echo is a plain text of the sender, in the room, at the given time, one past the deepest row of the room (1 in an empty room) and last on its newest page, and the queue row has the room, the text and that time |
| Store.LocalStore.QueuedSends | core/src/store.rs:549-566 | Every queued send exactly once with its room and body, in order of creation time and then of transaction id as text |
| Store.LocalStore.RoomHasPendingSend | core/src/store.rs:572-580 | True exactly when the queue lists a send for the room |
| Store.LocalStore.ResolveSend | core/src/store.rs:592-634 | The queue row goes; the echo takes the id and keeps room, sender, type, time, depth and content, or, when sync was first, goes while a ciphertext row takes the typed text; nothing else changes |
| Tables.ResolveEffect | core/src/store.rs:592-634 | The same of the function, row by row and field by field |
| Effects.PromotedAmongRows | core/src/store.rs:617-629 | On every page of every room the acknowledged id takes the echo's place among the eligible rows, at the same depth |
| Effects.PromotedOnPageIff | core/src/store.rs:617-629 | The acknowledged row is on a page if and only if fewer rows than the limit sort above its new id |
| Effects.PromotedStaysOnPage | core/src/store.rs:617-629 | So it is on every page the echo was on, unless a row of the same depth sorts between the two ids |
| Effects.TieTakesPage | core/src/store.rs:617-629 | Two rows of one depth where the acknowledgement takes the sent message off the newest page |
| Effects.OnPageIff | core/src/store.rs:358-399 | A page holds a row if and only if the row is eligible and fewer than the limit of the eligible rows sort above it |
| Store.LocalStore.FailSend | core/src/store.rs:638-657 | The echo is flagged failed, nothing else about it changes, and the queue row goes |
| Store.LocalStore.InboundMls | core/src/store.rs:670-718 | Exactly the untried ciphertexts and commits of all rooms that carry their material, each told as its row has it, by depth and then by id |
| Store.LocalStore.SetDecrypted | core/src/store.rs:723-729 | The plaintext is cached and the row done |
| Store.LocalStore.SetDecryptFailed | core/src/store.rs:734-740 | The row is given up, its cached plaintext untouched |
| Store.LocalStore.SetCommitProcessed | core/src/store.rs:746-752 | The commit row is done |
| Store.LocalStore.RoomIsEncrypted | core/src/store.rs:487-496 | True exactly when the log holds an encryption event of the room under any key |
| E2eeEngine.E2ee.Seal | core/src/e2ee.rs:215-221 | The advanced device is saved before a ciphertext is returned; a failed write returns none and leaves memory ahead |
| E2eeEngine.E2ee.Open | core/src/e2ee.rs:228-237 | The key is spent and saved before the text is returned |
| E2eeEngine.E2ee.Apply | core/src/e2ee.rs:193-199 | A commit moves the group one epoch if it applies and otherwise changes nothing |
| E2eeEngine.E2ee.Join | core/src/e2ee.rs:205-210 | A Welcome for this device puts its group at the Welcome's epoch |
| E2eeEngine.E2ee.NewGroup | core/src/e2ee.rs:152-156 | The room's group starts at epoch zero and is saved |
| E2eeEngine.E2ee.Add | core/src/e2ee.rs:164-183 | The inviter's group moves at once; Welcome and commit are released only after the save |
| E2eeEngine.E2ee.HasRoom | core/src/e2ee.rs:145-148 | An error when the group cannot be loaded, and otherwise true exactly when a message could be sealed for the room |
| E2eeEngine.E2ee.Restore | core/src/e2ee.rs:86-99 | A relaunch resumes exactly where a crash leaves the engine; nothing stored gives none, an unreadable or damaged entry an error |
| E2eeEngine.E2ee.Create | core/src/e2ee.rs:75-81 | A fresh identity with no groups, in memory and keystore alike, or an error if it could not be saved |
| Ratchet.WriteAheadRatchetIff | core/src/e2ee.rs:215-237 | Over any operations, failed writes and crashes, now and in any continuation that starts no group, no two released ciphertexts share room, epoch and generation and no message key yields its text twice, if and only if no group is started at or before an epoch something was released in |
| Ratchet.StartIsSafeIff | core/src/e2ee.rs:205-210 | Joining or creating a group keeps every continuation free of repeated keys if and only if everything released in the room is from before the epoch it starts at |
| Ratchet.HeldCheckSuffices | core/src/e2ee.rs:201-210 | A start that finds its group not held, at the call itself, is past everything released |
| Ratchet.UnnamedWelcomeRepeatsKey | core/src/sync.rs:186-206 | A Welcome without a room id that is delivered twice makes the engine seal twice under one key |
| Ratchet.NoRollBackIff | core/src/e2ee.rs:314-322 | Over any operations no held group is lost or moves to an earlier epoch from memory and keystore that agree, if and only if none is started further back and no crash comes between raising a group and the next write that succeeds |
| KeyUse.KeysNeverRepeatIff | core/src/e2ee.rs:201-237 | In a run of the machine, now and in any continuation that starts no group, no key is used twice if and only if no step starts a group at or before an epoch something was released in |
| KeyUse.NamedJoinStartsOverIff | core/src/sync.rs:186-203 | Every join of a Welcome that names its group was checked by its loop before; it starts a held group over if and only if it is accepted for this device and some step between the two acquired the group |
| KeyUse.NamedRunsNeverRepeat | core/src/sync.rs:186-203 | A run in which every Welcome joined names its group and no join loses that race never uses a key twice |
| KeyUse.EpochsNeverFallIff | core/src/e2ee.rs:201-210 | In a run no held group is ever lost or moves to an earlier epoch if and only if no Welcome starts one further back and no crash comes between raising a group and the next write that succeeds |
| KeyUse.NamedRunsFallByCrashOnlyIff | core/src/sync.rs:186-203 | In such a run no held group is ever lost or moves to an earlier epoch if and only if every crash finds that none was raised since the last write that succeeded |
| TwoLoops.OneKeyTwoMessages | core/src/sync.rs:186-203 | A run in which two loops join one named Welcome and two messages of any texts go out sealed under one key |
| Welcoming.MembersKeepUpIff | core/src/rooms.rs:692-715 | An earlier member that applies the commits the server got reaches the inviter's epoch if and only if the first claim that fails was refused by the engine or had its commit reach the server |
| Welcoming.NewcomersKeepUp | core/src/rooms.rs:692-715 | Each added device, given all the commits the server got, ends where the earlier members do, or at the inviter's epoch if its own commit was lost |
| Welcoming.ShippedInOrder | core/src/rooms.rs:692-715 | Commits and Welcomes reach the server in consecutive epochs, up to the first claim that fails, a Welcome at most one ahead of its commit |
| Client.PigeonClient.WelcomeToGroup | core/src/rooms.rs:692-715 | The loop over claimed packages, up to its first failure, is that function |
| Inbound.HeldGroupKeptIff | core/src/sync.rs:166-219 | Handling any list leaves a held group exactly as it was, whatever the engine says, if and only if every Welcome into it that reaches the engine would start it in the state it is in |
| Inbound.NamedWelcomesNeverRollBack | core/src/sync.rs:184-203 | Handled without interruption, a list whose Welcomes name the group inside never touches a held group, whatever is redelivered |
| Inbound.JoinedAtMostOnceIff | core/src/sync.rs:166-219 | Handling any list joins each group at most once and never one that was held, whatever the engine says, if and only if no Welcome for a held group reaches the engine and of two for one group the later names it |
| Inbound.ReplayIsNoOpIff | core/src/sync.rs:166-219 | Replaying any to-device list is a no-op under every verdict if and only if each of its Welcomes for this device names a held group |
| Inbound.ProcessedListIsNoOpIff | core/src/sync.rs:166-219 | A processed list changes nothing and returns false ever after if and only if each of its Welcomes for this device names a group held by then, so always when all name their groups and succeeded |
| Client.PigeonClient.ApplyToDevice | core/src/sync.rs:166-219 | The loop over to-device events, skipping a Welcome whose group is held or cannot be asked for, is that function and touches no table |
| Client.PigeonClient.ProcessInboundMls | core/src/rooms.rs:612-675 | The pass over the snapshot taken at the start, ended early by a group that cannot be loaded, is the sequential pass, and its result says whether anything was handled |
| Client.PigeonClient.HandleInbound | core/src/rooms.rs:619-672 | One item: rooms without a group wait, own commits are only marked, own messages wait for a pending send, every outcome is recorded, and a group that cannot be loaded is an error |
| EpochTracking.PassTracks | core/src/rooms.rs:612-675 | A pass over a linear history, whatever writes and message loads fail, handles each held room's stored events to the end, records exactly which messages it missed, and disturbs no other room |
| EpochTracking.RunTracks | core/src/rooms.rs:612-675 | Arrivals in any order, Welcomes early or late, own sends and earlier passes with failures of their own keep every room on track |
| EpochTracking.EveryPassCatchesUp | core/src/rooms.rs:612-675 | With passes one after another, after every pass whose questions are answered each held group is exactly at the later of its join and the stored commits, a foreign message is cached with its true text if and only if it was sealed since the join and its load and write succeeded at its turn, and every other one is given up |
| EpochTracking.EpochsRightIff | core/src/e2ee.rs:193-199 | A pass whose questions are answered leaves every held group at the right epoch if and only if every commit that applies at its turn loads its group |
| EpochTracking.FailedOpeningLosesMessage | core/src/rooms.rs:645-672 | A run of three steps in which a message is given up if and only if its load or write fails, for good if it was the write |
| EpochTracking.FailedLoadStrandsGroup | core/src/rooms.rs:619-643 | A commit whose load fails is consumed and its group stays behind |
| Overlap.StepOv | core/src/rooms.rs:612-675 | With passes overlapping each other, the sync loops, sends, failing writes and crashes, every tame step keeps every event since the join either worked to its proper end or within the group's reach, and makes nothing wait that did not |
| CatchUp.RunOverlaps | core/src/rooms.rs:612-675 | So does every tame run, from any state that stands so, the first one included |
| CatchUp.BeginsReady | core/src/e2ee.rs:75-81 | A fresh identity with an empty store stands so for every linear history |
| CatchUp.EveryWholePassCatchesUp | core/src/rooms.rs:612-675 | In such a run every pass that ends has caught up, in each room held when it began, with all that was stored then |
| CatchUp.EpochNeverAhead | core/src/e2ee.rs:193-199 | In such a run a group is never before the join nor past the stored commits |
| JoinTiming.JoinIsHarmlessIff | core/src/sync.rs:166-219 | Joining a room leaves every whole pass of every tame continuation caught up with it if and only if at that moment no pass has an event of the room ahead that would leave behind one it has skipped |
| MidPassJoin.JoinInMidPassLosesMessage | core/src/rooms.rs:643-672 | A run in which a Welcome is joined in the middle of a pass and a message the device could then open is given up for good |
| Client.PigeonClient.FlushPending | core/src/rooms.rs:502-576 | The loop over the queue, stopping at the first transient failure, is the sequential pass |
| Client.PigeonClient.FlushSend | core/src/rooms.rs:508-571 | One send: failed when the engine cannot be asked, sealed, plain or held, and what each reply does to the queue |
| Flush.PassRemoves | core/src/rooms.rs:502-576 | A pass dequeues exactly the sends it reached other than those that wait for a group, and `true` means exactly that the queue changed |
| Flush.PassLeavesSuffixIff | core/src/rooms.rs:502-576 | What is left of a room's queue is a suffix of it if and only if no send fails on the group question behind one that waits; so always when the engine answers, and then a held room keeps all it had |
| Flush.WaitingDoesNotBlock | core/src/rooms.rs:521-541 | A pass does what it would do if the sends that wait were not queued |
| Flush.PlaintextOnlyInPlainRooms | core/src/rooms.rs:583-592 | Every plaintext attempt of a pass is the typed text as plain text, for a room with no group and no marker; every other one is that text sealed for its room, with nothing in the clear |
| Client.PigeonClient.SendMessage | core/src/rooms.rs:480-487 | The message is queued with its echo and a flush pass follows; a taken id changes nothing |
| Client.PigeonClient.SyncRound | core/src/sync.rs:59-99 | Load the token, then fold, join, save the token, decrypt, flush, in that order, with the observer called if any stage changed something and not at all after an error |
| Sync.NoMissedRefresh | core/src/sync.rs:69-98 | Without depth ties a round that does not notify leaves every timeline page, the room list and every state read as they were |
| Sync.SilentRoundHarmlessIff | core/src/sync.rs:130-144 | With ties it leaves everything but the token alone if and only if the replayed batch flips no tie |
| Sync.FatalRoundIff | core/src/sync.rs:69-98 | A round ends the loop exactly when an event of some room lacks a field, and then changes nothing, or when the question about some stored message or commit still to be handled fails, and then every event of every room is stored and the token saved unannounced |
| Sync.RoundStoresEveryRoom | core/src/sync.rs:130-157 | A round in which no event lacks a field logs every event of every joined room, no other row but its own acknowledged sends, loses none but an echo, and saves the token; any other changes nothing |
| Sync.BatchSplits | core/src/sync.rs:131-141 | The batch is the timelines of all joined rooms one after another, each whole and in its order |
| Sync.UnannouncedMessage | core/src/sync.rs:69-98 | A round that stores a message, saves the token and never calls the observer |
| ChatView.MergeIs | android/app/src/main/java/com/pigeon/mobile/rooms/ChatViewModel.kt:157-158 | Union, distinct and sort of two parts of one timeline give that timeline |
| ChatView.SlicesMerge | android/app/src/main/java/com/pigeon/mobile/rooms/ChatViewModel.kt:157-158 | Overlapping or adjacent slices merge into their union in either order |
| ChatView.ChatViewModel.Refresh | android/app/src/main/java/com/pigeon/mobile/rooms/ChatViewModel.kt:59-68 | The view still shows an unbroken tail of the timeline, at least its newest page |
| ChatView.ChatViewModel.LoadOlder | android/app/src/main/java/com/pigeon/mobile/rooms/ChatViewModel.kt:71-87 | The tail grows by one page, and the top is reported exactly when nothing older is stored |
| ChatView.ChatViewModel.OpenAndScrollToTop | android/app/src/main/java/com/pigeon/mobile/rooms/ChatViewModel.kt:59-87 | Refreshing and loading older pages until the top leaves the whole timeline, oldest first, each event once |
| Render.TextShows | core/src/rooms.rs:99-165 | A text message shows its text and nothing else, under its own id, sender, time and cursor |
| Render.SendStateShows | core/src/rooms.rs:152-163 | An event is pending while its row is Sending, failed when it is Failed, and neither once confirmed |
| Render.ImageNeedsAddress | core/src/rooms.rs:174-207 | An attachment needs an address in text; an encrypted one takes address and key from its file; width and height are cut to 32 bits and the size is not |
| Render.MemberLine | core/src/rooms.rs:212-227 | A membership line is about the target, or the sender when none is named, and names who did it for invitations and bans only |
| Render.StateLine | core/src/rooms.rs:228-237 | Every other state event has its own line, a name's with the name in it, and what is none of them shows nothing |
| Render.UnreadShows | core/src/rooms.rs:120-151 | A ciphertext without its text shows nothing until it is given up, and then the placeholder |
| Order.TextLessIff | core/src/store.rs:373-399 | One id sorts before another if and only if it is a proper prefix of it or has the smaller character where they first differ |
| Steps.StepKeeps | core/src/rooms.rs:502-675 | Every single store, engine, server or crash step keeps the invariant, whatever else is under way |
| Runs.ReachableStore | core/src/store.rs:330-349 | In every reachable state every row reads back as its columns and every state slot holds a deepest logged event |
| Runs.StepGrows | core/src/store.rs:592-657 | No step drops or rewrites a server row or a cached plaintext, lowers a state slot, or takes back what became of a send |
| Runs.CachedLooksTheSame | core/src/rooms.rs:100-164 | A cached row looks the same whatever its decryption state, except exactly a captionless image that was given up |
| Runs.CachedPlaintextIsPermanent | core/src/rooms.rs:618-672 | Once set, a cached plaintext and the body and image it renders as never change in any run |
| Runs.OpenedIsCached | core/src/rooms.rs:645-672 | A ciphertext some pass opened is cached with its true text, unless the pass still has it in hand or died with it in hand |
| Runs.QueueAndEchoesConserved | core/src/store.rs:505-657 | Queue rows and Sending rows are in bijection, Failed rows are exactly the failed sends, and queued = pending + resolved + failed |
| Runs.OnlySettlingDequeues | core/src/store.rs:592-657 | A message leaves the queue only when the pass resolves or fails that very message |
| Runs.HeldStaysQueued | core/src/rooms.rs:521-541 | A message for an encrypted room without a group stays queued with a Sending echo while the pass goes on |
| Runs.ExactlyOnce | core/src/api.rs:454-470 | The server holds at most one event per queued message, carrying its text, in the clear only as plain text, and exactly the acknowledged one for a resolved message |
| Runs.NeverResent | core/src/rooms.rs:502-576 | Nothing resolved or failed is put on the wire again |
| Runs.AckAndSyncConverge | core/src/store.rs:592-634 | A resolved send is one confirmed row under the server's id, of this user and in the room it was typed in, with no echo and no queue row, showing the typed text if and only if it is no ciphertext row or the text is no image JSON |
| Runs.EchoIsOurs | core/src/store.rs:505-546 | While a send is pending or failed its echo is of this user, in its room, at the time it was typed, and shows the typed text as pending or as failed |
| Runs.OrderShowsThroughImageText | core/src/store.rs:603-612 | For image JSON the two orders of acknowledgement and delivery end in different renderings |
| Runs.TokenNeverOutrunsState | core/src/sync.rs:69-91 | In every reachable state every event of every room acknowledged by the stored token is logged, and until a crash finds memory ahead of the keystore its Welcomes are joined or held, were refused, or were skipped because the engine could not be asked |
| Runs.UnaskedWelcomeIsLost | core/src/sync.rs:190-200 | A run in which a Welcome whose group cannot be asked for is acknowledged, neither joined nor refused |
| Runs.UnaskedStaysLostIff | core/src/sync.rs:190-200 | A skipped Welcome is still neither held nor refused at any later time short of a crash if and only if it was so when skipped and no step since acquired its group or was refused the same Welcome |
| Runs.SuccessfulWriteCatchesUp | core/src/e2ee.rs:314-322 | A keystore write that succeeds saves everything earlier ones failed to, so a crash after it loses nothing |
| Runs.PlaintextWasDecided | core/src/rooms.rs:505-541 | Every plaintext message of ours was decided by a pass that saw no group for the room and then no marker |
| Runs.NoPlaintextFallback | core/src/rooms.rs:521-541 | Once the marker is stored nothing more is decided in plaintext for the room, and nothing queued since arrives in plaintext |
| Runs.GroupBetweenTheQuestions | core/src/rooms.rs:583-592 | A run in which a group is created between the two questions and the message still goes out in plaintext |
| Runs.HeldWhenDecidedIff | core/src/rooms.rs:583-592 | A plaintext send was decided with no group held if and only if no step between the two questions acquired the group |
| Uninterrupted.PassAlone | core/src/rooms.rs:612-675 | An inbound pass left alone in the machine is the sequential pass |
| Uninterrupted.FlushAlone | core/src/rooms.rs:502-576 | A flush pass left alone, with replies a deduplicating server could give, is the sequential pass |
| Uninterrupted.RoundAlone | core/src/sync.rs:59-99 | A sync round left alone is the sequential round, calls the observer exactly when one of its steps changed something, and leaves every activity at rest |

## Left out

- HTTP, JSON text, base64, UniFFI and logging: a payload is a record of the fields the client reads, and a reply is one of acknowledged, transient or rejected.
- Real MLS and AEAD cryptography, including the tolerance for out-of-order messages and skipped generations inside an epoch: the model opens any unspent key of the current epoch.
- SQL, WAL and schema migrations: a transaction is one atomic step that does not fail; aborts on database errors are not modelled.
- `send_image` and the media calls: they have no echo and no queue row.
- `restore_from_backup`, several accounts on one store file and several devices of one user.
- Concurrent committers and member removal. In the machine an invitation is one step that adds one device; the loop over several devices is modelled on its own in `Welcoming`.
- PassTracks: takes loads that succeed for the commits that apply, because a commit consumed without its group leaves the group behind; `EpochsRightIff` shows that this is the exact condition for a pass. It takes whole passes one after another; overlapping passes are the subject of `Overlap`.
- RunTracks: the same, and histories without gaps, because a missed commit leaves the messages behind it unreadable.
- EveryPassCatchesUp: the same.
- EveryWholePassCatchesUp: takes the runs of `Tame`: loads that succeed for the commits that apply, crashes that find memory and keystore agreeing, histories without gaps, Welcomes at the epoch of the commit that added the device, and none that starts over a group past that epoch. When it comes for a room not held, `JoinIsHarmlessIff` gives the exact condition.
- HeldCheckSuffices: takes the check and the start as one call, because that is what the engine would have to offer; for the two calls of the client see `NamedJoinStartsOverIff`.
- NamedWelcomesNeverRollBack: takes one list that nothing interrupts; for several loops see `NamedJoinStartsOverIff` and `OneKeyTwoMessages`.
- RoomListMatchesLog: does not say which of several tied events names the room, because the log does not record the order they were applied in; over a history `RoomListIsLastDeepest` does.
- TokenNeverOutrunsState: says nothing about Welcomes once a crash has found memory ahead of the keystore, because such a crash may lose a join that was already acknowledged.
- NoMissedRefresh: takes stores without depth ties; the tied case is `SilentRoundHarmlessIff`.
- AckAndSyncConverge: says nothing about depth and timestamp, which may differ between the two orders.
- FlushAlone: takes replies that the deduplicating server could give in turn, because other replies are not runs of the machine.
- RoundAlone: the same.
- Overflow of 64-bit depths and timestamps.
- The view after the store changed: `merge` keeps the first copy of an id, so nothing is claimed about it.
- The backoff arithmetic, error codes, content-URI parsing and the session branches: too easy to add anything.
- `SyncController.swift`: that only one loop runs is not a property of that code, so the machine allows any number.
