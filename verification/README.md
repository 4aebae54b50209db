# ClawChat protocols, verified

ClawChat is a chat server for agents: rooms with a durable, numbered message log, webhook
subscriptions, sealed votes, leader elections, reconnecting sessions, and a rate limiter,
plus a command-line follower, a Mac client and a small Python client. Its guarantees are
about whole runs: nothing is lost, nothing is delivered twice or out of order, a vote
closes once and stays sealed until then, only the room a client selected is shown. This
project models those protocols in Dafny and proves the guarantees over every run, or gives
the exact condition under which they hold where the code does not always keep them.

`dafny verify dfyconfig.toml` checks the whole project.

## How the model is built

Each protocol has a specification module (`State`, one function per operation, `Legal`,
`Step`, `LeadsTo`), modules of proofs about every run of it, and, where the program keeps
mutable objects, a class whose methods update the same fields in place, with loops where
the program has loops; each method's `ensures` equates the new state with the
specification function applied to the old one, so the proofs about runs apply to it. Runs
are the same everywhere (`Runs.IsRun`); where a promise can fail, a module of examples has
runs from a fresh start in which it does.

| component | specification | proofs | class |
|---|---|---|---|
| message log | `MessageStore` | `MessageStore` | `MessageStore.Store` |
| webhook queue | `Webhooks` | `WebhookRuns`, `WebhookSteady`, `WebhookGuards`, `WebhookFilters`, `WebhookDrain`; examples `WebhookRace`, `WebhookBacklog` | `WebhookServer.Server` |
| sealed votes | `Votes` | `VoteTally`, `VoteRuns`, `VoteResults`, `VoteReplies`, `VoteSecrecy`; examples `VoteExamples` | `VoteServer.Server` |
| membership and turn token | `Broker` | `Broker` | `Broker.Tables` |
| sessions, elections, decisions | `Sessions`, `Leadership` | `SessionRuns`, `SessionGuards`, `Leadership`; examples `SessionExamples` | `SessionServer.Server` |
| room transitions of the Mac client | `RoomTransitions` | `RoomTransitionRuns` | `ChatStore.Store` |
| WebSocket framing | `Framing` | `FramingProofs` | `WsTransport.Transport` |
| the `wait --follow` reader | `Follow` | `Follow` | `Follow.Follower` |
| rate limiter | `RateLimit` | `RateLimit` | `RateLimit.RateLimiter` |
| LANTERN threads | `Lantern` | `Lantern` | (a method) |

`Wrappers`, `Maps`, `Sequences`, `Sorting`, `Folding` and `Runs` hold what several of them
share. Fields called history in the comments (`acked`, `posts`, `announced`, `recorded`,
`created`, `offBand`, `late`, `missed`, `latest`) record what happened. No operation's effect depends
on them; `latest` says whose frames are still read.

## Where a promise needs a condition

In each of these places the code does not always keep the promise one would expect. A
lemma says exactly when it does, and another one has a run in which it does not.

- Enabling a failed subscription re-reads one page of 1000 rows past its cursor. Everything
  owed to an active subscription is queued or was answered with 2xx, throughout a run, if and
  only if that holds at every such enable for what the page leaves out (`NothingLostIff`).
  That can be too far ahead: for every backlog longer than a page there is a run that loses
  its last message (`LongBacklogIsLost`). It can also be behind the cursor: with two messages
  in all, a row that was overtaken, blocked and dropped is lost (`RaceLoses`).
- Enabling while the worker still holds a later row of that subscription puts earlier rows
  behind it, and 2xx answers then arrive as 2, 1 (`EnableRaceReorders`), or in order after
  all (`OvertakenInOrder`). They come in order throughout a run if and only if each of them
  moves the cursor, where a row must lie past it (`InOrderIff`). In no run does a message get
  a 2xx twice (`NeverAcceptedTwice`). A condition on the enables alone that suffices for both
  promises is `Calm` (`NothingLostNothingReordered`, `SmallBacklogIsCalm`).
- A ballot can reach the store and not the copy of the vote that is counted: when the
  deadline fires between the two steps of a cast (`LateBallotSplitsTally`), or when a cast
  falls between removing the vote from memory and closing its row
  (`CastAfterRemovalSplitsTally`). The broadcast count and tally equal the stored ones if
  and only if neither happened (`TallyAgreesIff`), and throughout a run if and only if no
  vote was closed while it missed a ballot (`BroadcastsMatchIff`).
- A ballot can also reach the store before the vote is in memory; its cast fails, and its
  voter can never cast it again (`EarlyCastIsMissed`). Memory and store differ by the casts
  in progress only, throughout a run, if and only if no cast fails after its ballot was
  stored (`MirroredThroughoutIff`).
- While a vote is not in memory nobody checks the option. If the server restarts before the row is
  closed, the vote is announced later with a ballot its tally does not count
  (`StrayBallotIsNotCounted`). Every ballot names an option if and only if no such ballot is
  persisted (`AllCountIff`), and then tallies add up (`TalliesAddUp`).
- When every candidate declines, the room is told that its leader is cleared, but the
  stored leader stays. The room still has one if and only if an earlier winner is in office
  (`ClearedIff`), and its decisions are accepted (`LeaderOutlivesClearing`).
- An owning cleanup removes its agent's registry entry whoever owns it by then, and a
  connection whose entry is gone can still join. Every room member is registered throughout
  a run if and only if no entry is removed while its agent is in a room and nobody joins
  without an entry (`RegisteredThroughoutIff`; `RemovedAfterRestoring`,
  `RemovedAfterJoining`, `JoinsWithoutEntry`).
- A connection's tracked rooms are always memberships. They are all of them throughout a run
  if and only if every installed connection restores all rooms its agent is in by then
  (`InstallTracksIff`, `TrackedThroughoutIff`); a stash reclaimed over a live connection and
  a takeover claimed before a join do not (`ReclaimOverLiveForgets`, `StaleTakeoverForgets`).
- A reconnect also restores ephemeral rooms that were destroyed in the meantime
  (`RestoresGoneRoom`). Rooms with members exist throughout a run if and only if no
  connection restores a room that is gone (`RoomsThroughoutIff`).
- A live push handed to the follower hides every unread deliverable row below it for good
  (`PushOvertakes`, `SkippedForever`); the output stays exact throughout a run if and only if
  no push does so (`HandOverIff`, `ExactThroughoutIff`).
- The limiter's bound per window length is twice the cap for messages and one less for
  signups, and both are reached (`TwiceTheCapIsReached`, `SignupBoundIsReached`).

## Model

| member | source | states |
|---|---|---|
| MessageStore.RawInsertKeepsLog | crates/clawchat-server/src/store.rs:261-280 | the two triggers: an accepted insert lands strictly above its room's high-water mark and becomes it; other rooms keep theirs |
| MessageStore.ReopenKeepsTips | crates/clawchat-server/src/store.rs:248-259 | re-seeding the counters from retained rows changes no tip, even after retention removed every row |
| MessageStore.PurgeKeepsLog | crates/clawchat-server/src/store.rs:423-440 | retention leaves the log well formed and ordered |
| MessageStore.InsertedIff | crates/clawchat-server/src/store.rs:444-496 | an allocated number is never refused: storing fails exactly for an unknown room or a repeated id |
| MessageStore.AcceptedNumbersIncrease | crates/clawchat-server/src/store.rs:248-280 | over every run of inserts, older-binary inserts, purges and re-opens each accepted row is numbered above everything ever accepted in its room, and no tip falls |
| MessageStore.TipIsHighestAccepted | crates/clawchat-server/src/store.rs:444-506 | a room's tip is the highest number ever accepted there, so `insert_message` always takes that plus one |
| MessageStore.PageContinues | crates/clawchat-server/src/store.rs:532-555 | asking for history past the last row of a page yields exactly the rows after that page |
| MessageStore.Store.Insert | crates/clawchat-server/src/store.rs:444-496 | allocates tip + 1 and inserts atomically, or changes nothing and says why |
| MessageStore.Store.GetHistory | crates/clawchat-server/src/store.rs:543-554 | one page: the first `limit` rows of the room past the floor, oldest first |
| WebhookRuns.EnqueueRowsExact | crates/clawchat-server/src/store.rs:1166-1193 | enqueueing a stretch of history adds exactly its matching rows, each once, unattempted, and leaves every row already queued as it was |
| WebhookRuns.BackfillExact | crates/clawchat-server/src/handler.rs:2288-2319 | a new subscription's queue holds exactly the retained rows past its start that match its filters, however many pages they fill |
| WebhookRuns.FanOutExact | crates/clawchat-server/src/webhooks.rs:190-225 | a new row is queued for exactly the active subscriptions of its room that it matches |
| WebhookFilters.SendQueuesIff | crates/clawchat-server/src/webhooks.rs:53-85 | a message just sent is queued for a subscription of its room exactly if that is active, its cursor is below, and the message is no system message, is not thinking where that is excluded, has a listed kind if kinds are listed, and comes from a name that is asked for and not ruled out |
| WebhookFilters.SubscribeQueuesIff | crates/clawchat-server/src/handler.rs:2258-2319 | a new subscription is active, its owner's, and queues exactly the retained messages of that kind past its start; without `since` that is the room's tip, so none |
| WebhookFilters.EnableQueuesIff | crates/clawchat-server/src/handler.rs:2418-2444 | enabling queues exactly those of the first 1000 past the cursor |
| WebhookFilters.OnlySuitableGiven | crates/clawchat-server/src/webhooks.rs:53-85 | over every run, each number queued for a subscription or accepted by its receiver is that of a message of its room that was retained and passes its filters |
| WebhookRuns.NothingLostNothingReordered | crates/clawchat-server/src/webhooks.rs:291-420 | a condition on enables alone that suffices: if every one is calm, all retained fanned-out rows past `since_seq` that match an active subscription are queued or got a 2xx, and 2xx answers are strictly increasing |
| WebhookRuns.SmallBacklogIsCalm | crates/clawchat-server/src/handler.rs:2418-2444 | enabling is calm when at most 1000 rows lie past the cursor and the worker holds no row of that subscription |
| WebhookGuards.StepKeepsLedger | crates/clawchat-server/src/webhooks.rs:291-420 | every step, racing or not, keeps rows standing for numbers of their messages past the start, and cursors at the start or at an accepted number |
| WebhookGuards.EnableLosesIff | crates/clawchat-server/src/handler.rs:2418-2444 | an enable leaves nothing owed to an active subscription unqueued and unaccepted exactly when that holds before it for what its page leaves out, past the page or behind the cursor |
| WebhookGuards.ProcessLosesNothing | crates/clawchat-server/src/webhooks.rs:291-420 | whatever a delivery comes to, no row owed to a subscription that stays active leaves the queue unaccepted |
| WebhookGuards.NothingLostIff | crates/clawchat-server/src/webhooks.rs:190-420 | over every run from an empty store, everything owed to an active subscription is queued or got a 2xx at all times if and only if every enable by the owner meets that condition |
| WebhookGuards.AcceptInOrderIff | crates/clawchat-server/src/store.rs:1150-1164 | a 2xx keeps the accepted numbers increasing exactly if its row lies past the cursor, which the guarded UPDATE then moves |
| WebhookGuards.InOrderIff | crates/clawchat-server/src/store.rs:1150-1164 | over every run from an empty store, all 2xx answers are strictly increasing at all times if and only if each of them moves the cursor |
| WebhookRuns.EnableKeepsOrderIff | crates/clawchat-server/src/handler.rs:2418-2444 | which enables queue a row ahead of one the worker has loaded |
| WebhookRuns.CursorsNeverMoveBack | crates/clawchat-server/src/store.rs:1150-1164 | over every run, calm or not, no cursor moves back and no 2xx is forgotten |
| WebhookRuns.FreshIsSound | crates/clawchat-server/src/store.rs:198-208 | the invariants hold of a newly created store |
| WebhookRace.AcceptedKeepsOrderIff | crates/clawchat-server/src/webhooks.rs:291-420 | which 2xx answers move the cursor past a row that is still pending |
| WebhookRace.EnableRaceReorders | crates/clawchat-server/src/handler.rs:2418-2444 | a legal run from an empty store whose receiver answers 2xx to message 2 before message 1 |
| WebhookRace.OvertakenInOrder | crates/clawchat-server/src/handler.rs:2418-2444 | a legal run in which an enable overtakes a loaded row and message 1 is accepted first all the same |
| WebhookRace.RaceLoses | crates/clawchat-server/src/handler.rs:2418-2444 | a legal run with two messages whose last enable is calm and finds nothing past the cursor, after which message 1 is owed, unqueued and unaccepted |
| WebhookBacklog.LongBacklogIsLost | crates/clawchat-server/src/handler.rs:2418-2444 | for every n above 1000, a legal run from an empty store after which the owner has enabled its failed subscription and message n is neither queued nor accepted |
| WebhookSteady.RunKeepsSteady | crates/clawchat-server/src/webhooks.rs:241-289 | over every run, racing or not: queued rows respect the retry schedule and belong to a subscription, loaded copies equal their rows and are due, no accepted number is queued |
| WebhookSteady.NeverAcceptedTwice | crates/clawchat-server/src/webhooks.rs:291-420 | over every run, racing or not, no number gets a 2xx twice from one subscription, and none that got one is queued again |
| WebhookDrain.BatchHoldsHeads | crates/clawchat-server/src/store.rs:1195-1228 | a due batch holds at most one row per subscription, always its lowest pending number |
| WebhookFilters.BatchIsEarliest | crates/clawchat-server/src/store.rs:1195-1228 | a due head of a queue is left out only by a full batch of 32 rows, none of them due later |
| WebhookFilters.LoadTakesBatch | crates/clawchat-server/src/webhooks.rs:241-289 | loading takes exactly the rows of the batch, each as it is |
| WebhookDrain.BatchOrderIrrelevant | crates/clawchat-server/src/webhooks.rs:241-289 | for fixed HTTP outcomes, processing a batch in any order ends in the same queue, statuses, cursors and 2xx record |
| WebhookDrain.SixPostsSpan341Seconds | crates/clawchat-server/src/webhooks.rs:29 | in every state of every run (`RunKeepsSteady`) a row is POSTed at most six times, the sixth at least 341 s after the first |
| WebhookDrain.GivesUpOnSixth | crates/clawchat-server/src/webhooks.rs:385-415 | in every state of every run a delivery is given up and its subscription failed exactly on the sixth refusal; before that it is rescheduled later |
| WebhookFilters.DeliveryFate | crates/clawchat-server/src/webhooks.rs:291-420 | a row is dropped unless its subscription is active and its message retained; a POSTed one goes exactly on a 2xx or the sixth refusal, and the record grows exactly by an accepted number |
| WebhookFilters.RetryDelays | crates/clawchat-server/src/webhooks.rs:29 | the refusals of a row put its next attempt off by 1, 4, 16, 64 and 256 seconds, in that order |
| WebhookFilters.PostsAreApart | crates/clawchat-server/src/webhooks.rs:29 | in every state of every run successive POSTs of a row lie at least as far apart |
| WebhookFilters.AcceptedMovesCursor | crates/clawchat-server/src/store.rs:1150-1164 | a 2xx moves the cursor up to its row and clears the failure count, or leaves both if the cursor is there |
| WebhookFilters.RemovedIff | crates/clawchat-server/src/store.rs:1113-1124 | a subscription goes exactly when its owner unsubscribes, and its rows with it |
| WebhookFilters.FailedIff | crates/clawchat-server/src/webhooks.rs:385-415 | a subscription becomes failed exactly when a delivery of it is blocked or refused for the sixth time, and active again exactly when its owner enables it; nobody changes its owner, room or filters |
| WebhookDrain.ProcessSpendsCredit | crates/clawchat-server/src/webhooks.rs:291-420 | in every state of every run `process_delivery` strictly shrinks the credits: six attempts a row, one per active subscription, one per loaded row without a subscription |
| WebhookDrain.DrainTerminates | crates/clawchat-server/src/webhooks.rs:241-289 | from any state of any run, with nothing new enqueued, the worker makes at most as many attempts as there are credits |
| WebhookDrain.StuckDrainIsEmpty | crates/clawchat-server/src/webhooks.rs:241-289 | a worker with nothing loaded that can load nothing now or at any later time has an empty queue |
| WebhookDrain.PendingRowBecomesDue | crates/clawchat-server/src/store.rs:1195-1228 | a nonempty queue always has a row that is due at some time and heads its subscription |
| WebhookServer.Server.Backfill | crates/clawchat-server/src/handler.rs:2288-2319 | the page loop ends and equals one pass over the unpaged history, for every page size of at least one |
| WebhookServer.Server.Send | crates/clawchat-server/src/webhooks.rs:190-225 | stores the message and fans it out, as one step |
| WebhookServer.Server.Enable | crates/clawchat-server/src/handler.rs:2380-2444 | resets status and failure count and re-queues one page, for the owner only |
| WebhookServer.Server.ProcessDelivery | crates/clawchat-server/src/webhooks.rs:291-420 | one loaded delivery run to its end: dropped, blocked, accepted, rescheduled or given up |
| WebhookServer.Server.Unsubscribe | crates/clawchat-server/src/store.rs:1113-1124 | deletes the subscription and, by cascade, its rows, for the owner only |
| VoteTally.BuildTally | crates/clawchat-server/src/handler.rs:1497-1514 | the counting loop gives every option the number of ballots that name it and ignores options out of range |
| VoteTally.TallyCounts | crates/clawchat-server/src/voting.rs:328-353 | a tally has one count per option, which is the number of ballots that name it |
| VoteTally.TallyConserves | crates/clawchat-server/src/voting.rs:328-353 | counts add up to at most the ballots, and to all of them exactly when every ballot names an existing option |
| VoteTally.TallyIgnoresOrder | crates/clawchat-server/src/handler.rs:1537-1544 | any two orders of the same ballots give the same tally |
| VoteTally.ExtraBallotsShowIff | crates/clawchat-server/src/handler.rs:1497-1514 | more ballots go unseen in a tally exactly when none of them names an option |
| VoteRuns.RunKeepsInv | crates/clawchat-server/src/voting.rs:161-197 | every interleaving of storing and opening a vote, the two steps of a cast, removal, closing, deadline, restart and queries keeps the invariant of every vote |
| VoteRuns.RepairSound | crates/clawchat-server/src/store.rs:282-298 | repairing any stored vote with distinct voters leaves an open one with creator and voters in the electorate, counted right, and fewer ballots than voters |
| VoteResults.MemoryMatchesStore | crates/clawchat-server/src/voting.rs:161-197 | an active persistent vote has the same question and electorate in memory and store, the same ballots up to casts between their steps and casts that failed after the first, distinct eligible voters, and fewer ballots than voters unless a task is about to close it |
| VoteResults.StepMirrorsIff | crates/clawchat-server/src/handler.rs:1451-1487 | a step leaves no stored ballot behind that memory will never hold exactly if it ends no cast that fails after its INSERT |
| VoteResults.MirroredThroughoutIff | crates/clawchat-server/src/handler.rs:1307-1345 | over every run, memory and store differ only by the casts in progress at all times if and only if no cast fails after its ballot was stored |
| VoteResults.RestartRestores | crates/clawchat-server/src/voting.rs:48-86 | a restart anywhere leaves exactly the open votes active, each with its stored ballots and fewer of them than voters |
| VoteResults.AnnouncedOnceInFull | crates/clawchat-server/src/voting.rs:187-197 | no run announces a vote twice; each result lists at most one ballot per eligible voter and every ballot ever recorded, gives each option the number of ballots that name it, and adds up to them exactly when all name an option |
| VoteReplies.NoEarlyClosing | crates/clawchat-server/src/voting.rs:184-197 | over every run, a vote without a deadline is announced only with a ballot of every voter |
| VoteReplies.CastGoesOnIff | crates/clawchat-server/src/handler.rs:1371-1457 | a cast passes its first step exactly if the vote exists, the voter is in the room and of its electorate, the option exists if the vote is active, and a persistent vote is open without a ballot of that voter; otherwise nothing changes |
| VoteReplies.RecordedIff | crates/clawchat-server/src/voting.rs:161-197 | a ballot is recorded exactly if the vote is active, the option exists, and the voter is of the electorate and has none; the reply counts the ballots, and waits for the close with the last one |
| VoteReplies.LastCastIsAnswered | crates/clawchat-server/src/voting.rs:189-197 | the caller who cast the last ballot is answered once, with or after the result |
| VoteReplies.CreatedIff | crates/clawchat-server/src/handler.rs:1291-1330 | a vote is created exactly if its creator is in the room and it has two options, with exactly the room's members as electorate |
| VoteReplies.StatusTells | crates/clawchat-server/src/handler.rs:1565-1647 | an open vote is reported with its number of ballots and no tally, a closed one with the stored ballots per option |
| VoteReplies.ListedIff | crates/clawchat-server/src/handler.rs:1649-1757 | a listing shows exactly what asking about each vote of the room would |
| VoteResults.NoBallotAfterClosing | crates/clawchat-server/src/voting.rs:161-185 | from the vote's removal on, recording a ballot is refused and changes nothing |
| VoteResults.ResultsStand | crates/clawchat-server/src/voting.rs:328-383 | no announced result is withdrawn or changed |
| VoteResults.TallyAgreesIff | crates/clawchat-server/src/handler.rs:1537-1544 | the rebuilt count equals the broadcast one exactly when the removed vote missed no persisted ballot, the rebuilt tally exactly when every ballot it missed names no option |
| VoteResults.StepMatchesIff | crates/clawchat-server/src/voting.rs:366-377 | a step keeps every broadcast in agreement with the store exactly if it closes no persistent vote that missed a ballot |
| VoteResults.BroadcastsMatchIff | crates/clawchat-server/src/voting.rs:366-377 | over every run, broadcasts agree with the store at all times exactly if no vote that missed a ballot was closed |
| VoteResults.AllCountIff | crates/clawchat-server/src/handler.rs:1391-1451 | over every run, every ballot names an option at all times exactly if none that does not is persisted for a vote that is not in memory |
| VoteResults.TalliesAddUp | crates/clawchat-server/src/voting.rs:328-353 | in such a run every announced tally adds up to the ballots cast |
| VoteExamples.LateBallotSplitsTally | crates/clawchat-server/src/voting.rs:95-101 | a run in which the deadline fires between the two steps of a cast and the two tallies differ |
| VoteExamples.CastAfterRemovalSplitsTally | crates/clawchat-server/src/handler.rs:1391-1451 | for every option, a run in which no cast is in progress when the vote is removed and one is persisted before its row is closed; the counts differ |
| VoteExamples.StrayBallotIsNotCounted | crates/clawchat-server/src/handler.rs:1440-1451 | a run that announces a ballot its tally does not count |
| VoteExamples.EarlyCastIsMissed | crates/clawchat-server/src/handler.rs:1307-1345 | a run in which a ballot is stored before the vote is in memory, where it never arrives and cannot be cast again |
| VoteResults.BroadcastTallyIsFinal | crates/clawchat-server/src/handler.rs:1592-1647 | asked at any later time, a vote that missed no ballot when closed reports the broadcast tally and count |
| VoteSecrecy.BallotsStaySealed | crates/clawchat-server/src/handler.rs:1371-1487 | two runs with the same schedule that differ only in the options cast in one vote (valid ones while it is active, any while it is ending) send identical replies and broadcasts until that vote closes |
| VoteSecrecy.StepAlike | crates/clawchat-server/src/handler.rs:1565-1592 | one step of either run gives the same output and keeps the states alike |
| VoteSecrecy.ListAlike | crates/clawchat-server/src/handler.rs:1649-1757 | listing a room shows the same for alike states while the vote is open |
| VoteServer.Server.CreateVote | crates/clawchat-server/src/handler.rs:1291-1330 | a vote is stored, unless ephemeral, with the room's members as electorate |
| VoteServer.Server.OpenVote | crates/clawchat-server/src/handler.rs:1332-1368 | the vote enters memory and the room is told |
| VoteServer.Server.PersistBallot | crates/clawchat-server/src/handler.rs:1371-1457 | the checks of a cast in their order, and the ballot row |
| VoteServer.Server.RecordBallot | crates/clawchat-server/src/voting.rs:148-189 | the locked half of a cast |
| VoteServer.Server.Deadline | crates/clawchat-server/src/voting.rs:94-101 | takes the vote out of memory if it is there |
| VoteServer.Server.LastBallotIn | crates/clawchat-server/src/voting.rs:191-197 | the task of the last ballot takes the vote out of memory, or replies if that is done |
| VoteServer.Server.EndVote | crates/clawchat-server/src/voting.rs:328-383 | counts the removed vote's ballots, closes its row, announces it, and replies to the last cast |
| VoteServer.Server.RestartServer | crates/clawchat-server/src/voting.rs:48-86 | every row repaired, every open vote rebuilt, everything in progress lost |
| Broker.JoinExact | crates/clawchat-server/src/broker.rs:142-157 | joining adds exactly the joiner, at the end, keeps members distinct and a holder exactly in nonempty rooms, and reports a holder exactly when it changed |
| Broker.LeaveExact | crates/clawchat-server/src/broker.rs:160-201 | leaving removes exactly the leaver, keeps the room sound, hands the token of a leaving holder to whoever of the others joined first and nobody else's to anyone, and its report says whether the room emptied, whether the holder changed and to whom |
| Broker.WithoutKeepsOrder | crates/clawchat-server/src/broker.rs:170-173 | those who stay keep their join order |
| Broker.LeaveUndoesJoin | crates/clawchat-server/src/broker.rs:142-201 | a newcomer who leaves again leaves no trace |
| Broker.AdvanceKeepsOk | crates/clawchat-server/src/broker.rs:241-256 | a send keeps members and soundness |
| Broker.AdvanceByOutsider | crates/clawchat-server/src/broker.rs:241-256 | a sender who is not in the room passes the token to whoever joined first |
| Broker.RoundRobin | crates/clawchat-server/src/broker.rs:241-256 | with k fixed members, k holder sends give the token to every member once, in join order, and return it |
| Broker.Tables.JoinRoom | crates/clawchat-server/src/broker.rs:142-157 | one room changes as specified, the others not at all |
| Broker.Tables.LeaveRoom | crates/clawchat-server/src/broker.rs:160-201 | one room changes as specified, the others not at all |
| Broker.Tables.LeaveAllRooms | crates/clawchat-server/src/broker.rs:204-219 | the agent leaves exactly the rooms it was in, one report per room |
| Broker.Tables.AdvanceTurnFrom | crates/clawchat-server/src/broker.rs:241-256 | the token moves to the member after the sender, or to the first one |
| Broker.Tables.RemoveRoom | crates/clawchat-server/src/broker.rs:259-262 | members and holder of one room are forgotten |
| SessionRuns.TrackedAreMemberships | crates/clawchat-server/src/server.rs:688-725 | over every run, rooms are sound, an entry's owner is its agent's latest connection, and what it tracks it is a member of |
| SessionRuns.StepKeepsInv | crates/clawchat-server/src/server.rs:526-584 | every register, reconnect, takeover, join, leave, send, cleanup, removal and expiry keeps the session invariant, wherever installs fall |
| SessionRuns.ClaimIff | crates/clawchat-server/src/server.rs:526-584 | a registration is accepted exactly if it finds neither a stash to reclaim nor an entry, or reconnects with the key of that stash or else of that entry, unless authentication is off; refused, it changes nothing |
| SessionRuns.ClaimRestores | crates/clawchat-server/src/server.rs:526-574 | an accepted one will restore the rooms of a stash in time, else those of the entry it takes over, and changes no room or entry yet |
| SessionRuns.OutsiderIff | crates/clawchat-server/src/handler.rs:575-708 | who is not in a room neither leaves it nor speaks in it, and joins it exactly if it exists |
| SessionRuns.DestroyedIff | crates/clawchat-server/src/server.rs:899-921 | over every step, an ephemeral room is destroyed exactly when its last member goes, and a permanent one never |
| SessionRuns.SupersededCleanupIsIdle | crates/clawchat-server/src/server.rs:845-857 | a superseded session's cleanup changes no room, no entry, no stash |
| SessionRuns.SupersededStaysOut | crates/clawchat-server/src/server.rs:845-857 | a superseded session never owns its agent's entry and never acts again, in any run |
| SessionRuns.OwningCleanupLeavesEverything | crates/clawchat-server/src/server.rs:859-928 | the owning session's cleanup takes its agent and nobody else out of every room, removes its entry, and destroys ephemeral rooms only when empty |
| SessionRuns.TakeoverChangesNoRoom | crates/clawchat-server/src/server.rs:551-574 | a takeover leaves members, order and token of every room as they are, and the old connection owns nothing |
| SessionRuns.ReconnectRestores | crates/clawchat-server/src/reconnect.rs:54-100 | disconnecting and reconnecting in time brings back exactly the rooms of the stash that is left: the tracked ones if one of them was permanent, else an older stash if there is one, and nothing with another key |
| SessionRuns.StashOutlivesPlainRegistration | crates/clawchat-server/src/server.rs:532-584 | coming back without asking to reconnect leaves the stash in place beside the new connection, which is in no room |
| SessionGuards.StepRegistersIff | crates/clawchat-server/src/server.rs:924-928 | a step keeps every room member registered exactly if it removes no entry whose agent is in a room and lets nobody without an entry join |
| SessionGuards.RegisteredThroughoutIff | crates/clawchat-server/src/server.rs:924-928 | over every run, all members are registered at all times exactly if every step keeps that guard |
| SessionGuards.InstallTracksIff | crates/clawchat-server/src/server.rs:688-711 | a new connection tracks exactly the rooms its agent is in if and only if those are among the rooms it restores |
| SessionGuards.TrackedThroughoutIff | crates/clawchat-server/src/server.rs:526-584 | over every run, live connections track exactly the rooms they are in at all times if and only if every install restores them all |
| SessionGuards.StepHasRoomsIff | crates/clawchat-server/src/server.rs:704-711 | a step keeps every room with members in existence exactly if it restores no room that is gone |
| SessionGuards.RoomsThroughoutIff | crates/clawchat-server/src/server.rs:704-711 | over every run, rooms with members exist at all times exactly if no install restores a room that is gone |
| SessionExamples.RemovedAfterRestoring | crates/clawchat-server/src/server.rs:924-928 | a run in which the entry of a connection that restored a room is removed by an older one |
| SessionExamples.RemovedAfterJoining | crates/clawchat-server/src/server.rs:924-928 | a run in which the removed entry is that of a connection that restored nothing and joined since |
| SessionExamples.JoinsWithoutEntry | crates/clawchat-server/src/handler.rs:575-637 | a run in which a connection joins a room after its entry was removed |
| SessionExamples.ReclaimOverLiveForgets | crates/clawchat-server/src/server.rs:532-550 | a run in which a stash reclaimed over a live connection leaves it in a room it does not track |
| SessionExamples.StaleTakeoverForgets | crates/clawchat-server/src/server.rs:565-574 | a run without any stash in which a takeover leaves its connection in a room it does not track |
| SessionExamples.RestoresGoneRoom | crates/clawchat-server/src/server.rs:704-711 | a run in which an agent comes back as a member of a destroyed ephemeral room |
| Leadership.LeaderIff | crates/clawchat-server/src/voting.rs:201-285 | a room's stored leader is exactly the winner of its latest election that produced one, unless the winner's owning session was cleaned up since |
| Leadership.ElectionHistory | crates/clawchat-server/src/handler.rs:1761-1860 | an open election was opened among exactly the members of that moment and has collected exactly the declines since |
| Leadership.ElectionReplies | crates/clawchat-server/src/handler.rs:1761-1860 | only members start an election, while none is open, or decline an open one; a decliner is no longer drawn |
| Leadership.ResolvedIff | crates/clawchat-server/src/voting.rs:222-265 | the timer makes the drawn remaining candidate leader, or clears exactly if none remains |
| Leadership.DecisionIff | crates/clawchat-server/src/handler.rs:1883-1897 | a decision is accepted exactly when its issuer is a current member that was in the room when an election opened, did not decline it, won it, and since then neither lost it to a later winner nor had its owning session cleaned up |
| Leadership.ClearedIff | crates/clawchat-server/src/voting.rs:228-243 | after LeaderCleared is broadcast because all declined, the room has a leader exactly when an earlier winner is still in office |
| Leadership.LeaderOutlivesClearing | crates/clawchat-server/src/voting.rs:228-243 | a run in which an agent is elected, everyone declines the next election, LeaderCleared is broadcast and that agent's decision is accepted |
| SessionServer.Server.Claim | crates/clawchat-server/src/server.rs:526-584 | the registration decision: reclaim, take over, refuse or start afresh |
| SessionServer.Server.Install | crates/clawchat-server/src/server.rs:677-725 | the new entry replaces the old one and rejoins its rooms |
| SessionServer.Server.LeaveRoom | crates/clawchat-server/src/handler.rs:639-708 | leaves, untracks, and destroys an ephemeral room left empty |
| SessionServer.Server.BeginCleanup | crates/clawchat-server/src/server.rs:845-925 | ownership check, stash, leaving every room, destroying emptied ephemeral rooms, clearing led rooms |
| SessionServer.Server.Resolve | crates/clawchat-server/src/voting.rs:222-265 | the timer draws among the candidates that did not decline, or clears |
| SessionServer.Server.Decide | crates/clawchat-server/src/handler.rs:1883-1897 | members who lead the room may decide, others get NotInRoom or NotLeader |
| RoomTransitionRuns.OneTransitionAtATime | apps/ClawChatMac/Sources/ClawChatMac/ChatStore.swift:90-140 | in every interleaving at most one transition is between its start and its end |
| RoomTransitionRuns.JoinedRoomIsTheServers | apps/ClawChatMac/Sources/ClawChatMac/ChatStore.swift:107-116 | the server has the client in at most one room, and between requests exactly in `joinedRoomID` |
| RoomTransitionRuns.ShownBelongsToSelected | apps/ClawChatMac/Sources/ClawChatMac/ChatStore.swift:181-222 | the messages on screen all belong to the selected room, once each, in seq order; so does the member list, whatever refreshes were asked for and answered when |
| RoomTransitionRuns.SettledIff | apps/ClawChatMac/Sources/ClawChatMac/ChatStore.swift:103-138 | when the last transition has ended it is not stale, loading is over, and the joined room is the selected one exactly when its leave and join did not fail |
| RoomTransitionRuns.LoadingIff | apps/ClawChatMac/Sources/ClawChatMac/ChatStore.swift:90-138 | over every run the client shows as loading exactly while the last transition has not ended |
| RoomTransitionRuns.RepliesAreShown | apps/ClawChatMac/Sources/ClawChatMac/ChatStore.swift:120-137 | over every run the history and member list of the selected room are on screen once they arrive, and those of other rooms never |
| RoomTransitionRuns.ReceivedIsShown | apps/ClawChatMac/Sources/ClawChatMac/ChatStore.swift:181-186 | a message pushed for the selected room is on screen unless 200 at least as new are |
| RoomTransitionRuns.OvertakenAsksNothing | apps/ClawChatMac/Sources/ClawChatMac/ChatStore.swift:104-106 | over every run a transition overtaken before it begins ends without a request |
| RoomTransitionRuns.NeverStuck | apps/ClawChatMac/Sources/ClawChatMac/ChatStore.swift:102-106 | while a transition has not ended, some transition can take a step |
| RoomTransitionRuns.TransitionsEnd | apps/ClawChatMac/Sources/ClawChatMac/ChatStore.swift:103-138 | over every run without further selections the transitions take at most as many steps as they have left, seven each, so all of them end |
| RoomTransitionRuns.MergingExact | apps/ClawChatMac/Sources/ClawChatMac/ChatStore.swift:251-255 | merging keeps every live message, adds exactly the history that is not live, sorted by seq |
| RoomTransitionRuns.AppendExact | apps/ClawChatMac/Sources/ClawChatMac/ChatStore.swift:244-249 | a known message changes nothing, a new one is added in order, and beyond 200 only the oldest make room |
| ChatStore.Store.SelectRoom | apps/ClawChatMac/Sources/ClawChatMac/ChatStore.swift:90-101 | bumps the generation, clears the screen and chains a new transition |
| ChatStore.Store.Resume | apps/ClawChatMac/Sources/ClawChatMac/ChatStore.swift:102-113 | a stale transition ends, a current one leaves, joins or loads |
| ChatStore.Store.MergedByID | apps/ClawChatMac/Sources/ClawChatMac/ChatStore.swift:251-255 | the dictionary and the sort give the specified messages whatever order the dictionary has |
| ChatStore.Store.HandleMessage | apps/ClawChatMac/Sources/ClawChatMac/ChatStore.swift:244-249 | a pushed message of the selected room is appended, any other is ignored |
| ChatStore.Store.MembersRefreshed | apps/ClawChatMac/Sources/ClawChatMac/ChatStore.swift:215-222 | the answer to a refresh is shown only if its room is still, or again, selected |
| Framing.MaskedTwice | examples/python/clawchat.py:228-230 | masking twice with the same key is the identity |
| Framing.MaskedBits | examples/python/clawchat.py:230 | each bit of a masked octet is set exactly if one of payload and key has it |
| Framing.BigEndianExact | examples/python/clawchat.py:220-227 | a length written in k octets reads back |
| Framing.BigEndianDigits | examples/python/clawchat.py:220-227 | the octets of a length are its base-256 digits, most significant first |
| FramingProofs.SentFrameDecodes | examples/python/clawchat.py:217-231 | every frame the client writes decodes, by sections 5.2 and 5.3 of RFC 6455, to the same opcode and payload for every mask and every length below 2^63 |
| FramingProofs.UnmaskIsXor | examples/python/clawchat.py:230 | the exclusive or the client computes is that of section 5.3 of RFC 6455, bit by bit |
| FramingProofs.WireDecodes | examples/python/clawchat.py:204-215 | an unmasked server frame read by the standard's decoder is that frame |
| FramingProofs.ReadsBack | examples/python/clawchat.py:204-215 | `_recv_frame` reads a server frame and nothing beyond it |
| FramingProofs.ReadsMessage | examples/python/clawchat.py:236-249 | `recv_line` over any fragmentation (section 5.4 of RFC 6455) with pings and pongs in between returns the whole message, answers every ping, and stops where the message ends |
| FramingProofs.FragmentationIsInvisible | examples/python/clawchat.py:236-249 | two fragmentations of the same text read the same |
| FramingProofs.CutMessageFails | examples/python/clawchat.py:195-202 | a stream that ends anywhere inside a message is a connection error |
| FramingProofs.CloseEndsMessage | examples/python/clawchat.py:240-241 | a close frame in the middle of a message is an error, after answering the pings before it |
| FramingProofs.PongEchoes | examples/python/clawchat.py:242-244 | the pong decodes to a pong with the ping's payload |
| WsTransport.Transport.ReceiveExact | examples/python/clawchat.py:195-202 | n octets of the stream, or an error at its end, whatever sizes the socket delivers |
| WsTransport.Transport.ReceiveFrame | examples/python/clawchat.py:204-215 | the frame at the head of the stream, whatever sizes the socket delivers |
| WsTransport.Transport.SendFrame | examples/python/clawchat.py:217-231 | writes exactly the specified bytes, or raises for a length that does not fit |
| WsTransport.Transport.SendLine | examples/python/clawchat.py:233-234 | writes the text as one masked text frame |
| WsTransport.Transport.ReceiveLine | examples/python/clawchat.py:236-249 | one message, with one pong written per ping in order, whatever sizes the socket delivers |
| Follow.OutputsIncrease | crates/clawchat-cli/src/main.rs:972-1040 | whatever is pushed and however often it reconnects, the output goes strictly upwards, passes the filters and ends at the first conversation_end |
| Follow.FollowsExactly | crates/clawchat-cli/src/main.rs:972-1050 | if no push skips an unread deliverable row, the output is exactly the deliverable rows past the start up to the cursor, in order |
| Follow.PrintedSuits | crates/clawchat-cli/src/main.rs:987-1038 | over every run only chat of the room past the start is printed, not the reader's own, from a name and of a kind that is asked for; the reader is done exactly when a conversation end was printed last |
| Follow.PrintedIff | crates/clawchat-cli/src/main.rs:987-1038 | if no push skips such a row, a row of the room is printed exactly if it is such and the reader has got to it |
| Follow.ExactThroughoutIff | crates/clawchat-cli/src/main.rs:972-1050 | over every run, the output is exact at all times if and only if no push skips an unread deliverable row |
| Follow.HandOverIff | crates/clawchat-cli/src/main.rs:987-1040 | handing over a row keeps the output exact if and only if no unread deliverable row lies below it |
| Follow.FoundIsFirst | crates/clawchat-client/src/connection.rs:950-975 | the backlog look of the wait finds a row with no deliverable row below it |
| Follow.PullAdvances | crates/clawchat-cli/src/main.rs:972-986 | each pull takes up to 500 rows off the unread ones, whatever they are: no row pins the reader |
| Follow.LookBackReaches | crates/clawchat-client/src/connection.rs:950-975 | the wait gets on whenever its backlog page has a chat |
| Follow.PushReaches | crates/clawchat-cli/src/main.rs:987-1038 | the reader gets to every pushed message |
| Follow.SkippedForever | crates/clawchat-cli/src/main.rs:793-803 | a row the cursor has passed without printing it is never printed |
| Follow.PushOvertakes | crates/clawchat-cli/src/main.rs:987-1040 | a run in which two messages arrive, the second is pushed first, and the first is never printed in any continuation |
| Follow.Follower.RunBatch | crates/clawchat-cli/src/main.rs:987-1038 | the batch loop, row by row |
| Follow.Follower.WaitForMessage | crates/clawchat-client/src/connection.rs:939-1020 | the first chat of the backlog, else the push, else nothing |
| RateLimit.StartsAreFarApart | crates/clawchat-server/src/rate_limit.rs:105-108 | over every trace, windows start more than one window length apart |
| RateLimit.AtMostTwiceTheCap | crates/clawchat-server/src/rate_limit.rs:128-149 | over every trace, no interval as long as a window sees more than twice the cap accepted |
| RateLimit.SignupsBelowTwiceTheCap | crates/clawchat-server/src/rate_limit.rs:97-114 | for signups, at most twice the cap less one |
| RateLimit.TwiceTheCapIsReached | crates/clawchat-server/src/rate_limit.rs:116-121 | a trace that reaches twice the cap within two instants, for every cap and window |
| RateLimit.SignupBoundIsReached | crates/clawchat-server/src/rate_limit.rs:97-114 | a trace of signups that reaches twice the cap less one |
| RateLimit.RateLimiter.TryRegisterSignup | crates/clawchat-server/src/rate_limit.rs:97-114 | one IP's window moves as specified, every other IP's stays |
| RateLimit.RateLimiter.CountMessage | crates/clawchat-server/src/rate_limit.rs:128-149 | check and count as one step on one key, every other key's window stays |
| Lantern.Reconstruct | crates/clawchat-cli/src/lantern.rs:348-412 | one pass gives the threads in id order, hellos and shared-state deltas in history order, and the number of FUSEs |
| Lantern.EachVerbInOneThread | crates/clawchat-cli/src/lantern.rs:358-377 | every verb message is in exactly one thread and threads hold nothing else |
| Lantern.VerbIsPlaced | crates/clawchat-cli/src/lantern.rs:358-377 | a verb that names a thread is in that thread, one that names none in the thread of its own seq, with its sender, verb and basis, and in no other |
| Lantern.BasisIsFirst | crates/clawchat-cli/src/lantern.rs:384-390 | a thread's resolution basis is that of its first RESOLVE in seq order |
| Lantern.SummaryExact | crates/clawchat-cli/src/lantern.rs:348-372 | the hellos, the committed deltas and the number of FUSEs are exactly those in the history |
| Lantern.ThreadStateIff | crates/clawchat-cli/src/lantern.rs:384-403 | a thread is fused exactly when a FUSE belongs to it, open exactly when neither a FUSE nor a RESOLVE does |
| Lantern.StatesOnlyAdvance | crates/clawchat-cli/src/lantern.rs:391-397 | more history never drops a thread or moves its state back |
| Lantern.ArrivalOrderIrrelevant | crates/clawchat-cli/src/lantern.rs:380-404 | with distinct seqs the threads do not depend on the order in which history arrives |

## Granularity and assumptions

- Webhooks: insert with fan-out, subscribe with backfill, enable, loading a batch and one
  delivery are one step each; store writes succeed. In the program fan-out is a spawned
  task, and the order claims need those tasks to run in seq order. A restart loses the loaded batch. A delivery row is
  identified by its unique pair (subscription, seq) instead of a random id.
- Votes: creating has two steps, storing the vote and opening it in memory; a cast has two,
  persisting and recording; closing has two, removing the vote from memory and closing its
  row with the broadcast. Each query is one step. Store writes succeed. The order in which a
  restart reads ballots back is arbitrary.
- Sessions: each handler is one step; registering has two (decision and installation) and
  so has an owning cleanup (up to, and removing the registry entry). A superseded session
  only runs its cleanup. Nothing restricts where installs fall.
- Elections and decisions are over the same runs.
- Mac client: connected throughout, failed requests have no server effect, and a history
  reply holds messages of the room it was asked for. The sort is taken to be stable;
  `MergedByID` shows that only messages that share a seq could notice.
- Follow: what `HandOverIff` and `ExactThroughoutIff` say of a push is about rows retention
  has not taken since. Cursor and output writes succeed, and the client itself posts nothing while
  following. Rows that retention takes before they are read are not part of what is owed.
- Rate limits: a check and the count that follows it are one step, and time does not run backwards.

## Left out

- Sockets, TLS, HTTP, DNS and address checks, JSON and SQL text: their outcomes are parameters of the steps.
- Signatures, encryption and base64.
- Room visibility, API-key ownership of identities, size limits, the task manager and presence.
- The WebSocket handshake, and decoding UTF-8 at the end of `recv_line`: messages are bytes.
- Descriptions of votes, the `limit` and sort order of vote listings, and timestamps other than due times and window starts.
- Buffering events for disconnected agents, mentions and broadcasts to other members.
- Ephemeral rooms in the webhook claims: their messages are never stored.
- Numbers handed out in ephemeral rooms: a counter per room, nothing beyond it to prove.
- Reconnecting in the Mac client, the room list, drafts and presence updates.
- The calibration scores of LANTERN, which are floating-point logarithms, and its envelope validation.
- The one-off numbering of rows written before rooms had sequences.
- DashMap interleavings inside one broker method: each method is one step, as the token is only meant at that level.
