# A verified model of the messaging platform's core

A Dafny 4.11 model of the part of the platform where being wrong costs money or
trust: answering each customer message at most once, keeping one conversation per
customer through hand-overs and idle sweeps, enforcing customer limits and the
daily spend ceiling, cutting knowledge text into chunks, and adding up costs.
`dafny verify dfyconfig.toml` checks everything.

## How it is organised

| files | subject |
|---|---|
| `Messages`, `ReplyProtocol`, `ReplyGuarantees`, `LostReplies`, `CommentInvite` | the at-most-once reply protocol: any number of workers interleaved at statement granularity, uncommitted inserts, crashes between any two steps, redeliveries, operator deletes |
| `Conversations`, `SessionLifecycle`, `SessionHistory`, `ConversationStore`, `OperatorActions` | conversation rows under customers, operators and sweepers; a sweeper's claim and close are separate steps, and a sweeper may die in between |
| `ChatFlow`, `HandlerDecisions`, `ChatGuarantees`, `ChatService`, `HandlerRuns` | one message from beginning to end, what is decided about it, what holds over every sequence of messages, lifecycle steps, typed replies and goodbyes, and that such a sequence is a run of the reply protocol |
| `SlidingWindow`, `Quota`, `QuotaBlocks`, `QuotaLimits`, `DuplicateLimit`, `SpendGuard` | customer limits over an expiring sorted set, what each decision means, how long a block lasts, exactly when the limits hold, and the spend breaker with calls in flight |
| `LimitedHandlers` | the handlers with the customer check deciding their quota verdicts: what reaches the check, and how often the model is called |
| `Chunking` | the chunk packer |
| `Pricing`, `Rollup`, `Columns`, `UsageDays` | as-of pricing, live analytics and what their columns are, the nightly rollup, and the per-day figures in any session time zone |
| `LikeSearch`, `Utf8Clip` | LIKE escaping and byte-limited clipping |

What the source does by changing state is a class or a method with loops, proved
equal to a function on values; what is promised over many calls is a lemma about
those functions. Machines are functions from a state and a step to a state; a step
that is not enabled changes nothing, so a statement about every sequence of steps is
a statement about every interleaving. Clocks, the provider's answers, the
classifiers' answers and, in `ChatFlow`, the quota verdict are parameters; `LimitedHandlers`
puts the customer check in the place of that verdict.

## What the proofs found

Where the code and its own documentation differ, the model follows the code.

- **The generation cache is never read by a retry.** `app/core/idempotency.py:13-15`
  and `app/workers/tasks.py:337` expect a retried delivery to find the cached
  completion. The claim is committed before generation, so a retry stops at the
  claim; a cached generation is read back only for an id whose inbound row an
  operator deleted (`AtMostOneCompletion`, `DeleteAllowsCacheHit`).
- **A worker lost anywhere between claim and reservation loses the reply for good**, not
  only one lost during the send, whoever else is at work and whatever is redelivered
  (`CrashBeforeReservationIsFinal`). Lost before the claim was committed, it leaves a
  message that can still be answered, so the loss is final exactly from the committed
  claim on (`LossIsFinalIff`).
- **Deletes reopen the at-most-once guarantee** (`DeleteAllowsSecondSend`), and a
  message id that begins with `dm_invite:` would use up a comment's invitation
  (`PrefixCollisionRefusesInvitation`).
- **`invite_after_comment` can raise**, against `app/services/comment_invite.py:109`: it
  does exactly when an accepted invitation comes back under an id that is already
  stored, which makes the confirming update fail (`InviteAfterComment`).
- **A hand-over of a row that a sweeper has claimed does not protect it**: the close
  has no condition. A human's row stays open exactly when no claim on it is
  outstanding (`HumanStaysOpenIff`).
- **A session whose sweeper died is never closed by a sweep**, whatever happens later;
  only a delete removes it, against `app/services/session_service.py:211-216`. Such
  sessions arise (`SweeperLossOrphans`), and a claimed session can still be closed
  exactly when its own sweeper is still to do so (`ClosableIff`, `OrphanedForever`).
- **WAITING_IDLE and the sweeper can disagree**, against `app/models/conversation.py:89-91`:
  at exactly the timeout, and on channels that are not swept
  (`ClaimableExactlyWhenWaiting`).
- **One welcome per conversation needs `prevent_duplicate_welcome`** (`WelcomeOnceIff`).
- **The redelivery branch of the customer check is as dead as the cache hit.** A check
  comes after the committed claim, so unless a conversation is deleted no message id
  reaches it twice; then repeated texts stay within their limit for every duplicate
  window, lifted blocks included (`NoIdIsCheckedTwice`), and calls of the model stay
  within the customer limits (`CompletionsLimited`).
- **Checked twice, a message passes the customer limits even if it was refused**
  (`RedeliveryPasses`, `RefusedThenPasses`): runs of the check alone, which take a
  deleted conversation to come about.
- **The customer limits need a block length that is positive**, unless floods cannot be
  noticed at all (`LimitsHoldIff`, `CompletionsLimitedIff`). The day limit is per
  half-open day: over closed days it holds only where it lets nothing through
  (`DayLimitIff`), and a burst window of a day or more sees one day only
  (`BurstLimitIff`).
- **Repeated texts are limited per minute, not per configured window**, against
  `app/core/quota.py:366-369`: over the configured window the limit holds exactly when
  that is no longer than a minute (`ConfiguredWindowIff`). Over a minute it holds
  exactly when the duplicate set does not outlive the day (`DuplicateLimitIff`), and once
  blocks may be lifted only when the duplicate window is empty (`LiftedLimitIff`). The
  last two are about runs of the check alone in which an id comes twice, and so again
  take a deleted conversation.
- **`max_tokens` is not a hard bound on a chunk** (`app/core/chunking.py:76`): two full
  paragraphs in a row overflow it. `HardBoundIff` gives the exact condition on the
  units, `ChunksBounded` the bound that always holds.
- **The overlap promised for facts across a boundary (`app/core/chunking.py:9-10`) is kept
  inside an oversized paragraph exactly when `max_tokens` exceeds two overlaps and the separator, or there is no overlap**
  (`OverlapReachesIff`).
- **The per-day figures can lose a day** when the session's time zone is not UTC, beyond
  the re-bucketing `app/repositories/analytics_rollup.py:16-24` warns of: rows are filed
  under the date of the returned instant, and a row that shares its date with another is
  overwritten. The days add up if and only if no two midnights of the period come back
  with one date (`UsageAddsUpIff`); every fixed offset is such a zone
  (`FixedOffsetsAddUp`), one whose clocks go forward from UTC is not (`SpringForwardIff`).

## Model

| member | source | states |
|---|---|---|
| `Messages.KeysAreStrings` | app/services/comment_invite.py:76-92 | two reservation keys or message ids are equal in the model exactly when their strings are, whatever the prefix-free strings are |
| `Messages.ClaimIsExclusive` | app/repositories/message.py:68-81 | exactly one caller is handed a delivery; every later claim of it gets nothing and changes nothing; reservations and other ids are untouched; both unique columns still hold |
| `Messages.ReserveIsExclusive` | app/repositories/message.py:108-121 | exactly one caller is handed the right to answer under a key; every later reservation of it is refused; claims and other keys are untouched |
| `Messages.ConfirmKeepsKeys` | app/repositories/message.py:123-134 | confirming frees no reservation, touches no inbound record and no other row, and keeps both unique columns, also when it fails |
| `Messages.MessageTable.ClaimInbound` | app/repositories/message.py:42-81 | the in-place insert does what Claim says and leaves the delivery taken |
| `Messages.MessageTable.ReserveReply` | app/repositories/message.py:83-121 | the in-place insert does what Reserve says and leaves the key taken |
| `Messages.MessageTable.ConfirmReply` | app/repositories/message.py:123-134 | fails exactly when another row has the provider's id, and then changes nothing; otherwise the row carries that id and the status |
| `Messages.ConfirmWrites` | app/repositories/message.py:123-134 | a row confirmed under an id nobody else has carries it and the status |
| `Messages.ConfirmedIsTaken` | app/repositories/message.py:68-81 | from then on no delivery under that id can be claimed and no other row confirmed under it |
| `Messages.UnpromptedKeepsKeys` | app/repositories/message.py:17-40 | an operator's reply or a goodbye takes no reservation, records no delivery, changes no other row and keeps both unique columns |
| `Messages.MessageTable.CreateManual` | app/repositories/message.py:17-40 | an operator's row answers no delivery; refused exactly when the provider's id is already stored |
| `ReplyProtocol.StepKeeps` | app/services/chat_service.py:346-386 | every step of every worker, every crash, delete, cache loss, typed reply and goodbye keeps: each send is paid for by a committed reservation and each completion by a committed claim, and every reservation in hand is a committed outbound row unless a delete took it |
| `ReplyProtocol.Reachable` | app/services/chat_service.py:12-31 | that invariant in every reachable state, for any number of workers |
| `ReplyProtocol.HitMeansDeleted` | app/services/chat_service.py:524-535 | a claiming worker that finds a cached generation holds an id whose earlier inbound row was deleted |
| `ReplyGuarantees.AtMostOneSend` | app/services/chat_service.py:346-386 | over every run the sender is called at most once per key plus once per delete of that key's row; without deletes at most one answer and at most one invitation |
| `ReplyGuarantees.SendFollowsCommit` | app/services/chat_service.py:358-366 | without deletes, a worker about to send has a committed outbound row under its key, and nothing was sent under it yet |
| `ReplyGuarantees.AtMostOneCompletion` | app/services/chat_service.py:524-578 | at most one completion per delivery plus one per delete of its row; a cache hit implies such a delete, so without deletes there is none |
| `ReplyGuarantees.AnswerAndInvitationIndependent` | app/services/comment_invite.py:76-92 | with ids free of the prefix, a comment's answer and its invitation are each refused only by an earlier one of the same kind |
| `ReplyGuarantees.InvitationFollows` | app/services/comment_invite.py:150-195 | whatever else is going on, a comment's worker that is done answering sends exactly one invitation, under a stored reservation, unless one was reserved for that comment before |
| `ReplyGuarantees.DeleteAllowsSecondSend` | app/services/admin_service.py:88-93 | a concrete run in which a delete lets a redelivery, taken into the next conversation, be answered twice |
| `ReplyGuarantees.DeleteAllowsCacheHit` | app/core/idempotency.py:7-15 | a concrete run in which a delete lets the cached generation be read back |
| `ReplyGuarantees.PrefixCollisionRefusesInvitation` | app/services/comment_invite.py:150-165 | answering a message whose id has the prefix uses up the comment's invitation |
| `ReplyGuarantees.AbandonedForever` | app/services/chat_service.py:637-647 | once a claimed message has lost its worker before the reservation, no continuation without deletes ever answers it |
| `LostReplies.EveryAnswerPaid` | app/services/chat_service.py:637-647 | in every reachable state, the reservation made for a message and the workers that still owe it are covered by its committed claims |
| `LostReplies.CrashBeforeReservationIsFinal` | app/services/chat_service.py:25-31 | in every run without deletes, a worker lost at any point from its committed claim up to its reservation leaves a message that is stored and for which nothing is ever sent, whatever follows without deletes |
| `LostReplies.UnclaimedCanBeAnswered` | app/services/chat_service.py:637-647 | in every run without deletes, a message whose claim nobody has committed is answered in some continuation without deletes |
| `LostReplies.LossIsFinalIff` | app/services/chat_service.py:25-31 | a worker lost between inserting its claim and its reservation takes the answer with it if and only if the claim had been committed |
| `CommentInvite.InviteAfterComment` | app/services/comment_invite.py:95-195 | the provider is called exactly when an invitation is wanted and none was reserved for the comment; any answer leaves the reservation; a refusal changes nothing, context included; exactly when it fails, when it raises and when it is delivered |
| `Conversations.ClaimableExactlyWhenWaiting` | app/models/conversation.py:86-104 | the sweeper may take a row exactly when it shows as WAITING_IDLE, is on a swept channel and is not at exactly the timeout |
| `SessionLifecycle.OpenKeeps` | app/repositories/conversation.py:289-297 | the conflict-free insert keeps one active row per user |
| `SessionLifecycle.ReviveKeeps` | app/repositories/conversation.py:163-174 | a revive, won or lost, keeps one active row per user |
| `SessionLifecycle.StepKeeps` | app/repositories/conversation.py:470-494 | every statement keeps one active row per user and honest close obligations, and a claim never takes a row already owed |
| `SessionLifecycle.Reachable` | app/repositories/conversation.py:238-308 | in every reachable state: at most one active row per user, and every outstanding close is for an active, claimed row |
| `SessionLifecycle.StaysClaimed` | app/repositories/conversation.py:458-465 | a claim lasts until a revive or a delete |
| `SessionLifecycle.ReviveBetweenClaims` | app/repositories/conversation.py:440-494 | two claims of one row have a revive between them, under any interleaving |
| `SessionLifecycle.HumanStaysOpenIff` | app/repositories/conversation.py:534-548 | a human's open row stays open until given back, over every continuation, if and only if no claimed close of it is outstanding |
| `SessionLifecycle.UnclaimedIsHeld` | app/repositories/conversation.py:470-478 | a human row whose goodbye is unclaimed has no close outstanding |
| `SessionLifecycle.OrphanedForever` | app/services/session_service.py:205-216 | a row claimed by a sweeper that died stays claimed and open in every continuation without its deletion |
| `SessionLifecycle.SweeperLossOrphans` | app/services/session_service.py:205-216 | a run that leaves such a row |
| `SessionLifecycle.ClosableIff` | app/services/session_service.py:205-216 | a claimed open session can still become closed, in some continuation without its deletion, if and only if the sweeper that claimed it is still to close it |
| `SessionLifecycle.WelcomeWriteOnce` | app/repositories/conversation.py:374-390 | welcome_sent_at never changes once written, over every run with closes and revives |
| `SessionHistory.ColumnsAgree` | app/repositories/conversation.py:310-351 | in every reachable state only a human's row has an owner and a hand-over time, only a closed row a time of closing, and a closed row was claimed |
| `SessionHistory.SwitchStands` | app/repositories/conversation.py:318-331 | whatever follows, closing and reviving included, a row tells who was put in charge last and when |
| `SessionHistory.TagStands` | app/repositories/conversation.py:323-328 | a tag once given is never cleared, whoever takes over |
| `SessionHistory.NoTagUnlessGiven` | app/repositories/conversation.py:323-328 | and a row nobody tags keeps the tag it had |
| `SessionHistory.TimerStands` | app/repositories/conversation.py:353-372 | the idle timer stands at the last switch, touch or revive, through sweeps, closes and greetings |
| `SessionHistory.RemovedForever` | app/services/admin_service.py:88-93 | a deleted conversation never comes back and takes no other row with it |
| `SessionLifecycle.Automaton` | app/models/conversation.py:93-104 | claims take only WAITING_IDLE to CLOSING, closes only CLOSING to CLOSED, revives only CLOSED to an active state; no other step enters or leaves CLOSING or CLOSED |
| `SessionLifecycle.TimeOnlyIdles` | app/models/conversation.py:101-104 | time alone only takes ACTIVE_BOT to WAITING_IDLE |
| `ConversationStore.ConversationTable.ActiveForUser` | app/repositories/conversation.py:120-143 | finds an active row of the user or there is none |
| `ConversationStore.ConversationTable.ReviveRow` | app/repositories/conversation.py:145-174 | a lost race changes nothing, and then the slot is taken; a won one makes the row the user's active row |
| `ConversationStore.ConversationTable.ReopenRecent` | app/repositories/conversation.py:176-205 | revives the youngest close inside the window, exactly when there is one and the slot is free |
| `ConversationStore.ConversationTable.InsertActive` | app/repositories/conversation.py:289-297 | creates a row exactly when the user has no active one |
| `ConversationStore.ConversationTable.GetOrCreateActive` | app/repositories/conversation.py:238-308 | with other callers between its statements: an existing row is returned unchanged; else the youngest recent close is revived, else a row is inserted, else, after a conflict, whichever row holds the slot at the re-read is returned; it raises exactly when none does |
| `ConversationStore.ConversationTable.OpenUndisturbed` | app/repositories/conversation.py:278-308 | with nobody in between it never raises |
| `ConversationStore.ConversationTable.SetMode` | app/repositories/conversation.py:310-351 | tag only ever set; owner and hand-over time follow the mode; timer reset |
| `ConversationStore.ConversationTable.Touch` | app/repositories/conversation.py:353-372 | moves that row's timer and nothing else |
| `ConversationStore.ConversationTable.MarkWelcomeSent` | app/repositories/conversation.py:374-390 | writes only a null flag |
| `ConversationStore.ConversationTable.CloseClaimed` | app/repositories/conversation.py:534-548 | closes a claimed row whatever its mode and settles the obligation |
| `ConversationStore.ConversationTable.ClaimIdleSessions` | app/repositories/conversation.py:470-494 | takes the longest-idle unlocked candidates up to the limit, none of them already owed by another sweeper |
| `ConversationStore.ConversationTable.Select` | app/repositories/conversation.py:470-483 | the candidates picked: oldest first, limited, locked ones skipped |
| `OperatorActions.LiveIsActive` | app/services/reply_service.py:82-142 | a conversation an operator can act on becomes its customer's one active row, keeps its welcome flag, and if it was closed is free of any claim |
| `OperatorActions.OperatorDesk.ReviveForOperator` | app/services/reply_service.py:111-126 | refused exactly when the row is closed and the customer has another active one |
| `OperatorActions.OperatorDesk.SwitchMode` | app/services/admin_service.py:95-128 | missing, superseded, or revived and then switched |
| `OperatorActions.OperatorDesk.TakeOver` | app/services/admin_service.py:153-177 | unless a sweeper owes it a close, the row is then held by a human, from where silence is proved |
| `OperatorActions.OperatorDesk.ResumeAi` | app/services/admin_service.py:179-200 | bot again, no owner, tag kept, timer reset, and still the customer's active row |
| `OperatorActions.OperatorDesk.SendManualReply` | app/services/reply_service.py:174-273 | which refusal applies, in order; handed to the platform exactly when nothing refused; recorded exactly when accepted under a new id; a refusal on reach still leaves the session revived |
| `ChatFlow.ReplyRecords` | app/services/chat_service.py:346-386 | a send leaves at most one new row, which column by column tells how it went; delivered exactly when not reserved before, accepted, and under a new id |
| `ChatFlow.DeliveredIsKnown` | app/services/chat_service.py:366-386 | after a delivered send the provider's id is taken, for claims and for confirmations of other rows |
| `ChatFlow.TakeTakes` | app/services/chat_service.py:637-647 | a fresh message is stored in the customer's one active row; a duplicate changes nothing |
| `ChatFlow.PerformOutside` | app/services/chat_service.py:388-619 | whatever is decided, at most one message goes out and the model is called only to generate |
| `ChatFlow.PerformSession` | app/services/chat_service.py:593-616 | the row becomes human exactly by a hand-over and greeted exactly by a delivered welcome; its place in the lifecycle is kept |
| `HandlerDecisions.PersonIsCalled` | app/services/chat_service.py:445-482 | whoever asks for a person or haggles never reaches the model: the row ends in human hands, leads are tagged, and at most the acknowledgement goes out |
| `HandlerDecisions.ModelIsCalledIff` | app/services/chat_service.py:524-733 | the model is called, once, exactly for a message on a bot row that asks for no person, is within its quota, is for the model by kind, scope or selection and owed welcome, and has no cached generation |
| `HandlerDecisions.HandedOverIff` | app/services/chat_service.py:735-853 | a conversation ends up with a person exactly if it was with one or the message called for one in words or by menu |
| `HandlerDecisions.SaidExactly` | app/services/chat_service.py:484-510 | exactly when nothing goes out, when an acknowledgement, a notice or an answer does, and when the answer carries the welcome |
| `HandlerDecisions.WelcomeOwedIff` | app/services/session_service.py:147-160 | a welcome is owed exactly with sessions and welcomes on, unless this session had one and duplicates are prevented, and on a first visit or when every visit is greeted |
| `HandlerDecisions.HandledIsActivity` | app/services/chat_service.py:646-647 | with sessions on, a message moves the timer of the session it lands in |
| `HandlerDecisions.CachedExactly` | app/services/chat_service.py:524-616 | a generation is in the cache afterwards exactly if it was there or was made and written now, and its answer was not delivered |
| `ChatGuarantees.HandleStaysWithCustomer` | app/services/chat_service.py:621-733 | a handler sends and generates for its own customer only, keeps other customers' rows, and only adds to the transcript |
| `ChatGuarantees.HeldMessageIsLeft` | app/services/chat_service.py:445-459 | a message to a conversation in human hands is stored there and nothing else happens |
| `ChatGuarantees.HumanMeansSilence` | app/services/chat_service.py:408-482 | over every sequence of messages, lifecycle steps, typed replies and goodbyes until the conversation is given back: no generation and no send for that customer, the row stays open in human hands, every fresh message lands in it |
| `ChatGuarantees.HandoffBeginsSilence` | app/services/chat_service.py:408-443 | the handler of a message that calls for a person, in words or by menu, sends at most its acknowledgement, generates nothing, stores the message, and leaves the row held |
| `ChatGuarantees.WelcomeRecordedExactly` | app/services/chat_service.py:388-406 | in every sequential run a conversation's flag is up exactly when a confirmed welcome was sent in it, so a failed send or a courtesy opening leaves it owed; with duplicates prevented there are never two |
| `ChatGuarantees.WelcomedTwice` | app/services/session_service.py:147-160 | without the setting, two greetings are both welcomed in one conversation |
| `ChatGuarantees.WelcomeOnceIff` | app/services/session_service.py:147-160 | one welcome per conversation over all sequential runs, if and only if welcomes are off or duplicates are prevented |
| `HandlerRuns.SendingIsReply` | app/services/chat_service.py:346-386 | the worker's reserve, commit, send and confirm steps leave exactly what the handler's send leaves |
| `HandlerRuns.HandlerIsARun` | app/services/chat_service.py:637-733 | a whole handler is a run of one worker of the protocol: same messages table, same sends, same completions, same cache |
| `HandlerRuns.SequencesAreRuns` | app/services/chat_service.py:9-31 | so is every sequence of handlers, lifecycle steps, typed replies, goodbyes and deletes |
| `HandlerRuns.HandlersAnswerOnce` | app/services/chat_service.py:25-31 | over any sequence without deletes the handlers send at most one message and make at most one completion per delivery |
| `ChatService.ChatService.SendOnce` | app/services/chat_service.py:321-386 | reserve, send, confirm in place, with both timer resets |
| `ChatService.ChatService.SendFixed` | app/services/chat_service.py:388-406 | the welcome is recorded only after a delivered send |
| `ChatService.ChatService.BeginHandoff` | app/services/chat_service.py:408-443 | mode first, acknowledgement after |
| `ChatService.ChatService.HandledByHuman` | app/services/chat_service.py:445-482 | true exactly when the message must not reach the model |
| `ChatService.ChatService.WithinQuota` | app/services/chat_service.py:484-510 | at most one notice, and only if asked for |
| `ChatService.ChatService.GenerateAndSend` | app/services/chat_service.py:512-619 | cache, model, cache write, send, welcome record, cache clear |
| `ChatService.ChatService.TakeDelivery` | app/services/chat_service.py:637-647 | context, claim and touch in one transaction, rolled back whole on a duplicate; resumes the youngest recent close exactly when the window allows |
| `ChatService.ChatService.HandleTextMessage` | app/services/chat_service.py:621-733 | the in-place handler does what Handle says, so the guarantees above hold of it |
| `ChatService.ChatService.HandleInteractiveMessage` | app/services/chat_service.py:735-853 | likewise for menu selections |
| `ChatService.ChatService.HandleMediaMessage` | app/services/chat_service.py:855-915 | likewise for media |
| `ChatService.ChatService.HandleUnsupportedMessage` | app/services/chat_service.py:917-949 | likewise for unsupported types, without a quota check |
| `SlidingWindow.HitIsArrival` | app/core/quota.py:323-337 | pruning, expiry and NX are unobservable: what the counts see is the recent part of the full history with the new arrival, and added means not counted within the retention |
| `SlidingWindow.CountsHistory` | app/core/quota.py:312-331 | windows shorter than the retention count the whole history over a closed interval; the day window is half-open |
| `Quota.CheckRefines` | app/core/quota.py:289-423 | a check over Redis decides as the check over the unpruned history, and they stay in step |
| `Quota.DecidesAsHistory` | app/core/quota.py:289-423 | so does every decision of every run under a monotone clock, unblocks included |
| `Quota.LimitsHold` | app/core/quota.py:339-423 | since the last lifted block, messages allowed on their first check never exceed a limit in any closed minute or hour window, in any half-open day, nor in any burst window, closed if shorter than a day and otherwise a half-open day, whatever the arrivals |
| `QuotaBlocks.BlockedIff` | app/core/quota.py:300-310 | after any run a check is refused as blocked if and only if a flood was decided that no lift has undone and at least half a second of its block is left; then nothing changes and the time left is named |
| `QuotaBlocks.FloodBlocks` | app/core/quota.py:339-362 | between two moments of a run: a flood refuses every later check for its whole time, unless lifted, and none after it without another flood |
| `QuotaBlocks.LiftedIff` | app/core/quota.py:568-587 | a lift finds a block exactly while it lasts, and forgets the messages but not their texts |
| `QuotaBlocks.JudgedByHistory` | app/core/quota.py:339-423 | a message that no block stops is judged by what the full history holds in each window: flood, repeated text, then the shortest window that is over, with exactly who is told |
| `QuotaBlocks.EveryCheckCounts` | app/core/quota.py:323-384 | refused or not, it counts once within a day, and its text unless it was a redelivery or a flood |
| `QuotaLimits.LimitsHoldIff` | app/core/quota.py:339-362 | they hold over every run if and only if the block length is positive, or no flood can be noticed because the burst window is negative and its limit is not |
| `QuotaLimits.CrowdOverruns` | app/core/quota.py:339-362 | otherwise enough different messages at one instant overrun the limits |
| `QuotaLimits.BurstLimitIff` | app/core/quota.py:323-331 | over all settings under which the limits hold at all (LimitsHoldIff), the burst limit holds over every closed window of the configured length if and only if that is under a day |
| `QuotaLimits.RedeliveryPasses` | app/core/quota.py:333-337 | a second check of an id within a day, by whatever way it came, is allowed, whatever the first one decided, unless a block is on |
| `QuotaLimits.RefusedThenPasses` | app/core/quota.py:333-337 | a run of the check that first refuses an id and then allows it |
| `QuotaLimits.DayLimitIff` | app/core/quota.py:312-329 | over all settings under which the limits hold at all, the day limit holds over every closed day if and only if it is not positive, so that nothing is answered |
| `DuplicateLimit.RedisAnswersAlike` | app/core/quota.py:374-384 | which messages of a text are allowed on their first check is the same over Redis and over the full history |
| `DuplicateLimit.FreshTextsBounded` | app/core/quota.py:374-396 | over every run, lifted blocks included, the messages of one text let through that were not already in its duplicate set never exceed the limit in any closed minute, or in any half-open stretch of the retention when that is no longer |
| `DuplicateLimit.TextsBounded` | app/core/quota.py:374-396 | so it is for all messages of the text allowed on their first check, when the set does not outlive the day and no block is lifted, or when no message comes twice |
| `DuplicateLimit.DuplicateLimitIff` | app/core/quota.py:376-382 | over all settings under which the limits hold at all and over runs of the check without a lifted block, that holds if and only if the duplicate window is at most a day |
| `DuplicateLimit.ConfiguredWindowIff` | app/core/quota.py:366-380 | likewise, over the configured window itself, half-open, it holds if and only if that is at most a minute |
| `DuplicateLimit.MinuteApart` | app/core/quota.py:380 | two equal texts a little over a minute apart are both answered under a limit of one, however long the configured window |
| `DuplicateLimit.StaleOverrun` | app/core/quota.py:378-381 | a set that outlives the day keeps the old time of a message redelivered after it, and two equal texts at one instant are answered |
| `DuplicateLimit.LiftedTextsOverrun` | app/core/quota.py:581-583 | a lifted block forgets the messages but not their texts: for every positive duplicate window some run breaks the limit by checking an id again after the lift |
| `DuplicateLimit.LiftedLimitIff` | app/core/quota.py:581-583 | over all settings under which the limits hold at all and over runs of the check with lifted blocks and repeated ids, the limit holds if and only if the duplicate window is not positive |
| `LimitedHandlers.WorldIsRun` | app/services/chat_service.py:484-510 | with the verdicts computed, the handlers still run as the sequences about which silence, welcomes and single answers are proved |
| `LimitedHandlers.NoIdIsCheckedTwice` | app/services/chat_service.py:637-662 | over every sequence of handlers, lifecycle steps, replies and lifted blocks without a delete, the ids that reach one customer's check are pairwise different, and, under settings under which the limits hold at all, repeated texts stay within their limit for every duplicate window |
| `LimitedHandlers.CompletesOnlyIfAllowed` | app/services/chat_service.py:657-733 | the model is called only by a handler that took its message, was not held by a human, asked the limits and was allowed |
| `LimitedHandlers.CompletionsLimited` | app/core/quota.py:333-423 | with every verdict the one the guards give, the calls of the model for one customer since the last lifted block stay within the limits in every closed minute and hour, half-open day and burst window, over every such sequence |
| `LimitedHandlers.CompletionsLimitedIff` | app/core/quota.py:339-362 | that holds over all such sequences if and only if the block length is positive or no flood can be noticed |
| `Quota.CustomerQuota.CountArrival` | app/core/quota.py:323-331 | the pipelined commands in place |
| `Quota.CustomerQuota.OrdinaryLimits` | app/core/quota.py:398-423 | the first limit exceeded, shortest window first, decides |
| `Quota.CustomerQuota.CheckCustomer` | app/core/quota.py:289-423 | the whole check in place |
| `Quota.CustomerQuota.LiftBlock` | app/core/quota.py:568-587 | forgets the history exactly when a block was lifted |
| `SpendGuard.StepKeeps` | app/core/quota.py:223-263 | for every day, what is recorded plus what calls in flight may still add stays under the ceiling, through every step and midnight |
| `SpendGuard.SpendBounded` | app/core/quota.py:451-470 | in every reachable state recorded spend on every day is at most the limit plus the load in flight, and so are tokens, also for calls checked before midnight and recorded after |
| `SpendGuard.PassesIff` | app/core/quota.py:223-263 | a call in flight is let through exactly if, when it looks, the switch is off and its day is under both limits |
| `SpendGuard.KillHolds` | app/core/quota.py:233-235 | from the moment the switch is thrown until it is released no call is let through that was not before |
| `SpendGuard.CompletionCosts` | app/core/quota.py:426-470 | a completed call adds to the day it is recorded on what its tokens of each kind cost, and nothing to any other day |
| `SpendGuard.SpendCounters.CheckSpend` | app/core/quota.py:223-263 | allowed exactly when not switched off and under both limits; which refusal comes first |
| `SpendGuard.SpendCounters.RecordUsage` | app/core/quota.py:426-470 | adds, per million, prompt tokens at the input price and completion tokens at the output price, and both counts, to that day only; nothing for an empty completion |
| `Chunking.Windows` | app/core/chunking.py:55-62 | the loop ends and yields exactly the windows |
| `Chunking.WindowsRebuild` | app/core/chunking.py:55-62 | the first `step` tokens of the windows give the paragraph back |
| `Chunking.WindowsSized` | app/core/chunking.py:55-62 | every window is non-empty and within the size |
| `Chunking.UnitsFit` | app/core/chunking.py:96-107 | no unit is empty or longer than max_tokens |
| `Chunking.SplitParagraphs` | app/core/chunking.py:96-107 | paragraphs that fit stay whole, longer ones become windows |
| `Chunking.PackUnits` | app/core/chunking.py:109-117 | the packing loop computes the chunks the lemmas speak of |
| `Chunking.ChunkText` | app/core/chunking.py:80-117 | an error exactly for a max_tokens that is not positive |
| `Chunking.ChunksTile` | app/core/chunking.py:109-117 | each chunk is one stretch of the joined text, starting exactly at the repeated tail or past the separator, the last reaching the end |
| `Chunking.ChunksAreFull` | app/core/chunking.py:111-117 | two neighbouring chunks never fit into one: a chunk is closed only when the next unit does not fit |
| `Chunking.NothingLost` | app/core/chunking.py:109-117 | dropping the repeated tokens and concatenating, or joining by the separator without overlap, gives the text back; no more chunks than units |
| `Chunking.StraddlersSurvive` | app/core/chunking.py:9-11 | any stretch of up to overlap + 1 tokens of the joined units is whole in at least one chunk, wherever the boundaries fall |
| `Chunking.ParagraphsSurvive` | app/core/chunking.py:96-107 | every paragraph within max_tokens is whole in some chunk, and so is every stretch of a longer one of up to overlap + 1 tokens, or of up to a window if that is shorter |
| `Chunking.OverlapReachesIff` | app/core/chunking.py:104-107 | every stretch of up to overlap + 1 tokens of every paragraph is whole in some chunk, whatever the paragraphs, if and only if max_tokens leaves room for two overlaps and the separator, or there is no overlap, for a separator that has a token |
| `Chunking.HardBoundIff` | app/core/chunking.py:76 | every chunk is within max_tokens if and only if there is no overlap or each later unit fits behind its separator and the tail that would be repeated |
| `Chunking.ShortUnitsAreBounded` | app/core/chunking.py:92-95 | so it is when every unit fits in max_tokens less overlap and separator |
| `Chunking.OversizedUnits` | app/core/chunking.py:104-107 | unit k of an oversized paragraph in plain numbers: windows of max_tokens less overlap and separator, each starting the overlap before the last one's end, and just enough to reach the end |
| `Chunking.ChunksLeaveRoom` | app/core/chunking.py:92-95 | no chunk exceeds max_tokens when every paragraph is either oversized or leaves room for overlap and separator |
| `Chunking.FullParagraphsOverflow` | app/core/chunking.py:102-103 | two paragraphs of exactly max_tokens overflow it for any positive overlap |
| `Chunking.ChunksBounded` | app/core/chunking.py:111-117 | every chunk is within the larger of max_tokens and overlap, separator and longest unit together |
| `Pricing.PeriodOfIs` | app/repositories/analytics.py:134-146 | the lateral lookup yields at most one period, the latest one not after the call, and none only if the model had no price by then |
| `Pricing.AddMovesExactly` | app/services/pricing_service.py:26-54 | a new period takes over exactly the calls of its model from its start to the model's next period |
| `Pricing.DeleteMovesExactly` | app/services/pricing_service.py:56-67 | a delete moves exactly the calls the period was in force for |
| `Pricing.AddThenDelete` | app/models/model_pricing.py:47-54 | a repeated period is refused; adding changes only affected calls; deleting restores every price |
| `Pricing.Lookup` | app/repositories/analytics.py:126-155 | the evaluated lookup, defaults included |
| `Rollup.EveryInstantHasOneDay` | app/repositories/analytics_rollup.py:58-66 | every instant lies within exactly one day's bounds |
| `Rollup.CompleteDaysBefore` | app/repositories/analytics_rollup.py:69-79 | the finished days, consecutive, oldest first, today never among them |
| `Rollup.LiveSplits` | app/repositories/analytics_rollup.py:106-132 | live figures over adjacent intervals add up in every column |
| `Columns.OneCallShows` | app/repositories/analytics.py:149-155 | a single call shows as itself, its prompt tokens at the input price and its completion tokens at the output price of the period in force, or of the default |
| `Columns.CostsAddUp` | app/repositories/analytics.py:149-155 | a million times each cost is the sum over the interval's calls of the tokens of that kind times their price as of the call |
| `Columns.CountsAddUp` | app/repositories/analytics_rollup.py:106-132 | calls and failures are counted and tokens and latencies added up over the interval's calls |
| `Columns.MessagesCounted` | app/repositories/analytics_rollup.py:106-132 | a message counts on exactly the half-open intervals it falls in |
| `Rollup.RoundedNear` | app/models/analytics_rollup.py:78-83 | storing a cost moves it by at most half a millionth |
| `Rollup.RoundedIs` | app/models/analytics_rollup.py:78-83 | the stored cost is the nearest whole number of millionths, of two the one away from zero |
| `Rollup.RollupAddsUp` | app/repositories/analytics_rollup.py:102-164 | n rolled-up days add up to the live figures over the joined interval: integers exactly, each cost within n half-millionths |
| `Rollup.GroupsAddUp` | app/repositories/analytics.py:278-293 | however calls are grouped, the groups add up to the totals |
| `Rollup.TotalsAreLive` | app/repositories/analytics.py:227-265 | the totals are the live sum over the same period |
| `Rollup.AddUp` | app/repositories/analytics_rollup.py:106-132 | the evaluated aggregates over a half-open interval |
| `Rollup.DailyTable.RollupDay` | app/repositories/analytics_rollup.py:85-164 | replaces that day's row and no other |
| `Rollup.DailyTable.RollupDays` | app/repositories/analytics_rollup.py:166-176 | in any order, with any repetition, the listed days hold their summaries and the rest is untouched |
| `Rollup.DailyTable.RollupNight` | app/repositories/analytics_rollup.py:69-79 | afterwards the days looked back over are rolled up and today is not |
| `UsageDays.UsageByDay` | app/repositories/analytics.py:267-320 | for any session time zone and order of the grouped rows: one entry per date, in order, with the figures of the last rows filed under it |
| `UsageDays.UsageAddsUp` | app/repositories/analytics.py:304-320 | when no two midnights of the period come back with one date, the listed days add up in every column to the totals and to the messages since the start |
| `UsageDays.UsageAddsUpIff` | app/repositories/analytics.py:294-302 | they do so for all data and all orders of the rows if and only if no two midnights of the period come back with one date |
| `UsageDays.QueriesAgree` | app/repositories/analytics.py:227-354 | per-model and per-day figures then both add up to the totals for the same start |
| `UsageDays.FixedOffsetsAddUp` | app/repositories/analytics.py:278-294 | every zone at a fixed offset from UTC meets that condition for every start |
| `UsageDays.SpringForwardIff` | app/repositories/analytics.py:278-302 | a zone whose clocks go forward from UTC meets it exactly when the period starts after the day of the change |
| `UsageDays.DayGroupIsInterval` | app/repositories/analytics.py:278-294 | in a session at UTC a date's figures are the live sums over that day's part of the period, as the rollup takes them |
| `LikeSearch.EscapedAlso` | app/repositories/analytics.py:165-167 | escaping one more character afterwards is escaping both at once, unless it is the backslash |
| `LikeSearch.EscapeLike` | app/repositories/analytics.py:158-167 | three replacements in turn equal one pass |
| `LikeSearch.SearchFindsSubstrings` | app/repositories/analytics.py:449-463 | for every text and term the pattern is well formed and matches exactly the texts that contain the term, case aside |
| `Utf8Clip.WholeCharacter` | app/channels/instagram.py:82-85 | an encoded character is decoded as itself whatever follows |
| `Utf8Clip.CutCharacter` | app/channels/instagram.py:82-85 | a character cut anywhere is dropped, never replaced |
| `Utf8Clip.DecodedCutIsFitting` | app/channels/instagram.py:82-85 | decoding an encoding cut anywhere gives the longest prefix that fits |
| `Utf8Clip.FittingIsLongest` | app/channels/instagram.py:74-80 | that prefix is within the limit and one character more would not be |
| `Utf8Clip.ClipUtf8` | app/channels/instagram.py:74-85 | returns the longest prefix within the limit, for every text and every limit, negative ones read as Python reads them |
| `Utf8Clip.RoundTrip` | app/channels/instagram.py:82-85 | decoding undoes encoding |

## Left out

- ReplyProtocol.StepKeeps: a worker's decision and the kind of message it sends are free choices here, not computed from the conversation; ChatFlow computes them for handlers that do not overlap.
- ChatGuarantees.HumanMeansSilence: speaks of what handlers send; typed replies and goodbyes are in its runs as rows of the transcript but not in its record of sends, and the private invitation after a comment, which is sent to a customer held by a human too, is not in its runs.
- ChatGuarantees.WelcomeOnceIff: for handlers that neither overlap nor crash; two overlapping handlers of one new session can both find the welcome owed.
- Quota.LimitsHold: with Redis reachable and checks of one customer not overlapping; an unreachable Redis lets everything through by design.
- LimitedHandlers.CompletionsLimited: likewise, for handlers that neither overlap nor crash; without NothingDeleted it is not claimed, since a delivery repeated after a delete passes the check uncounted.
- ChatService.ChatService.GenerateAndSend: the usage record (SpendGuard models it on its own) and the row of the call log written around the send are not part of it.
- SpendGuard.SpendBounded: costs are real numbers, so rounding of the stored float is not modelled, nor the once-a-day alerts.
- Rollup.RollupAddsUp: a cost too large for the column, which makes the statement fail, is not modelled.
- UsageDays.UsageByDay: the average latency of a day is not among its columns.
- UsageDays.SpringForwardIff: like FixedOffsetsAddUp it takes the driver to hand instants back in UTC, as asyncpg does; the driver is not part of this model, and UsageAddsUpIff holds for any.
- LikeSearch.SearchFindsSubstrings: case folding is any map on characters, so foldings that change a text's length are not covered.
- OperatorActions.OperatorDesk.SwitchMode: the operator's account id beside the display label is not modelled.
- `_send_once` without a message to answer (no handler calls it so), `release_reservation` (no caller), delivery status updates, and stale messages that are recorded without reaching a handler.
- Latency percentiles, averages, and the remaining dashboard queries: easy members.
- Text normalisation, tokenising, decoding and stripping of chunks: library behaviour.
- The regular-expression classifiers, prompts and message wording: their answers are inputs.
- HTTP clients, webhooks, signatures, settings, events, metrics, logging, authentication and the dashboard.
