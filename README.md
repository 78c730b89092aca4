# Notification and poll services: a verified model

This project models four sequential cores of a NestJS backend for communities
(chat rooms) with a live speaker, posts, polls and push notifications.

- **Push notifications** (`push_notification.dfy`, module `PushNotification`):
  - the preference gate (`validateAgainstUserPreferences`);
  - message dispatch (`makeMessage`): null for unlisted kinds, the audit-history fallback for the speaker notification, and the throw on a missing chat room;
  - the single-user delivery pipeline (`sendNotificationToUser`): gate, message, active devices, one multicast, then one history record;
  - invalid-token pruning after a multicast (`sendMulticastMessage`);
  - the batch (`createNotificationsForUsers`);
  - topic names (`makeTopic`) and topic membership syncing (`addToTopic`, `removeUserFromTopic`, `updateTopicForUserId`, `removeDeviceTokensFromAllChatRooms`);
  - the job queue.

  The push provider is an input. A multicast answers with one response per token, in token order, or it throws. An unsubscribe may throw.
- **Reminder timers** (`reminder_notification.dfy`, module `ReminderNotification`):
  - a registry of named timeouts, with one near-term reminder (`reminder__<id>`) or one overflow timer (`reminder-timer-greater-than-limit__<id>`) per community;
  - the tier chain of 12 h, 6 h and 1 h on the remaining milliseconds;
  - delete-before-arm, the 1296000000 ms limit and the `DISABLE_TIMERS` switch;
  - the timer callbacks, including the reminder job and the reminder e-mail guard.

  The invariant `WellFormed` (at most one timer per community) is kept by every operation.
- **Notification settings** (`notification_setting.dfy`, module `NotificationSettings`):
  - lazy creation of the per-user, per-community preference record on first read;
  - the partial update that overwrites only the supplied fields;
  - the "views updated" event;
  - the argument guard and day loop of the settings graph.

  The table is kept free of duplicate keys.
- **Polls** (`polls.dfy`, module `Polls`):
  - poll creation with ranks 0, 1, …;
  - the `getPoll` and live-post guards;
  - who may vote;
  - vote replacement: prior votes are soft-deleted and their choices decremented, then one new vote is created and its choice incremented;
  - the voter query's paging and `hasVoted`.

  The per-choice counters always equal the number of active votes for the choice.

Shared types (identifiers, `Option`, `Result`, `Status`, HTTP errors, mic levels, JavaScript truthiness of strings) are in `common.dfy`.

Services that update stored state are classes whose fields are the repositories they write: the device registry, notification history, sent multicasts, topic calls, the queue, the timer registry, sent e-mails, the preference table, polls, choices and votes. Repositories the core only reads are passed in as values: users, memberships, chat rooms, audit history, live posts and the speaker on mic.

The model follows the code in these places:
- `createNotificationsForUsers` has no per-user isolation. An exception for one recipient (a missing user for a direct-message kind, a missing chat room, a speaker notification with neither an acting user nor an audit record) ends the batch.
- In `updateTopicForUserId`, a failed subscribe is caught, but a failed unsubscribe is not: it stops the remaining memberships.
- `adjustTimer` with no speaker, or with less than one hour left, deletes nothing: timers already armed stay armed.
- The history record of a delivery is written even when the provider's multicast fails.
- `castVote` soft-deletes and decrements the prior votes before it creates the new vote and reads the poll back. A failure at either point leaves the prior votes retired.
- `castVote` does not check that the choice belongs to the poll. The vote repository is not part of this model; the model assumes the store refuses a vote for an unknown choice and reports that as an internal error.
- `makeChatRoomProps` dereferences a chat room that may be missing (notification-services/push-notification.service.ts:504). `makeMessage` therefore throws for an unknown chat room.

## Model

| member | source | states |
|---|---|---|
| NotificationSettings.Find | notification-services/notification-setting.service.ts:37-40 | a record is found iff some row has the (user, community) key, and the record found is a stored row with that key |
| NotificationSettings.FindUnique | notification-services/notification-setting.service.ts:37-40 | in a table without duplicate keys, the record found for a row's key is that row |
| NotificationSettings.WithRecordStores | notification-services/notification-setting.service.ts:47-54 | lazy creation: afterwards the looked-up record is stored for the key; old rows stay in order; at most one row is added, and only when none existed; uniqueness is kept; a second call adds nothing and returns the same record |
| NotificationSettings.ReplaceStores | notification-services/notification-setting.service.ts:118-120 | saving a record with an existing key replaces that row only and keeps the table free of duplicates |
| NotificationSettings.OverwriteFieldwise | notification-services/notification-setting.service.ts:89-117 | each of the nine toggles is overwritten iff the request supplies it, otherwise kept |
| NotificationSettings.OverwriteIdempotent | notification-services/notification-setting.service.ts:89-117 | applying the same request twice gives the record of applying it once |
| NotificationSettings.OverwriteNothing | notification-services/notification-setting.service.ts:89-117 | a request that supplies no field leaves the record unchanged |
| NotificationSettings.OverwriteLastWins | notification-services/notification-setting.service.ts:89-117 | two requests in a row act as one request in which the later one's supplied fields win |
| NotificationSettings.ViewsChangedOnlyOnce | notification-services/notification-setting.service.ts:122-128 | repeating a request after it was applied, or a request without showInViewedBy, never fires the views event |
| NotificationSettings.FindCount | notification-services/notification-setting.service.ts:157-159 | the daily counter found is the first one carrying the date asked for; none is found only when no counter has that date |
| NotificationSettings.DayCountBounds | notification-services/notification-setting.service.ts:152-156 | the number of rows is the unique n whose last timestamp start + (n-1) days is at most end while start + n days passes it |
| NotificationSettings.NotificationSettingService.GetUserCommunityPreferences | notification-services/notification-setting.service.ts:32-55 | returns the stored record, or inserts and returns one with the column defaults when none exists; afterwards the record is found for the key and keys stay unique |
| NotificationSettings.NotificationSettingService.UpdateUserCommunityPreferences | notification-services/notification-setting.service.ts:65-131 | the (lazily created) record gets the supplied fields, and that row alone is replaced; the views event is appended iff showInViewedBy was supplied and changed |
| NotificationSettings.NotificationSettingService.CreateNotificationSettingsIfNotPresent | notification-services/notification-setting.service.ts:173-192 | a record exists for the key afterwards; a row is added only when none existed |
| NotificationSettings.NotificationSettingService.GetNotificationSettingsGraphsData | notification-services/notification-setting.service.ts:133-171 | Forbidden iff the community, start or end is missing; otherwise one row per day from start to end inclusive (none when end < start), each built from the day's first counter; a missing full-access count falls back to the current commentator count, then to 0, and other missing counts to 0 |
| PushNotification.DecisionTable | notification-services/push-notification.service.ts:409-444 | each kind is in exactly one class (always sent, gated by its community toggle, or read from the user's direct-message flag), and the gate's answer depends only on that class |
| PushNotification.DefaultAllows | notification-services/push-notification.service.ts:420-435 | with no preference record, or a null gating toggle, every kind except the two direct-message kinds is allowed |
| PushNotification.MissingUserOnlyBreaksDirectMessages | notification-services/push-notification.service.ts:394-445 | the gate fails iff the user is missing and the kind reads the direct-message flag; with no community, every other kind is allowed |
| PushNotification.MessageDispatch | notification-services/push-notification.service.ts:528-630 | null iff the room resolves and the kind is unlisted; a throw iff the room is missing, or a speaker notification has neither an acting user nor an audit record; otherwise a payload of the kind, attributed to the acting user or else to the first audit record |
| PushNotification.ActiveTokensAreTheUsers | notification-services/push-notification.service.ts:374-383 | a token is sent to iff an active device of the user holds it |
| PushNotification.InvalidTokensExact | notification-services/push-notification.service.ts:459-472 | the invalid-token list is tokens[i] for exactly the indices i whose response is unsuccessful with one of the three codes, in increasing index order |
| PushNotification.CollectInvalidTokens | notification-services/push-notification.service.ts:459-472 | the forEach loop collects exactly the invalid-token list |
| PushNotification.AfterSendOnlyNulls | notification-services/push-notification.service.ts:473-478 | after a multicast, a device's token becomes null iff the provider answered and reported that token invalid; owners, active flags and every other token are unchanged |
| PushNotification.TopicsDistinct | notification-services/push-notification.service.ts:518-523 | topic names are injective in the community, and a dev topic never equals a prod topic |
| PushNotification.TopicPlanOnePerMembership | notification-services/push-notification.service.ts:165-182 | with tokens on file and no provider failure, exactly one call per membership in order: subscribe for viewer, commentator and speaker, unsubscribe otherwise; with no device, no call |
| PushNotification.PurgePlanExact | notification-services/push-notification.service.ts:193-196 | the k-th call is the unsubscribe of the tokens from the k-th community's topic; the purge covers every community unless an unsubscribe threw, and it throws exactly when the last call tried threw, no earlier call having thrown |
| PushNotification.ApplyCallsIdempotent | notification-services/push-notification.service.ts:165-182 | replaying the same topic calls leaves the subscription table as one replay does |
| PushNotification.TopicSyncIdempotent | notification-services/push-notification.service.ts:165-182 | two runs of the topic sync for a user, with no change in between, leave the subscription table as one run does |
| PushNotification.DeliveredExactly | notification-services/push-notification.service.ts:352-391 | a delivery happens iff the gate allows, a message is built and the user has an active token; it then carries the message to all of them; a refusal is an opt-out |
| PushNotification.OptedOutExactly | notification-services/push-notification.service.ts:352-362 | a recipient is reported opted out iff the gate refused |
| PushNotification.SpeakerFallbackWithoutAuditThrows | notification-services/push-notification.service.ts:541-548 | a speaker notification with no acting user and no audit record throws, whatever the recipient's devices |
| PushNotification.PushNotificationService.AddToTopicBackgroundProcessHandler | notification-services/push-notification.service.ts:104-112 | one add-to-topic job is appended to the queue |
| PushNotification.PushNotificationService.RemoveFromTopicBackgroundProcessHandler | notification-services/push-notification.service.ts:114-122 | one remove-from-topic job is appended to the queue |
| PushNotification.PushNotificationService.AddToTopic | notification-services/push-notification.service.ts:124-140 | one subscription of all the user's device tokens to the community's topic, none when the user has no device |
| PushNotification.PushNotificationService.RemoveUserFromTopic | notification-services/push-notification.service.ts:142-157 | one unsubscription of the user's active tokens, none when there are none; it throws exactly when the provider fails |
| PushNotification.PushNotificationService.UpdateTopicForUserId | notification-services/push-notification.service.ts:165-182 | the calls issued are the topic plan of the user's memberships, stopping at an uncaught unsubscribe failure |
| PushNotification.PushNotificationService.RemoveDeviceTokensFromAllChatRooms | notification-services/push-notification.service.ts:184-197 | one unsubscription per community of the first page of 100, in order, stopping at a provider failure; at most 100 calls |
| PushNotification.PushNotificationService.EnqueueSendNotificationsForUsers | notification-services/push-notification.service.ts:205-218 | one send-notification job carrying the users, kind and props is appended |
| PushNotification.PushNotificationService.SendMulticastMessage | notification-services/push-notification.service.ts:447-479 | one multicast is recorded; the registry is pruned of exactly the reported invalid tokens, and unchanged when the provider throws |
| PushNotification.PushNotificationService.SendNotificationToUser | notification-services/push-notification.service.ts:344-392 | the outcome follows the early returns (gate, message, devices); only a delivery changes state: one multicast, pruning, then one history record |
| PushNotification.PushNotificationService.CreateNotificationsForUsers | notification-services/push-notification.service.ts:225-235 | the outcomes and the new registry, history and multicasts are exactly those of the batch run on the old state; hence recipients are processed in order until the first throw, opt-outs are exactly the gate's refusals, history and multicasts gain one entry per delivered recipient in order, and device changes only null tokens |
| PushNotification.BatchStopsOnlyAtThrow | notification-services/push-notification.service.ts:225-235 | a batch covers a prefix of the recipients; it stops early only at a throw, which is its last outcome, and no earlier recipient threw |
| PushNotification.BatchOptOuts | notification-services/push-notification.service.ts:225-235 | in a batch, a recipient is reported opted out exactly when the preference gate refused that recipient |
| PushNotification.BatchLog | notification-services/push-notification.service.ts:225-235 | a batch appends one history record and one multicast per delivered recipient, in recipient order, and nothing else |
| PushNotification.BatchOnlyNullsTokens | notification-services/push-notification.service.ts:225-235 | a batch changes the device registry only by nulling tokens |
| PushNotification.BatchHaltsAtThrow | notification-services/push-notification.service.ts:225-235 | a recipient whose pipeline throws ends the batch with no further delivery and no state change |
| ReminderNotification.ReminderDelay | notification-services/reminder-notification.service.ts:42-61 | no reminder iff less than one hour remains; otherwise the delay is non-negative, at most the remaining time, and ends exactly at the largest tier that fits |
| ReminderNotification.NamesDistinct | notification-services/reminder-notification.service.ts:38-39 | near-term and overflow names never coincide, and each is injective in the community |
| ReminderNotification.OneTimerPerCommunity | notification-services/reminder-notification.service.ts:65-99 | in a well-formed registry, at most one of a community's two names exists |
| ReminderNotification.ArmingOutcome | notification-services/reminder-notification.service.ts:65-99 | after arming: an overflow timer of exactly the limit iff the delay exceeds the limit; a near-term reminder for the delay iff within the limit with no live post and a speaker on mic; neither when timers are disabled; other names untouched; the invariant is kept |
| ReminderNotification.AdjustOutcome | notification-services/reminder-notification.service.ts:42-63 | adjustment keeps the invariant and touches only the community's two names; without a speaker or below one hour it changes nothing |
| ReminderNotification.TwentyDaysArmsOverflow | notification-services/reminder-notification.service.ts:71-74 | twenty days before the slot ends, only the overflow timer is armed, for the limit |
| ReminderNotification.LimitTakesNearPath | notification-services/reminder-notification.service.ts:71-74 | a delay equal to the limit arms the near-term reminder, not the overflow timer |
| ReminderNotification.ReminderNotificationService.DeleteTimeout | notification-services/reminder-notification.service.ts:170-180 | only the community's near-term name is removed |
| ReminderNotification.ReminderNotificationService.DeleteTimeoutsGreaterThanLimit | notification-services/reminder-notification.service.ts:220-230 | only the community's overflow name is removed |
| ReminderNotification.ReminderNotificationService.ScheduleTimeout | notification-services/reminder-notification.service.ts:250-259 | the timeout is registered under its name, or nothing when timers are disabled |
| ReminderNotification.ReminderNotificationService.AddTimerGreaterThanLimit | notification-services/reminder-notification.service.ts:232-248 | both names are deleted, then an overflow timer for exactly the limit is registered (unless disabled) |
| ReminderNotification.ReminderNotificationService.SendPushNotificationIfSpeakerIsStillActive | notification-services/reminder-notification.service.ts:65-99 | the registry becomes the arming outcome, and the one-timer-per-community invariant is kept |
| ReminderNotification.ReminderNotificationService.AdjustTimer | notification-services/reminder-notification.service.ts:42-63 | arms for the chosen tier, or leaves the registry as it was without a speaker or below one hour; the invariant is kept |
| ReminderNotification.ReminderNotificationService.SendPushNotificationAfterTime | notification-services/reminder-notification.service.ts:101-112 | with a live post or no speaker nothing changes; otherwise one reminder job for the speaker, the e-mail when its guard holds, then re-adjustment |
| ReminderNotification.ReminderNotificationService.SendNotifications | notification-services/reminder-notification.service.ts:114-146 | one reminder job for the speaker, and an e-mail iff the community exists and the speaker has an address and opted in; tips iff an active league exists |
| ReminderNotification.ReminderNotificationService.Fire | notification-services/reminder-notification.service.ts:92-98 | a fired timer stays registered, marked fired; a near-term reminder re-checks, notifies and re-adjusts; an overflow timer only re-adjusts, with no notification |
| Polls.GetPoll | poll-services/polls.service.ts:70-79 | NotFound iff the poll is absent; Forbidden iff it belongs to another community; otherwise the stored poll |
| Polls.PollContents | poll-services/polls.service.ts:355-359 | the filter keeps exactly the POLL contents naming the poll and is non-empty iff such a content exists |
| Polls.ValidateThatPollIsAttachedToLivePost | poll-services/polls.service.ts:343-371 | succeeds iff a live post exists, the first one carries the poll and, when a user is given, that user wrote it; it then returns that post; every failure is Forbidden |
| Polls.WhoCanVote | poll-services/polls.service.ts:221-231 | non-members, viewers, other levels and incognito members are refused; commentators and speakers who are not incognito may vote |
| Polls.FetchVoters | poll-services/polls.service.ts:292-316 | the getPoll error is passed on; anonymous polls are Forbidden; otherwise a query for the choice and poll |
| Polls.PagesTile | poll-services/polls.service.ts:309-310 | page p takes the limit (25 by default) and skips limit * (p - 1) voters, so each page starts where the previous ends; a missing page is page 1 and starts at 0 |
| Polls.ExistingExact | poll-services/polls.service.ts:234-237 | the prior votes found are exactly the user's active votes on the poll, each once, in id order, aligned with their choices |
| Polls.RetireTally | poll-services/polls.service.ts:238-246 | retiring the user's votes lowers each choice's active tally by the number of the user's prior votes for it |
| Polls.DecrementedCounts | poll-services/polls.service.ts:239-245 | each counter drops by one per prior vote for its choice, and no choice is added or removed |
| Polls.CountsMatchAfterVote | poll-services/polls.service.ts:233-253 | counters equal the active tallies after the retirement step and after the whole replacement |
| Polls.StoreKeptAfterVote | poll-services/polls.service.ts:233-253 | active votes keep naming existing choices, and each user keeps at most one active vote per poll |
| Polls.TotalAfterVote | poll-services/polls.service.ts:238-253 | across the poll's choices, the counters' sum changes by one minus the number of prior votes |
| Polls.SameChoiceRevote | poll-services/polls.service.ts:238-253 | re-voting for the only choice voted for leaves every counter unchanged |
| Polls.OnlyVoteAfter | poll-services/polls.service.ts:233-253 | after a replacement, the user's only active vote on the poll is the new one |
| Polls.FindVote | poll-services/polls.service.ts:333 | the vote found is an active vote of the user on the poll; none iff there is no such vote |
| Polls.HasVotedExact | poll-services/polls.service.ts:328-335 | with one vote per user and poll, hasVoted holds iff an active vote of the user on the poll is for the choice |
| Polls.CastVoteOutcome | poll-services/polls.service.ts:204-290 | a poll not attached to a live post, or a voter who may not vote, changes nothing; the notification is enqueued iff the call succeeds; success needs the live post, the poll, the choice and a permitted voter; after a success, or a NotFound read-back, the new vote is the user's only one on the poll |
| Polls.PollsService.CreatePoll | poll-services/polls.service.ts:39-68 | the poll is stored, and one choice per text in input order with rank equal to its position and no votes; other choices are unchanged |
| Polls.PollsService.CastVote | poll-services/polls.service.ts:204-290 | status, votes, counters and queue are exactly the cast-vote effect in program order, and the store invariants are kept |
| Polls.PollsService.RetirePriorVotes | poll-services/polls.service.ts:233-246 | each of the user's active votes on the poll is soft-deleted and its choice decremented once |
| Polls.PollsService.HasVotedQuery | poll-services/polls.service.ts:328-335 | true iff an active vote of the user on the poll is for the choice |

## Left out

- Firebase initialisation and service-account credentials (push-notification.service.ts:92-99). The provider's multicast, subscribe and unsubscribe calls are a `Provider` input.
- The payload builders and `makeChatRoomProps` image formatting are not part of this model. A built message records the kind, community, acting user and time it was built from.
- `addToNotificationHistory` serialises the message to JSON. The model records the payload itself.
- background-process/push-notification.process.ts only routes queue jobs to service methods. The queue is a job log, and nothing drains it.
- Concurrency and un-awaited promises are not modelled. Every call runs in program order; this includes the un-awaited deletes and the re-adjustment in the reminder service.
- Wall-clock and date utilities (`calculateDifferenceInTimeOut`, `convertEndingAtToString`, `new Date`, `getFormattedDate`) are inputs: the remaining milliseconds, the slot's end timestamp and a date formatter.
- The reminder service's repository reads (speaker on mic, live post, community, active leagues) are one snapshot per event. Between the adjustment and the arming they read the same values.
- E-mail templates, the current speaker's display name, WebSocket emits other than the views-updated event, console logging, and `contestsService.recordEntry` (a fractional score) are left out.
- `sendNotificationForSelectedAsNextSpeaker`, `sendNotificationsForReactionAdded` and the `retrieveUserListFor…` recipient queries are left out. Their recipients reach the model as the `userIds` or `recipients` input.
- `updateTopicForUserIds` is a plain loop over `updateTopicForUserId` and is left out.
- `updatePoll`, `addChoiceToPoll`, `updatePollChoice`, `deleteChoice`, `deletePollAndVotes` and `retrieveVote` are left out: they are outside the voting and creation core.
- PushNotification.PushNotificationService.SendMulticastMessage: requires the provider to answer with one response per token (the provider's documented contract). A mismatched answer would pair responses with the wrong tokens.
- NotificationSettings.NotificationSettingService.GetNotificationSettingsGraphsData: counts are integers. Where the code falls back to the string '0' for a missing count, the model's row holds the number 0.
- NotificationSettings daily counts: the code reads the commentator count under the lower-case key `commentatorcount` (notification-services/notification-setting.service.ts:163). The model assumes the counter row carries the commentator count under that key; if the row spelt it otherwise, the code would fall back to the current count.
- PushNotification.ActiveTokens: `findActiveUserDevices` is taken to return only active devices that hold a token. Its query is not part of this model.
- ReminderNotification.ReminderNotificationService.ScheduleTimeout: requires the name to be absent. The scheduler registry throws on a duplicate name, and every caller deletes the name first, so that throw is never reached.
- ReminderNotification.ReminderNotificationService.SendPushNotificationIfSpeakerIsStillActive: requires a non-negative delay. Every tier of the chain yields one.
- Polls.PollsService.CreatePoll: the ids the repositories generate for the poll and its choices are inputs, required to be fresh and distinct. The poll is returned without its choice list.
- Polls.PollsService.RetirePriorVotes: requires every active vote to name an existing choice (an invariant of the store). Decrementing a missing choice is repository behaviour not part of this model.
- Polls.PollsService.CastVote: the poll-updated WebSocket emit and the contest entry after the notification are left out.
