/** The reminder timer state machine
    (notification-services/reminder-notification.service.ts). Each community
    has at most one live named timeout: a near-term reminder that fires a
    tier before the current speaker's slot ends, or an overflow timer that
    bridges delays beyond what the timer facility accepts and then re-runs
    the tier selection. Repository reads are passed in as a snapshot taken at
    the event (adjustment or firing) that starts the work. */
module ReminderNotification {
  import opened Common
  import opened PushNotification

  const TwelveHours := 43200000
  const SixHours := 21600000
  const OneHour := 3600000
  /** The largest delay armed in one timeout (15 days). */
  const MaxTimeoutLimit := 1296000000

  const Tiers: set<int> := {TwelveHours, SixHours, OneHour}

  /** The tier chain of `adjustTimer`: the delay until the reminder, for the
      remaining milliseconds of a speaker's slot, or `None` below one hour.
      The reminder fires when the remaining time equals the largest tier that
      does not exceed it. */
  function ReminderDelay(ms: int): (delay: Option<int>)
    ensures delay.None? <==> ms < OneHour
    ensures delay.Some? ==>
      && 0 <= delay.value <= ms
      && ms - delay.value in Tiers
      && forall t :: t in Tiers && t <= ms ==> t <= ms - delay.value
  {
    if ms >= TwelveHours then Some(ms - TwelveHours)
    else if ms >= SixHours then Some(ms - SixHours)
    else if ms >= OneHour then Some(ms - OneHour)
    else None
  }

  /** `this.name + '__' + chatRoomId`. */
  function NearName(chatRoomId: Id): string
  {
    "reminder__" + chatRoomId
  }

  /** `this.reminderGreaterThanLimit + '__' + chatRoomId`. */
  function OverflowName(chatRoomId: Id): string
  {
    "reminder-timer-greater-than-limit__" + chatRoomId
  }

  /** Timer names identify their kind and community: the two families never
      meet, and each is injective. */
  lemma NamesDistinct(a: Id, b: Id)
    ensures NearName(a) != OverflowName(b)
    ensures NearName(a) == NearName(b) ==> a == b
    ensures OverflowName(a) == OverflowName(b) ==> a == b
  {
    assert NearName(a)[8] == '_' && OverflowName(b)[8] == '-';
    assert NearName(a)[10..] == a && NearName(b)[10..] == b;
    assert OverflowName(a)[35..] == a && OverflowName(b)[35..] == b;
  }

  /** A timeout's callback: the near-term reminder runs
      `sendPushNotificationAfterTime`, the overflow timer only `adjustTimer`. */
  datatype TimerAction = Remind(chatRoomId: Id) | Readjust(chatRoomId: Id)

  /** A registered timeout. The scheduler registry keeps a timeout's name after
      it has fired, until it is deleted by name. */
  datatype Timer = Timer(delay: int, action: TimerAction, fired: bool)

  type Registry = map<string, Timer>

  function NameOf(action: TimerAction): string
  {
    match action
    case Remind(id) => NearName(id)
    case Readjust(id) => OverflowName(id)
  }

  /** The registry invariant: every timer sits under the name its callback
      belongs to, delays are between 0 and the limit, an overflow timer waits
      exactly the limit, and no two timers serve the same community. */
  ghost predicate WellFormed(registry: Registry)
  {
    && (forall name :: name in registry ==>
          && name == NameOf(registry[name].action)
          && 0 <= registry[name].delay <= MaxTimeoutLimit
          && (registry[name].action.Readjust? ==> registry[name].delay == MaxTimeoutLimit))
    && (forall n1, n2 ::
          (n1 in registry && n2 in registry && registry[n1].action.chatRoomId == registry[n2].action.chatRoomId) ==>
          n1 == n2)
  }

  /** At most one of the two names exists for any community. */
  lemma OneTimerPerCommunity(registry: Registry, chatRoomId: Id)
    requires WellFormed(registry)
    ensures !(NearName(chatRoomId) in registry && OverflowName(chatRoomId) in registry)
  {
    NamesDistinct(chatRoomId, chatRoomId);
    if NearName(chatRoomId) in registry && OverflowName(chatRoomId) in registry {
      var near, over := registry[NearName(chatRoomId)], registry[OverflowName(chatRoomId)];
      NamesDistinct(near.action.chatRoomId, chatRoomId);
      NamesDistinct(chatRoomId, near.action.chatRoomId);
      NamesDistinct(over.action.chatRoomId, chatRoomId);
      NamesDistinct(chatRoomId, over.action.chatRoomId);
    }
  }

  /** The speaker on mic, as `findUserWithMic` returns it; `remainingMs` is
      the time left until `endingAt`, the slot's end. */
  datatype Speaker = Speaker(userId: Id, endingAt: int, remainingMs: int, email: Option<string>, emailOptIn: bool)

  /** Repository reads for one community at one moment. */
  datatype Snapshot = Snapshot(
    speaker: Option<Speaker>,
    livePost: bool,                 // getLivePost returned a non-empty list
    communityName: Option<string>,  // the community's name, None when it does not exist
    activeLeagues: nat)

  /** Both names of the community deleted; a delete only happens when the name
      is present, so other timers never change. */
  function Cleared(registry: Registry, chatRoomId: Id): Registry
  {
    registry - {NearName(chatRoomId), OverflowName(chatRoomId)}
  }

  /** The two deletes, one name after the other, clear the community. */
  lemma DeletedBoth(registry: Registry, chatRoomId: Id)
    ensures registry - {NearName(chatRoomId)} - {OverflowName(chatRoomId)} == Cleared(registry, chatRoomId)
  {
  }

  /** Deleting both names a second time changes nothing. */
  lemma ClearedTwice(registry: Registry, chatRoomId: Id)
    ensures Cleared(Cleared(registry, chatRoomId), chatRoomId) == Cleared(registry, chatRoomId)
  {
  }

  /** `scheduleTimeout`: nothing is registered while timers are disabled. */
  function Scheduled(registry: Registry, name: string, timer: Timer, timersDisabled: bool): Registry
  {
    if timersDisabled then registry else registry[name := timer]
  }

  /** The registry after `sendPushNotificationIfSpeakerIsStillActive`. */
  function AfterArming(registry: Registry, chatRoomId: Id, delay: int, snap: Snapshot, timersDisabled: bool): Registry
  {
    var cleared := Cleared(registry, chatRoomId);
    if delay > MaxTimeoutLimit then
      Scheduled(cleared, OverflowName(chatRoomId), Timer(MaxTimeoutLimit, Readjust(chatRoomId), false), timersDisabled)
    else if snap.livePost || snap.speaker.None? then cleared
    else Scheduled(cleared, NearName(chatRoomId), Timer(delay, Remind(chatRoomId), false), timersDisabled)
  }

  /** The registry after `adjustTimer`: untouched without a speaker or below
      the last tier. */
  function Adjusted(registry: Registry, chatRoomId: Id, snap: Snapshot, timersDisabled: bool): Registry
  {
    match snap.speaker
    case None => registry
    case Some(speaker) =>
      match ReminderDelay(speaker.remainingMs)
      case None => registry
      case Some(delay) => AfterArming(registry, chatRoomId, delay, snap, timersDisabled)
  }

  /** What arming leaves for the community: an overflow timer of exactly the
      limit iff the delay exceeds the limit; a near-term reminder for the
      delay iff the delay is within the limit, no live post exists and a
      speaker is on mic; neither while timers are disabled. Every other
      community's timers are untouched, and the invariant is kept. */
  lemma ArmingOutcome(registry: Registry, chatRoomId: Id, delay: int, snap: Snapshot, timersDisabled: bool)
    requires WellFormed(registry) && 0 <= delay
    ensures var r := AfterArming(registry, chatRoomId, delay, snap, timersDisabled);
      && WellFormed(r)
      && (OverflowName(chatRoomId) in r <==> delay > MaxTimeoutLimit && !timersDisabled)
      && (OverflowName(chatRoomId) in r ==> r[OverflowName(chatRoomId)] == Timer(MaxTimeoutLimit, Readjust(chatRoomId), false))
      && (NearName(chatRoomId) in r <==>
            delay <= MaxTimeoutLimit && !snap.livePost && snap.speaker.Some? && !timersDisabled)
      && (NearName(chatRoomId) in r ==> r[NearName(chatRoomId)] == Timer(delay, Remind(chatRoomId), false))
      && (forall name :: name != NearName(chatRoomId) && name != OverflowName(chatRoomId) ==>
            (name in r <==> name in registry) && (name in r ==> r[name] == registry[name]))
  {
    ArmingKeepsWellFormed(registry, chatRoomId, delay, snap, timersDisabled);
    NamesDistinct(chatRoomId, chatRoomId);
  }

  /** Arming keeps the registry invariant. */
  lemma ArmingKeepsWellFormed(registry: Registry, chatRoomId: Id, delay: int, snap: Snapshot, timersDisabled: bool)
    requires WellFormed(registry) && 0 <= delay
    ensures WellFormed(AfterArming(registry, chatRoomId, delay, snap, timersDisabled))
  {
    var cleared := Cleared(registry, chatRoomId);
    ClearedKeepsWellFormed(registry, chatRoomId);
    if !timersDisabled {
      if delay > MaxTimeoutLimit {
        TimerKeepsWellFormed(cleared, OverflowName(chatRoomId), Timer(MaxTimeoutLimit, Readjust(chatRoomId), false));
      } else if !snap.livePost && snap.speaker.Some? {
        TimerKeepsWellFormed(cleared, NearName(chatRoomId), Timer(delay, Remind(chatRoomId), false));
      }
    }
  }

  /** Clearing a community keeps the invariant and leaves no timer of it. */
  lemma ClearedKeepsWellFormed(registry: Registry, chatRoomId: Id)
    requires WellFormed(registry)
    ensures WellFormed(Cleared(registry, chatRoomId))
    ensures forall name :: name in Cleared(registry, chatRoomId) ==> registry[name].action.chatRoomId != chatRoomId
  {
  }

  /** Registering a timer under its own name, for a community that has no
      timer, keeps the invariant. */
  lemma TimerKeepsWellFormed(registry: Registry, name: string, timer: Timer)
    requires WellFormed(registry)
    requires name == NameOf(timer.action) && 0 <= timer.delay <= MaxTimeoutLimit
    requires timer.action.Readjust? ==> timer.delay == MaxTimeoutLimit
    requires forall n :: n in registry ==> registry[n].action.chatRoomId != timer.action.chatRoomId
    ensures WellFormed(registry[name := timer])
  {
  }

  /** Adjustment keeps the invariant and touches only the community's names;
      without a speaker or below one hour it changes nothing. */
  lemma AdjustOutcome(registry: Registry, chatRoomId: Id, snap: Snapshot, timersDisabled: bool)
    requires WellFormed(registry)
    ensures WellFormed(Adjusted(registry, chatRoomId, snap, timersDisabled))
    ensures snap.speaker.None? || snap.speaker.value.remainingMs < OneHour ==>
      Adjusted(registry, chatRoomId, snap, timersDisabled) == registry
    ensures forall name :: name != NearName(chatRoomId) && name != OverflowName(chatRoomId) ==>
      var r := Adjusted(registry, chatRoomId, snap, timersDisabled);
      (name in r <==> name in registry) && (name in r ==> r[name] == registry[name])
  {
    if snap.speaker.Some? && ReminderDelay(snap.speaker.value.remainingMs).Some? {
      ArmingOutcome(registry, chatRoomId, ReminderDelay(snap.speaker.value.remainingMs).value, snap, timersDisabled);
    }
  }

  /** Twenty days before the slot ends, the delay to the twelve-hour tier is
      beyond the limit, so only the overflow timer is armed. */
  lemma TwentyDaysArmsOverflow(registry: Registry, chatRoomId: Id, snap: Snapshot)
    requires WellFormed(registry)
    requires snap.speaker.Some? && snap.speaker.value.remainingMs == 20 * 86400000
    ensures var r := Adjusted(registry, chatRoomId, snap, false);
      r[OverflowName(chatRoomId)] == Timer(MaxTimeoutLimit, Readjust(chatRoomId), false) && NearName(chatRoomId) !in r
  {
    ArmingOutcome(registry, chatRoomId, 20 * 86400000 - TwelveHours, snap, false);
  }

  /** A delay equal to the limit takes the near-term path. */
  lemma LimitTakesNearPath(registry: Registry, chatRoomId: Id, snap: Snapshot)
    requires WellFormed(registry)
    requires snap.speaker.Some? && snap.speaker.value.remainingMs == MaxTimeoutLimit + TwelveHours && !snap.livePost
    ensures var r := Adjusted(registry, chatRoomId, snap, false);
      r[NearName(chatRoomId)] == Timer(MaxTimeoutLimit, Remind(chatRoomId), false) && OverflowName(chatRoomId) !in r
  {
    ArmingOutcome(registry, chatRoomId, MaxTimeoutLimit, snap, false);
  }

  /** A reminder e-mail as handed to the e-mail service. */
  datatype ReminderEmail = ReminderEmail(userId: Id, endingAt: int, communityName: string, includeTips: bool)

  /** The guard of `sendReminderEmail`: the community must exist (its name is
      read inside the try block), and the speaker must have a non-empty
      address and have opted in. */
  predicate EmailSent(snap: Snapshot, speaker: Speaker)
  {
    snap.communityName.Some? && Truthy(speaker.email) && speaker.emailOptIn
  }

  /** The reminder job `sendNotifications` enqueues. */
  function ReminderJob(chatRoomId: Id, speaker: Speaker): Job
  {
    SendNotificationJob([speaker.userId], ReminderForPostCreation, Props(Some(chatRoomId), None, Some(speaker.endingAt)))
  }

  class ReminderNotificationService {
    /** The scheduler registry's timeouts, by name. */
    var registry: Registry
    /** E-mails handed to the e-mail service. */
    var emails: seq<ReminderEmail>
    /** `process.env.DISABLE_TIMERS` is set. */
    const timersDisabled: bool
    /** Where reminder jobs are enqueued. */
    const notifications: PushNotificationService

    ghost predicate Valid()
      reads this
    {
      WellFormed(registry)
    }

    constructor (timersDisabled: bool, notifications: PushNotificationService)
      ensures Valid()
      ensures registry == map[] && emails == []
      ensures this.timersDisabled == timersDisabled && this.notifications == notifications
    {
      registry := map[];
      emails := [];
      this.timersDisabled := timersDisabled;
      this.notifications := notifications;
    }

    /** Deletes the community's near-term reminder when it is registered. */
    method DeleteTimeout(chatRoomId: Id)
      modifies this`registry
      ensures registry == old(registry) - {NearName(chatRoomId)}
    {
      var name := NearName(chatRoomId);
      if name in registry {
        registry := registry - {name};
      }
    }

    /** Deletes the community's overflow timer when it is registered. */
    method DeleteTimeoutsGreaterThanLimit(chatRoomId: Id)
      modifies this`registry
      ensures registry == old(registry) - {OverflowName(chatRoomId)}
    {
      var name := OverflowName(chatRoomId);
      if name in registry {
        registry := registry - {name};
      }
    }

    /** Registers a timeout unless timers are disabled. The registry refuses a
        name it already holds, which every caller rules out by deleting first. */
    method ScheduleTimeout(name: string, callback: TimerAction, ms: int)
      requires name !in registry
      modifies this`registry
      ensures registry == Scheduled(old(registry), name, Timer(ms, callback, false), timersDisabled)
    {
      if timersDisabled {
        return;
      }
      registry := registry[name := Timer(ms, callback, false)];
    }

    /** Deletes both timers, then arms an overflow timer for the limit. */
    method AddTimerGreaterThanLimit(chatRoomId: Id)
      modifies this`registry
      ensures registry == Scheduled(Cleared(old(registry), chatRoomId), OverflowName(chatRoomId),
                                    Timer(MaxTimeoutLimit, Readjust(chatRoomId), false), timersDisabled)
    {
      DeleteTimeout(chatRoomId);
      DeleteTimeoutsGreaterThanLimit(chatRoomId);
      DeletedBoth(old(registry), chatRoomId);
      ScheduleTimeout(OverflowName(chatRoomId), Readjust(chatRoomId), MaxTimeoutLimit);
    }

    /** Deletes both timers; beyond the limit arms the overflow timer;
        otherwise, with no live post and a speaker on mic, arms the near-term
        reminder for `timer` milliseconds. */
    method SendPushNotificationIfSpeakerIsStillActive(chatRoomId: Id, timer: int, snap: Snapshot)
      requires Valid() && 0 <= timer
      modifies this`registry
      ensures Valid()
      ensures registry == AfterArming(old(registry), chatRoomId, timer, snap, timersDisabled)
    {
      ghost var before := registry;
      DeleteTimeout(chatRoomId);
      DeleteTimeoutsGreaterThanLimit(chatRoomId);
      DeletedBoth(before, chatRoomId);
      ghost var cleared := registry;
      ClearedTwice(before, chatRoomId);
      if timer > MaxTimeoutLimit {
        AddTimerGreaterThanLimit(chatRoomId);
      } else if snap.livePost {
      } else if snap.speaker.None? {
      } else {
        DeleteTimeout(chatRoomId);
        DeleteTimeoutsGreaterThanLimit(chatRoomId);
        DeletedBoth(cleared, chatRoomId);
        ScheduleTimeout(NearName(chatRoomId), Remind(chatRoomId), timer);
      }
      ArmingKeepsWellFormed(before, chatRoomId, timer, snap, timersDisabled);
    }

    /** Picks the tier for the speaker's remaining time and re-arms; does
        nothing without a speaker or below one hour. */
    method AdjustTimer(chatRoomId: Id, snap: Snapshot)
      requires Valid()
      modifies this`registry
      ensures Valid()
      ensures registry == Adjusted(old(registry), chatRoomId, snap, timersDisabled)
    {
      var speaker := snap.speaker;
      if speaker.Some? {
        var ms := speaker.value.remainingMs;
        if ms >= TwelveHours {
          SendPushNotificationIfSpeakerIsStillActive(chatRoomId, ms - TwelveHours, snap);
        } else if ms >= SixHours {
          SendPushNotificationIfSpeakerIsStillActive(chatRoomId, ms - SixHours, snap);
        } else if ms >= OneHour {
          SendPushNotificationIfSpeakerIsStillActive(chatRoomId, ms - OneHour, snap);
        }
      }
    }

    /** The near-term reminder's callback: with a live post or no speaker,
        nothing happens; otherwise one reminder job for the speaker, the
        e-mail when its guard holds, then a new adjustment. */
    method SendPushNotificationAfterTime(chatRoomId: Id, snap: Snapshot)
      requires Valid()
      modifies this`registry, this`emails, notifications`queue
      ensures Valid()
      ensures snap.livePost || snap.speaker.None? ==>
        registry == old(registry) && emails == old(emails) && notifications.queue == old(notifications.queue)
      ensures !snap.livePost && snap.speaker.Some? ==>
        var speaker := snap.speaker.value;
        && notifications.queue == old(notifications.queue) + [ReminderJob(chatRoomId, speaker)]
        && emails == old(emails) +
             (if EmailSent(snap, speaker)
              then [ReminderEmail(speaker.userId, speaker.endingAt, snap.communityName.value, snap.activeLeagues > 0)]
              else [])
        && registry == Adjusted(old(registry), chatRoomId, snap, timersDisabled)
    {
      if snap.livePost {
        return;
      }
      if snap.speaker.None? {
        return;
      }
      var speaker := snap.speaker.value;
      SendNotifications(chatRoomId, speaker, snap);
      AdjustTimer(chatRoomId, snap);
    }

    /** One reminder job for the speaker, then the e-mail, with tips iff the
        community has an active league. */
    method SendNotifications(chatRoomId: Id, speaker: Speaker, snap: Snapshot)
      modifies this`emails, notifications`queue
      ensures notifications.queue == old(notifications.queue) + [ReminderJob(chatRoomId, speaker)]
      ensures emails == old(emails) +
        (if EmailSent(snap, speaker)
         then [ReminderEmail(speaker.userId, speaker.endingAt, snap.communityName.value, snap.activeLeagues > 0)]
         else [])
    {
      notifications.EnqueueSendNotificationsForUsers([speaker.userId], ReminderForPostCreation,
        Props(Some(chatRoomId), None, Some(speaker.endingAt)));
      var includeTips := snap.activeLeagues > 0;
      if snap.communityName.Some? && Truthy(speaker.email) && speaker.emailOptIn {
        emails := emails + [ReminderEmail(speaker.userId, speaker.endingAt, snap.communityName.value, includeTips)];
      }
    }

    /** A registered timeout runs its callback; its name stays registered,
        marked as fired. A near-term reminder re-checks the community before
        notifying. An overflow timer only re-adjusts: no live-post check and
        no notification at that step. */
    method Fire(name: string, snap: Snapshot)
      requires Valid() && name in registry && !registry[name].fired
      modifies this`registry, this`emails, notifications`queue
      ensures Valid()
      ensures old(registry[name].action).Remind? ==>
        var chatRoomId := old(registry[name].action.chatRoomId);
        var marked := old(registry)[name := old(registry[name]).(fired := true)];
        if snap.livePost || snap.speaker.None? then
          registry == marked && emails == old(emails) && notifications.queue == old(notifications.queue)
        else
          && notifications.queue == old(notifications.queue) + [ReminderJob(chatRoomId, snap.speaker.value)]
          && registry == Adjusted(marked, chatRoomId, snap, timersDisabled)
          && emails == old(emails) +
               (if EmailSent(snap, snap.speaker.value)
                then [ReminderEmail(snap.speaker.value.userId, snap.speaker.value.endingAt, snap.communityName.value,
                                    snap.activeLeagues > 0)]
                else [])
      ensures old(registry[name].action).Readjust? ==>
        && emails == old(emails) && notifications.queue == old(notifications.queue)
        && registry == Adjusted(old(registry)[name := old(registry[name]).(fired := true)],
                                old(registry[name].action.chatRoomId), snap, timersDisabled)
    {
      var timer := registry[name];
      registry := registry[name := timer.(fired := true)];
      match timer.action
      case Remind(chatRoomId) =>
        SendPushNotificationAfterTime(chatRoomId, snap);
      case Readjust(chatRoomId) =>
        AdjustTimer(chatRoomId, snap);
    }
  }
}
