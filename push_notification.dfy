/** The push-notification service
    (notification-services/push-notification.service.ts): the preference gate,
    message dispatch, the per-user delivery pipeline with invalid-token pruning,
    topic names and topic membership calls, and the job queue. The push
    provider is an input: it answers a multicast with one response per token
    (or throws), and may throw on an unsubscribe. */
module PushNotification {
  import opened Common
  import NS = NotificationSettings

  type Token = string

  /** The notification kinds of the switch statements; `Unlisted` stands for
      any kind that neither switch names (their `default` branches). */
  datatype Kind =
    | SelectedAsSpeaker | PostingTips | SelectedAsNextSpeaker | ReminderForPostCreation
    | UserRedeemedInviteLink | TaggedInComment | TaggedInPost | AllComments | PollVote
    | PostCreated | ReactionAdded | ReactionAddedOthers | CommunityAnnouncement
    | DirectMessage | MessageReactionAdded | LeagueWeeklyResults | Unlisted(name: string)

  // ---------------------------------------------------------------------------
  // The preference gate

  /** `preferences?.<field> ?? true`. */
  function GatedBy(preferences: Option<NS.NotificationSetting>, field: NS.ToggleName): bool
  {
    match preferences
    case None => true
    case Some(p) =>
      match NS.Field(p.toggles, field)
      case None => true
      case Some(b) => b
  }

  /** The switch of `validateAgainstUserPreferences`, once the user's
      directMessagesNotifications flag and the optional preference record are
      loaded. */
  function Allowed(kind: Kind, preferences: Option<NS.NotificationSetting>, directMessagesNotifications: bool): bool
  {
    match kind
    case SelectedAsSpeaker => true
    case PostingTips => true
    case SelectedAsNextSpeaker => true
    case ReminderForPostCreation => true
    case UserRedeemedInviteLink => true
    case TaggedInComment => GatedBy(preferences, NS.TaggedInComment)
    case TaggedInPost => GatedBy(preferences, NS.TaggedInPost)
    case AllComments => GatedBy(preferences, NS.AllComments)
    case PollVote => GatedBy(preferences, NS.AllComments)
    case PostCreated => GatedBy(preferences, NS.PostCreated)
    case ReactionAdded => GatedBy(preferences, NS.ReactionNotification)
    case ReactionAddedOthers => GatedBy(preferences, NS.ReactionNotification)
    case CommunityAnnouncement => GatedBy(preferences, NS.CommunityAnnouncements)
    case DirectMessage => directMessagesNotifications
    case MessageReactionAdded => directMessagesNotifications
    case LeagueWeeklyResults => true
    case Unlisted(_) => true
  }

  /** Kinds that are always delivered, whatever the preferences hold. */
  predicate AlwaysSends(kind: Kind)
  {
    kind in {SelectedAsSpeaker, PostingTips, SelectedAsNextSpeaker, ReminderForPostCreation,
             UserRedeemedInviteLink, LeagueWeeklyResults} || kind.Unlisted?
  }

  /** Kinds that read the user's global direct-message flag. */
  predicate ReadsDirectMessages(kind: Kind)
  {
    kind == DirectMessage || kind == MessageReactionAdded
  }

  /** The preference toggle that gates a kind, for the kinds a community
      record gates. */
  function GateToggle(kind: Kind): Option<NS.ToggleName>
  {
    if kind == TaggedInComment then Some(NS.TaggedInComment)
    else if kind == TaggedInPost then Some(NS.TaggedInPost)
    else if kind == AllComments || kind == PollVote then Some(NS.AllComments)
    else if kind == PostCreated then Some(NS.PostCreated)
    else if kind == ReactionAdded || kind == ReactionAddedOthers then Some(NS.ReactionNotification)
    else if kind == CommunityAnnouncement then Some(NS.CommunityAnnouncements)
    else None
  }

  /** The decision table: every kind falls in exactly one of three classes,
      and the gate's answer is determined by that class alone. */
  lemma DecisionTable(kind: Kind, preferences: Option<NS.NotificationSetting>, directMessagesNotifications: bool)
    ensures AlwaysSends(kind) || ReadsDirectMessages(kind) || GateToggle(kind).Some?
    ensures !(AlwaysSends(kind) && ReadsDirectMessages(kind))
    ensures !(AlwaysSends(kind) && GateToggle(kind).Some?)
    ensures !(ReadsDirectMessages(kind) && GateToggle(kind).Some?)
    ensures AlwaysSends(kind) ==> Allowed(kind, preferences, directMessagesNotifications)
    ensures ReadsDirectMessages(kind) ==> Allowed(kind, preferences, directMessagesNotifications) == directMessagesNotifications
    ensures GateToggle(kind).Some? ==>
      Allowed(kind, preferences, directMessagesNotifications) == GatedBy(preferences, GateToggle(kind).value)
  {
  }

  /** Without a preference record, or with a record whose gating field is
      null, every kind except the two direct-message kinds is allowed. */
  lemma DefaultAllows(kind: Kind, preferences: Option<NS.NotificationSetting>, directMessagesNotifications: bool)
    requires !ReadsDirectMessages(kind)
    requires preferences.None? || (GateToggle(kind).Some? && NS.Field(preferences.value.toggles, GateToggle(kind).value).None?)
    ensures Allowed(kind, preferences, directMessagesNotifications)
  {
    DecisionTable(kind, preferences, directMessagesNotifications);
  }

  // ---------------------------------------------------------------------------
  // What the service reads but never writes

  /** A registered device; the token becomes null once the provider rejects it. */
  datatype Device = Device(userId: Id, token: Option<Token>, active: bool)

  datatype Membership = Membership(chatRoomId: Id, micLevel: MicLevel)

  /** Read-only repositories and configuration. */
  datatype Directory = Directory(
    devEnv: bool,                          // process.env.env is 'dev'
    users: map<Id, bool>,                  // user id -> directMessagesNotifications
    preferences: seq<NS.NotificationSetting>,
    chatRooms: set<Id>,                    // ids getChatRoomWithId finds
    previousSpeakers: map<Id, seq<Id>>,    // findPreviousSpeaker: audit user ids, most relevant first
    memberships: map<Id, seq<Membership>>, // getAllMappingWithUserId
    allChatRooms: seq<Id>)                 // getAllChatRooms, in page order

  /** `validateAgainstUserPreferences`: `None` when the user is missing and the
      kind dereferences it (the method throws). The preference record is read
      only for a truthy chatRoomId. */
  function ValidateAgainstUserPreferences(dir: Directory, userId: Id, kind: Kind, chatRoomId: Option<Id>): Option<bool>
  {
    var preferences := if Truthy(chatRoomId) then NS.Find(dir.preferences, userId, chatRoomId.value) else None;
    if userId in dir.users then Some(Allowed(kind, preferences, dir.users[userId]))
    else if ReadsDirectMessages(kind) then None
    else Some(Allowed(kind, preferences, false))
  }

  /** The direct-message flag is irrelevant to every other kind, so a missing
      user only matters for the two direct-message kinds. */
  lemma MissingUserOnlyBreaksDirectMessages(dir: Directory, userId: Id, kind: Kind, chatRoomId: Option<Id>)
    ensures ValidateAgainstUserPreferences(dir, userId, kind, chatRoomId).None? <==>
      userId !in dir.users && ReadsDirectMessages(kind)
    ensures !Truthy(chatRoomId) && !ReadsDirectMessages(kind) ==>
      ValidateAgainstUserPreferences(dir, userId, kind, chatRoomId) == Some(true)
  {
    var preferences := if Truthy(chatRoomId) then NS.Find(dir.preferences, userId, chatRoomId.value) else None;
    DecisionTable(kind, preferences, false);
    if userId in dir.users {
      DecisionTable(kind, preferences, dir.users[userId]);
    }
  }

  // ---------------------------------------------------------------------------
  // Message dispatch

  /** The props a notification is built from: the chat room, the acting user
      and the time a reminder mentions (as the slot's end timestamp). */
  datatype Props = Props(chatRoomId: Option<Id>, actorId: Option<Id>, time: Option<int>)

  /** A provider-ready message. Titles and bodies come from payload builders
      that are not part of this model; the payload records what they were
      given. */
  datatype Payload = Payload(kind: Kind, chatRoomId: Option<Id>, actorId: Option<Id>, time: Option<int>)

  datatype Message = Built(payload: Payload) | NoMessage | MessageThrew

  function PreviousSpeakers(dir: Directory, chatRoomId: Option<Id>): seq<Id>
  {
    if chatRoomId.Some? && chatRoomId.value in dir.previousSpeakers then dir.previousSpeakers[chatRoomId.value] else []
  }

  /** `makeMessage`. It first loads the chat room for a truthy chatRoomId and
      throws when that room does not exist (its name is read from the missing
      row). SELECTED_AS_SPEAKER without an acting user takes the user of the
      first audit record and throws when there is none. Kinds outside the
      switch give null. */
  function MakeMessage(dir: Directory, kind: Kind, props: Props): Message
  {
    if Truthy(props.chatRoomId) && props.chatRoomId.value !in dir.chatRooms then MessageThrew
    else match kind
      case SelectedAsSpeaker =>
        if Truthy(props.actorId) then Built(Payload(kind, props.chatRoomId, props.actorId, props.time))
        else
          var auditHistory := PreviousSpeakers(dir, props.chatRoomId);
          if |auditHistory| == 0 then MessageThrew
          else Built(Payload(kind, props.chatRoomId, Some(auditHistory[0]), props.time))
      case Unlisted(_) => NoMessage
      case _ => Built(Payload(kind, props.chatRoomId, props.actorId, props.time))
  }

  predicate RoomResolves(dir: Directory, chatRoomId: Option<Id>)
  {
    !Truthy(chatRoomId) || chatRoomId.value in dir.chatRooms
  }

  /** Null exactly for the unlisted kinds; a failure exactly for a missing room
      or a speaker notification with neither an acting user nor an audit
      record; otherwise a payload of the requested kind, attributed to the
      acting user or, failing that, to the first audit record. */
  lemma MessageDispatch(dir: Directory, kind: Kind, props: Props)
    ensures var m := MakeMessage(dir, kind, props);
      && (m.NoMessage? <==> RoomResolves(dir, props.chatRoomId) && kind.Unlisted?)
      && (m.MessageThrew? <==>
            (!RoomResolves(dir, props.chatRoomId) ||
             (kind == SelectedAsSpeaker && !Truthy(props.actorId) && PreviousSpeakers(dir, props.chatRoomId) == [])))
      && (m.Built? ==> m.payload.kind == kind && m.payload.chatRoomId == props.chatRoomId && m.payload.time == props.time)
      && (m.Built? && kind == SelectedAsSpeaker && !Truthy(props.actorId) ==>
            m.payload.actorId == Some(PreviousSpeakers(dir, props.chatRoomId)[0]))
      && (m.Built? && (kind != SelectedAsSpeaker || Truthy(props.actorId)) ==> m.payload.actorId == props.actorId)
  {
  }

  // ---------------------------------------------------------------------------
  // Devices and invalid tokens

  /** `findActiveUserDevices` mapped to tokens: the user's active devices that
      still hold a token, in registry order. */
  function ActiveTokens(devices: seq<Device>, userId: Id): seq<Token>
  {
    if |devices| == 0 then []
    else
      var d := devices[0];
      (if d.userId == userId && d.active && d.token.Some? then [d.token.value] else []) + ActiveTokens(devices[1..], userId)
  }

  /** `findAllDevicesWithUserId` mapped to tokens: every device of the user,
      null tokens included. */
  function AllTokens(devices: seq<Device>, userId: Id): seq<Option<Token>>
  {
    if |devices| == 0 then []
    else (if devices[0].userId == userId then [devices[0].token] else []) + AllTokens(devices[1..], userId)
  }

  lemma {:induction false} ActiveTokensAreTheUsers(devices: seq<Device>, userId: Id, t: Token)
    ensures t in ActiveTokens(devices, userId) <==>
      exists i :: 0 <= i < |devices| && devices[i] == Device(userId, Some(t), true)
  {
    if |devices| > 0 {
      ActiveTokensAreTheUsers(devices[1..], userId, t);
      if t in ActiveTokens(devices[1..], userId) {
        var i :| 0 <= i < |devices[1..]| && devices[1..][i] == Device(userId, Some(t), true);
        assert devices[i + 1] == Device(userId, Some(t), true);
      }
      if exists i :: 0 <= i < |devices| && devices[i] == Device(userId, Some(t), true) {
        var i :| 0 <= i < |devices| && devices[i] == Device(userId, Some(t), true);
        if i > 0 {
          assert devices[1..][i - 1] == devices[i];
        }
      }
    }
  }

  datatype SendResponse = SendResponse(success: bool, errorCode: Option<string>)
  datatype SendResult = Responses(responses: seq<SendResponse>) | SendThrew

  /** The push provider's answers. */
  datatype Provider = Provider(
    sendMulticast: (seq<Token>, Payload) -> SendResult,
    unsubscribeThrows: (seq<Token>, string) -> bool)

  /** A multicast answers with one response per token, in token order. */
  ghost predicate Aligned(provider: Provider)
  {
    forall tokens, payload :: provider.sendMulticast(tokens, payload).Responses? ==>
      |provider.sendMulticast(tokens, payload).responses| == |tokens|
  }

  const InvalidTokenCodes: seq<string> := [
    "messaging/mismatched-credential",
    "messaging/invalid-argument",
    "messaging/registration-token-not-registered"]

  /** An unsuccessful response whose error code says the token is dead. */
  predicate MarksTokenInvalid(r: SendResponse)
  {
    !r.success && Truthy(r.errorCode) && r.errorCode.value in InvalidTokenCodes
  }

  /** Tokens at the first `n` indices whose response marks them invalid, in index order. */
  function InvalidTokens(tokens: seq<Token>, responses: seq<SendResponse>, n: nat): seq<Token>
    requires n <= |tokens| == |responses|
  {
    if n == 0 then []
    else InvalidTokens(tokens, responses, n - 1) + (if MarksTokenInvalid(responses[n - 1]) then [tokens[n - 1]] else [])
  }

  /** The indices below `n` whose response marks the token invalid, ascending. */
  function InvalidIndices(responses: seq<SendResponse>, n: nat): seq<nat>
    requires n <= |responses|
  {
    if n == 0 then []
    else InvalidIndices(responses, n - 1) + (if MarksTokenInvalid(responses[n - 1]) then [n - 1] else [])
  }

  /** The invalid-token list is exactly tokens[i] for the indices i whose
      response is an invalid-token error, in increasing index order; so it is
      a subsequence of the tokens sent. */
  lemma InvalidTokensExact(tokens: seq<Token>, responses: seq<SendResponse>, n: nat)
    requires n <= |tokens| == |responses|
    ensures var idx := InvalidIndices(responses, n);
      && |InvalidTokens(tokens, responses, n)| == |idx|
      && (forall k :: 0 <= k < |idx| ==> idx[k] < n && InvalidTokens(tokens, responses, n)[k] == tokens[idx[k]])
      && (forall k, l :: 0 <= k < l < |idx| ==> idx[k] < idx[l])
      && (forall i :: 0 <= i < n ==> (MarksTokenInvalid(responses[i]) <==> i in idx))
  {
    InvalidTokensAligned(tokens, responses, n);
    InvalidIndicesAscending(responses, n);
    InvalidIndicesExact(responses, n);
  }

  lemma {:induction false} InvalidTokensAligned(tokens: seq<Token>, responses: seq<SendResponse>, n: nat)
    requires n <= |tokens| == |responses|
    ensures var idx := InvalidIndices(responses, n);
      && |InvalidTokens(tokens, responses, n)| == |idx|
      && (forall k :: 0 <= k < |idx| ==> idx[k] < n && InvalidTokens(tokens, responses, n)[k] == tokens[idx[k]])
  {
    if n > 0 {
      var m := n - 1;
      InvalidTokensAligned(tokens, responses, m);
      if MarksTokenInvalid(responses[m]) {
        assert InvalidTokens(tokens, responses, n) == InvalidTokens(tokens, responses, m) + [tokens[m]];
        assert InvalidIndices(responses, n) == InvalidIndices(responses, m) + [m];
      } else {
        assert InvalidTokens(tokens, responses, n) == InvalidTokens(tokens, responses, m);
        assert InvalidIndices(responses, n) == InvalidIndices(responses, m);
      }
    }
  }

  lemma {:induction false} InvalidIndicesAscending(responses: seq<SendResponse>, n: nat)
    requires n <= |responses|
    ensures var idx := InvalidIndices(responses, n);
      && (forall k :: 0 <= k < |idx| ==> idx[k] < n)
      && (forall k, l :: 0 <= k < l < |idx| ==> idx[k] < idx[l])
  {
    if n > 0 {
      var m := n - 1;
      InvalidIndicesAscending(responses, m);
      if MarksTokenInvalid(responses[m]) {
        assert InvalidIndices(responses, n) == InvalidIndices(responses, m) + [m];
      } else {
        assert InvalidIndices(responses, n) == InvalidIndices(responses, m);
      }
    }
  }

  lemma {:induction false} InvalidIndicesExact(responses: seq<SendResponse>, n: nat)
    requires n <= |responses|
    ensures forall i :: 0 <= i < n ==> (MarksTokenInvalid(responses[i]) <==> i in InvalidIndices(responses, n))
  {
    if n > 0 {
      var m := n - 1;
      InvalidIndicesExact(responses, m);
      InvalidIndicesAscending(responses, m);
      if MarksTokenInvalid(responses[m]) {
        assert InvalidIndices(responses, n) == InvalidIndices(responses, m) + [m];
      } else {
        assert forall k :: 0 <= k < |InvalidIndices(responses, m)| ==> InvalidIndices(responses, m)[k] < m;
      }
    }
  }

  /** `markDeviceTokensAsNull`: every device holding one of the tokens loses it. */
  function NullTokens(devices: seq<Device>, invalid: seq<Token>): (devices': seq<Device>)
    ensures |devices'| == |devices|
  {
    seq(|devices|, i requires 0 <= i < |devices| =>
      if devices[i].token.Some? && devices[i].token.value in invalid then devices[i].(token := None) else devices[i])
  }

  /** The registry after one multicast: pruned only when the provider answered
      and at least one token was reported invalid. */
  function AfterSend(devices: seq<Device>, tokens: seq<Token>, result: SendResult): seq<Device>
    requires result.Responses? ==> |result.responses| == |tokens|
  {
    match result
    case SendThrew => devices
    case Responses(responses) =>
      var invalid := InvalidTokens(tokens, responses, |responses|);
      if |invalid| > 0 then NullTokens(devices, invalid) else devices
  }

  /** A registry change that only nulls tokens: owners and active flags never
      change, a token never changes value, and a null token stays null. */
  ghost predicate OnlyNullsTokens(before: seq<Device>, after: seq<Device>)
  {
    && |after| == |before|
    && forall i :: 0 <= i < |before| ==>
         after[i].userId == before[i].userId && after[i].active == before[i].active
         && (after[i].token == before[i].token || after[i].token.None?)
  }

  /** Pruning nulls exactly the tokens reported invalid and nothing else. */
  lemma AfterSendOnlyNulls(devices: seq<Device>, tokens: seq<Token>, result: SendResult)
    requires result.Responses? ==> |result.responses| == |tokens|
    ensures OnlyNullsTokens(devices, AfterSend(devices, tokens, result))
    ensures forall i :: 0 <= i < |devices| && devices[i].token.Some? ==>
      (AfterSend(devices, tokens, result)[i].token.None? <==>
         result.Responses? && devices[i].token.value in InvalidTokens(tokens, result.responses, |tokens|))
  {
    if result.Responses? {
      var invalid := InvalidTokens(tokens, result.responses, |tokens|);
      if |invalid| > 0 {
        assert AfterSend(devices, tokens, result) == NullTokens(devices, invalid);
      } else {
        assert forall t :: t !in invalid;
      }
    }
  }

  lemma OnlyNullsTokensTransitive(a: seq<Device>, b: seq<Device>, c: seq<Device>)
    requires OnlyNullsTokens(a, b) && OnlyNullsTokens(b, c)
    ensures OnlyNullsTokens(a, c)
  {
  }

  /** The `forEach` of `sendMulticastMessage`: collects the tokens whose
      response is an invalid-token error. */
  method CollectInvalidTokens(deviceTokens: seq<Token>, responses: seq<SendResponse>) returns (invalidTokens: seq<Token>)
    requires |responses| == |deviceTokens|
    ensures invalidTokens == InvalidTokens(deviceTokens, responses, |responses|)
  {
    invalidTokens := [];
    var index := 0;
    while index < |responses|
      invariant 0 <= index <= |responses|
      invariant invalidTokens == InvalidTokens(deviceTokens, responses, index)
    {
      var element := responses[index];
      if !element.success && Truthy(element.errorCode) && element.errorCode.value in InvalidTokenCodes {
        invalidTokens := invalidTokens + [deviceTokens[index]];
      }
      index := index + 1;
    }
  }

  // ---------------------------------------------------------------------------
  // Topics

  /** The topic that mirrors membership of a community, scoped by environment. */
  function MakeTopic(devEnv: bool, chatRoomId: Id): string
  {
    var topic := if devEnv then "post-created-dev" else "post-created-prod";
    topic + "__" + chatRoomId
  }

  /** Different communities never share a topic, and the development and
      production environments never share one either. */
  lemma TopicsDistinct(devEnv: bool, a: Id, b: Id)
    ensures MakeTopic(devEnv, a) == MakeTopic(devEnv, b) ==> a == b
    ensures MakeTopic(true, a) != MakeTopic(false, b)
  {
    var prefix := if devEnv then "post-created-dev__" else "post-created-prod__";
    assert MakeTopic(devEnv, a) == prefix + a && MakeTopic(devEnv, b) == prefix + b;
    assert (prefix + a)[|prefix|..] == a && (prefix + b)[|prefix|..] == b;
    assert MakeTopic(true, a)[13] == 'd' && MakeTopic(false, b)[13] == 'p';
  }

  /** Levels whose members are subscribed to the community's topic. */
  predicate OnTopic(level: MicLevel)
  {
    level == Viewer || level == Commentator || level == Speaker
  }

  /** A provider topic call. Subscriptions carry every device's token, null or
      not; unsubscriptions carry tokens only. */
  datatype TopicCall = Subscribe(subscribed: seq<Option<Token>>, topic: string) | Unsubscribe(unsubscribed: seq<Token>, topic: string)

  /** The calls `addToTopic` issues: none when the user has no device. */
  function AddToTopicCalls(dir: Directory, devices: seq<Device>, userId: Id, chatRoomId: Id): seq<TopicCall>
  {
    var tokens := AllTokens(devices, userId);
    if |tokens| == 0 then [] else [Subscribe(tokens, MakeTopic(dir.devEnv, chatRoomId))]
  }

  /** The calls `removeUserFromTopic` issues: none when the user has no active device. */
  function RemoveFromTopicCalls(dir: Directory, devices: seq<Device>, userId: Id, chatRoomId: Id): seq<TopicCall>
  {
    var tokens := ActiveTokens(devices, userId);
    if |tokens| == 0 then [] else [Unsubscribe(tokens, MakeTopic(dir.devEnv, chatRoomId))]
  }

  /** `removeUserFromTopic` does not catch a provider failure. */
  predicate RemoveThrows(dir: Directory, provider: Provider, devices: seq<Device>, userId: Id, chatRoomId: Id)
  {
    var tokens := ActiveTokens(devices, userId);
    |tokens| > 0 && provider.unsubscribeThrows(tokens, MakeTopic(dir.devEnv, chatRoomId))
  }

  /** The calls `updateTopicForUserId` issues for the memberships `ms`, in
      order, and whether it stopped on an uncaught unsubscribe failure. */
  function TopicPlan(dir: Directory, provider: Provider, devices: seq<Device>, userId: Id, ms: seq<Membership>)
    : (plan: (seq<TopicCall>, bool))
  {
    if |ms| == 0 then ([], false)
    else if OnTopic(ms[0].micLevel) then
      var rest := TopicPlan(dir, provider, devices, userId, ms[1..]);
      (AddToTopicCalls(dir, devices, userId, ms[0].chatRoomId) + rest.0, rest.1)
    else if RemoveThrows(dir, provider, devices, userId, ms[0].chatRoomId) then
      (RemoveFromTopicCalls(dir, devices, userId, ms[0].chatRoomId), true)
    else
      var rest := TopicPlan(dir, provider, devices, userId, ms[1..]);
      (RemoveFromTopicCalls(dir, devices, userId, ms[0].chatRoomId) + rest.0, rest.1)
  }

  /** With devices and active tokens on file and no provider failure, exactly
      one call is issued per membership, in membership order: a subscription
      for viewers, commentators and speakers, an unsubscription otherwise.
      With no device at all, nothing is issued. */
  lemma {:induction false} TopicPlanOnePerMembership(dir: Directory, provider: Provider, devices: seq<Device>, userId: Id, ms: seq<Membership>)
    ensures AllTokens(devices, userId) == [] && ActiveTokens(devices, userId) == [] ==>
      TopicPlan(dir, provider, devices, userId, ms) == ([], false)
    ensures (&& AllTokens(devices, userId) != [] && ActiveTokens(devices, userId) != []
             && (forall k :: 0 <= k < |ms| ==> !RemoveThrows(dir, provider, devices, userId, ms[k].chatRoomId))) ==>
      var plan := TopicPlan(dir, provider, devices, userId, ms).0;
      && !TopicPlan(dir, provider, devices, userId, ms).1
      && |plan| == |ms|
      && forall k :: 0 <= k < |ms| ==>
           plan[k] == if OnTopic(ms[k].micLevel)
                      then Subscribe(AllTokens(devices, userId), MakeTopic(dir.devEnv, ms[k].chatRoomId))
                      else Unsubscribe(ActiveTokens(devices, userId), MakeTopic(dir.devEnv, ms[k].chatRoomId))
  {
    if |ms| > 0 {
      TopicPlanOnePerMembership(dir, provider, devices, userId, ms[1..]);
      if AllTokens(devices, userId) != [] && ActiveTokens(devices, userId) != []
        && (forall k :: 0 <= k < |ms| ==> !RemoveThrows(dir, provider, devices, userId, ms[k].chatRoomId))
      {
        assert forall k :: 0 <= k < |ms[1..]| ==> ms[1..][k] == ms[k + 1];
      }
    }
  }

  /** One membership of the plan: what the `i`th membership issues, followed
      by the plan for the rest unless it threw. */
  lemma TopicPlanStep(dir: Directory, provider: Provider, devices: seq<Device>, userId: Id, ms: seq<Membership>, i: nat)
    requires i < |ms|
    ensures var here := TopicPlan(dir, provider, devices, userId, ms[i..]);
      var rest := TopicPlan(dir, provider, devices, userId, ms[i + 1..]);
      if OnTopic(ms[i].micLevel) then here == (AddToTopicCalls(dir, devices, userId, ms[i].chatRoomId) + rest.0, rest.1)
      else if RemoveThrows(dir, provider, devices, userId, ms[i].chatRoomId) then
        here == (RemoveFromTopicCalls(dir, devices, userId, ms[i].chatRoomId), true)
      else here == (RemoveFromTopicCalls(dir, devices, userId, ms[i].chatRoomId) + rest.0, rest.1)
  {
    assert ms[i..][1..] == ms[i + 1..];
  }

  lemma AppendAssociative<T>(a: seq<T>, b: seq<T>, c: seq<T>)
    ensures a + (b + c) == (a + b) + c
  {
  }

  /** The calls `removeDeviceTokensFromAllChatRooms` issues for the rooms `rooms`. */
  function PurgePlan(dir: Directory, provider: Provider, tokens: seq<Token>, rooms: seq<Id>): (plan: (seq<TopicCall>, bool))
    ensures |plan.0| <= |rooms|
  {
    if |rooms| == 0 then ([], false)
    else
      var call := Unsubscribe(tokens, MakeTopic(dir.devEnv, rooms[0]));
      if provider.unsubscribeThrows(tokens, MakeTopic(dir.devEnv, rooms[0])) then ([call], true)
      else var rest := PurgePlan(dir, provider, tokens, rooms[1..]); ([call] + rest.0, rest.1)
  }

  /** The purge unsubscribes the tokens from each community's topic in order,
      and stops exactly at the first unsubscribe that throws: it covers every
      community unless one threw, and then that one is the last it tried. */
  lemma {:induction false} PurgePlanExact(dir: Directory, provider: Provider, tokens: seq<Token>, rooms: seq<Id>)
    ensures var plan := PurgePlan(dir, provider, tokens, rooms);
      && |plan.0| <= |rooms|
      && (forall k :: 0 <= k < |plan.0| ==> plan.0[k] == Unsubscribe(tokens, MakeTopic(dir.devEnv, rooms[k])))
      && (forall k :: 0 <= k < |plan.0| - 1 ==> !provider.unsubscribeThrows(tokens, MakeTopic(dir.devEnv, rooms[k])))
      && (!plan.1 ==> |plan.0| == |rooms|)
      && (plan.1 <==> |plan.0| > 0 && provider.unsubscribeThrows(tokens, MakeTopic(dir.devEnv, rooms[|plan.0| - 1])))
  {
    if |rooms| > 0 && !provider.unsubscribeThrows(tokens, MakeTopic(dir.devEnv, rooms[0])) {
      PurgePlanExact(dir, provider, tokens, rooms[1..]);
      var rest := PurgePlan(dir, provider, tokens, rooms[1..]);
      var plan := PurgePlan(dir, provider, tokens, rooms);
      forall k | 1 <= k < |plan.0|
        ensures plan.0[k] == rest.0[k - 1] && rooms[k] == rooms[1..][k - 1]
      {
      }
    }
  }

  /** Only the first page of 100 communities is read. */
  const PurgePageSize := 100

  function FirstPage(rooms: seq<Id>): seq<Id>
  {
    if |rooms| <= PurgePageSize then rooms else rooms[..PurgePageSize]
  }

  // ---------------------------------------------------------------------------
  // The provider's subscription table, to state what repeated syncing does

  type Subscriptions = set<(Token, string)>

  function Present(tokens: seq<Option<Token>>): set<Token>
  {
    if |tokens| == 0 then {}
    else (if tokens[0].Some? then {tokens[0].value} else {}) + Present(tokens[1..])
  }

  function ApplyCall(subs: Subscriptions, call: TopicCall): Subscriptions
  {
    match call
    case Subscribe(tokens, topic) => subs + set t | t in Present(tokens) :: (t, topic)
    case Unsubscribe(tokens, topic) => subs - set t | t in tokens :: (t, topic)
  }

  function ApplyCalls(subs: Subscriptions, calls: seq<TopicCall>): Subscriptions
    decreases |calls|
  {
    if |calls| == 0 then subs else ApplyCalls(ApplyCall(subs, calls[0]), calls[1..])
  }

  /** Pairs some call removes, and pairs whose last call adds them. */
  function Footprint(calls: seq<TopicCall>): (removedAdded: (Subscriptions, Subscriptions))
  {
    if |calls| == 0 then ({}, {})
    else
      var rest := Footprint(calls[1..]);
      match calls[0]
      case Subscribe(tokens, topic) => (rest.0, ((set t | t in Present(tokens) :: (t, topic)) - rest.0) + rest.1)
      case Unsubscribe(tokens, topic) => ((set t | t in tokens :: (t, topic)) + rest.0, rest.1)
  }

  lemma {:induction false} ApplyCallsNormalForm(subs: Subscriptions, calls: seq<TopicCall>)
    ensures ApplyCalls(subs, calls) == (subs - Footprint(calls).0) + Footprint(calls).1
    decreases |calls|
  {
    if |calls| > 0 {
      ApplyCallsNormalForm(ApplyCall(subs, calls[0]), calls[1..]);
    }
  }

  /** Replaying the same topic calls leaves the subscription table as one
      replay does: repeating a sync with no membership change is harmless. */
  lemma ApplyCallsIdempotent(subs: Subscriptions, calls: seq<TopicCall>)
    ensures ApplyCalls(ApplyCalls(subs, calls), calls) == ApplyCalls(subs, calls)
  {
    ApplyCallsNormalForm(subs, calls);
    ApplyCallsNormalForm(ApplyCalls(subs, calls), calls);
  }

  /** Applying two call lists one after the other is applying their
      concatenation. */
  lemma {:induction false} ApplyCallsAppend(subs: Subscriptions, first: seq<TopicCall>, second: seq<TopicCall>)
    ensures ApplyCalls(subs, first + second) == ApplyCalls(ApplyCalls(subs, first), second)
    decreases |first|
  {
    if |first| == 0 {
      assert first + second == second;
    } else {
      assert (first + second)[0] == first[0] && (first + second)[1..] == first[1..] + second;
      ApplyCallsAppend(ApplyCall(subs, first[0]), first[1..], second);
    }
  }

  /** `updateTopicForUserId` run twice in a row, with no change in between:
      it leaves the device registry as it is, so the second run issues the
      same calls as the first, and the subscription table ends as after one
      run. */
  lemma TopicSyncIdempotent(dir: Directory, provider: Provider, devices: seq<Device>, userId: Id, subs: Subscriptions)
    ensures var ms := if userId in dir.memberships then dir.memberships[userId] else [];
      var calls := TopicPlan(dir, provider, devices, userId, ms).0;
      ApplyCalls(subs, calls + calls) == ApplyCalls(subs, calls)
  {
    var ms := if userId in dir.memberships then dir.memberships[userId] else [];
    var calls := TopicPlan(dir, provider, devices, userId, ms).0;
    ApplyCallsAppend(subs, calls, calls);
    ApplyCallsIdempotent(subs, calls);
  }

  // ---------------------------------------------------------------------------
  // Delivery to one user

  /** How `sendNotificationToUser` ended for one user. `Threw` is an exception
      that propagates to the caller. */
  datatype Delivery = OptedOut | Unsupported | NoDevices | Delivered(payload: Payload, tokens: seq<Token>) | Threw

  /** The early returns of `sendNotificationToUser`, in program order: gate,
      message, devices. */
  function Deliver(dir: Directory, devices: seq<Device>, userId: Id, kind: Kind, props: Props): Delivery
  {
    match ValidateAgainstUserPreferences(dir, userId, kind, props.chatRoomId)
    case None => Threw
    case Some(isAllowed) =>
      if !isAllowed then OptedOut
      else match MakeMessage(dir, kind, props)
        case MessageThrew => Threw
        case NoMessage => Unsupported
        case Built(message) =>
          var tokens := ActiveTokens(devices, userId);
          if |tokens| == 0 then NoDevices else Delivered(message, tokens)
  }

  /** A delivery happens exactly when the gate allows, a message is built and
      the user has an active token; it then goes to all of those tokens. */
  lemma DeliveredExactly(dir: Directory, devices: seq<Device>, userId: Id, kind: Kind, props: Props)
    ensures Deliver(dir, devices, userId, kind, props).Delivered? <==>
      && ValidateAgainstUserPreferences(dir, userId, kind, props.chatRoomId) == Some(true)
      && MakeMessage(dir, kind, props).Built?
      && ActiveTokens(devices, userId) != []
    ensures Deliver(dir, devices, userId, kind, props).Delivered? ==>
      Deliver(dir, devices, userId, kind, props) ==
        Delivered(MakeMessage(dir, kind, props).payload, ActiveTokens(devices, userId))
    ensures ValidateAgainstUserPreferences(dir, userId, kind, props.chatRoomId) == Some(false) ==>
      Deliver(dir, devices, userId, kind, props) == OptedOut
  {
  }

  /** A recipient is reported as opted out exactly when the gate refuses. */
  lemma OptedOutExactly(dir: Directory, devices: seq<Device>, userId: Id, kind: Kind, props: Props)
    ensures Deliver(dir, devices, userId, kind, props) == OptedOut <==>
      ValidateAgainstUserPreferences(dir, userId, kind, props.chatRoomId) == Some(false)
  {
  }

  /** A speaker notification with no acting user and no audit record fails
      for every recipient, whatever the devices: with no isolation between
      recipients, a batch of them stops at the first one. */
  lemma SpeakerFallbackWithoutAuditThrows(dir: Directory, devices: seq<Device>, userId: Id, props: Props)
    requires !Truthy(props.actorId) && PreviousSpeakers(dir, props.chatRoomId) == []
    ensures Deliver(dir, devices, userId, SelectedAsSpeaker, props) == Threw
  {
  }

  datatype HistoryRecord = HistoryRecord(userId: Id, kind: Kind, message: Payload)
  datatype Multicast = Multicast(tokens: seq<Token>, message: Payload)

  /** Jobs on the notification queue. */
  datatype Job =
    | SendNotificationJob(userIds: seq<Id>, kind: Kind, props: Props)
    | AddToTopicJob(userId: Id, chatRoomId: Id)
    | RemoveFromTopicJob(userId: Id, chatRoomId: Id)

  /** What a batch has produced so far: the device registry, the history and
      the multicasts sent. */
  datatype Outbox = Outbox(devices: seq<Device>, history: seq<HistoryRecord>, multicasts: seq<Multicast>)

  /** The outbox after one recipient's pipeline ended with `outcome`. */
  function AfterDelivery(box: Outbox, provider: Provider, userId: Id, kind: Kind, outcome: Delivery): Outbox
    requires Aligned(provider)
  {
    if outcome.Delivered? then
      Outbox(AfterSend(box.devices, outcome.tokens, provider.sendMulticast(outcome.tokens, outcome.payload)),
             box.history + [HistoryRecord(userId, kind, outcome.payload)],
             box.multicasts + [Multicast(outcome.tokens, outcome.payload)])
    else box
  }

  /** The outcomes of a batch and the outbox it leaves. */
  datatype BatchRun = BatchRun(outcomes: seq<Delivery>, box: Outbox)

  /** `createNotificationsForUsers`: each recipient in order goes through the
      single-user pipeline against the registry the previous ones left; the
      first exception ends the batch. */
  function Batch(dir: Directory, provider: Provider, userIds: seq<Id>, kind: Kind, props: Props, box: Outbox): (r: BatchRun)
    requires Aligned(provider)
    ensures |r.outcomes| <= |userIds|
  {
    if |userIds| == 0 then BatchRun([], box)
    else
      var outcome := Deliver(dir, box.devices, userIds[0], kind, props);
      var next := AfterDelivery(box, provider, userIds[0], kind, outcome);
      if outcome.Threw? then BatchRun([outcome], next)
      else
        var rest := Batch(dir, provider, userIds[1..], kind, props, next);
        BatchRun([outcome] + rest.outcomes, rest.box)
  }

  /** The batch from the `i`th recipient on: that recipient's pipeline, then
      the rest unless it threw. */
  lemma BatchUnfold(dir: Directory, provider: Provider, userIds: seq<Id>, kind: Kind, props: Props, box: Outbox, i: nat)
    requires Aligned(provider) && i < |userIds|
    ensures var outcome := Deliver(dir, box.devices, userIds[i], kind, props);
      var next := AfterDelivery(box, provider, userIds[i], kind, outcome);
      var rest := Batch(dir, provider, userIds[i + 1..], kind, props, next);
      Batch(dir, provider, userIds[i..], kind, props, box) ==
        if outcome.Threw? then BatchRun([outcome], next) else BatchRun([outcome] + rest.outcomes, rest.box)
  {
    assert userIds[i..][1..] == userIds[i + 1..];
  }

  /** History records of the delivered recipients, in recipient order. */
  function Records(userIds: seq<Id>, kind: Kind, outcomes: seq<Delivery>): seq<HistoryRecord>
    requires |outcomes| <= |userIds|
  {
    if |outcomes| == 0 then []
    else
      (if outcomes[0].Delivered? then [HistoryRecord(userIds[0], kind, outcomes[0].payload)] else [])
        + Records(userIds[1..], kind, outcomes[1..])
  }

  /** Multicasts of the delivered recipients, in recipient order. */
  function Sends(outcomes: seq<Delivery>): seq<Multicast>
  {
    if |outcomes| == 0 then []
    else
      (if outcomes[0].Delivered? then [Multicast(outcomes[0].tokens, outcomes[0].payload)] else [])
        + Sends(outcomes[1..])
  }

  /** A batch processes a prefix of the recipients: it stops early only at
      an exception, and no recipient before the last one threw. */
  lemma {:induction false} BatchStopsOnlyAtThrow(dir: Directory, provider: Provider, userIds: seq<Id>, kind: Kind,
                                                 props: Props, box: Outbox)
    requires Aligned(provider)
    ensures var os := Batch(dir, provider, userIds, kind, props, box).outcomes;
      && (|os| < |userIds| ==> |os| > 0 && os[|os| - 1].Threw?)
      && (forall k :: 0 <= k < |os| - 1 ==> !os[k].Threw?)
  {
    if |userIds| > 0 {
      var outcome := Deliver(dir, box.devices, userIds[0], kind, props);
      var next := AfterDelivery(box, provider, userIds[0], kind, outcome);
      if !outcome.Threw? {
        BatchStopsOnlyAtThrow(dir, provider, userIds[1..], kind, props, next);
        var rest := Batch(dir, provider, userIds[1..], kind, props, next).outcomes;
        var os := [outcome] + rest;
        assert forall k :: 1 <= k < |os| ==> os[k] == rest[k - 1];
      }
    }
  }

  /** Every processed recipient is reported as opted out exactly when the
      gate refused that recipient. */
  lemma {:induction false} BatchOptOuts(dir: Directory, provider: Provider, userIds: seq<Id>, kind: Kind,
                                        props: Props, box: Outbox)
    requires Aligned(provider)
    ensures var os := Batch(dir, provider, userIds, kind, props, box).outcomes;
      forall k :: 0 <= k < |os| ==>
        (os[k] == OptedOut <==> ValidateAgainstUserPreferences(dir, userIds[k], kind, props.chatRoomId) == Some(false))
  {
    if |userIds| > 0 {
      var outcome := Deliver(dir, box.devices, userIds[0], kind, props);
      var next := AfterDelivery(box, provider, userIds[0], kind, outcome);
      OptedOutExactly(dir, box.devices, userIds[0], kind, props);
      if !outcome.Threw? {
        BatchOptOuts(dir, provider, userIds[1..], kind, props, next);
        var rest := Batch(dir, provider, userIds[1..], kind, props, next).outcomes;
        var os := [outcome] + rest;
        forall k | 1 <= k < |os|
          ensures os[k] == OptedOut <==> ValidateAgainstUserPreferences(dir, userIds[k], kind, props.chatRoomId) == Some(false)
        {
          assert os[k] == rest[k - 1] && userIds[k] == userIds[1..][k - 1];
        }
      }
    }
  }

  /** A batch writes one history record and sends one multicast per
      delivered recipient, in recipient order, and nothing else. */
  lemma {:induction false} BatchLog(dir: Directory, provider: Provider, userIds: seq<Id>, kind: Kind,
                                    props: Props, box: Outbox)
    requires Aligned(provider)
    ensures var r := Batch(dir, provider, userIds, kind, props, box);
      && r.box.history == box.history + Records(userIds, kind, r.outcomes)
      && r.box.multicasts == box.multicasts + Sends(r.outcomes)
  {
    if |userIds| > 0 {
      var outcome := Deliver(dir, box.devices, userIds[0], kind, props);
      var next := AfterDelivery(box, provider, userIds[0], kind, outcome);
      if outcome.Threw? {
        assert Records(userIds, kind, [outcome]) == Records(userIds[1..], kind, []);
        assert Sends([outcome]) == Sends([]);
      } else {
        BatchLog(dir, provider, userIds[1..], kind, props, next);
        var rest := Batch(dir, provider, userIds[1..], kind, props, next);
        var os := [outcome] + rest.outcomes;
        assert os[1..] == rest.outcomes;
        var record := if outcome.Delivered? then [HistoryRecord(userIds[0], kind, outcome.payload)] else [];
        var send := if outcome.Delivered? then [Multicast(outcome.tokens, outcome.payload)] else [];
        assert Records(userIds, kind, os) == record + Records(userIds[1..], kind, rest.outcomes);
        assert Sends(os) == send + Sends(rest.outcomes);
        assert next.history == box.history + record && next.multicasts == box.multicasts + send;
        AppendAssociative(box.history, record, Records(userIds[1..], kind, rest.outcomes));
        AppendAssociative(box.multicasts, send, Sends(rest.outcomes));
      }
    }
  }

  /** A batch changes the device registry only by nulling tokens. */
  lemma {:induction false} BatchOnlyNullsTokens(dir: Directory, provider: Provider, userIds: seq<Id>, kind: Kind,
                                                props: Props, box: Outbox)
    requires Aligned(provider)
    ensures OnlyNullsTokens(box.devices, Batch(dir, provider, userIds, kind, props, box).box.devices)
  {
    if |userIds| > 0 {
      var outcome := Deliver(dir, box.devices, userIds[0], kind, props);
      var next := AfterDelivery(box, provider, userIds[0], kind, outcome);
      if outcome.Delivered? {
        AfterSendOnlyNulls(box.devices, outcome.tokens, provider.sendMulticast(outcome.tokens, outcome.payload));
      }
      if !outcome.Threw? {
        BatchOnlyNullsTokens(dir, provider, userIds[1..], kind, props, next);
        OnlyNullsTokensTransitive(box.devices, next.devices, Batch(dir, provider, userIds[1..], kind, props, next).box.devices);
      }
    }
  }

  /** Without isolation, a recipient whose pipeline throws hides every later
      recipient: the batch ends there, and the later ones send nothing. */
  lemma BatchHaltsAtThrow(dir: Directory, provider: Provider, userIds: seq<Id>, kind: Kind, props: Props, box: Outbox)
    requires Aligned(provider) && |userIds| > 0
    requires Deliver(dir, box.devices, userIds[0], kind, props) == Threw
    ensures Batch(dir, provider, userIds, kind, props, box) == BatchRun([Threw], box)
  {
  }

  // ---------------------------------------------------------------------------
  // The service

  class PushNotificationService {
    /** The device registry. */
    var devices: seq<Device>
    /** Records written by `addToNotificationHistory`. */
    var history: seq<HistoryRecord>
    /** Multicast requests sent to the provider. */
    var multicasts: seq<Multicast>
    /** Subscribe and unsubscribe requests sent to the provider. */
    var topicCalls: seq<TopicCall>
    /** The notification queue. */
    var queue: seq<Job>

    constructor (devices: seq<Device>)
      ensures this.devices == devices && history == [] && multicasts == [] && topicCalls == [] && queue == []
    {
      this.devices := devices;
      history, multicasts, topicCalls, queue := [], [], [], [];
    }

    method AddToTopicBackgroundProcessHandler(userId: Id, chatRoomId: Id)
      modifies this`queue
      ensures queue == old(queue) + [AddToTopicJob(userId, chatRoomId)]
    {
      queue := queue + [AddToTopicJob(userId, chatRoomId)];
    }

    method RemoveFromTopicBackgroundProcessHandler(userId: Id, chatRoomId: Id)
      modifies this`queue
      ensures queue == old(queue) + [RemoveFromTopicJob(userId, chatRoomId)]
    {
      queue := queue + [RemoveFromTopicJob(userId, chatRoomId)];
    }

    /** Subscribes all of the user's device tokens; nothing when the user has
        no device. A provider failure is caught. */
    method AddToTopic(dir: Directory, userId: Id, chatRoomId: Id)
      modifies this`topicCalls
      ensures topicCalls == old(topicCalls) + AddToTopicCalls(dir, devices, userId, chatRoomId)
    {
      var tokens := AllTokens(devices, userId);
      if |tokens| == 0 {
        return;
      }
      topicCalls := topicCalls + [Subscribe(tokens, MakeTopic(dir.devEnv, chatRoomId))];
    }

    /** Unsubscribes the user's active tokens; nothing when there are none. A
        provider failure is not caught: `threw` reports it. */
    method RemoveUserFromTopic(dir: Directory, provider: Provider, userId: Id, chatRoomId: Id) returns (threw: bool)
      modifies this`topicCalls
      ensures topicCalls == old(topicCalls) + RemoveFromTopicCalls(dir, devices, userId, chatRoomId)
      ensures threw == RemoveThrows(dir, provider, devices, userId, chatRoomId)
    {
      var tokens := ActiveTokens(devices, userId);
      if |tokens| == 0 {
        return false;
      }
      var topic := MakeTopic(dir.devEnv, chatRoomId);
      topicCalls := topicCalls + [Unsubscribe(tokens, topic)];
      threw := provider.unsubscribeThrows(tokens, topic);
    }

    /** Re-derives topic membership for each of the user's communities, in
        order, stopping at an uncaught unsubscribe failure. */
    method UpdateTopicForUserId(dir: Directory, provider: Provider, userId: Id) returns (threw: bool)
      modifies this`topicCalls
      ensures var ms := if userId in dir.memberships then dir.memberships[userId] else [];
        && topicCalls == old(topicCalls) + TopicPlan(dir, provider, devices, userId, ms).0
        && threw == TopicPlan(dir, provider, devices, userId, ms).1
    {
      var memberships := if userId in dir.memberships then dir.memberships[userId] else [];
      ghost var plan := TopicPlan(dir, provider, devices, userId, memberships);
      var i := 0;
      while i < |memberships|
        invariant 0 <= i <= |memberships|
        invariant devices == old(devices)
        invariant topicCalls + TopicPlan(dir, provider, devices, userId, memberships[i..]).0 == old(topicCalls) + plan.0
        invariant TopicPlan(dir, provider, devices, userId, memberships[i..]).1 == plan.1
      {
        var membership := memberships[i];
        ghost var before := topicCalls;
        ghost var rest := TopicPlan(dir, provider, devices, userId, memberships[i + 1..]);
        TopicPlanStep(dir, provider, devices, userId, memberships, i);
        if OnTopic(membership.micLevel) {
          AddToTopic(dir, userId, membership.chatRoomId);
          AppendAssociative(before, AddToTopicCalls(dir, devices, userId, membership.chatRoomId), rest.0);
        } else {
          threw := RemoveUserFromTopic(dir, provider, userId, membership.chatRoomId);
          if threw {
            return;
          }
          AppendAssociative(before, RemoveFromTopicCalls(dir, devices, userId, membership.chatRoomId), rest.0);
        }
        i := i + 1;
      }
      threw := false;
    }

    /** Unsubscribes the tokens from the topic of each community on the first
        page of 100, stopping at an uncaught provider failure. */
    method RemoveDeviceTokensFromAllChatRooms(dir: Directory, provider: Provider, tokens: seq<Token>) returns (threw: bool)
      modifies this`topicCalls
      ensures topicCalls == old(topicCalls) + PurgePlan(dir, provider, tokens, FirstPage(dir.allChatRooms)).0
      ensures threw == PurgePlan(dir, provider, tokens, FirstPage(dir.allChatRooms)).1
      ensures |topicCalls| <= |old(topicCalls)| + PurgePageSize
    {
      var chatRooms := FirstPage(dir.allChatRooms);
      var i := 0;
      while i < |chatRooms|
        invariant 0 <= i <= |chatRooms|
        invariant topicCalls + PurgePlan(dir, provider, tokens, chatRooms[i..]).0
          == old(topicCalls) + PurgePlan(dir, provider, tokens, chatRooms).0
        invariant PurgePlan(dir, provider, tokens, chatRooms[i..]).1 == PurgePlan(dir, provider, tokens, chatRooms).1
      {
        assert chatRooms[i..][1..] == chatRooms[i + 1..];
        var topic := MakeTopic(dir.devEnv, chatRooms[i]);
        AppendAssociative(topicCalls, [Unsubscribe(tokens, topic)], PurgePlan(dir, provider, tokens, chatRooms[i + 1..]).0);
        topicCalls := topicCalls + [Unsubscribe(tokens, topic)];
        if provider.unsubscribeThrows(tokens, topic) {
          return true;
        }
        i := i + 1;
      }
      threw := false;
    }

    method EnqueueSendNotificationsForUsers(userIds: seq<Id>, kind: Kind, props: Props)
      modifies this`queue
      ensures queue == old(queue) + [SendNotificationJob(userIds, kind, props)]
    {
      queue := queue + [SendNotificationJob(userIds, kind, props)];
    }

    /** Sends one multicast to the tokens; on an answer, nulls the tokens
        reported invalid when there are any. A provider failure is caught. */
    method SendMulticastMessage(provider: Provider, deviceTokens: seq<Token>, payload: Payload)
      requires Aligned(provider)
      modifies this`devices, this`multicasts
      ensures multicasts == old(multicasts) + [Multicast(deviceTokens, payload)]
      ensures devices == AfterSend(old(devices), deviceTokens, provider.sendMulticast(deviceTokens, payload))
    {
      multicasts := multicasts + [Multicast(deviceTokens, payload)];
      var response := provider.sendMulticast(deviceTokens, payload);
      if response.SendThrew? {
        return;
      }
      var invalidTokens := CollectInvalidTokens(deviceTokens, response.responses);
      if |invalidTokens| > 0 {
        devices := NullTokens(devices, invalidTokens);
      }
    }

    /** Gate, message, devices, one multicast to all active tokens, then one
        history record, which is written whatever the provider answered. */
    method SendNotificationToUser(dir: Directory, provider: Provider, userId: Id, kind: Kind, props: Props)
      returns (outcome: Delivery)
      requires Aligned(provider)
      modifies this`devices, this`multicasts, this`history
      ensures outcome == Deliver(dir, old(devices), userId, kind, props)
      ensures Outbox(devices, history, multicasts) ==
        AfterDelivery(Outbox(old(devices), old(history), old(multicasts)), provider, userId, kind, outcome)
    {
      var isAllowed := ValidateAgainstUserPreferences(dir, userId, kind, props.chatRoomId);
      if isAllowed.None? {
        return Threw;
      }
      if !isAllowed.value {
        return OptedOut;
      }
      var message := MakeMessage(dir, kind, props);
      if message.MessageThrew? {
        return Threw;
      }
      if message.NoMessage? {
        return Unsupported;
      }
      var tokens := ActiveTokens(devices, userId);
      if |tokens| == 0 {
        return NoDevices;
      }
      SendMulticastMessage(provider, tokens, message.payload);
      history := history + [HistoryRecord(userId, kind, message.payload)];
      outcome := Delivered(message.payload, tokens);
    }

    /** Runs the single-user pipeline for each user in order. An exception for
        one user ends the batch: `outcomes` covers the users processed, and
        only its last entry can be `Threw`. */
    method CreateNotificationsForUsers(dir: Directory, provider: Provider, userIds: seq<Id>, kind: Kind, props: Props)
      returns (outcomes: seq<Delivery>)
      requires Aligned(provider)
      modifies this`devices, this`multicasts, this`history
      ensures var r := Batch(dir, provider, userIds, kind, props, Outbox(old(devices), old(history), old(multicasts)));
        outcomes == r.outcomes && Outbox(devices, history, multicasts) == r.box
      ensures |outcomes| <= |userIds|
      ensures |outcomes| < |userIds| ==> |outcomes| > 0 && outcomes[|outcomes| - 1].Threw?
      ensures forall k :: 0 <= k < |outcomes| - 1 ==> !outcomes[k].Threw?
      ensures forall k :: 0 <= k < |outcomes| ==>
        (outcomes[k] == OptedOut <==> ValidateAgainstUserPreferences(dir, userIds[k], kind, props.chatRoomId) == Some(false))
      ensures history == old(history) + Records(userIds, kind, outcomes)
      ensures multicasts == old(multicasts) + Sends(outcomes)
      ensures OnlyNullsTokens(old(devices), devices)
    {
      ghost var start := Outbox(devices, history, multicasts);
      ghost var total := Batch(dir, provider, userIds, kind, props, start);
      outcomes := [];
      var i := 0;
      while i < |userIds|
        invariant 0 <= i <= |userIds| && |outcomes| == i
        invariant var rest := Batch(dir, provider, userIds[i..], kind, props, Outbox(devices, history, multicasts));
          total.outcomes == outcomes + rest.outcomes && total.box == rest.box
      {
        ghost var now := Outbox(devices, history, multicasts);
        BatchUnfold(dir, provider, userIds, kind, props, now, i);
        var outcome := SendNotificationToUser(dir, provider, userIds[i], kind, props);
        if outcome.Threw? {
          outcomes := outcomes + [outcome];
          break;
        }
        ghost var rest := Batch(dir, provider, userIds[i + 1..], kind, props, Outbox(devices, history, multicasts));
        AppendAssociative(outcomes, [outcome], rest.outcomes);
        outcomes := outcomes + [outcome];
        i := i + 1;
      }
      BatchStopsOnlyAtThrow(dir, provider, userIds, kind, props, start);
      BatchOptOuts(dir, provider, userIds, kind, props, start);
      BatchLog(dir, provider, userIds, kind, props, start);
      BatchOnlyNullsTokens(dir, provider, userIds, kind, props, start);
    }
  }
}
