/** The poll service (poll-services/polls.service.ts): poll creation with
    ranked choices, the access guards, vote replacement with its per-choice
    counters, the voter query and the has-voted check. Votes are soft-deleted,
    so the vote store is a sequence whose index is the vote's id. */
module Polls {
  import opened Common
  import PushNotification

  datatype Poll = Poll(chatRoomId: Id, authorId: Option<Id>, title: string, anonymous: bool)

  /** A poll choice; `votes` is the stored counter of its active votes. */
  datatype Choice = Choice(pollId: Id, text: string, rank: int, votes: int)

  datatype Vote = Vote(choiceId: Id, pollId: Id, userId: Id, deleted: bool)

  datatype ContentType = PollContent | OtherContent
  datatype PostContent = PostContent(contentType: ContentType, content: string)
  datatype Post = Post(authorId: Id, conversationId: Id, contents: seq<PostContent>)

  /** A community membership, as `findMappingWithUserId` returns it. */
  datatype Member = Member(micLevel: MicLevel, incognito: bool)

  // ---------------------------------------------------------------------------
  // Guards

  /** `getPoll`: NotFound for an unknown poll, Forbidden for a poll of another
      community, the poll otherwise. */
  function GetPoll(polls: map<Id, Poll>, pollId: Id, communityId: Id): (r: Result<Poll>)
    ensures r == Err(NotFound) <==> pollId !in polls
    ensures r == Err(Forbidden) <==> pollId in polls && polls[pollId].chatRoomId != communityId
    ensures r.Ok? ==> pollId in polls && r.value == polls[pollId] && r.value.chatRoomId == communityId
  {
    if pollId !in polls then Err(NotFound)
    else if polls[pollId].chatRoomId != communityId then Err(Forbidden)
    else Ok(polls[pollId])
  }

  /** The post contents that attach the poll to a post. */
  function PollContents(contents: seq<PostContent>, pollId: Id): (r: seq<PostContent>)
    ensures forall x :: x in r ==> x == PostContent(PollContent, pollId)
    ensures |r| > 0 <==> PostContent(PollContent, pollId) in contents
    ensures |r| <= |contents|
  {
    if |contents| == 0 then []
    else
      (if contents[0].contentType == PollContent && contents[0].content == pollId then [contents[0]] else [])
        + PollContents(contents[1..], pollId)
  }

  /** `validateThatPollIsAttachedToLivePost`: only the first live post is
      inspected; it must carry a POLL content naming the poll, and when a
      current user is given, that user must be its author. */
  function ValidateThatPollIsAttachedToLivePost(livePosts: seq<Post>, pollId: Id, currentUser: Option<Id>): (r: Result<Post>)
    ensures r.Ok? <==>
      && |livePosts| > 0
      && PostContent(PollContent, pollId) in livePosts[0].contents
      && (currentUser.Some? ==> livePosts[0].authorId == currentUser.value)
    ensures r.Ok? ==> r.value == livePosts[0]
    ensures r.Err? ==> r.error == Forbidden
  {
    if |livePosts| == 0 then Err(Forbidden)
    else
      var livePost := livePosts[0];
      if |PollContents(livePost.contents, pollId)| == 0 then Err(Forbidden)
      else if currentUser.Some? && livePost.authorId != currentUser.value then Err(Forbidden)
      else Ok(livePost)
  }

  /** Only commentators and speakers who are not incognito may vote. */
  predicate CanVote(member: Option<Member>)
  {
    member.Some? && (member.value.micLevel == Commentator || member.value.micLevel == Speaker) && !member.value.incognito
  }

  /** Viewers, members of any other level, incognito members and
      non-members are all refused. */
  lemma WhoCanVote(member: Option<Member>)
    ensures member.None? ==> !CanVote(member)
    ensures member.Some? && (member.value.micLevel == Viewer || member.value.micLevel.OtherLevel?) ==> !CanVote(member)
    ensures member.Some? && member.value.incognito ==> !CanVote(member)
    ensures member == Some(Member(Commentator, false)) || member == Some(Member(Speaker, false)) ==> CanVote(member)
  {
  }

  // ---------------------------------------------------------------------------
  // The voter query

  const DefaultPage := 1
  const DefaultLimit := 25

  /** The arguments handed to `findVoters`. */
  datatype VoterQuery = VoterQuery(choiceId: Id, pollId: Id, skip: int, take: int)

  function OrDefault(x: Option<int>, default: int): int
  {
    if x.Some? then x.value else default
  }

  /** `fetchVoters` up to the repository call: the poll must be visible to the
      community and not anonymous; page defaults to 1 and limit to 25. */
  function FetchVoters(polls: map<Id, Poll>, choiceId: Id, pollId: Id, communityId: Id, page: Option<int>, limit: Option<int>)
    : (r: Result<VoterQuery>)
    ensures GetPoll(polls, pollId, communityId).Err? ==> r == Err(GetPoll(polls, pollId, communityId).error)
    ensures GetPoll(polls, pollId, communityId).Ok? && polls[pollId].anonymous ==> r == Err(Forbidden)
    ensures r.Ok? <==> GetPoll(polls, pollId, communityId).Ok? && !polls[pollId].anonymous
    ensures r.Ok? ==> r.value.choiceId == choiceId && r.value.pollId == pollId
  {
    match GetPoll(polls, pollId, communityId)
    case Err(e) => Err(e)
    case Ok(poll) =>
      if poll.anonymous then Err(Forbidden)
      else
        var p := OrDefault(page, DefaultPage);
        var l := OrDefault(limit, DefaultLimit);
        Ok(VoterQuery(choiceId, pollId, l * (p - 1), l))
  }

  /** Pages tile the voter list: page `p` skips `p - 1` pages of `limit`
      voters, each page starts where the previous one ends, a missing page
      is page 1 and starts at 0, and by default 25 voters are taken. */
  lemma PagesTile(polls: map<Id, Poll>, choiceId: Id, pollId: Id, communityId: Id, page: int, limit: Option<int>)
    requires FetchVoters(polls, choiceId, pollId, communityId, Some(page), limit).Ok?
    ensures var q := FetchVoters(polls, choiceId, pollId, communityId, Some(page), limit).value;
      var next := FetchVoters(polls, choiceId, pollId, communityId, Some(page + 1), limit).value;
      && q.take == OrDefault(limit, DefaultLimit)
      && q.skip == q.take * (page - 1)
      && next.skip == q.skip + q.take
      && FetchVoters(polls, choiceId, pollId, communityId, None, limit) ==
         FetchVoters(polls, choiceId, pollId, communityId, Some(1), limit)
      && FetchVoters(polls, choiceId, pollId, communityId, None, limit).value.skip == 0
      && (limit.None? ==> q.take == DefaultLimit)
  {
  }

  // ---------------------------------------------------------------------------
  // The vote store

  /** An active vote of the user on the poll. */
  predicate Matches(v: Vote, pollId: Id, userId: Id)
  {
    !v.deleted && v.pollId == pollId && v.userId == userId
  }

  /** `findVotes`: the ids of the user's active votes on the poll, ascending. */
  function Existing(votes: seq<Vote>, pollId: Id, userId: Id): (r: seq<nat>)
    ensures forall k :: 0 <= k < |r| ==> r[k] < |votes|
  {
    if |votes| == 0 then []
    else
      var n := |votes| - 1;
      Existing(votes[..n], pollId, userId) + (if Matches(votes[n], pollId, userId) then [n] else [])
  }

  /** The choices of those votes, in the same order. */
  function PriorChoices(votes: seq<Vote>, pollId: Id, userId: Id): seq<Id>
  {
    if |votes| == 0 then []
    else
      var n := |votes| - 1;
      PriorChoices(votes[..n], pollId, userId) + (if Matches(votes[n], pollId, userId) then [votes[n].choiceId] else [])
  }

  /** `findVotes` returns exactly the user's active votes on the poll, each
      once, in id order, and their choices align with them. */
  lemma {:induction false} ExistingExact(votes: seq<Vote>, pollId: Id, userId: Id)
    ensures var ex := Existing(votes, pollId, userId);
      && |PriorChoices(votes, pollId, userId)| == |ex|
      && (forall k :: 0 <= k < |ex| ==>
            Matches(votes[ex[k]], pollId, userId) && PriorChoices(votes, pollId, userId)[k] == votes[ex[k]].choiceId)
      && (forall k, l :: 0 <= k < l < |ex| ==> ex[k] < ex[l])
      && (forall i :: 0 <= i < |votes| ==> (i in ex <==> Matches(votes[i], pollId, userId)))
  {
    if |votes| > 0 {
      var n := |votes| - 1;
      var front := votes[..n];
      ExistingExact(front, pollId, userId);
      assert forall i :: 0 <= i < n ==> front[i] == votes[i];
      var ex := Existing(front, pollId, userId);
      var prior := PriorChoices(front, pollId, userId);
      if Matches(votes[n], pollId, userId) {
        assert Existing(votes, pollId, userId) == ex + [n];
        assert PriorChoices(votes, pollId, userId) == prior + [votes[n].choiceId];
      } else {
        assert Existing(votes, pollId, userId) == ex;
        assert PriorChoices(votes, pollId, userId) == prior;
      }
    }
  }

  /** The store after soft-deleting the votes with the given ids. */
  function SoftDeleted(votes: seq<Vote>, ids: seq<nat>): (votes': seq<Vote>)
    ensures |votes'| == |votes|
  {
    seq(|votes|, i requires 0 <= i < |votes| => if i in ids then votes[i].(deleted := true) else votes[i])
  }

  /** Every active vote of the user on the poll soft-deleted. */
  function Retired(votes: seq<Vote>, pollId: Id, userId: Id): (votes': seq<Vote>)
    ensures |votes'| == |votes|
  {
    seq(|votes|, i requires 0 <= i < |votes| =>
      if Matches(votes[i], pollId, userId) then votes[i].(deleted := true) else votes[i])
  }

  /** Active votes for a choice. */
  function Tally(votes: seq<Vote>, choiceId: Id): nat
  {
    if |votes| == 0 then 0
    else
      var n := |votes| - 1;
      Tally(votes[..n], choiceId) + (if !votes[n].deleted && votes[n].choiceId == choiceId then 1 else 0)
  }

  function Occurrences(ids: seq<Id>, id: Id): nat
  {
    if |ids| == 0 then 0
    else
      var n := |ids| - 1;
      Occurrences(ids[..n], id) + (if ids[n] == id then 1 else 0)
  }

  /** Retiring the user's votes removes, for each choice, exactly the user's
      prior votes for it from the active tally. */
  lemma {:induction false} RetireTally(votes: seq<Vote>, pollId: Id, userId: Id, choiceId: Id)
    ensures Tally(Retired(votes, pollId, userId), choiceId) + Occurrences(PriorChoices(votes, pollId, userId), choiceId)
      == Tally(votes, choiceId)
  {
    if |votes| > 0 {
      var n := |votes| - 1;
      RetireTally(votes[..n], pollId, userId, choiceId);
      var retired := Retired(votes, pollId, userId);
      RetiredPrefix(votes, pollId, userId);
      var prior := PriorChoices(votes[..n], pollId, userId);
      var added := if Matches(votes[n], pollId, userId) then [votes[n].choiceId] else [];
      OccurrencesSnoc(prior, added, choiceId);
      assert Tally(retired, choiceId)
        == Tally(Retired(votes[..n], pollId, userId), choiceId) + (if !retired[n].deleted && retired[n].choiceId == choiceId then 1 else 0);
    }
  }

  lemma RetiredPrefix(votes: seq<Vote>, pollId: Id, userId: Id)
    requires |votes| > 0
    ensures Retired(votes, pollId, userId)[..|votes| - 1] == Retired(votes[..|votes| - 1], pollId, userId)
  {
  }

  lemma OccurrencesSnoc(ids: seq<Id>, added: seq<Id>, id: Id)
    requires |added| <= 1
    ensures Occurrences(ids + added, id) == Occurrences(ids, id) + (if added == [id] then 1 else 0)
  {
    if |added| == 1 {
      assert (ids + added)[..|ids|] == ids;
    } else {
      assert ids + added == ids;
    }
  }

  /** A counter moved by `delta` (no change for an unknown choice). */
  function Bump(choices: map<Id, Choice>, choiceId: Id, delta: int): (choices': map<Id, Choice>)
    ensures choices'.Keys == choices.Keys
  {
    if choiceId in choices then choices[choiceId := choices[choiceId].(votes := choices[choiceId].votes + delta)]
    else choices
  }

  /** The counters after decrementing once per listed choice, in order. */
  function Decremented(choices: map<Id, Choice>, ids: seq<Id>): map<Id, Choice>
  {
    if |ids| == 0 then choices
    else Bump(Decremented(choices, ids[..|ids| - 1]), ids[|ids| - 1], -1)
  }

  /** Each choice loses one vote per occurrence in the list; nothing else
      changes. */
  lemma {:induction false} DecrementedCounts(choices: map<Id, Choice>, ids: seq<Id>)
    ensures Decremented(choices, ids).Keys == choices.Keys
    ensures forall c :: c in choices ==>
      Decremented(choices, ids)[c] == choices[c].(votes := choices[c].votes - Occurrences(ids, c))
  {
    if |ids| > 0 {
      DecrementedCounts(choices, ids[..|ids| - 1]);
    }
  }

  /** The vote store and counters after a successful replacement: prior votes
      retired and their choices decremented, then the new vote created and its
      choice incremented. */
  function AfterVote(votes: seq<Vote>, choices: map<Id, Choice>, choiceId: Id, pollId: Id, userId: Id)
    : (seq<Vote>, map<Id, Choice>)
  {
    (Retired(votes, pollId, userId) + [Vote(choiceId, pollId, userId, false)],
     Bump(Decremented(choices, PriorChoices(votes, pollId, userId)), choiceId, 1))
  }

  /** Every active vote names an existing choice. */
  ghost predicate Referenced(votes: seq<Vote>, choices: map<Id, Choice>)
  {
    forall i :: 0 <= i < |votes| && !votes[i].deleted ==> votes[i].choiceId in choices
  }

  /** Each counter equals the number of active votes for its choice. */
  ghost predicate CountsMatch(votes: seq<Vote>, choices: map<Id, Choice>)
  {
    forall c :: c in choices ==> choices[c].votes == Tally(votes, c)
  }

  /** A user has at most one active vote per poll. */
  ghost predicate OneVoteEach(votes: seq<Vote>)
  {
    forall i, j ::
      (0 <= i < j < |votes| && !votes[i].deleted && !votes[j].deleted && votes[i].pollId == votes[j].pollId) ==>
      votes[i].userId != votes[j].userId
  }

  /** Counters stay equal to the active tallies through the retirement step
      and through the whole replacement. */
  lemma CountsMatchAfterVote(votes: seq<Vote>, choices: map<Id, Choice>, choiceId: Id, pollId: Id, userId: Id)
    requires CountsMatch(votes, choices)
    ensures CountsMatch(Retired(votes, pollId, userId), Decremented(choices, PriorChoices(votes, pollId, userId)))
    ensures choiceId in choices ==>
      CountsMatch(AfterVote(votes, choices, choiceId, pollId, userId).0, AfterVote(votes, choices, choiceId, pollId, userId).1)
  {
    var prior := PriorChoices(votes, pollId, userId);
    var retired := Retired(votes, pollId, userId);
    DecrementedCounts(choices, prior);
    forall c | c in choices
      ensures Decremented(choices, prior)[c].votes == Tally(retired, c)
    {
      RetireTally(votes, pollId, userId, c);
    }
    var v := Vote(choiceId, pollId, userId, false);
    assert (retired + [v])[..|retired|] == retired;
  }

  /** The other invariants survive the replacement too. */
  lemma StoreKeptAfterVote(votes: seq<Vote>, choices: map<Id, Choice>, choiceId: Id, pollId: Id, userId: Id)
    requires Referenced(votes, choices) && OneVoteEach(votes)
    ensures Referenced(Retired(votes, pollId, userId), Decremented(choices, PriorChoices(votes, pollId, userId)))
    ensures choiceId in choices ==>
      var after := AfterVote(votes, choices, choiceId, pollId, userId);
      Referenced(after.0, after.1) && OneVoteEach(after.0)
  {
    DecrementedCounts(choices, PriorChoices(votes, pollId, userId));
  }

  /** Sum of the counters of the listed choices. */
  function Total(choices: map<Id, Choice>, ids: seq<Id>): int
  {
    if |ids| == 0 then 0
    else (if ids[0] in choices then choices[ids[0]].votes else 0) + Total(choices, ids[1..])
  }

  predicate Distinct(ids: seq<Id>)
  {
    forall k, l :: 0 <= k < l < |ids| ==> ids[k] != ids[l]
  }

  lemma {:induction false} BumpTotal(choices: map<Id, Choice>, ids: seq<Id>, choiceId: Id, delta: int)
    requires Distinct(ids)
    ensures Total(Bump(choices, choiceId, delta), ids) == Total(choices, ids) + (if choiceId in ids && choiceId in choices then delta else 0)
  {
    if |ids| > 0 {
      assert Distinct(ids[1..]);
      BumpTotal(choices, ids[1..], choiceId, delta);
      assert choiceId in ids <==> choiceId == ids[0] || choiceId in ids[1..];
    }
  }

  lemma {:induction false} DecrementedTotal(choices: map<Id, Choice>, ids: seq<Id>, prior: seq<Id>)
    requires Distinct(ids)
    requires forall k :: 0 <= k < |prior| ==> prior[k] in ids && prior[k] in choices
    ensures Total(Decremented(choices, prior), ids) == Total(choices, ids) - |prior|
  {
    if |prior| > 0 {
      var n := |prior| - 1;
      DecrementedTotal(choices, ids, prior[..n]);
      DecrementedCounts(choices, prior[..n]);
      BumpTotal(Decremented(choices, prior[..n]), ids, prior[n], -1);
    }
  }

  /** Across the choices, the counters' sum changes by one minus the number
      of prior votes. */
  lemma TotalAfterVote(votes: seq<Vote>, choices: map<Id, Choice>, choiceId: Id, pollId: Id, userId: Id, ids: seq<Id>)
    requires Distinct(ids) && choiceId in ids && choiceId in choices
    requires forall c :: c in PriorChoices(votes, pollId, userId) ==> c in ids && c in choices
    ensures Total(AfterVote(votes, choices, choiceId, pollId, userId).1, ids)
      == Total(choices, ids) + 1 - |Existing(votes, pollId, userId)|
  {
    var prior := PriorChoices(votes, pollId, userId);
    ExistingExact(votes, pollId, userId);
    DecrementedTotal(choices, ids, prior);
    DecrementedCounts(choices, prior);
    BumpTotal(Decremented(choices, prior), ids, choiceId, 1);
  }

  /** Voting again for the only choice voted for leaves every counter as it
      was. */
  lemma SameChoiceRevote(votes: seq<Vote>, choices: map<Id, Choice>, choiceId: Id, pollId: Id, userId: Id)
    requires PriorChoices(votes, pollId, userId) == [choiceId] && choiceId in choices
    ensures AfterVote(votes, choices, choiceId, pollId, userId).1 == choices
  {
    DecrementedCounts(choices, [choiceId]);
    assert Occurrences([choiceId], choiceId) == 1;
    assert [choiceId][..0] == [];
  }

  /** `findVote`: the user's active vote on the poll (with at most one such
      vote, whichever the query returns). */
  function FindVote(votes: seq<Vote>, pollId: Id, userId: Id): (r: Option<Vote>)
    ensures r.Some? ==> r.value in votes && Matches(r.value, pollId, userId)
    ensures r.None? <==> forall i :: 0 <= i < |votes| ==> !Matches(votes[i], pollId, userId)
  {
    if |votes| == 0 then None
    else if Matches(votes[0], pollId, userId) then Some(votes[0])
    else
      var r := FindVote(votes[1..], pollId, userId);
      assert forall i :: 1 <= i < |votes| ==> votes[i] == votes[1..][i - 1];
      r
  }

  /** `hasVoted`: the user's active vote on the poll is for the choice. */
  predicate HasVoted(votes: seq<Vote>, pollId: Id, choiceId: Id, userId: Id)
  {
    var vote := FindVote(votes, pollId, userId);
    vote.Some? && vote.value.choiceId == choiceId
  }

  /** With one vote per user and poll, `hasVoted` holds exactly when some
      active vote of the user on the poll is for the choice. */
  lemma HasVotedExact(votes: seq<Vote>, pollId: Id, choiceId: Id, userId: Id)
    requires OneVoteEach(votes)
    ensures HasVoted(votes, pollId, choiceId, userId) <==>
      exists i :: 0 <= i < |votes| && Matches(votes[i], pollId, userId) && votes[i].choiceId == choiceId
  {
    if exists i :: 0 <= i < |votes| && Matches(votes[i], pollId, userId) && votes[i].choiceId == choiceId {
      var i :| 0 <= i < |votes| && Matches(votes[i], pollId, userId) && votes[i].choiceId == choiceId;
      var v := FindVote(votes, pollId, userId).value;
      var j :| 0 <= j < |votes| && votes[j] == v;
      assert i == j;
    }
  }

  /** A store in which the user has no active vote on the poll has no
      prior votes to replace. */
  lemma NoneExisting(votes: seq<Vote>, pollId: Id, userId: Id)
    requires forall i :: 0 <= i < |votes| ==> !Matches(votes[i], pollId, userId)
    ensures Existing(votes, pollId, userId) == []
  {
    ExistingExact(votes, pollId, userId);
  }

  /** After a replacement the user's only active vote on the poll is the new
      one, so `hasVoted` answers yes for that choice and no for any other. */
  lemma OnlyVoteAfter(votes: seq<Vote>, choices: map<Id, Choice>, choiceId: Id, pollId: Id, userId: Id)
    ensures var after := AfterVote(votes, choices, choiceId, pollId, userId).0;
      && Existing(after, pollId, userId) == [|votes|]
      && forall c :: HasVoted(after, pollId, c, userId) <==> c == choiceId
  {
    var retired := Retired(votes, pollId, userId);
    var v := Vote(choiceId, pollId, userId, false);
    var after := retired + [v];
    assert after[..|votes|] == retired;
    assert forall i :: 0 <= i < |votes| ==> !Matches(retired[i], pollId, userId);
    NoneExisting(retired, pollId, userId);
    assert forall i :: 0 <= i < |after| && Matches(after[i], pollId, userId) ==> i == |votes|;
    var found := FindVote(after, pollId, userId);
    assert Matches(after[|votes|], pollId, userId);
    var j :| 0 <= j < |after| && after[j] == found.value;
    assert found == Some(v);
  }

  // ---------------------------------------------------------------------------
  // Casting a vote

  /** What `castVote` returns and leaves behind: the status, the vote store,
      the counters and the jobs it enqueues. */
  datatype VoteEffect = VoteEffect(status: Status, votes: seq<Vote>, choices: map<Id, Choice>, jobs: seq<PushNotification.Job>)

  function PollVoteJob(recipients: seq<Id>, communityId: Id, userId: Id): PushNotification.Job
  {
    PushNotification.SendNotificationJob(recipients, PushNotification.PollVote,
      PushNotification.Props(Some(communityId), Some(userId), None))
  }

  /** `castVote` in program order: live-post check, voter check, replacement
      of prior votes, creation of the new vote (refused for an unknown
      choice), the poll read back, then the notification. */
  function CastVoteEffect(polls: map<Id, Poll>, votes: seq<Vote>, choices: map<Id, Choice>,
                          choiceId: Id, pollId: Id, communityId: Id, userId: Id,
                          livePosts: seq<Post>, member: Option<Member>, recipients: seq<Id>): VoteEffect
  {
    if ValidateThatPollIsAttachedToLivePost(livePosts, pollId, None).Err? || !CanVote(member) then
      VoteEffect(Failed(Forbidden), votes, choices, [])
    else if choiceId !in choices then
      VoteEffect(Failed(InternalError), Retired(votes, pollId, userId),
                 Decremented(choices, PriorChoices(votes, pollId, userId)), [])
    else
      var after := AfterVote(votes, choices, choiceId, pollId, userId);
      match GetPoll(polls, pollId, communityId)
      case Err(e) => VoteEffect(Failed(e), after.0, after.1, [])
      case Ok(_) => VoteEffect(Done, after.0, after.1, [PollVoteJob(recipients, communityId, userId)])
  }

  /** A rejected voter changes nothing. An accepted one always has the prior
      votes replaced, even when the poll cannot be read back afterwards; the
      notification is enqueued exactly when the whole call succeeds; and a
      successful vote is the user's only active vote on the poll. */
  lemma CastVoteOutcome(polls: map<Id, Poll>, votes: seq<Vote>, choices: map<Id, Choice>,
                        choiceId: Id, pollId: Id, communityId: Id, userId: Id,
                        livePosts: seq<Post>, member: Option<Member>, recipients: seq<Id>)
    ensures var e := CastVoteEffect(polls, votes, choices, choiceId, pollId, communityId, userId, livePosts, member, recipients);
      && (ValidateThatPollIsAttachedToLivePost(livePosts, pollId, None).Err? || !CanVote(member) ==>
            e == VoteEffect(Failed(Forbidden), votes, choices, []))
      && (e.status == Failed(Forbidden) && e.votes != votes ==> GetPoll(polls, pollId, communityId) == Err(Forbidden))
      && (e.jobs != [] <==> e.status == Done)
      && (e.status == Done ==>
            && ValidateThatPollIsAttachedToLivePost(livePosts, pollId, None).Ok?
            && GetPoll(polls, pollId, communityId).Ok? && choiceId in choices && CanVote(member))
      && (e.status.Done? || e.status == Failed(NotFound) ==>
            Existing(e.votes, pollId, userId) == [|votes|] && HasVoted(e.votes, pollId, choiceId, userId))
  {
    if ValidateThatPollIsAttachedToLivePost(livePosts, pollId, None).Ok? && CanVote(member) && choiceId in choices {
      OnlyVoteAfter(votes, choices, choiceId, pollId, userId);
    }
  }

  /** The counters after the first `n` choices of a new poll were created
      from `before`, one per text with rank equal to its position. */
  ghost predicate ChoicesCreated(before: map<Id, Choice>, after: map<Id, Choice>, pollId: Id,
                                 texts: seq<string>, choiceIds: seq<Id>, n: nat)
    requires n <= |texts| == |choiceIds|
  {
    && after.Keys == before.Keys + (set k | 0 <= k < n :: choiceIds[k])
    && (forall c :: c in before ==> after[c] == before[c])
    && (forall k :: 0 <= k < n ==> after[choiceIds[k]] == Choice(pollId, texts[k], k, 0))
  }

  lemma ChoicesCreatedStep(before: map<Id, Choice>, after: map<Id, Choice>, pollId: Id,
                           texts: seq<string>, choiceIds: seq<Id>, n: nat)
    requires n < |texts| == |choiceIds| && Distinct(choiceIds)
    requires forall k :: 0 <= k < |choiceIds| ==> choiceIds[k] !in before
    requires ChoicesCreated(before, after, pollId, texts, choiceIds, n)
    ensures choiceIds[n] !in after
    ensures ChoicesCreated(before, after[choiceIds[n] := Choice(pollId, texts[n], n, 0)], pollId, texts, choiceIds, n + 1)
  {
    assert (set k | 0 <= k < n + 1 :: choiceIds[k]) == (set k | 0 <= k < n :: choiceIds[k]) + {choiceIds[n]};
  }

  /** A new choice with no votes keeps the store invariants. */
  lemma AddChoiceKeeps(votes: seq<Vote>, choices: map<Id, Choice>, choiceId: Id, choice: Choice)
    requires Referenced(votes, choices) && CountsMatch(votes, choices)
    requires choiceId !in choices && choice.votes == 0
    ensures Referenced(votes, choices[choiceId := choice]) && CountsMatch(votes, choices[choiceId := choice])
  {
    TallyUnreferenced(votes, choices, choiceId);
  }

  // ---------------------------------------------------------------------------
  // The service

  class PollsService {
    var polls: map<Id, Poll>
    var choices: map<Id, Choice>
    /** The vote store; a vote's id is its index. */
    var votes: seq<Vote>
    /** Where poll-vote notifications are enqueued. */
    const notifications: PushNotification.PushNotificationService

    ghost predicate Valid()
      reads this
    {
      Referenced(votes, choices) && CountsMatch(votes, choices) && OneVoteEach(votes)
    }

    constructor (notifications: PushNotification.PushNotificationService)
      ensures Valid()
      ensures polls == map[] && choices == map[] && votes == [] && this.notifications == notifications
    {
      polls, choices, votes := map[], map[], [];
      this.notifications := notifications;
    }

    /** Creates the poll, then one choice per text in input order with ranks
        0, 1, ..., and returns the poll as `getPoll` reads it back. The ids
        the repositories generate are inputs. */
    method CreatePoll(communityId: Id, userId: Option<Id>, title: string, anonymous: bool, texts: seq<string>,
                      pollId: Id, choiceIds: seq<Id>) returns (r: Result<Poll>)
      requires Valid()
      requires pollId !in polls
      requires |choiceIds| == |texts| && Distinct(choiceIds)
      requires forall k :: 0 <= k < |choiceIds| ==> choiceIds[k] !in choices
      modifies this`polls, this`choices
      ensures Valid()
      ensures polls == old(polls)[pollId := Poll(communityId, userId, title, anonymous)]
      ensures choices.Keys == old(choices).Keys + set k | 0 <= k < |choiceIds| :: choiceIds[k]
      ensures forall c :: c in old(choices) ==> choices[c] == old(choices)[c]
      ensures forall k :: 0 <= k < |choiceIds| ==> choices[choiceIds[k]] == Choice(pollId, texts[k], k, 0)
      ensures r == Ok(Poll(communityId, userId, title, anonymous))
    {
      polls := polls[pollId := Poll(communityId, userId, title, anonymous)];
      var index := 0;
      while index < |texts|
        invariant 0 <= index <= |texts|
        invariant polls == old(polls)[pollId := Poll(communityId, userId, title, anonymous)]
        invariant ChoicesCreated(old(choices), choices, pollId, texts, choiceIds, index)
        invariant Valid()
      {
        ChoicesCreatedStep(old(choices), choices, pollId, texts, choiceIds, index);
        AddChoiceKeeps(votes, choices, choiceIds[index], Choice(pollId, texts[index], index, 0));
        choices := choices[choiceIds[index] := Choice(pollId, texts[index], index, 0)];
        index := index + 1;
      }
      r := GetPoll(polls, pollId, communityId);
    }

    /** Validates the live post and the voter, replaces the user's votes on
        the poll, then reads the poll back and enqueues the poll-vote
        notification for `recipients`. A failure after the replacement leaves
        the replacement in place. An unknown choice is refused by the store
        when the vote is created. */
    method CastVote(choiceId: Id, pollId: Id, communityId: Id, userId: Id,
                    livePosts: seq<Post>, member: Option<Member>, recipients: seq<Id>) returns (status: Status)
      requires Valid()
      modifies this`votes, this`choices, notifications`queue
      ensures Valid()
      ensures var effect := CastVoteEffect(polls, old(votes), old(choices), choiceId, pollId, communityId, userId,
                                           livePosts, member, recipients);
        && status == effect.status && votes == effect.votes && choices == effect.choices
        && notifications.queue == old(notifications.queue) + effect.jobs
    {
      var livePost := ValidateThatPollIsAttachedToLivePost(livePosts, pollId, None);
      if livePost.Err? {
        return Failed(livePost.error);
      }
      if !CanVote(member) {
        return Failed(Forbidden);
      }

      RetirePriorVotes(pollId, userId);
      CountsMatchAfterVote(old(votes), old(choices), choiceId, pollId, userId);
      StoreKeptAfterVote(old(votes), old(choices), choiceId, pollId, userId);
      DecrementedCounts(old(choices), PriorChoices(old(votes), pollId, userId));

      if choiceId !in choices {
        return Failed(InternalError);
      }
      votes := votes + [Vote(choiceId, pollId, userId, false)];
      choices := Bump(choices, choiceId, 1);  // getChoiceById, then incrementVotes
      assert votes == AfterVote(old(votes), old(choices), choiceId, pollId, userId).0;

      var poll := GetPoll(polls, pollId, communityId);
      if poll.Err? {
        return Failed(poll.error);
      }
      notifications.EnqueueSendNotificationsForUsers(recipients, PushNotification.PollVote,
        PushNotification.Props(Some(communityId), Some(userId), None));
      status := Done;
    }

    /** The retirement loop of `castVote`: each of the user's active votes on
        the poll is soft-deleted and its choice's counter decremented. */
    method RetirePriorVotes(pollId: Id, userId: Id)
      requires Referenced(votes, choices)
      modifies this`votes, this`choices
      ensures votes == Retired(old(votes), pollId, userId)
      ensures choices == Decremented(old(choices), PriorChoices(old(votes), pollId, userId))
    {
      var existingVotes := Existing(votes, pollId, userId);
      ghost var prior := PriorChoices(votes, pollId, userId);
      ExistingAligned(votes, pollId, userId);
      var k := 0;
      while k < |existingVotes|
        invariant 0 <= k <= |existingVotes|
        invariant votes == SoftDeleted(old(votes), existingVotes[..k])
        invariant choices == Decremented(old(choices), prior[..k])
      {
        var id := existingVotes[k];
        RetireStep(old(votes), old(choices), pollId, userId, k);
        var existingVote := votes[id];
        votes := votes[id := existingVote.(deleted := true)];
        choices := Bump(choices, existingVote.choiceId, -1);  // the choice's `votes -= 1`
        k := k + 1;
      }
      assert existingVotes[..k] == existingVotes && prior[..k] == prior;
      SoftDeletedExisting(old(votes), pollId, userId);
    }

    /** `hasVoted`, read against the current store. */
    method HasVotedQuery(pollId: Id, choiceId: Id, userId: Id) returns (voted: bool)
      requires Valid()
      ensures voted <==> exists i :: 0 <= i < |votes| && Matches(votes[i], pollId, userId) && votes[i].choiceId == choiceId
    {
      HasVotedExact(votes, pollId, choiceId, userId);
      var vote := FindVote(votes, pollId, userId);
      voted := vote.Some? && vote.value.choiceId == choiceId;
    }
  }

  /** Soft-deleting the votes `findVotes` returns retires the user's votes on
      the poll. */
  lemma SoftDeletedExisting(votes: seq<Vote>, pollId: Id, userId: Id)
    ensures SoftDeleted(votes, Existing(votes, pollId, userId)) == Retired(votes, pollId, userId)
  {
    ExistingExact(votes, pollId, userId);
  }

  lemma ExistingAligned(votes: seq<Vote>, pollId: Id, userId: Id)
    ensures |PriorChoices(votes, pollId, userId)| == |Existing(votes, pollId, userId)|
  {
    ExistingExact(votes, pollId, userId);
  }

  /** One step of the retirement loop: the `k`th vote `findVotes` returned
      is still as stored, names an existing choice, and retiring it extends
      both the soft deletion and the decrements by one. */
  lemma RetireStep(votes: seq<Vote>, choices: map<Id, Choice>, pollId: Id, userId: Id, k: nat)
    requires Referenced(votes, choices)
    requires k < |Existing(votes, pollId, userId)|
    ensures var ex := Existing(votes, pollId, userId);
      var prior := PriorChoices(votes, pollId, userId);
      var soFar := SoftDeleted(votes, ex[..k]);
      && k < |prior| && ex[k] < |votes|
      && soFar[ex[k]] == votes[ex[k]] && votes[ex[k]].choiceId == prior[k]
      && soFar[ex[k] := votes[ex[k]].(deleted := true)] == SoftDeleted(votes, ex[..k + 1])
      && prior[k] in Decremented(choices, prior[..k])
      && Decremented(choices, prior[..k + 1]) == Bump(Decremented(choices, prior[..k]), prior[k], -1)
  {
    var ex := Existing(votes, pollId, userId);
    var prior := PriorChoices(votes, pollId, userId);
    ExistingExact(votes, pollId, userId);
    assert ex[k] !in ex[..k];
    SoftDeleteStep(votes, ex, k);
    DecrementStep(choices, prior, k);
  }

  /** One step of the retirement loop on the vote store. */
  lemma SoftDeleteStep(votes: seq<Vote>, ids: seq<nat>, k: nat)
    requires k < |ids| && ids[k] < |votes| && ids[k] !in ids[..k]
    ensures SoftDeleted(votes, ids[..k])[ids[k]] == votes[ids[k]]
    ensures SoftDeleted(votes, ids[..k])[ids[k] := votes[ids[k]].(deleted := true)] == SoftDeleted(votes, ids[..k + 1])
  {
    assert ids[..k + 1] == ids[..k] + [ids[k]];
  }

  /** One step of the retirement loop on the counters. */
  lemma DecrementStep(choices: map<Id, Choice>, prior: seq<Id>, k: nat)
    requires k < |prior| && prior[k] in choices
    ensures prior[k] in Decremented(choices, prior[..k])
    ensures Decremented(choices, prior[..k + 1]) == Bump(Decremented(choices, prior[..k]), prior[k], -1)
  {
    DecrementedCounts(choices, prior[..k]);
    assert prior[..k + 1][..k] == prior[..k];
  }

  /** A choice no active vote names has an empty tally. */
  lemma {:induction false} TallyUnreferenced(votes: seq<Vote>, choices: map<Id, Choice>, choiceId: Id)
    requires Referenced(votes, choices) && choiceId !in choices
    ensures Tally(votes, choiceId) == 0
  {
    if |votes| > 0 {
      var n := |votes| - 1;
      assert Referenced(votes[..n], choices) by {
        assert forall i :: 0 <= i < n ==> votes[..n][i] == votes[i];
      }
      TallyUnreferenced(votes[..n], choices, choiceId);
    }
  }
}
