/** Per-user, per-community notification preferences
    (notification-services/notification-setting.service.ts): lazy creation on
    first read, partial updates, the "views updated" event and the daily rows of
    the settings graph. */
module NotificationSettings {
  import opened Common

  /** The nine boolean toggles of a preference record. In a stored record a
      `None` field is a null column; in an update request it is a field the
      caller did not supply (`undefined`). */
  datatype Toggles = Toggles(
    taggedInPost: Option<bool>,
    taggedInComment: Option<bool>,
    postCreated: Option<bool>,
    selectedAsSpeaker: Option<bool>,
    selectedAsNextSpeaker: Option<bool>,
    allComments: Option<bool>,
    showInViewedBy: Option<bool>,
    reactionNotification: Option<bool>,
    communityAnnouncements: Option<bool>)

  /** An update request that supplies no field. */
  const NoChanges := Toggles(None, None, None, None, None, None, None, None, None)

  /** One row of the preference table, keyed by (userId, chatRoomId). */
  datatype NotificationSetting = NotificationSetting(userId: Id, chatRoomId: Id, toggles: Toggles)

  /** Names of the nine toggles, to state field-wise properties once. */
  datatype ToggleName =
    | TaggedInPost | TaggedInComment | PostCreated | SelectedAsSpeaker | SelectedAsNextSpeaker
    | AllComments | ShowInViewedBy | ReactionNotification | CommunityAnnouncements

  function Field(t: Toggles, name: ToggleName): Option<bool>
  {
    match name
    case TaggedInPost => t.taggedInPost
    case TaggedInComment => t.taggedInComment
    case PostCreated => t.postCreated
    case SelectedAsSpeaker => t.selectedAsSpeaker
    case SelectedAsNextSpeaker => t.selectedAsNextSpeaker
    case AllComments => t.allComments
    case ShowInViewedBy => t.showInViewedBy
    case ReactionNotification => t.reactionNotification
    case CommunityAnnouncements => t.communityAnnouncements
  }

  predicate HasKey(r: NotificationSetting, userId: Id, chatRoomId: Id)
  {
    r.userId == userId && r.chatRoomId == chatRoomId
  }

  /** At most one row per (user, community). */
  ghost predicate Unique(rows: seq<NotificationSetting>)
  {
    forall i, j :: 0 <= i < j < |rows| ==> !HasKey(rows[j], rows[i].userId, rows[i].chatRoomId)
  }

  /** The repository's `findByUserId`: the first row with the given key. */
  function Find(rows: seq<NotificationSetting>, userId: Id, chatRoomId: Id): (r: Option<NotificationSetting>)
    ensures r.Some? ==> r.value in rows && HasKey(r.value, userId, chatRoomId)
    ensures r.None? <==> forall i :: 0 <= i < |rows| ==> !HasKey(rows[i], userId, chatRoomId)
  {
    if |rows| == 0 then None
    else if HasKey(rows[0], userId, chatRoomId) then Some(rows[0])
    else Find(rows[1..], userId, chatRoomId)
  }

  /** The record `getUserCommunityPreferences` returns. */
  function Lookup(rows: seq<NotificationSetting>, userId: Id, chatRoomId: Id, defaults: Toggles): NotificationSetting
  {
    match Find(rows, userId, chatRoomId)
    case Some(r) => r
    case None => NotificationSetting(userId, chatRoomId, defaults)
  }

  /** The table after `getUserCommunityPreferences`: a record is added only when none exists. */
  function WithRecord(rows: seq<NotificationSetting>, userId: Id, chatRoomId: Id, defaults: Toggles): seq<NotificationSetting>
  {
    if Find(rows, userId, chatRoomId).Some? then rows
    else rows + [NotificationSetting(userId, chatRoomId, defaults)]
  }

  /** The repository's `save`: the row with the record's key is replaced by it. */
  function Replace(rows: seq<NotificationSetting>, r: NotificationSetting): (rows': seq<NotificationSetting>)
    ensures |rows'| == |rows|
  {
    seq(|rows|, i requires 0 <= i < |rows| => if HasKey(rows[i], r.userId, r.chatRoomId) then r else rows[i])
  }

  /** A partial update: each supplied field overwrites the stored one. */
  function Overwrite(t: Toggles, settings: Toggles): Toggles
  {
    Toggles(
      if settings.taggedInPost.Some? then settings.taggedInPost else t.taggedInPost,
      if settings.taggedInComment.Some? then settings.taggedInComment else t.taggedInComment,
      if settings.postCreated.Some? then settings.postCreated else t.postCreated,
      if settings.selectedAsSpeaker.Some? then settings.selectedAsSpeaker else t.selectedAsSpeaker,
      if settings.selectedAsNextSpeaker.Some? then settings.selectedAsNextSpeaker else t.selectedAsNextSpeaker,
      if settings.allComments.Some? then settings.allComments else t.allComments,
      if settings.showInViewedBy.Some? then settings.showInViewedBy else t.showInViewedBy,
      if settings.reactionNotification.Some? then settings.reactionNotification else t.reactionNotification,
      if settings.communityAnnouncements.Some? then settings.communityAnnouncements else t.communityAnnouncements)
  }

  /** Whether an update must tell clients to re-fetch post views. */
  predicate ViewsChanged(before: Toggles, settings: Toggles)
  {
    settings.showInViewedBy.Some? && before.showInViewedBy != settings.showInViewedBy
  }

  // ---------------------------------------------------------------------------
  // Properties of the update rule

  /** Each field is overwritten iff the request supplies it; no field is taken
      from another. */
  lemma OverwriteFieldwise(t: Toggles, settings: Toggles, name: ToggleName)
    ensures Field(settings, name).Some? ==> Field(Overwrite(t, settings), name) == Field(settings, name)
    ensures Field(settings, name).None? ==> Field(Overwrite(t, settings), name) == Field(t, name)
  {
  }

  /** Applying the same request twice gives the record of applying it once. */
  lemma OverwriteIdempotent(t: Toggles, settings: Toggles)
    ensures Overwrite(Overwrite(t, settings), settings) == Overwrite(t, settings)
  {
  }

  /** An empty request leaves the record unchanged. */
  lemma OverwriteNothing(t: Toggles)
    ensures Overwrite(t, NoChanges) == t
  {
  }

  /** Two requests in a row act as one request in which the later one wins. */
  lemma OverwriteLastWins(t: Toggles, first: Toggles, second: Toggles)
    ensures Overwrite(Overwrite(t, first), second) == Overwrite(t, Overwrite(first, second))
  {
  }

  /** Repeating a request after it was applied never fires the event again,
      and a request that leaves showInViewedBy out never fires it. */
  lemma ViewsChangedOnlyOnce(t: Toggles, settings: Toggles)
    ensures !ViewsChanged(Overwrite(t, settings), settings)
    ensures !ViewsChanged(t, NoChanges)
  {
  }

  // ---------------------------------------------------------------------------
  // Properties of the table

  lemma {:induction false} FindAppend(rows: seq<NotificationSetting>, x: NotificationSetting, userId: Id, chatRoomId: Id)
    ensures Find(rows + [x], userId, chatRoomId) ==
      if Find(rows, userId, chatRoomId).Some? then Find(rows, userId, chatRoomId)
      else if HasKey(x, userId, chatRoomId) then Some(x) else None
  {
    if |rows| > 0 {
      assert (rows + [x])[1..] == rows[1..] + [x];
      FindAppend(rows[1..], x, userId, chatRoomId);
    }
  }

  /** In a table without duplicates, the record found is the only row with its key. */
  lemma {:induction false} FindUnique(rows: seq<NotificationSetting>, i: nat)
    requires Unique(rows) && i < |rows|
    ensures Find(rows, rows[i].userId, rows[i].chatRoomId) == Some(rows[i])
  {
    if i > 0 {
      assert !HasKey(rows[i], rows[0].userId, rows[0].chatRoomId);
      assert Unique(rows[1..]) by {
        forall a, b | 0 <= a < b < |rows[1..]|
          ensures !HasKey(rows[1..][b], rows[1..][a].userId, rows[1..][a].chatRoomId)
        {
          assert rows[1..][a] == rows[a + 1] && rows[1..][b] == rows[b + 1];
        }
      }
      FindUnique(rows[1..], i - 1);
    }
  }

  /** Lazy creation: afterwards exactly the looked-up record is stored for the
      key, the table keeps its old rows in order, grows by at most one row,
      stays free of duplicates, and a second call changes nothing. */
  lemma WithRecordStores(rows: seq<NotificationSetting>, userId: Id, chatRoomId: Id, defaults: Toggles)
    ensures var rows' := WithRecord(rows, userId, chatRoomId, defaults);
      && Find(rows', userId, chatRoomId) == Some(Lookup(rows, userId, chatRoomId, defaults))
      && rows'[..|rows|] == rows
      && |rows'| == |rows| + (if Find(rows, userId, chatRoomId).Some? then 0 else 1)
      && (Unique(rows) ==> Unique(rows'))
      && WithRecord(rows', userId, chatRoomId, defaults) == rows'
      && Lookup(rows', userId, chatRoomId, defaults) == Lookup(rows, userId, chatRoomId, defaults)
  {
    var x := NotificationSetting(userId, chatRoomId, defaults);
    FindAppend(rows, x, userId, chatRoomId);
  }

  /** Saving a record with an existing key replaces exactly that row. */
  lemma ReplaceStores(rows: seq<NotificationSetting>, r: NotificationSetting)
    requires Unique(rows) && Find(rows, r.userId, r.chatRoomId).Some?
    ensures var rows' := Replace(rows, r);
      && Unique(rows')
      && Find(rows', r.userId, r.chatRoomId) == Some(r)
      && forall i :: 0 <= i < |rows| && !HasKey(rows[i], r.userId, r.chatRoomId) ==> rows'[i] == rows[i]
  {
    var rows' := Replace(rows, r);
    ReplaceKeepsUnique(rows, r);
    var i :| 0 <= i < |rows| && HasKey(rows[i], r.userId, r.chatRoomId);
    assert rows'[i] == r;
    FindUnique(rows', i);
  }

  lemma ReplaceKeepsUnique(rows: seq<NotificationSetting>, r: NotificationSetting)
    requires Unique(rows)
    ensures Unique(Replace(rows, r))
  {
    var rows' := Replace(rows, r);
    forall a, b | 0 <= a < b < |rows'|
      ensures !HasKey(rows'[b], rows'[a].userId, rows'[a].chatRoomId)
    {
      assert rows'[a].userId == rows[a].userId && rows'[a].chatRoomId == rows[a].chatRoomId;
      assert rows'[b].userId == rows[b].userId && rows'[b].chatRoomId == rows[b].chatRoomId;
    }
  }

  // ---------------------------------------------------------------------------
  // The settings graph

  /** Milliseconds in a day: the step of the graph loop. */
  const Day := 86400000

  /** A daily counter row as the repository returns it; counts may be null. */
  datatype DailyCount = DailyCount(
    date: string,
    commentatorCount: Option<int>,
    allCommentsCount: Option<int>,
    mentions: Option<int>,
    postCreatedCount: Option<int>)

  /** One row of the graph. Counts are integers here; where the code falls
      back to the string '0' for a missing count, the row holds 0. */
  datatype GraphRow = GraphRow(date: string, fullAccessCount: int, allComments: int, mentions: int, newPosts: int)

  function OrElse(o: Option<int>, fallback: int): int
  {
    if o.Some? then o.value else fallback
  }

  /** `Array.find` on the daily counters by formatted date: the first
      counter with the date, if any. */
  function FindCount(counts: seq<DailyCount>, date: string): (r: Option<DailyCount>)
    ensures r.Some? ==> exists k :: 0 <= k < |counts| && counts[k] == r.value && r.value.date == date
                                   && (forall j :: 0 <= j < k ==> counts[j].date != date)
    ensures r.None? ==> forall c :: c in counts ==> c.date != date
  {
    if |counts| == 0 then None
    else if counts[0].date == date then Some(counts[0])
    else FindCount(counts[1..], date)
  }

  /** The row for the day starting at timestamp `t`; the full-access count
      falls back to the current commentator count, then to 0. */
  function RowAt(t: int, currentFullAccessCount: Option<int>, counts: seq<DailyCount>, formatDate: int -> string): GraphRow
  {
    var date := formatDate(t);
    var current := OrElse(currentFullAccessCount, 0);
    match FindCount(counts, date)
    case None => GraphRow(date, current, 0, 0, 0)
    case Some(c) =>
      GraphRow(date, OrElse(c.commentatorCount, current), OrElse(c.allCommentsCount, 0),
               OrElse(c.mentions, 0), OrElse(c.postCreatedCount, 0))
  }

  /** Number of timestamps start, start + Day, ... that are at most `end`. */
  function DayCount(start: int, end: int): nat
  {
    if end < start then 0 else (end - start) / Day + 1
  }

  /** DayCount is the number of whole-day steps that fit: the last row is at
      most `end`, one more step would pass it. */
  lemma DayCountBounds(start: int, end: int, n: nat)
    ensures n == DayCount(start, end) <==> start + n * Day > end && (n > 0 ==> start + (n - 1) * Day <= end)
  {
    if n > 0 && start + n * Day > end && start + (n - 1) * Day <= end {
      DivideWithin(end - start, n - 1);
    }
  }

  lemma DivideWithin(x: int, q: nat)
    requires q * Day <= x < q * Day + Day
    ensures x / Day == q
  {
  }

  // ---------------------------------------------------------------------------
  // The service

  class NotificationSettingService {
    /** The preference table. */
    var rows: seq<NotificationSetting>
    /** Communities for which `emitPostViewsUpdatedAfterToggle` was called, in order. */
    var viewsUpdatedEvents: seq<Id>
    /** The toggles a row receives when it is inserted with only its two ids
        (the table's column defaults). */
    const columnDefaults: Toggles

    ghost predicate Valid()
      reads this
    {
      Unique(rows)
    }

    constructor (columnDefaults: Toggles, rows: seq<NotificationSetting>)
      requires Unique(rows)
      ensures Valid()
      ensures this.rows == rows && viewsUpdatedEvents == [] && this.columnDefaults == columnDefaults
    {
      this.rows := rows;
      this.columnDefaults := columnDefaults;
      viewsUpdatedEvents := [];
    }

    /** Returns the stored record, creating it first when it is missing. */
    method GetUserCommunityPreferences(userId: Id, communityId: Id) returns (preferences: NotificationSetting)
      requires Valid()
      modifies this`rows
      ensures Valid()
      ensures preferences == Lookup(old(rows), userId, communityId, columnDefaults)
      ensures rows == WithRecord(old(rows), userId, communityId, columnDefaults)
      ensures Find(rows, userId, communityId) == Some(preferences)
    {
      WithRecordStores(rows, userId, communityId, columnDefaults);
      var found := Find(rows, userId, communityId);
      if found.None? {
        preferences := NotificationSetting(userId, communityId, columnDefaults);
        rows := rows + [preferences];
        return;
      }
      preferences := found.value;
    }

    /** Overwrites the supplied fields of the (lazily created) record, saves it,
        and emits the views event when showInViewedBy changed. */
    method UpdateUserCommunityPreferences(userId: Id, communityId: Id, settings: Toggles)
      returns (updated: NotificationSetting)
      requires Valid()
      modifies this`rows, this`viewsUpdatedEvents
      ensures Valid()
      ensures var before := Lookup(old(rows), userId, communityId, columnDefaults);
        && updated == NotificationSetting(userId, communityId, Overwrite(before.toggles, settings))
        && rows == Replace(WithRecord(old(rows), userId, communityId, columnDefaults), updated)
        && viewsUpdatedEvents == old(viewsUpdatedEvents) + (if ViewsChanged(before.toggles, settings) then [communityId] else [])
      ensures Find(rows, userId, communityId) == Some(updated)
    {
      var notificationSettings := GetUserCommunityPreferences(userId, communityId);
      var previousShowInViewedBy := notificationSettings.toggles.showInViewedBy;
      updated := notificationSettings.(toggles := Overwrite(notificationSettings.toggles, settings));
      ReplaceStores(rows, updated);
      rows := Replace(rows, updated);
      if settings.showInViewedBy.Some? && previousShowInViewedBy != settings.showInViewedBy {
        viewsUpdatedEvents := viewsUpdatedEvents + [communityId];
      }
    }

    /** Inserts a record with the column defaults when none exists; otherwise
        changes nothing. */
    method CreateNotificationSettingsIfNotPresent(userId: Id, chatRoomId: Id)
      requires Valid()
      modifies this`rows
      ensures Valid()
      ensures rows == WithRecord(old(rows), userId, chatRoomId, columnDefaults)
      ensures Find(rows, userId, chatRoomId).Some?
    {
      WithRecordStores(rows, userId, chatRoomId, columnDefaults);
      var notificationSettings := Find(rows, userId, chatRoomId);
      if notificationSettings.None? {
        rows := rows + [NotificationSetting(userId, chatRoomId, columnDefaults)];
      }
    }

    /** The graph query: a forbidden error when an argument is missing, else
        one row per day from start to end inclusive. Dates are taken as
        millisecond timestamps; `formatDate` is the date formatter. */
    method GetNotificationSettingsGraphsData(
      chatRoomId: Option<Id>, startDate: Option<int>, endDate: Option<int>,
      currentFullAccessCount: Option<int>, dailyCounts: seq<DailyCount>, formatDate: int -> string)
      returns (r: Result<seq<GraphRow>>)
      ensures r.Err? <==> !Truthy(chatRoomId) || startDate.None? || endDate.None?
      ensures r.Err? ==> r.error == Forbidden
      ensures r.Ok? ==>
        && |r.value| == DayCount(startDate.value, endDate.value)
        && forall k :: 0 <= k < |r.value| ==>
             r.value[k] == RowAt(startDate.value + k * Day, currentFullAccessCount, dailyCounts, formatDate)
    {
      if !Truthy(chatRoomId) || startDate.None? || endDate.None? {
        return Err(Forbidden);
      }
      var start, end := startDate.value, endDate.value;
      var current := OrElse(currentFullAccessCount, 0);
      var formattedData: seq<GraphRow> := [];
      var i := start;
      while i <= end
        invariant i == start + |formattedData| * Day
        invariant |formattedData| > 0 ==> i - Day <= end
        invariant forall k :: 0 <= k < |formattedData| ==>
          formattedData[k] == RowAt(start + k * Day, currentFullAccessCount, dailyCounts, formatDate)
        decreases end - i
      {
        var date := formatDate(i);
        var countObj := FindCount(dailyCounts, date);
        var row := match countObj
          case None => GraphRow(date, current, 0, 0, 0)
          case Some(c) =>
            GraphRow(date, OrElse(c.commentatorCount, current), OrElse(c.allCommentsCount, 0),
                     OrElse(c.mentions, 0), OrElse(c.postCreatedCount, 0));
        formattedData := formattedData + [row];
        i := i + Day;
      }
      DayCountBounds(start, end, |formattedData|);
      r := Ok(formattedData);
    }
  }
}
