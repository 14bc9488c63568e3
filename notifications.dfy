/**
 * The `notifications` collection: the record factories, the per-user listing, marking read,
 * the unread count and the age-based cleanup.
 */
module Notifications {
  import opened Wrappers
  import opened Store
  import opened Text

  datatype NotificationType =
    | MissionAssigned | MissionCompleted | MissionApproved | MissionRejected | RewardEarned
    | LevelUp | BadgeEarned | SystemUpdate | Welcome | Reminder

  datatype Priority = Low | Normal | High | Urgent

  /** The metadata keys the services write; the open-ended `[key: string]: any` part is not modelled. */
  datatype Metadata = Metadata(
    missionId: Option<string>,
    rewardAmount: Option<real>,
    badgeName: Option<string>,
    welcomeUser: Option<bool>,
    newLevel: Option<int>)

  const NoMetadata := Metadata(None, None, None, None, None)

  datatype Notification = Notification(
    userId: string,
    title: string,
    message: string,
    kind: NotificationType,
    priority: Priority,
    isRead: bool,
    actionUrl: Option<string>,
    metadata: Option<Metadata>,
    createdAt: nat,
    updatedAt: nat)

  /** `CreateNotificationData`: a notification without its stamps. */
  datatype NotificationData = NotificationData(
    userId: string,
    title: string,
    message: string,
    kind: NotificationType,
    priority: Priority,
    isRead: bool,
    actionUrl: Option<string>,
    metadata: Option<Metadata>)

  /** `createNotification`'s document: the data and both stamps. */
  function Stored(d: NotificationData, now: nat): (n: Notification)
    ensures n.createdAt == now && n.updatedAt == now
    ensures NotificationData(n.userId, n.title, n.message, n.kind, n.priority, n.isRead, n.actionUrl, n.metadata) == d
  {
    Notification(d.userId, d.title, d.message, d.kind, d.priority, d.isRead, d.actionUrl, d.metadata, now, now)
  }

  const WelcomeTitle := "Welcome to Kreedia!"
  const WelcomeGreeting := "Hello "
  const WelcomeRest := "! Welcome to our environmental mission platform. Start exploring missions to make a positive impact!"
  const LevelUpTitle := "Level Up!"
  const LevelUpOpening := "Congratulations! You've reached level "
  const LevelUpRest := ". Keep up the great environmental work!"

  /** The message of the welcome notification: the greeting, the user's name, the rest. */
  function WelcomeMessage(userName: string): (m: string)
    ensures |m| == |WelcomeGreeting| + |userName| + |WelcomeRest|
    ensures m[..|WelcomeGreeting|] == WelcomeGreeting
    ensures m[|WelcomeGreeting|..|WelcomeGreeting| + |userName|] == userName
  {
    WelcomeGreeting + userName + WelcomeRest
  }

  /** The message of the level-up notification, with the level rendered in decimal. */
  function LevelUpMessage(newLevel: int): (m: string)
    ensures |m| == |LevelUpOpening| + |IntToString(newLevel)| + |LevelUpRest|
    ensures m[|LevelUpOpening|..|LevelUpOpening| + |IntToString(newLevel)|] == IntToString(newLevel)
  {
    LevelUpOpening + IntToString(newLevel) + LevelUpRest
  }

  /** The text between a fixed opening and a fixed ending determines the whole string and back. */
  lemma Framed(opening: string, a: string, b: string, ending: string)
    requires opening + a + ending == opening + b + ending
    ensures a == b
  {
    var s := opening + a + ending;
    assert |a| == |b|;
    assert a == s[|opening|..|opening| + |a|];
    assert b == (opening + b + ending)[|opening|..|opening| + |b|];
  }

  /** Distinct integers render to distinct strings. */
  lemma IntToStringInjective(m: int, n: int)
    requires IntToString(m) == IntToString(n)
    ensures m == n
  {
    if m >= 0 && n >= 0 {
      NatToStringInjective(m, n);
    } else if m < 0 && n < 0 {
      assert NatToString(-m) == IntToString(m)[1..];
      assert NatToString(-n) == IntToString(n)[1..];
      NatToStringInjective(-m, -n);
    }
  }

  /** Two welcome messages are equal exactly when the names are: the name is recoverable. */
  lemma WelcomeMessageInjective(a: string, b: string)
    ensures WelcomeMessage(a) == WelcomeMessage(b) <==> a == b
  {
    if WelcomeMessage(a) == WelcomeMessage(b) {
      Framed(WelcomeGreeting, a, b, WelcomeRest);
    }
  }

  /** Two level-up messages are equal exactly when the levels are. */
  lemma LevelUpMessageInjective(a: int, b: int)
    ensures LevelUpMessage(a) == LevelUpMessage(b) <==> a == b
  {
    if LevelUpMessage(a) == LevelUpMessage(b) {
      Framed(LevelUpOpening, IntToString(a), IntToString(b), LevelUpRest);
      IntToStringInjective(a, b);
    }
  }

  /** `createWelcomeNotification`'s data. */
  function WelcomeNotification(userId: string, userName: string): (d: NotificationData)
    ensures d.userId == userId && d.kind == Welcome && d.priority == Normal && !d.isRead
    ensures d.title == WelcomeTitle && d.message == WelcomeMessage(userName)
    ensures d.actionUrl == Some("/dashboard")
    ensures d.metadata == Some(NoMetadata.(welcomeUser := Some(true)))
  {
    NotificationData(userId, WelcomeTitle, WelcomeMessage(userName), Welcome, Normal, false,
                     Some("/dashboard"), Some(NoMetadata.(welcomeUser := Some(true))))
  }

  /** `createMissionNotification`'s data; the priority defaults to NORMAL. */
  function MissionNotification(userId: string, kind: NotificationType, missionId: string, title: string,
                               message: string, priority: Priority := Normal): (d: NotificationData)
    ensures d.userId == userId && d.kind == kind && d.priority == priority && !d.isRead
    ensures d.title == title && d.message == message
    ensures d.actionUrl == Some("/missions/" + missionId)
    ensures d.metadata == Some(NoMetadata.(missionId := Some(missionId)))
  {
    NotificationData(userId, title, message, kind, priority, false,
                     Some("/missions/" + missionId), Some(NoMetadata.(missionId := Some(missionId))))
  }

  /** The mission id can be read back from the action URL. */
  lemma MissionLinkRoundTrip(d: NotificationData, missionId: string)
    requires d.actionUrl == Some("/missions/" + missionId)
    ensures StartsWith(d.actionUrl.value, "/missions/")
    ensures d.actionUrl.value[|"/missions/"|..] == missionId
  {
    assert d.actionUrl.value[..|"/missions/"|] == "/missions/";
  }

  /** `createRewardNotification`'s data. */
  function RewardNotification(userId: string, rewardAmount: real, title: string, message: string): (d: NotificationData)
    ensures d.userId == userId && d.kind == RewardEarned && d.priority == High && !d.isRead
    ensures d.title == title && d.message == message
    ensures d.actionUrl == Some("/profile")
    ensures d.metadata == Some(NoMetadata.(rewardAmount := Some(rewardAmount)))
  {
    NotificationData(userId, title, message, RewardEarned, High, false,
                     Some("/profile"), Some(NoMetadata.(rewardAmount := Some(rewardAmount))))
  }

  /** `createLevelUpNotification`'s data. */
  function LevelUpNotification(userId: string, newLevel: int): (d: NotificationData)
    ensures d.userId == userId && d.kind == LevelUp && d.priority == High && !d.isRead
    ensures d.title == LevelUpTitle && d.message == LevelUpMessage(newLevel)
    ensures d.actionUrl == Some("/profile")
    ensures d.metadata == Some(NoMetadata.(newLevel := Some(newLevel)))
  {
    NotificationData(userId, LevelUpTitle, LevelUpMessage(newLevel), LevelUp, High, false,
                     Some("/profile"), Some(NoMetadata.(newLevel := Some(newLevel))))
  }

  /** `UpdateNotificationData`: any field except the stamps. */
  datatype Patch = Patch(
    userId: Write<string>,
    title: Write<string>,
    message: Write<string>,
    kind: Write<NotificationType>,
    priority: Write<Priority>,
    isRead: Write<bool>,
    actionUrl: Write<string>,
    metadata: Write<Metadata>)

  function Onto<T>(w: Write<T>, current: Option<T>): Option<T> {
    match w
    case Keep => current
    case Put(v) => Some(v)
  }

  /** `updateNotification`'s write: the given fields and a fresh `updatedAt`. */
  function Updated(n: Notification, p: Patch, now: nat): (r: Notification)
    ensures r.updatedAt == now && r.createdAt == n.createdAt
    ensures p.userId.Keep? ==> r.userId == n.userId
    ensures p.title.Keep? ==> r.title == n.title
    ensures p.message.Keep? ==> r.message == n.message
    ensures p.kind.Keep? ==> r.kind == n.kind
    ensures p.priority.Keep? ==> r.priority == n.priority
    ensures p.isRead.Keep? ==> r.isRead == n.isRead
    ensures p.actionUrl.Keep? ==> r.actionUrl == n.actionUrl
    ensures p.metadata.Keep? ==> r.metadata == n.metadata
    ensures p.isRead.Put? ==> r.isRead == p.isRead.value
    ensures p.userId.Put? ==> r.userId == p.userId.value
    ensures p.title.Put? ==> r.title == p.title.value
    ensures p.message.Put? ==> r.message == p.message.value
    ensures p.kind.Put? ==> r.kind == p.kind.value
    ensures p.priority.Put? ==> r.priority == p.priority.value
    ensures p.actionUrl.Put? ==> r.actionUrl == Some(p.actionUrl.value)
    ensures p.metadata.Put? ==> r.metadata == Some(p.metadata.value)
  {
    Notification(
      p.userId.Apply(n.userId), p.title.Apply(n.title), p.message.Apply(n.message), p.kind.Apply(n.kind),
      p.priority.Apply(n.priority), p.isRead.Apply(n.isRead), Onto(p.actionUrl, n.actionUrl),
      Onto(p.metadata, n.metadata), n.createdAt, now)
  }

  /** What marking read writes: `isRead` and the stamp. */
  function MarkedRead(n: Notification, now: nat): (r: Notification)
    ensures r.isRead && r.updatedAt == now
    ensures r.(isRead := n.isRead, updatedAt := n.updatedAt) == n
  {
    n.(isRead := true, updatedAt := now)
  }

  predicate UnreadOf(userId: string, n: Notification) {
    n.userId == userId && !n.isRead
  }

  predicate Owned(userId: string, n: Notification) {
    n.userId == userId
  }

  /** The collection after `markAllAsRead(userId)`. */
  function AllRead(docs: map<nat, Notification>, userId: string, now: nat): (r: map<nat, Notification>)
    ensures r.Keys == docs.Keys
  {
    map id | id in docs :: if UnreadOf(userId, docs[id]) then MarkedRead(docs[id], now) else docs[id]
  }

  /**
   * After marking all read, none of the user's notifications is unread, the previously unread
   * ones are marked and nothing else changes; other users' notifications are untouched.
   */
  lemma AllReadEffect(docs: map<nat, Notification>, userId: string, now: nat)
    ensures forall id :: id in docs ==> !UnreadOf(userId, AllRead(docs, userId, now)[id])
    ensures forall id :: id in docs && docs[id].userId != userId ==> AllRead(docs, userId, now)[id] == docs[id]
    ensures forall id :: id in docs && !UnreadOf(userId, docs[id]) ==> AllRead(docs, userId, now)[id] == docs[id]
    ensures forall id :: id in docs && UnreadOf(userId, docs[id]) ==> AllRead(docs, userId, now)[id] == MarkedRead(docs[id], now)
  {
  }

  /** Marking one more notification read extends a partial `markAllAsRead`. */
  lemma ReadStep(docs: map<nat, Notification>, done: set<nat>, id: nat, now: nat)
    requires id in docs && id !in done
    ensures (map k | k in docs :: if k in done then MarkedRead(docs[k], now) else docs[k])[id := MarkedRead(docs[id], now)]
         == map k | k in docs :: if k in done + {id} then MarkedRead(docs[k], now) else docs[k]
  {
  }

  /** Marking all read twice is marking all read once. */
  lemma AllReadIdempotent(docs: map<nat, Notification>, userId: string, now: nat, later: nat)
    ensures AllRead(AllRead(docs, userId, now), userId, later) == AllRead(docs, userId, now)
  {
    var once := AllRead(docs, userId, now);
    assert forall id :: id in once ==> AllRead(once, userId, later)[id] == once[id];
  }

  /** `cleanupOldNotifications`' test: the user's notification created before `cutoff`. */
  predicate Stale(userId: string, cutoff: int, n: Notification) {
    n.userId == userId && n.createdAt < cutoff
  }

  const DayMillis := 86_400_000

  /** `now` moved back `daysOld` whole days; every day counts 24 hours. */
  function Cutoff(now: nat, daysOld: int): (c: int)
    ensures daysOld >= 0 ==> c <= now
  {
    now - daysOld * DayMillis
  }

  /** Deleting one more notification extends a partial cleanup. */
  lemma DeleteStep(docs: map<nat, Notification>, done: set<nat>, id: nat)
    ensures (map k | k in docs && k !in done :: docs[k]) - {id} == map k | k in docs && k !in done + {id} :: docs[k]
  {
  }

  /** The collection after the cleanup: the stale notifications removed. */
  function Cleaned(docs: map<nat, Notification>, userId: string, cutoff: int): (r: map<nat, Notification>)
    ensures forall id :: id in r <==> id in docs && !Stale(userId, cutoff, docs[id])
    ensures forall id :: id in r ==> r[id] == docs[id]
  {
    map id | id in docs && !Stale(userId, cutoff, docs[id]) :: docs[id]
  }

  /** The cleanup never touches another user's notifications nor recent ones. */
  lemma CleanedKeeps(docs: map<nat, Notification>, userId: string, cutoff: int, id: nat)
    requires id in docs && (docs[id].userId != userId || docs[id].createdAt >= cutoff)
    ensures id in Cleaned(docs, userId, cutoff) && Cleaned(docs, userId, cutoff)[id] == docs[id]
  {
  }

  /** The error the Firestore SDK raises for `limit(0)`. */
  const LimitNotPositive := "Function limit() requires a positive number, but it was: 0."

  function CreatedAtKey(): Notification -> Option<int> {
    (n: Notification) => Some(n.createdAt)
  }

  function Listed(userId: string, onlyUnread: bool): Notification -> bool {
    (n: Notification) => n.userId == userId && (onlyUnread ==> !n.isRead)
  }

  class NotificationService {
    var docs: map<nat, Notification>
    var nextId: nat

    predicate Valid()
      reads this
    {
      forall id :: id in docs ==> id < nextId
    }

    constructor ()
      ensures Valid() && docs == map[] && nextId == 0
    {
      docs := map[];
      nextId := 0;
    }

    /** `createNotification`. */
    method CreateNotification(data: NotificationData, now: nat) returns (id: nat)
      requires Valid()
      modifies this
      ensures Valid()
      ensures id == old(nextId) && id !in old(docs) && nextId == old(nextId) + 1
      ensures docs == old(docs)[id := Stored(data, now)]
    {
      id := nextId;
      docs := docs[id := Stored(data, now)];
      nextId := nextId + 1;
    }

    /** `getNotificationById`. */
    function GetNotificationById(id: nat): (r: Option<Notification>)
      reads this
      ensures r.Some? <==> id in docs
      ensures r.Some? ==> r.value == docs[id]
    {
      if id in docs then Some(docs[id]) else None
    }

    /**
     * `getUserNotifications`: the user's notifications (only the unread ones on request), newest
     * first, at most `limitCount` of them; a limit of 0 is refused by the SDK.
     */
    function GetUserNotifications(userId: string, limitCount: nat := 20, onlyUnread: bool := false)
      : (r: Result<seq<Row<Notification>>, string>)
      reads this
      requires Valid()
      ensures r.Err? <==> limitCount == 0
      ensures r.Err? ==> r.error == LimitNotPositive
      ensures r.Ok? ==> forall row :: row in r.value ==> row.id in docs && docs[row.id] == row.doc && row.doc.userId == userId
      ensures r.Ok? && onlyUnread ==> forall row :: row in r.value ==> !row.doc.isRead
      ensures r.Ok? ==> forall i, j :: 0 <= i < j < |r.value| ==> r.value[i].doc.createdAt >= r.value[j].doc.createdAt
      ensures r.Ok? ==> |r.value| <= limitCount
    {
      if limitCount == 0 then Err(LimitNotPositive)
      else
        var rows := Query(Scan(docs, nextId), Listed(userId, onlyUnread), CreatedAtKey(), Desc, None, limitCount);
        assert forall i, j :: 0 <= i < j < |rows| ==> Precedes(rows[i], rows[j], CreatedAtKey(), Desc);
        Ok(rows)
    }

    /**
     * Nothing newer is left out: a notification of the user missing from the listing means the
     * listing is full and every listed one is at least as recent.
     */
    lemma UserNotificationsTopN(userId: string, limitCount: nat, onlyUnread: bool, id: nat)
      requires Valid() && limitCount > 0
      requires id in docs && docs[id].userId == userId && (onlyUnread ==> !docs[id].isRead)
      requires Row(id, docs[id]) !in GetUserNotifications(userId, limitCount, onlyUnread).value
      ensures |GetUserNotifications(userId, limitCount, onlyUnread).value| == limitCount
      ensures forall row :: row in GetUserNotifications(userId, limitCount, onlyUnread).value ==> row.doc.createdAt >= docs[id].createdAt
    {
      QueryTopN(Scan(docs, nextId), Listed(userId, onlyUnread), CreatedAtKey(), Desc, None, limitCount, Row(id, docs[id]));
    }

    /** `markAsRead`. */
    method MarkAsRead(id: nat, now: nat) returns (r: Outcome<string>)
      requires Valid()
      modifies this
      ensures Valid() && nextId == old(nextId)
      ensures id in old(docs) ==> r == Pass && docs == old(docs)[id := MarkedRead(old(docs)[id], now)]
      ensures id !in old(docs) ==> r == Fail(NoDocumentToUpdate) && docs == old(docs)
    {
      if id !in docs {
        return Fail(NoDocumentToUpdate);
      }
      docs := docs[id := MarkedRead(docs[id], now)];
      r := Pass;
    }

    /** The ids of the user's unread notifications, in document order. */
    function UnreadRows(userId: string): (r: seq<Row<Notification>>)
      reads this
      requires Valid()
      ensures forall row :: row in r <==> row.id in docs && docs[row.id] == row.doc && UnreadOf(userId, row.doc)
      ensures Ascending(r)
    {
      WhereAscending(Scan(docs, nextId), (n: Notification) => UnreadOf(userId, n));
      Where(Scan(docs, nextId), (n: Notification) => UnreadOf(userId, n))
    }

    /** `getUnreadCount`: the number of the user's unread notifications. */
    function GetUnreadCount(userId: string): (c: nat)
      reads this
      requires Valid()
      ensures c == |UnreadRows(userId)|
      ensures c == 0 <==> forall id :: id in docs ==> !UnreadOf(userId, docs[id])
    {
      var rows := UnreadRows(userId);
      if rows != [] then assert rows[0] in rows; |rows|
      else
        assert forall id :: id in docs ==> Row(id, docs[id]) !in rows;
        0
    }

    /** `markAllAsRead`: one update per unread notification of the user. */
    method MarkAllAsRead(userId: string, now: nat)
      requires Valid()
      modifies this
      ensures Valid() && nextId == old(nextId)
      ensures docs == AllRead(old(docs), userId, now)
      ensures GetUnreadCount(userId) == 0
    {
      var unread := UnreadRows(userId);
      ghost var done: set<nat> := {};
      var i := 0;
      while i < |unread|
        invariant 0 <= i <= |unread|
        invariant Valid() && nextId == old(nextId)
        invariant done == set k | 0 <= k < i :: unread[k].id
        invariant docs == map id | id in old(docs) :: if id in done then MarkedRead(old(docs)[id], now) else old(docs)[id]
      {
        var row := unread[i];
        AscendingNewId(unread, i);
        assert row.id in old(docs) && old(docs)[row.id] == row.doc;
        var _ := MarkAsRead(row.id, now);
        ReadStep(old(docs), done, row.id, now);
        done := done + {row.id};
        i := i + 1;
      }
      assert forall id :: id in done <==> id in old(docs) && UnreadOf(userId, old(docs)[id]) by {
        forall id | id in old(docs) && UnreadOf(userId, old(docs)[id]) ensures id in done {
          assert Row(id, old(docs)[id]) in unread;
        }
      }
      AllReadEffect(old(docs), userId, now);
    }

    /** `updateNotification`. */
    method UpdateNotification(id: nat, patch: Patch, now: nat) returns (r: Outcome<string>)
      requires Valid()
      modifies this
      ensures Valid() && nextId == old(nextId)
      ensures id in old(docs) ==> r == Pass && docs == old(docs)[id := Updated(old(docs)[id], patch, now)]
      ensures id !in old(docs) ==> r == Fail(NoDocumentToUpdate) && docs == old(docs)
    {
      if id !in docs {
        return Fail(NoDocumentToUpdate);
      }
      docs := docs[id := Updated(docs[id], patch, now)];
      r := Pass;
    }

    /** `deleteNotification`. */
    method DeleteNotification(id: nat)
      requires Valid()
      modifies this
      ensures Valid() && nextId == old(nextId)
      ensures docs == old(docs) - {id}
    {
      docs := docs - {id};
    }

    /** `cleanupOldNotifications`: one deletion per notification of the user older than the cutoff. */
    method CleanupOldNotifications(userId: string, now: nat, daysOld: int := 30)
      requires Valid()
      modifies this
      ensures Valid() && nextId == old(nextId)
      ensures docs == Cleaned(old(docs), userId, Cutoff(now, daysOld))
    {
      var cutoff := Cutoff(now, daysOld);
      var stale := Where(Scan(docs, nextId), (n: Notification) => Stale(userId, cutoff, n));
      ghost var done: set<nat> := {};
      var i := 0;
      while i < |stale|
        invariant 0 <= i <= |stale|
        invariant Valid() && nextId == old(nextId)
        invariant done == set k | 0 <= k < i :: stale[k].id
        invariant docs == map id | id in old(docs) && id !in done :: old(docs)[id]
      {
        DeleteNotification(stale[i].id);
        DeleteStep(old(docs), done, stale[i].id);
        done := done + {stale[i].id};
        i := i + 1;
      }
      assert forall id :: id in done <==> id in old(docs) && Stale(userId, cutoff, old(docs)[id]) by {
        forall id | id in old(docs) && Stale(userId, cutoff, old(docs)[id]) ensures id in done {
          assert Row(id, old(docs)[id]) in stale;
        }
      }
    }
  }
}
