/**
 * The notification list held by the notifications hook: marking read locally after the server
 * agreed, the unread counter clamped at zero, refreshing the first page and appending later ones.
 * Each server call is a parameter holding what it returned or the error it threw.
 */
module NotificationsHook {
  import opened Wrappers

  datatype Kind = MissionAccepted | MissionCompleted | MissionRewarded | General

  /** A notification as the REST API returns it; `readAt` absent means unread. */
  datatype ApiNotification = ApiNotification(
    id: string,
    title: string,
    message: string,
    kind: Kind,
    readAt: Option<string>,
    createdAt: string)

  /** A page of a `PaginatedResponse`. */
  datatype Page = Page(data: seq<ApiNotification>, currentPage: int, lastPage: int, perPage: int, total: int)

  /** What a call threw: an `Error` with its message, or something else. */
  datatype Thrown = Error(message: string) | NonError

  const LoadFailed := "Failed to load notifications"

  function ErrorText(t: Thrown): (s: string)
    ensures t.Error? ==> s == t.message
    ensures t.NonError? ==> s == LoadFailed
  {
    match t
    case Error(m) => m
    case NonError => LoadFailed
  }

  /** `prev.map(...)` of `markAsRead`: the notifications with that id get the read stamp. */
  function ReadOne(list: seq<ApiNotification>, id: string, stamp: string): (r: seq<ApiNotification>)
    ensures |r| == |list|
    ensures forall i :: 0 <= i < |list| && list[i].id == id ==> r[i] == list[i].(readAt := Some(stamp))
    ensures forall i :: 0 <= i < |list| && list[i].id != id ==> r[i] == list[i]
  {
    seq(|list|, i requires 0 <= i < |list| => if list[i].id == id then list[i].(readAt := Some(stamp)) else list[i])
  }

  /** `prev.map(...)` of `markAllAsRead`: every notification gets the read stamp. */
  function ReadAll(list: seq<ApiNotification>, stamp: string): (r: seq<ApiNotification>)
    ensures |r| == |list|
    ensures forall i :: 0 <= i < |list| ==> r[i] == list[i].(readAt := Some(stamp))
  {
    seq(|list|, i requires 0 <= i < |list| => list[i].(readAt := Some(stamp)))
  }

  /** Marking one id leaves nothing unread that was not unread before, and marks that id. */
  lemma ReadOneMarks(list: seq<ApiNotification>, id: string, stamp: string)
    ensures forall n :: n in ReadOne(list, id, stamp) && n.id == id ==> n.readAt == Some(stamp)
    ensures forall i :: 0 <= i < |list| && ReadOne(list, id, stamp)[i].readAt.None? ==> list[i].readAt.None?
  {
    var r := ReadOne(list, id, stamp);
    forall n | n in r && n.id == id ensures n.readAt == Some(stamp) {
      var i :| 0 <= i < |r| && r[i] == n;
    }
  }

  /** Marking all read after marking one read is marking all read. */
  lemma ReadAllAbsorbs(list: seq<ApiNotification>, id: string, s1: string, s2: string)
    ensures ReadAll(ReadOne(list, id, s1), s2) == ReadAll(list, s2)
  {
  }

  /** `Math.max(0, prev - 1)`. */
  function Decremented(prev: int): (r: int)
    ensures r >= 0
    ensures prev >= 1 ==> r == prev - 1
    ensures prev <= 1 ==> r == 0
  {
    if prev - 1 > 0 then prev - 1 else 0
  }

  /** The query of a page request: the page number and `per_page`. */
  datatype PageRequest = PageRequest(page: int, perPage: int)

  class NotificationList {
    const limitCount: int
    var notifications: seq<ApiNotification>
    var unreadCount: int
    var loading: bool
    var error: Option<string>
    var hasMore: bool
    var currentPage: int
    var totalPages: int

    /** The hook's initial state, before the first refresh completes. */
    constructor (limitCount: int := 10)
      ensures this.limitCount == limitCount
      ensures notifications == [] && unreadCount == 0 && loading && error.None?
      ensures hasMore && currentPage == 1 && totalPages == 0
    {
      this.limitCount := limitCount;
      notifications := [];
      unreadCount := 0;
      loading := true;
      error := None;
      hasMore := true;
      currentPage := 1;
      totalPages := 0;
    }

    /**
     * `refreshNotifications`: the first page replaces the list, then the counters come from the
     * two responses; if either call throws, only the error is recorded. The request is always
     * page 1 with `limitCount` items per page.
     */
    method Refresh(first: Result<Page, Thrown>, unread: Result<int, Thrown>) returns (requested: PageRequest)
      modifies this
      ensures requested == PageRequest(1, limitCount)
      ensures !loading
      ensures first.Ok? && unread.Ok? ==>
        && notifications == first.value.data
        && unreadCount == unread.value
        && currentPage == first.value.currentPage
        && totalPages == first.value.lastPage
        && hasMore == (first.value.currentPage < first.value.lastPage)
        && error.None?
      ensures first.Err? ==> error == Some(ErrorText(first.error))
      ensures first.Ok? && unread.Err? ==> error == Some(ErrorText(unread.error))
      ensures !(first.Ok? && unread.Ok?) ==>
        && notifications == old(notifications) && unreadCount == old(unreadCount)
        && currentPage == old(currentPage) && totalPages == old(totalPages) && hasMore == old(hasMore)
    {
      loading := true;
      error := None;
      requested := PageRequest(1, limitCount);
      match first {
        case Err(t) =>
          error := Some(ErrorText(t));
        case Ok(page) =>
          match unread {
            case Err(t) =>
              error := Some(ErrorText(t));
            case Ok(count) =>
              notifications := page.data;
              unreadCount := count;
              currentPage := page.currentPage;
              totalPages := page.lastPage;
              hasMore := page.currentPage < page.lastPage;
          }
      }
      loading := false;
    }

    /**
     * `markAsRead`: once the server agreed, the notifications with that id get the stamp and the
     * counter goes down by one, never below zero, even if it was already read; a failed call
     * changes nothing and is passed on.
     */
    method MarkAsRead(id: string, call: Outcome<Thrown>, stamp: string) returns (r: Outcome<Thrown>)
      modifies this
      ensures r == call
      ensures call.Pass? ==> notifications == ReadOne(old(notifications), id, stamp)
                             && unreadCount == Decremented(old(unreadCount))
      ensures call.Fail? ==> notifications == old(notifications) && unreadCount == old(unreadCount)
      ensures loading == old(loading) && error == old(error) && hasMore == old(hasMore)
      ensures currentPage == old(currentPage) && totalPages == old(totalPages)
    {
      if call.Fail? {
        return call;
      }
      notifications := ReadOne(notifications, id, stamp);
      unreadCount := Decremented(unreadCount);
      r := call;
    }

    /** `markAllAsRead`: every notification stamped, the counter at zero; a failed call changes nothing. */
    method MarkAllAsRead(call: Outcome<Thrown>, stamp: string) returns (r: Outcome<Thrown>)
      modifies this
      ensures r == call
      ensures call.Pass? ==> notifications == ReadAll(old(notifications), stamp) && unreadCount == 0
      ensures call.Fail? ==> notifications == old(notifications) && unreadCount == old(unreadCount)
      ensures loading == old(loading) && error == old(error) && hasMore == old(hasMore)
      ensures currentPage == old(currentPage) && totalPages == old(totalPages)
    {
      if call.Fail? {
        return call;
      }
      notifications := ReadAll(notifications, stamp);
      unreadCount := 0;
      r := call;
    }

    /**
     * `loadMore`: nothing while loading or when no page is left; otherwise page
     * `currentPage + 1` is requested with `limitCount` items per page, and its items are appended.
     * Errors are swallowed.
     */
    method LoadMore(next: Result<Page, Thrown>) returns (requested: Option<PageRequest>)
      modifies this
      ensures requested == if !old(hasMore) || old(loading) then None else Some(PageRequest(old(currentPage) + 1, limitCount))
      ensures requested.Some? && next.Ok? ==>
        && notifications == old(notifications) + next.value.data
        && currentPage == next.value.currentPage
        && hasMore == (next.value.currentPage < next.value.lastPage)
      ensures requested.None? || next.Err? ==>
        notifications == old(notifications) && currentPage == old(currentPage) && hasMore == old(hasMore)
      ensures unreadCount == old(unreadCount) && loading == old(loading) && error == old(error)
      ensures totalPages == old(totalPages)
    {
      if !hasMore || loading {
        return None;
      }
      requested := Some(PageRequest(currentPage + 1, limitCount));
      match next {
        case Err(_) =>
        case Ok(page) =>
          notifications := notifications + page.data;
          currentPage := page.currentPage;
          hasMore := page.currentPage < page.lastPage;
      }
    }
  }
}
