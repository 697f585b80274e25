/**
 In-app notifications: the notification record and its type, and the
 service that holds the list (read flags updated in place) and an
 `isConnected` flag fed by its own path monitor, which reports the
 reconnect edge. Dates are whole seconds; the UUIDs of new notifications
 are parameters.
 */
module Notifications {
  import opened Wrappers
  import Connectivity

  /** `AppNotificationType`. */
  datatype AppNotificationType = Upvote | NewPost | ForumPost
  {
    /** The raw string value. */
    function RawValue(): (raw: string)
      ensures raw in {"upvote", "newPost", "forumPost"}
    {
      match this
      case Upvote => "upvote"
      case NewPost => "newPost"
      case ForumPost => "forumPost"
    }
  }

  /** `AppNotificationType(rawValue:)`. */
  function FromRawValue(raw: string): (t: Option<AppNotificationType>)
    ensures t.Some? <==> raw in {"upvote", "newPost", "forumPost"}
    ensures t.Some? ==> t.value.RawValue() == raw
  {
    match raw
    case "upvote" => Some(Upvote)
    case "newPost" => Some(NewPost)
    case "forumPost" => Some(ForumPost)
    case _ => None
  }

  /** Raw values round-trip, and only the three raw values decode. */
  lemma RawValueRoundTrip(t: AppNotificationType, raw: string)
    ensures FromRawValue(t.RawValue()) == Some(t)
    ensures FromRawValue(raw) == Some(t) <==> raw == t.RawValue()
    ensures FromRawValue(raw).None? <==> raw !in {"upvote", "newPost", "forumPost"}
  {
  }

  /** `AppNotification`. */
  datatype AppNotification = AppNotification(
    id: string,
    kind: AppNotificationType,
    title: string,
    message: string,
    timestamp: int,
    read: bool,
    relatedPostId: Option<string>,
    relatedUserId: Option<string>,
    relatedUserName: Option<string>,
    postTitle: Option<string>,
    forumId: Option<string>,
    forumName: Option<string>)

  /** The memberwise initializer with its defaults: a new notification is unread. */
  function NewNotification(
    id: string, kind: AppNotificationType, title: string, message: string, timestamp: int,
    relatedPostId: Option<string>, relatedUserId: Option<string>, relatedUserName: Option<string>,
    postTitle: Option<string>, forumId: Option<string>, forumName: Option<string>): (n: AppNotification)
    ensures !n.read
    ensures n.id == id && n.kind == kind && n.timestamp == timestamp
  {
    AppNotification(id, kind, title, message, timestamp, false,
      relatedPostId, relatedUserId, relatedUserName, postTitle, forumId, forumName)
  }

  const SamplePostId: string := "5FVePh1fWqFBVUTrzL7y"
  const SamplePostTitle: string := "Prueba con tags (ver si registra el evento)"

  /** The sample list `fetchNotifications` installs, with ids `ids` at time `now`. */
  function SampleNotifications(ids: seq<string>, now: int): (ns: seq<AppNotification>)
    requires |ids| == 3
    ensures |ns| == 3
    ensures ns[0].kind == Upvote && ns[1].kind == ForumPost && ns[2].kind == ForumPost
    ensures forall i :: 0 <= i < 3 ==> !ns[i].read && ns[i].id == ids[i]
    ensures ns[0].timestamp == now && ns[1].timestamp == now - 60 && ns[2].timestamp == now - 120
  {
    [ NewNotification(ids[0], Upvote, "New upvote on your post",
        "User mock16 upvoted your post about sustainability", now,
        Some(SamplePostId), Some("mock16"), Some("mock16"), Some(SamplePostTitle), None, None),
      NewNotification(ids[1], ForumPost, "Post added to forum",
        "Your post about sustainability was added to Recycling forum", now - 60,
        Some(SamplePostId), None, None, Some(SamplePostTitle), Some("1"), Some("Recycling")),
      NewNotification(ids[2], ForumPost, "Post added to forum",
        "Your post about recycling was added to Sustainability forum", now - 120,
        Some(SamplePostId), None, None, Some(SamplePostTitle), Some("2"), Some("Sustainability")) ]
  }

  /** `firstIndex(where: { $0.id == id })`. */
  function FirstIndexOf(ns: seq<AppNotification>, id: string): (r: Option<nat>)
    ensures r.Some? ==> r.value < |ns| && ns[r.value].id == id
    ensures r.Some? ==> forall k :: 0 <= k < r.value ==> ns[k].id != id
    ensures r.None? <==> forall k :: 0 <= k < |ns| ==> ns[k].id != id
  {
    if ns == [] then None
    else if ns[0].id == id then Some(0)
    else
      match FirstIndexOf(ns[1..], id)
      case None => None
      case Some(k) => Some(k + 1)
  }

  /** The list after `markAsRead(id)`: the first notification with that id is read, nothing else changes. */
  function MarkedRead(ns: seq<AppNotification>, id: string): (r: seq<AppNotification>)
    ensures |r| == |ns|
  {
    match FirstIndexOf(ns, id)
    case None => ns
    case Some(k) => ns[k := ns[k].(read := true)]
  }

  /** The list after `markAllAsRead`: every notification read, nothing else changed. */
  function AllRead(ns: seq<AppNotification>): (r: seq<AppNotification>)
    ensures |r| == |ns|
  {
    seq(|ns|, i requires 0 <= i < |ns| => ns[i].(read := true))
  }

  /** `markAsRead` sets `read` on the first match only and leaves order, ids and every other entry alone;
      without a match it changes nothing. */
  lemma MarkedReadEffect(ns: seq<AppNotification>, id: string)
    ensures forall k :: 0 <= k < |ns| ==> MarkedRead(ns, id)[k].id == ns[k].id
    ensures forall k :: 0 <= k < |ns| ==> MarkedRead(ns, id)[k] == ns[k] || MarkedRead(ns, id)[k] == ns[k].(read := true)
    ensures (forall k :: 0 <= k < |ns| ==> ns[k].id != id) ==> MarkedRead(ns, id) == ns
    ensures forall k :: 0 <= k < |ns| && ns[k].id == id && (forall j :: 0 <= j < k ==> ns[j].id != id) ==>
      MarkedRead(ns, id)[k].read && forall j :: 0 <= j < |ns| && j != k ==> MarkedRead(ns, id)[j] == ns[j]
  {
  }

  /** Marking the same notification read twice is marking it once. */
  lemma MarkedReadIdempotent(ns: seq<AppNotification>, id: string)
    ensures MarkedRead(MarkedRead(ns, id), id) == MarkedRead(ns, id)
  {
  }

  /** `markAllAsRead` makes every notification read, keeps ids and order, and is idempotent. */
  lemma AllReadEffect(ns: seq<AppNotification>)
    ensures forall k :: 0 <= k < |ns| ==> AllRead(ns)[k].read && AllRead(ns)[k].id == ns[k].id
    ensures forall k :: 0 <= k < |ns| ==> AllRead(ns)[k] == ns[k].(read := true)
    ensures AllRead(AllRead(ns)) == AllRead(ns)
  {
  }

  /** Whether a path update reports "Network reconnected": the flag went from false to true. */
  predicate Reconnected(wasConnected: bool, path: Connectivity.PathStatus)
    ensures Reconnected(wasConnected, path) <==> !wasConnected && Connectivity.StatusFor(path) == Connectivity.Connected
  {
    !wasConnected && path == Connectivity.Satisfied
  }

  /** The reconnects reported over a run of path updates, starting from `connected`. */
  function ReconnectsIn(connected: bool, updates: seq<Connectivity.PathStatus>): nat
    decreases |updates|
  {
    if updates == [] then 0
    else
      (if Reconnected(connected, updates[0]) then 1 else 0)
      + ReconnectsIn(updates[0] == Connectivity.Satisfied, updates[1..])
  }

  /** The updates that are not satisfied. */
  function DisconnectsIn(updates: seq<Connectivity.PathStatus>): nat
  {
    if updates == [] then 0
    else (if updates[0] != Connectivity.Satisfied then 1 else 0) + DisconnectsIn(updates[1..])
  }

  /** The flag after a run of path updates from `connected`. */
  function ConnectedAfter(connected: bool, updates: seq<Connectivity.PathStatus>): bool
    decreases |updates|
  {
    if updates == [] then connected else ConnectedAfter(updates[0] == Connectivity.Satisfied, updates[1..])
  }

  /** One more path update extends the folds exactly as the service's handler changes the flag
      and reports a reconnect. */
  lemma {:induction false} HandlePathUpdateExtendsRun(connected: bool, updates: seq<Connectivity.PathStatus>, path: Connectivity.PathStatus)
    ensures ConnectedAfter(connected, updates + [path]) == (path == Connectivity.Satisfied)
    ensures ReconnectsIn(connected, updates + [path]) == ReconnectsIn(connected, updates)
      + (if Reconnected(ConnectedAfter(connected, updates), path) then 1 else 0)
    decreases |updates|
  {
    if updates == [] {
      assert [] + [path] == [path];
    } else {
      assert (updates + [path])[1..] == updates[1..] + [path];
      HandlePathUpdateExtendsRun(updates[0] == Connectivity.Satisfied, updates[1..], path);
    }
  }

  /** Every reported reconnect is preceded by a disconnect: from the initial `true`, there are
      never more reconnects than unsatisfied updates. */
  lemma {:induction false} ReconnectNeedsDisconnect(connected: bool, updates: seq<Connectivity.PathStatus>)
    ensures ReconnectsIn(connected, updates) <= DisconnectsIn(updates) + (if connected then 0 else 1)
    decreases |updates|
  {
    if updates != [] {
      ReconnectNeedsDisconnect(updates[0] == Connectivity.Satisfied, updates[1..]);
    }
  }

  class AppNotificationService {
    var notifications: seq<AppNotification>
    var isConnected: bool

    /** `init`: the sample notifications, connected until the first path update says otherwise. */
    constructor (ids: seq<string>, now: int)
      requires |ids| == 3
      ensures notifications == SampleNotifications(ids, now)
      ensures isConnected
    {
      notifications := [];
      isConnected := true;
      new;
      FetchNotifications(ids, now);
    }

    /** `fetchNotifications`: replaces the list with the three sample notifications. */
    method FetchNotifications(ids: seq<string>, now: int)
      requires |ids| == 3
      modifies this`notifications
      ensures notifications == SampleNotifications(ids, now)
    {
      notifications := SampleNotifications(ids, now);
    }

    /** The path-update handler: the flag becomes "path satisfied", and a reconnect is
        reported exactly on the false-to-true edge. */
    method HandlePathUpdate(path: Connectivity.PathStatus) returns (reconnected: bool)
      modifies this`isConnected
      ensures isConnected <==> path == Connectivity.Satisfied
      ensures reconnected <==> !old(isConnected) && isConnected
      ensures reconnected == Reconnected(old(isConnected), path)
    {
      var wasConnected := isConnected;
      isConnected := path == Connectivity.Satisfied;
      reconnected := !wasConnected && isConnected;
    }

    /** `markAsRead`: sets `read` in place on the first notification with that id. */
    method MarkAsRead(notificationId: string)
      modifies this`notifications
      ensures notifications == MarkedRead(old(notifications), notificationId)
    {
      var index := FirstIndexOf(notifications, notificationId);
      if index.Some? {
        var i := index.value;
        notifications := notifications[i := notifications[i].(read := true)];
      }
    }

    /** `markAllAsRead`: sets `read` on each notification in turn. */
    method MarkAllAsRead()
      modifies this`notifications
      ensures notifications == AllRead(old(notifications))
    {
      var count := |notifications|;
      for i := 0 to count
        invariant |notifications| == count
        invariant forall k :: 0 <= k < i ==> notifications[k] == old(notifications[k]).(read := true)
        invariant forall k :: i <= k < count ==> notifications[k] == old(notifications[k])
      {
        notifications := notifications[i := notifications[i].(read := true)];
      }
    }
  }
}
