/**
 * The notification centre: a list of notifications with a read flag, a
 * click that marks one notification read, a button that marks them all
 * read, the unread count shown in the badge, and the tab filter.
 */
module NotificationCenter {

  import opened Wrappers
  import opened Seqs

  /** One notification. `kind` is the TypeScript field `type`. */
  datatype Notification = Notification(
    id: string,
    kind: string,
    title: string,
    message: string,
    time: string,
    read: bool,
    actionUrl: Option<string>)

  /** The new list `markAsRead(id)` stores: entries with that id become read. */
  function MarkedAsRead(ns: seq<Notification>, id: string): (r: seq<Notification>)
    ensures |r| == |ns|
    ensures forall i :: 0 <= i < |ns| ==> r[i].read == (ns[i].read || ns[i].id == id)
    ensures forall i :: 0 <= i < |ns| ==> r[i].(read := ns[i].read) == ns[i]
    ensures forall i :: 0 <= i < |ns| && ns[i].id != id ==> r[i] == ns[i]
  {
    Map(ns, (n: Notification) => if n.id == id then n.(read := true) else n)
  }

  /** The new list `markAllAsRead()` stores: every entry read, nothing else changed. */
  function MarkedAllAsRead(ns: seq<Notification>): (r: seq<Notification>)
    ensures |r| == |ns|
    ensures forall i :: 0 <= i < |ns| ==> r[i].read
    ensures forall i :: 0 <= i < |ns| ==> r[i].(read := ns[i].read) == ns[i]
  {
    Map(ns, (n: Notification) => n.(read := true))
  }

  predicate IsUnread(n: Notification) { !n.read }

  /** `notifications.filter((n) => !n.read).length`. */
  function UnreadCount(ns: seq<Notification>): (c: nat)
    ensures c <= |ns|
    ensures c == 0 <==> forall i :: 0 <= i < |ns| ==> ns[i].read
  {
    FilterLength(ns, IsUnread);
    |Filter(ns, IsUnread)|
  }

  /** Whether the active tab lists notification `n`. */
  predicate TabShows(tab: string, n: Notification)
  {
    if tab == "all" then true
    else if tab == "unread" then !n.read
    else n.kind == tab
  }

  /** The filter callback of the active tab. */
  function OnTab(tab: string): Notification -> bool
  {
    (n: Notification) => TabShows(tab, n)
  }

  /** `filteredNotifications` for the active tab. */
  function Filtered(ns: seq<Notification>, tab: string): (r: seq<Notification>)
    ensures IsSubsequence(r, ns)
    ensures forall i :: 0 <= i < |r| ==> r[i] in ns && TabShows(tab, r[i])
    ensures forall i :: 0 <= i < |ns| && TabShows(tab, ns[i]) ==> ns[i] in r
    ensures |r| == CountWhere(ns, OnTab(tab))
  {
    FilterLength(ns, OnTab(tab));
    Filter(ns, OnTab(tab))
  }

  /** The unread badge and the "mark all read" button are shown when this holds. */
  predicate ShowsUnreadBadge(ns: seq<Notification>)
  {
    UnreadCount(ns) > 0
  }

  /** The "no notifications" block is shown when this holds. */
  predicate ShowsEmptyState(ns: seq<Notification>, tab: string)
  {
    |Filtered(ns, tab)| == 0
  }

  /**
   * Marking one id read lowers the unread count by exactly the number of
   * unread entries carrying that id, so it never raises it.
   */
  lemma {:induction false} MarkAsReadUnreadCount(ns: seq<Notification>, id: string)
    ensures UnreadCount(MarkedAsRead(ns, id))
         == UnreadCount(ns) - CountWhere(ns, (n: Notification) => !n.read && n.id == id)
    ensures UnreadCount(MarkedAsRead(ns, id)) <= UnreadCount(ns)
    decreases |ns|
  {
    var hit := (n: Notification) => !n.read && n.id == id;
    FilterLength(ns, IsUnread);
    FilterLength(MarkedAsRead(ns, id), IsUnread);
    UnreadIsCount(ns, id, hit);
  }

  lemma {:induction false} UnreadIsCount(ns: seq<Notification>, id: string, hit: Notification -> bool)
    requires forall n :: hit(n) == (!n.read && n.id == id)
    ensures CountWhere(MarkedAsRead(ns, id), IsUnread) == CountWhere(ns, IsUnread) - CountWhere(ns, hit)
    ensures CountWhere(ns, hit) <= CountWhere(ns, IsUnread)
    decreases |ns|
  {
    if ns != [] {
      assert MarkedAsRead(ns, id)[1..] == MarkedAsRead(ns[1..], id);
      UnreadIsCount(ns[1..], id, hit);
    }
  }

  /** Marking everything read twice is the same as once. */
  lemma MarkAllAsReadIdempotent(ns: seq<Notification>)
    ensures MarkedAllAsRead(MarkedAllAsRead(ns)) == MarkedAllAsRead(ns)
  {
    var once := MarkedAllAsRead(ns);
    forall i | 0 <= i < |ns|
      ensures MarkedAllAsRead(once)[i] == once[i]
    {
      assert once[i].read;
    }
  }

  /** Marking one id read twice is the same as once. */
  lemma MarkAsReadIdempotent(ns: seq<Notification>, id: string)
    ensures MarkedAsRead(MarkedAsRead(ns, id), id) == MarkedAsRead(ns, id)
  {
    var once := MarkedAsRead(ns, id);
    forall i | 0 <= i < |ns|
      ensures MarkedAsRead(once, id)[i] == once[i]
    {
    }
  }

  /** The "all" tab lists the whole list, in order. */
  lemma AllTabShowsEverything(ns: seq<Notification>)
    ensures Filtered(ns, "all") == ns
  {
    FilterAll(ns, OnTab("all"));
  }

  /** The "unread" tab lists exactly the unread entries; their number is the badge count. */
  lemma UnreadTabMatchesBadge(ns: seq<Notification>)
    ensures Filtered(ns, "unread") == Filter(ns, IsUnread)
    ensures |Filtered(ns, "unread")| == UnreadCount(ns)
  {
    FilterSame(ns, OnTab("unread"), IsUnread);
  }

  /** The badge (and the "mark all read" button) is shown iff some notification is unread. */
  lemma BadgeIffSomeUnread(ns: seq<Notification>)
    ensures ShowsUnreadBadge(ns) <==> exists i :: 0 <= i < |ns| && !ns[i].read
  {
  }

  /** The empty-state block is shown iff the active tab lists no notification at all. */
  lemma EmptyStateIffNothingShown(ns: seq<Notification>, tab: string)
    ensures ShowsEmptyState(ns, tab) <==> forall i :: 0 <= i < |ns| ==> !TabShows(tab, ns[i])
  {
    var r := Filtered(ns, tab);
    if !ShowsEmptyState(ns, tab) {
      assert r[0] in ns && TabShows(tab, r[0]);
    }
  }

  /** After "mark all read" no badge is shown. */
  lemma NoBadgeAfterMarkAll(ns: seq<Notification>)
    ensures !ShowsUnreadBadge(MarkedAllAsRead(ns))
  {
  }

  /** The notification centre's state: the notification list and the active tab. */
  class Center {
    var notifications: seq<Notification>
    var activeTab: string

    constructor (initial: seq<Notification>)
      ensures notifications == initial && activeTab == "all"
    {
      notifications := initial;
      activeTab := "all";
    }

    /** Click on a card: `markAsRead(notification.id)`. */
    method MarkAsRead(id: string)
      modifies this
      ensures notifications == MarkedAsRead(old(notifications), id)
      ensures activeTab == old(activeTab)
      ensures UnreadCount(notifications) <= old(UnreadCount(notifications))
    {
      MarkAsReadUnreadCount(notifications, id);
      notifications := MarkedAsRead(notifications, id);
    }

    /** The "mark all read" button. */
    method MarkAllAsRead()
      modifies this
      ensures notifications == MarkedAllAsRead(old(notifications))
      ensures activeTab == old(activeTab)
      ensures UnreadCount(notifications) == 0 && !ShowsUnreadBadge(notifications)
    {
      notifications := MarkedAllAsRead(notifications);
    }

    /** A tab trigger. */
    method SelectTab(tab: string)
      modifies this
      ensures activeTab == tab && notifications == old(notifications)
    {
      activeTab := tab;
    }

    /** The cards rendered under the active tab. */
    function Visible(): seq<Notification>
      reads this
    {
      Filtered(notifications, activeTab)
    }
  }
}
