/** The notification panel: its list of items, the mark-all-read and clear
    actions, and the unread badge. */
module NotificationPanel {
  import opened Common
  import opened MockData

  /** The list after `items.map(item => ({ ...item, isRead: true }))`. */
  function AllRead(items: seq<Notification>): (r: seq<Notification>)
    ensures |r| == |items|
    ensures forall i :: 0 <= i < |items| ==> r[i] == items[i].(isRead := true)
  {
    seq(|items|, i requires 0 <= i < |items| => items[i].(isRead := true))
  }

  /** `unreadCount`: how many items are not read. */
  function UnreadCount(items: seq<Notification>): (n: nat)
    ensures n <= |items|
  {
    Count(items, (item: Notification) => !item.isRead)
  }

  /** No unread items means every item is read, and one unread item makes the
      count positive. */
  lemma UnreadZeroIffAllRead(items: seq<Notification>)
    ensures UnreadCount(items) == 0 <==> forall item :: item in items ==> item.isRead
  {
    var unread := (item: Notification) => !item.isRead;
    forall item ensures item in Filter(items, unread) <==> item in items && !item.isRead {
      FilterMembership(items, unread, item);
    }
    if UnreadCount(items) != 0 {
      assert Filter(items, unread)[0] in Filter(items, unread);
    }
  }

  /** Marking everything read leaves nothing unread, and doing it again
      changes nothing. */
  lemma MarkAllClearsBadge(items: seq<Notification>)
    ensures UnreadCount(AllRead(items)) == 0
    ensures AllRead(AllRead(items)) == AllRead(items)
  {
    UnreadZeroIffAllRead(AllRead(items));
  }

  /** The mark and clear buttons appear only when there is something listed. */
  predicate ActionsShown(items: seq<Notification>)
  {
    |items| > 0
  }

  /** The `N new` badge appears when something is unread. */
  predicate BadgeShown(items: seq<Notification>)
  {
    UnreadCount(items) > 0
  }

  /** The badge implies the actions: an unread item is a listed item. */
  lemma BadgeNeedsItems(items: seq<Notification>)
    ensures BadgeShown(items) ==> ActionsShown(items)
  {
  }

  /** The panel's state: `items`, starting from the seed notifications. */
  class Panel {
    var items: seq<Notification>

    constructor()
      ensures items == Notifications
    {
      items := Notifications;
    }

    /** `markAllAsRead`. */
    method MarkAllAsRead()
      modifies this
      ensures items == AllRead(old(items))
      ensures UnreadCount(items) == 0
    {
      items := AllRead(items);
      MarkAllClearsBadge(old(items));
    }

    /** `clearAll`. */
    method ClearAll()
      modifies this
      ensures items == []
      ensures UnreadCount(items) == 0 && !ActionsShown(items)
    {
      items := [];
    }
  }

  /** The seed list has three unread notifications, the first three. */
  lemma SeedUnread()
    ensures UnreadCount(Notifications) == 3
  {
    var ns := Notifications;
    var unread := (item: Notification) => !item.isRead;
    assert ns[5..][1..] == [];
    assert Filter(ns[5..], unread) == [];
    assert ns[4..][1..] == ns[5..];
    assert Filter(ns[4..], unread) == [];
    assert ns[3..][1..] == ns[4..];
    assert Filter(ns[3..], unread) == [];
    assert ns[1..][1..] == ns[2..] && ns[2..][1..] == ns[3..];
    assert Filter(ns, unread) == [ns[0], ns[1], ns[2]];
  }
}
