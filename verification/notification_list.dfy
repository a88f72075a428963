/** The notification list kept by the Home and Notifications screens: the
    list edits behind their handlers, the unread count and the header the
    list screen shows. Both screens hold their own copy of the same kind of
    list; one `NotificationCenter` models either. */
module NotificationList {
  import opened Common
  import opened NotificationItem

  /** `notifications.filter(n => n.id !== id)`. */
  function Dismissed(s: seq<Notification>, id: string): (r: seq<Notification>)
    ensures |r| <= |s|
    ensures forall n :: n in r <==> n in s && n.id != id
    ensures (forall i :: 0 <= i < |s| ==> s[i].id != id) <==> r == s
  {
    if s == [] then []
    else if s[0].id == id then Dismissed(s[1..], id)
    else [s[0]] + Dismissed(s[1..], id)
  }

  /** Dismissing keeps the surviving entries in their original order: it
      works on each part of a list separately. */
  lemma {:induction false} DismissedSplits(a: seq<Notification>, b: seq<Notification>, id: string)
    ensures Dismissed(a + b, id) == Dismissed(a, id) + Dismissed(b, id)
  {
    if a == [] {
      assert a + b == b;
    } else {
      assert (a + b)[1..] == a[1..] + b;
      DismissedSplits(a[1..], b, id);
    }
  }

  /** `notifications.map(n => n.id === id ? { ...n, isRead: true } : n)`. */
  function MarkedRead(s: seq<Notification>, id: string): (r: seq<Notification>)
    ensures |r| == |s|
    ensures forall i :: 0 <= i < |s| ==>
      r[i] == if s[i].id == id then s[i].(isRead := true) else s[i]
  {
    if s == [] then []
    else [if s[0].id == id then s[0].(isRead := true) else s[0]] + MarkedRead(s[1..], id)
  }

  /** Marking the same id read twice is the same as once. */
  lemma MarkedReadIdempotent(s: seq<Notification>, id: string)
    ensures MarkedRead(MarkedRead(s, id), id) == MarkedRead(s, id)
  {
  }

  /** `notifications.map(n => ({ ...n, isRead: true }))`. */
  function AllMarkedRead(s: seq<Notification>): (r: seq<Notification>)
    ensures |r| == |s|
    ensures forall i :: 0 <= i < |s| ==> r[i] == s[i].(isRead := true)
  {
    if s == [] then [] else [s[0].(isRead := true)] + AllMarkedRead(s[1..])
  }

  /** `notifications.filter(n => !n.isRead).length`. */
  function CountUnread(s: seq<Notification>): (n: nat)
    ensures n <= |s|
    ensures n == 0 <==> forall i :: 0 <= i < |s| ==> s[i].isRead
  {
    if s == [] then 0
    else (if s[0].isRead then 0 else 1) + CountUnread(s[1..])
  }

  /** The count goes part by part: a list's count is the sum of its parts'
      counts. With `CountUnreadSingle` this fixes the count as the number of
      unread entries. */
  lemma {:induction false} CountUnreadAppend(a: seq<Notification>, b: seq<Notification>)
    ensures CountUnread(a + b) == CountUnread(a) + CountUnread(b)
  {
    if a == [] {
      assert a + b == b;
    } else {
      assert (a + b)[1..] == a[1..] + b;
      CountUnreadAppend(a[1..], b);
    }
  }

  /** One entry counts 1 exactly when it is unread. */
  lemma CountUnreadSingle(n: Notification)
    ensures CountUnread([n]) == if n.isRead then 0 else 1
  {
  }

  /** After "mark all as read" nothing is unread. */
  lemma {:induction false} AllMarkedReadLeavesNoneUnread(s: seq<Notification>)
    ensures CountUnread(AllMarkedRead(s)) == 0
  {
    var r := AllMarkedRead(s);
    assert forall i :: 0 <= i < |r| ==> r[i].isRead;
  }

  /** Marking one id read leaves unread exactly the unread entries with
      other ids: the count drops by the unread entries carrying that id. */
  lemma {:induction false} MarkedReadUnreadCount(s: seq<Notification>, id: string)
    ensures CountUnread(MarkedRead(s, id)) == CountUnread(Dismissed(s, id))
  {
    if s != [] {
      MarkedReadUnreadCount(s[1..], id);
      assert MarkedRead(s, id)[1..] == MarkedRead(s[1..], id);
    }
  }

  /** What the list screen's header shows. */
  datatype Header =
    | EmptyState                       // the "All caught up!" card instead of the list
    | UnreadSummary(count: nat, plural: bool)  // "<n> unread notification(s)"
    | CaughtUp                         // "All caught up"

  function ListHeader(s: seq<Notification>): (h: Header)
    ensures h == EmptyState <==> s == []
    ensures h.UnreadSummary? ==> h.count == CountUnread(s) > 0 && (h.plural <==> h.count != 1)
    ensures h == CaughtUp <==> s != [] && CountUnread(s) == 0
  {
    if |s| == 0 then EmptyState
    else
      var n := CountUnread(s);
      if n > 0 then UnreadSummary(n, n != 1) else CaughtUp
  }

  /** "Mark all as read" is offered exactly beside an unread summary; a
      non-empty list without it reads "All caught up". */
  function ShowMarkAllButton(s: seq<Notification>): (show: bool)
    ensures show <==> ListHeader(s).UnreadSummary?
    ensures !show && s != [] ==> ListHeader(s) == CaughtUp
  {
    |s| > 0 && CountUnread(s) > 0
  }

  const DismissedToast: Toast := Toast(None, "Notification dismissed", 2000)
  const AllReadToast: Toast := Toast(None, "All notifications marked as read", 2000)
  const ClearedToast: Toast := Toast(None, "All notifications cleared", 2000)

  /** One screen's list of notifications. */
  class NotificationCenter {
    var items: seq<Notification>

    constructor (initial: seq<Notification>)
      ensures items == initial
    {
      items := initial;
    }

    /** Drops every entry with `id`, keeping the rest in order, and always
        toasts, even for an unknown id. */
    method Dismiss(id: string) returns (toast: Toast)
      modifies this
      ensures items == Dismissed(old(items), id)
      ensures (forall i :: 0 <= i < |old(items)| ==> old(items)[i].id != id) ==> items == old(items)
      ensures toast == DismissedToast
    {
      items := Dismissed(items, id);
      toast := DismissedToast;
    }

    method MarkAsRead(id: string)
      modifies this
      ensures items == MarkedRead(old(items), id)
    {
      items := MarkedRead(items, id);
    }

    method MarkAllAsRead() returns (toast: Toast)
      modifies this
      ensures items == AllMarkedRead(old(items))
      ensures UnreadCount() == 0
      ensures toast == AllReadToast
    {
      items := AllMarkedRead(items);
      AllMarkedReadLeavesNoneUnread(old(items));
      toast := AllReadToast;
    }

    method DismissAll() returns (toast: Toast)
      modifies this
      ensures items == []
      ensures toast == ClearedToast
    {
      items := [];
      toast := ClearedToast;
    }

    function UnreadCount(): (n: nat)
      reads this
      ensures n == CountUnread(items)
      ensures n <= |items|
      ensures n == 0 <==> forall i :: 0 <= i < |items| ==> items[i].isRead
    {
      CountUnread(items)
    }
  }
}
