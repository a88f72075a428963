/** The Home screen: the time-of-day greeting, the unread dot on the bell
    and the "No notifications" placeholder. Its dismiss and mark-read
    handlers are those of `NotificationList.NotificationCenter`. */
module IndexPage {
  import opened NotificationItem
  import opened NotificationList

  /** The greeting for an hour of the day (the clock reading is passed in). */
  function Greeting(hour: int): (g: string)
    ensures g == "Good Morning" <==> hour < 12
    ensures g == "Good Afternoon" <==> 12 <= hour < 18
    ensures g == "Good Evening" <==> hour >= 18
  {
    if hour < 12 then "Good Morning"
    else if hour < 18 then "Good Afternoon"
    else "Good Evening"
  }

  /** `notifications.some(n => !n.isRead)`, the dot on the bell. The dot on
      the Home screen and the count on the list screen agree: the dot shows
      exactly when the count is positive. */
  function HasUnread(s: seq<Notification>): (dot: bool)
    ensures dot <==> CountUnread(s) > 0
  {
    exists i :: 0 <= i < |s| && !s[i].isRead
  }

  /** The recent list shows the placeholder exactly when it is empty, that
      is exactly when the list screen would show its empty-state card. */
  function ShowNoNotifications(s: seq<Notification>): (placeholder: bool)
    ensures placeholder <==> ListHeader(s) == EmptyState
  {
    |s| == 0
  }
}
