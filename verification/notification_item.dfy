/** One notification as the lists hold it, the icon picked from its type,
    and the "time ago" label computed from its timestamp. */
module NotificationItem {

  datatype NotificationType = Book | Battery | Weight | Weather | General

  /** `timestampMs` and the clock reading passed to `TimeAgo` are
      milliseconds since the epoch. */
  datatype Notification = Notification(
    id: string,
    kind: NotificationType,
    title: string,
    message: string,
    timestampMs: int,
    isRead: bool)

  datatype Icon = BookOpenIcon | BatteryIcon | WeightIcon | UmbrellaIcon | BellIcon

  /** Each type has its own icon; "general" (the switch's default) shows the
      bell. */
  function GetIcon(kind: NotificationType): (icon: Icon)
    ensures icon == BookOpenIcon <==> kind == Book
    ensures icon == BatteryIcon <==> kind == Battery
    ensures icon == WeightIcon <==> kind == Weight
    ensures icon == UmbrellaIcon <==> kind == Weather
    ensures icon == BellIcon <==> kind == General
  {
    match kind
    case Book => BookOpenIcon
    case Battery => BatteryIcon
    case Weight => WeightIcon
    case Weather => UmbrellaIcon
    case General => BellIcon
  }

  /** No two types share an icon. */
  lemma IconsDistinct(a: NotificationType, b: NotificationType)
    ensures GetIcon(a) == GetIcon(b) ==> a == b
  {
  }

  /** `Math.floor((now - timestamp) / 1000)`: the whole seconds elapsed,
      negative for a timestamp in the future. */
  function SecondsAgo(nowMs: int, timestampMs: int): (s: int)
    ensures s * 1000 <= nowMs - timestampMs < (s + 1) * 1000
  {
    (nowMs - timestampMs) / 1000
  }

  /** The label's unit and the number shown with it. */
  datatype Ago = Seconds(n: int) | Minutes(n: int) | Hours(n: int) | Days(n: int)

  /** The bucket for an elapsed time in seconds. Every integer falls in
      exactly one bucket; the number shown is the whole count of that unit,
      so minutes run 1..59, hours 1..23 and days from 1. A negative elapsed
      time is shown as seconds. */
  function Bucket(s: int): (a: Ago)
    ensures a.Seconds? <==> s < 60
    ensures a.Minutes? <==> 60 <= s < 3600
    ensures a.Hours? <==> 3600 <= s < 86400
    ensures a.Days? <==> 86400 <= s
    ensures a.Seconds? ==> a.n == s
    ensures a.Minutes? ==> 1 <= a.n <= 59 && a.n * 60 <= s < (a.n + 1) * 60
    ensures a.Hours? ==> 1 <= a.n <= 23 && a.n * 3600 <= s < (a.n + 1) * 3600
    ensures a.Days? ==> 1 <= a.n && a.n * 86400 <= s < (a.n + 1) * 86400
  {
    if s < 60 then Seconds(s)
    else if s < 3600 then Minutes(s / 60)
    else if s < 86400 then Hours(s / 3600)
    else Days(s / 86400)
  }

  function TimeAgo(nowMs: int, timestampMs: int): (a: Ago)
    ensures timestampMs > nowMs ==> a.Seconds? && a.n < 0
    ensures a == Bucket(SecondsAgo(nowMs, timestampMs))
  {
    Bucket(SecondsAgo(nowMs, timestampMs))
  }

  /** The seed's offsets land in the buckets their comments name: 30
      minutes, 2 hours, 3 hours, 1 day and 2 days ago. */
  lemma SeedOffsets(nowMs: int)
    ensures TimeAgo(nowMs, nowMs - 1000 * 60 * 30) == Minutes(30)
    ensures TimeAgo(nowMs, nowMs - 1000 * 60 * 120) == Hours(2)
    ensures TimeAgo(nowMs, nowMs - 1000 * 60 * 180) == Hours(3)
    ensures TimeAgo(nowMs, nowMs - 1000 * 60 * 60 * 24) == Days(1)
    ensures TimeAgo(nowMs, nowMs - 1000 * 60 * 60 * 48) == Days(2)
  {
  }
}
