# SmartPack dashboard rules in Dafny

SmartPack is a mobile dashboard for a "smart backpack". It shows mocked
readings: which textbooks are in the bag, the battery, the bag's weight and
the weather. It also keeps a list of notifications. All of its state lives
in the screens. This project models the rules those screens apply to that
state and proves what the screens promise about them.

- **Books screen** (`Books`, `BookItem`). The book list is the class
  `BooksScreen`, with a `seq<Book>` and a `scanning` flag. Toggling a book
  flips the `isPresent` flag of every book with that id. The simulated scan
  is two calls. `StartScan` sets the flag and returns the list as it was at
  that moment. `CompleteScan(snapshot)` clears the flag. When the snapshot
  has a required, absent book, the list becomes the snapshot with the first
  such book marked present. When it has none, the list is left as it is.
  The required/present counts, the progress percentage and its two banners
  are functions. So are the row label, the highlight and the button icon.
- **Notification lists** (`NotificationList`, `NotificationItem`,
  `IndexPage`). The Home and Notifications screens each keep their own
  notification list with the same handlers. One class, `NotificationCenter`,
  models either list. It offers dismiss by id, mark one read, mark all read,
  clear all, and the unread count. The Home screen adds the greeting for the
  hour, the unread dot and the empty-list placeholder. Each item has an icon
  chosen by its type and a "time ago" label.
- **Battery screen** (`BatteryPage`, `BatteryStatus`). The interval tick
  and the charging button act on the class `BatteryMonitor`. The class is
  specified by the pure transition functions `AfterTick` and `AfterToggle`.
  The level is kept in tenths of a percent and the estimate in hundredths of
  an hour, so the screen's decimal steps (0.1, 0.02, 0.5, 0.1) are whole
  numbers. The battery card's colour, icon and text are functions of the
  level in percent.
- **Weight card and ring gauge** (`WeightMonitor`, `CircularProgress`).
  These cover the percentage, the tiers, the overweight banner, the bar
  width, the clamped gauge percentage and the gauge geometry.
- **Settings screen** (`Settings`). The class `SettingsScreen` holds the six
  settings. It has a reset and one setter per control.
- **Weather card** (`WeatherCard`). It has the description line and the
  umbrella banner. The class `RainAlert` holds the one-shot "notified" latch
  that guards the rain toast.

Numbers in the components are JavaScript numbers. The model uses exact
`real`s for them. Division goes through `JsNumber.Div`, which returns
`PosInf`, `NegInf` or `NaN` when dividing by zero. That is how the source
behaves when no book is required: the progress is 0 / 0 = NaN, and since
every comparison with NaN is false, neither the "missing" nor the
"all present" banner shows. Toasts are returned as `Common.Toast` values.
Clock readings (the hour, the current time in milliseconds) are passed in
as parameters.

Three behaviours of the code are worth stating outright:
- The Settings screen stores whatever its sliders give and never clamps a
  threshold. `SetMaxWeightAlert` and `SetLowBatteryThreshold` store their
  argument unchanged. They promise the range only when the argument is a
  value the slider offers.
- With no required book, the progress is 0 / 0, so `Books.Progress` is NaN
  and neither banner shows.
- Only the disabled button stops a second scan while one is running
  (`BooksScreen.ScanButtonDisabled`). `StartScan` itself has no guard.

## Model

| member | source | states |
|---|---|---|
| `JsNumber.Div` | src/pages/Books.tsx:110 | a number divided by a non-zero number is the exact quotient; dividing by zero gives +Infinity, -Infinity or, for 0 / 0 only, NaN |
| `JsNumber.Min` | src/components/ui/CircularProgress.tsx:24 | `Math.min` with a constant: NaN stays NaN; a finite input gives a finite result at most both the input and the constant and equal to one of them; +Infinity gives the constant; -Infinity stays -Infinity |
| `JsNumber.Max` | src/components/ui/CircularProgress.tsx:24 | `Math.max` with a constant: NaN stays NaN; a finite input gives a finite result at least both the input and the constant and equal to one of them; -Infinity gives the constant; +Infinity stays +Infinity |
| `CircularProgress.Percentage` | src/components/ui/CircularProgress.tsx:24 | the gauge percentage is NaN only for 0 / 0 and otherwise lies in [0, 100]; with a positive max it is 100 from `value >= max` up, 0 from `value <= 0` down, and the exact ratio times 100 in between |
| `CircularProgress.StrokeWidth` | src/components/ui/CircularProgress.tsx:25 | the stroke is 4 exactly for small, 6 exactly for medium, 8 exactly for large |
| `CircularProgress.Dimension` | src/components/ui/CircularProgress.tsx:26-31 | the side is 80 exactly for small, 120 exactly for medium, 160 exactly for large |
| `CircularProgress.Radius` | src/components/ui/CircularProgress.tsx:32 | twice the radius plus the stroke is exactly the side, and the radius is a positive whole number (38, 57 or 76) |
| `BatteryStatus.BatteryColor` | src/components/ui/BatteryStatus.tsx:19-23 | error exactly when level <= 20, secondary exactly when 20 < level <= 50, accent exactly when level > 50 |
| `BatteryStatus.BatteryIcon` | src/components/ui/BatteryStatus.tsx:25-29 | the icon follows exactly the colour's tiers: low with error, warning with secondary, full with accent |
| `BatteryStatus.StatusText` | src/components/ui/BatteryStatus.tsx:31-36 | "Charging" whenever charging; otherwise "Low Battery", "Moderate" or "Good" on the colour's tiers |
| `BatteryStatus.ShowLowBanner` | src/components/ui/BatteryStatus.tsx:55-61 | the low-battery banner shows exactly with the error colour, whether or not the battery is charging |
| `BatteryStatus.ShowChargingIndicator` | src/components/ui/BatteryStatus.tsx:63-68 | the charging line shows exactly while charging, and then the gauge label reads "Charging" at every level |
| `BatteryStatus.TierBoundaries` | src/components/ui/BatteryStatus.tsx:19-63 | for every level the low banner shows exactly with the error colour; uncharged, 20 reads "Low Battery", 21 and 50 moderate, 51 good; the charging indicator shows exactly when charging |
| `WeightMonitor.WeightPercentage` | src/components/ui/WeightMonitor.tsx:21 | for a positive maximum the percentage is the finite ratio times 100; for a zero maximum it is not finite |
| `WeightMonitor.IsOverweight` | src/components/ui/WeightMonitor.tsx:22 | the banner condition is weight strictly above the maximum; for a positive maximum it implies the error tier |
| `WeightMonitor.WeightColor` | src/components/ui/WeightMonitor.tsx:24-28 | error exactly when the percentage is at least 100, secondary exactly when it is at least 75 and below 100, never primary |
| `WeightMonitor.StatusText` | src/components/ui/WeightMonitor.tsx:30-34 | "Too Heavy!", "Getting Heavy" and "Good Weight" on the colour's tiers |
| `WeightMonitor.BarWidth` | src/components/ui/WeightMonitor.tsx:73 | the bar width never exceeds 100; for a positive maximum it is finite, equals the percentage while the weight is at most the maximum, and is exactly 100 from the maximum up |
| `WeightMonitor.TiersByWeight` | src/components/ui/WeightMonitor.tsx:21-34 | for a positive maximum, error exactly when weight >= max and secondary exactly when 0.75 max <= weight < max; overweight implies the error colour |
| `WeightMonitor.AtMaximumTooHeavyWithoutBanner` | src/components/ui/WeightMonitor.tsx:22-54 | at exactly the maximum the gauge reads "Too Heavy!" in the error colour while the overweight banner is hidden |
| `WeightMonitor.DefaultMaximumTiers` | src/components/ui/WeightMonitor.tsx:17-28 | with the default 5 kg maximum the card is red exactly from 5 kg and amber exactly from 3.75 kg to below 5 kg |
| `NotificationItem.GetIcon` | src/components/ui/NotificationItem.tsx:28-41 | the open book exactly for "book", the battery exactly for "battery", the weight exactly for "weight", the umbrella exactly for "weather", the bell exactly for "general" |
| `NotificationItem.IconsDistinct` | src/components/ui/NotificationItem.tsx:28-41 | no two notification types share an icon |
| `NotificationItem.SecondsAgo` | src/components/ui/NotificationItem.tsx:45 | the result is the floor of the elapsed milliseconds over 1000 |
| `NotificationItem.Bucket` | src/components/ui/NotificationItem.tsx:47-50 | each elapsed time falls in exactly one bucket; seconds below 60 (negative included) show as they are; minutes lie in 1..59, hours in 1..23 and days from 1, each the whole count of its unit |
| `NotificationItem.TimeAgo` | src/components/ui/NotificationItem.tsx:43-51 | a future timestamp shows a negative number of seconds |
| `NotificationItem.SeedOffsets` | src/pages/Notifications.tsx:22-54 | the seed's offsets read 30 minutes, 2 hours, 3 hours, 1 day and 2 days ago |
| `NotificationList.Dismissed` | src/pages/Notifications.tsx:60 | an entry survives exactly when it was there and has another id; the list is unchanged exactly when no entry has the id; it never grows |
| `NotificationList.DismissedSplits` | src/pages/Notifications.tsx:60 | dismissing works part by part, so the survivors keep their original order |
| `NotificationList.MarkedRead` | src/pages/Notifications.tsx:68-70 | same length; each entry with the id becomes read with all other fields kept, every other entry is unchanged |
| `NotificationList.MarkedReadIdempotent` | src/pages/Notifications.tsx:68-70 | marking an id read twice equals marking it once |
| `NotificationList.MarkedReadUnreadCount` | src/pages/Notifications.tsx:67-89 | after marking an id read, the unread count is the unread count of the entries with other ids |
| `NotificationList.AllMarkedRead` | src/pages/Notifications.tsx:74 | same length and order; every entry keeps all fields except that it is read |
| `NotificationList.AllMarkedReadLeavesNoneUnread` | src/pages/Notifications.tsx:73-89 | after marking all read the unread count is 0 |
| `NotificationList.CountUnread` | src/pages/Notifications.tsx:89 | the unread count never exceeds the length and is 0 exactly when every entry is read; its value is pinned by `CountUnreadAppend` and `CountUnreadSingle` |
| `NotificationList.CountUnreadAppend` | src/pages/Notifications.tsx:89 | the unread count of a concatenation is the sum of the counts of its parts |
| `NotificationList.CountUnreadSingle` | src/pages/Notifications.tsx:89 | one entry counts 1 exactly when it is unread, so with `CountUnreadAppend` the count is the number of unread entries |
| `NotificationList.ListHeader` | src/pages/Notifications.tsx:101-139 | the empty-state card exactly for the empty list; the unread summary carries the positive count and the plural exactly when it is not 1; "All caught up" exactly for a non-empty list with none unread |
| `NotificationList.ShowMarkAllButton` | src/pages/Notifications.tsx:107-115 | "Mark all as read" is offered exactly when the header shows an unread summary; otherwise a non-empty list reads "All caught up" |
| `NotificationList.NotificationCenter.constructor` | src/pages/Notifications.tsx:16-57 | the list starts as the given seed |
| `NotificationList.NotificationCenter.Dismiss` | src/pages/Notifications.tsx:59-65 | the new list is the filtered old one, unchanged for an unknown id; the "Notification dismissed" toast is raised every time |
| `NotificationList.NotificationCenter.MarkAsRead` | src/pages/Notifications.tsx:67-71 | the new list is the old one with the entries of that id marked read |
| `NotificationList.NotificationCenter.MarkAllAsRead` | src/pages/Notifications.tsx:73-79 | every entry read, unread count 0, with its toast |
| `NotificationList.NotificationCenter.DismissAll` | src/pages/Notifications.tsx:81-87 | the list becomes empty, with its toast |
| `NotificationList.NotificationCenter.UnreadCount` | src/pages/Notifications.tsx:89 | the count shown is `CountUnread` of the current list, hence the number of unread entries; at most the length and 0 exactly when every entry is read |
| `IndexPage.Greeting` | src/pages/Index.tsx:57-62 | "Good Morning" exactly before 12, "Good Afternoon" exactly from 12 to 17, "Good Evening" exactly from 18 |
| `IndexPage.HasUnread` | src/pages/Index.tsx:75 | the Home screen's unread dot shows exactly when the unread count is positive |
| `IndexPage.ShowNoNotifications` | src/pages/Index.tsx:144-155 | the "No notifications" placeholder shows exactly when the list screen would show its empty-state card |
| `BookItem.Label` | src/components/ui/BookItem.tsx:51-65 | "Missing" exactly for required-and-absent, "Present" exactly for present, "Not in bag" exactly for optional-and-absent |
| `BookItem.IsHighlighted` | src/components/ui/BookItem.tsx:28-40 | the red row border and title hold exactly when the label is "Missing", that is for a required, absent book |
| `BookItem.ToggleButtonIcon` | src/components/ui/BookItem.tsx:72-76 | the X icon exactly for a present book, the check otherwise |
| `BookItem.HandleToggle` | src/components/ui/BookItem.tsx:20-24 | a click forwards the book's own id exactly when a handler is supplied |
| `Books.Toggled` | src/pages/Books.tsx:62-66 | same length and order; books with the id have their presence flipped with every other field kept, all other books unchanged |
| `Books.FindIndexById` | src/pages/Books.tsx:68 | none exactly when no book has the id; otherwise the index of the first book with it |
| `Books.FindById` | src/pages/Books.tsx:68 | none exactly when no book has the id; otherwise a book with that id that no earlier book shares its id with, so the first one |
| `Books.ToggleToast` | src/pages/Books.tsx:68-75 | no toast exactly for an unknown id; otherwise "Removed from bag" when the book was present before, "Added to bag" when it was not, with its title, for 2 seconds |
| `Books.ToggleUnknownId` | src/pages/Books.tsx:61-75 | toggling an unknown id leaves the list unchanged and raises no toast |
| `Books.ToggleTwice` | src/pages/Books.tsx:61-66 | toggling the same id twice restores the list |
| `Books.ToggleKeepsIds` | src/pages/Books.tsx:62-66 | a toggle keeps every id in place, so unique ids stay unique |
| `Books.FirstMissing` | src/pages/Books.tsx:83 | none exactly when no book is required and absent; otherwise the index of the first such book |
| `Books.MarkedPresent` | src/pages/Books.tsx:85-89 | same length; books with the id become present, all others unchanged |
| `Books.ScannedBooks` | src/pages/Books.tsx:83-89 | with no missing book the scanned list comes back unchanged; the length never changes |
| `Books.ScanToast` | src/pages/Books.tsx:91-101 | "Scan completed" / "No new books detected" exactly when nothing is missing; otherwise "Book scanned!" / "<title of the first missing book> added to your backpack"; 3 seconds either way |
| `Books.ScanMarksFirstMissing` | src/pages/Books.tsx:83-89 | with unique ids the scan marks exactly the first missing book present and changes nothing else |
| `Books.ScanKeepsIds` | src/pages/Books.tsx:85-89 | the scan keeps every id in place, so unique ids stay unique |
| `Books.RequiredCount` | src/pages/Books.tsx:108 | the number of required books is at most the number of books; its value is pinned by `BookCountsAppend` and `BookCountsSingle` |
| `Books.PresentRequiredCount` | src/pages/Books.tsx:109 | the present required books never outnumber the required ones; its value is pinned by `BookCountsAppend` and `BookCountsSingle` |
| `Books.MissingCount` | src/pages/Books.tsx:137 | 0 exactly when no required book is absent; its value is pinned by `BookCountsAppend` and `BookCountsSingle` |
| `Books.BookCountsAppend` | src/pages/Books.tsx:108-109 | each of the three counts of a concatenation is the sum of the counts of its parts |
| `Books.BookCountsSingle` | src/pages/Books.tsx:108-109 | one book counts as required, as present and required, and as missing exactly under its own flags, so with `BookCountsAppend` each count is the number of books it filters |
| `Books.RequiredSplits` | src/pages/Books.tsx:137 | the banner's "required minus present" is exactly the number of missing books |
| `Books.Progress` | src/pages/Books.tsx:110 | the progress is NaN exactly when no book is required |
| `Books.ShowMissingBanner` | src/pages/Books.tsx:134-140 | the amber banner shows exactly when some book is required and one of them is missing |
| `Books.ShowAllPresentBanner` | src/pages/Books.tsx:142-148 | the green banner shows exactly when some book is required and none is missing |
| `Books.ProgressMeaning` | src/pages/Books.tsx:110-148 | with a required book the progress is in [0, 100], is 100 exactly when none is missing, and exactly one banner shows; with none required neither banner shows |
| `Books.SeedStartsAtEighty` | src/pages/Books.tsx:16-59 | the seed has 5 required books with 4 present, so it shows 80 % and the missing banner |
| `Books.SeedScansMathematicsFirst` | src/pages/Books.tsx:16-59 | the seed's first missing book is its first entry, so its scan toast is "Book scanned!" / "Mathematics Textbook added to your backpack" for 3 seconds |
| `Books.SeedIdsUnique` | src/pages/Books.tsx:16-59 | the seed's ids are unique |
| `Books.SeedScanReachesHundred` | src/pages/Books.tsx:83-148 | one scan of the seed reaches 100 % and the all-present banner |
| `Books.BooksScreen.constructor` | src/pages/Books.tsx:13-59 | the screen starts with the seed, unique ids and no scan running |
| `Books.BooksScreen.TogglePresence` | src/pages/Books.tsx:61-76 | the list becomes the toggled list and the toast is chosen from the list before the toggle; ids stay unique and the scan flag is untouched |
| `Books.BooksScreen.ScanButtonDisabled` | src/pages/Books.tsx:156 | the scan button is disabled exactly while a scan is running |
| `Books.BooksScreen.StartScan` | src/pages/Books.tsx:78-82 | the scan flag is set, which disables the button; the list and its unique ids are unchanged, and the list is handed back as the snapshot |
| `Books.BooksScreen.CompleteScan` | src/pages/Books.tsx:82-104 | with a missing book in the snapshot the list becomes the scan of the snapshot, whatever toggles happened since; with none the current list is kept; either way ids stay unique, the flag is cleared and the toast matches the snapshot |
| `BatteryPage.AfterTick` | src/pages/Battery.tsx:33-39 | draining takes exactly one tenth of a percent and two hundredths of an hour, stopping at 0; charging adds up to full and 12 hours; empty-and-draining or full-and-charging changes nothing; the range is kept; level and hours fall while draining and rise while charging |
| `BatteryPage.AfterToggle` | src/pages/Battery.tsx:45-47 | the charging flag flips; level and hours stay |
| `BatteryPage.RunStaysInRange` | src/pages/Battery.tsx:31-47 | no sequence of ticks and presses takes the level out of [0, 100 %] or the estimate out of [0, 12 h] |
| `BatteryPage.RunFromInitialStaysInRange` | src/pages/Battery.tsx:11-47 | from 75 % and 6 hours every sequence of ticks and presses stays in range |
| `BatteryPage.DrainAfterTicks` | src/pages/Battery.tsx:33-35 | while not charging, n ticks leave the level at max(0, level - n) and the estimate at max(0, hours - 2 min(n, level)) |
| `BatteryPage.ChargeAfterTicks` | src/pages/Battery.tsx:36-38 | while charging, n ticks leave the level at min(full, level + 5n), and the estimate never falls and never passes 12 hours |
| `BatteryPage.TimeCardLabel` | src/pages/Battery.tsx:93 | "Critical" exactly below 15 %, "Low" exactly from 15 to below 30 %, "Normal" from 30 % |
| `BatteryPage.LevelPercent` | src/pages/Battery.tsx:59 | the level shown in percent is the stored tenths over ten, and lies in [0, 100] for an in-range reading |
| `BatteryPage.BatteryMonitor.constructor` | src/pages/Battery.tsx:11-13 | 75 %, 6 hours, not charging |
| `BatteryPage.BatteryMonitor.Tick` | src/pages/Battery.tsx:32-40 | the new reading is `AfterTick` of the old one, and the range invariant is kept |
| `BatteryPage.BatteryMonitor.ToggleCharging` | src/pages/Battery.tsx:45-47 | the new reading is `AfterToggle` of the old one, and the range invariant is kept |
| `Settings.DefaultsOnSliders` | src/pages/Settings.tsx:27-166 | the default 5 kg and 20 % are values their sliders offer (1 to 10 by 0.5, 5 to 50 by 5) |
| `Settings.SettingsScreen.constructor` | src/pages/Settings.tsx:25-30 | notifications on, dark mode off, 5 kg, 20 %, auto-scan on, Bluetooth on |
| `Settings.SettingsScreen.Reset` | src/pages/Settings.tsx:32-46 | all six settings equal the defaults whatever they were, so a second reset changes nothing; the reset toast is raised |
| `Settings.SettingsScreen.SetNotificationsEnabled` | src/pages/Settings.tsx:112 | writes only the notifications setting |
| `Settings.SettingsScreen.SetDarkModeEnabled` | src/pages/Settings.tsx:124 | writes only the dark-mode setting |
| `Settings.SettingsScreen.SetMaxWeightAlert` | src/pages/Settings.tsx:144-150 | writes only the weight threshold, unclamped; a value the slider offers keeps both thresholds on their sliders |
| `Settings.SettingsScreen.SetLowBatteryThreshold` | src/pages/Settings.tsx:161-167 | writes only the battery threshold, unclamped; a value the slider offers keeps both thresholds on their sliders |
| `Settings.SettingsScreen.SetAutoScanBooks` | src/pages/Settings.tsx:179 | writes only the auto-scan setting |
| `Settings.SettingsScreen.SetBluetoothEnabled` | src/pages/Settings.tsx:191 | writes only the Bluetooth setting |
| `WeatherCard.ConditionName` | src/components/ui/WeatherCard.tsx:9 | sunny, cloudy and rainy are exactly 'sunny', 'cloudy' and 'rainy', each starting with a lower-case letter |
| `WeatherCard.UpperAscii` | src/components/ui/WeatherCard.tsx:45 | a lower-case ASCII letter becomes its upper-case letter; any other character is unchanged |
| `WeatherCard.Capitalized` | src/components/ui/WeatherCard.tsx:45 | same length; the first character upper-cased and the rest unchanged; empty stays empty |
| `WeatherCard.Description` | src/components/ui/WeatherCard.tsx:45 | the condition name with its first letter upper-cased, the rest of it unchanged, followed by " conditions" |
| `WeatherCard.CloudyDescription` | src/components/ui/WeatherCard.tsx:45 | the condition 'cloudy' reads "Cloudy conditions" |
| `WeatherCard.ShowUmbrellaBanner` | src/components/ui/WeatherCard.tsx:70-75 | the umbrella banner shows exactly above a 50 % chance of rain, the same condition that arms the rain toast |
| `WeatherCard.UmbrellaBoundary` | src/components/ui/WeatherCard.tsx:70 | a 50 % chance of rain shows no umbrella banner, 51 % shows it |
| `WeatherCard.RainAlert.constructor` | src/components/ui/WeatherCard.tsx:21 | the latch starts clear and no toast has been shown |
| `WeatherCard.RainAlert.RunEffect` | src/components/ui/WeatherCard.tsx:23-32 | a toast exactly when the chance is above 50 % and the latch is clear, and only when the banner shows; the latch then stays set, so the card raises at most one rain toast |

The Home screen's dismiss and mark-read handlers (src/pages/Index.tsx:42-54)
are the same as the list screen's. They are modelled by the same
`NotificationCenter.Dismiss` and `NotificationCenter.MarkAsRead`, so the
rows above cover them.

## Left out

- Rendering, CSS classes, icon components and the Card, Button, Slider and
  Progress widgets. Colours and icons appear only as enumerations.
- The toast hook. A toast is returned as a value; how it is queued and
  displayed is not modelled.
- Timers. The three-second scan delay, the five-second battery interval,
  the re-registration of that interval, and the delayed "Device Synced"
  toast of `handleSyncDevice` (src/pages/Settings.tsx:48-63) are not
  modelled. The scan and the tick are explicit calls. The sync handler
  changes no state and is not modelled.
- The clock. `new Date().getHours()` and `Date.now()` become the `hour` and
  `nowMs` parameters.
- Floating point. Finite numbers are exact reals, and IEEE-754 rounding,
  signed zero and the accumulated error of repeated 0.1 steps are not
  modelled. The battery steps are exact fixed-point integers instead.
  `Math.round` on displayed values, the gauge's circumference and dash
  offset (which use `Math.PI`), and the chance-of-rain bar width are
  display-only and not modelled.
- WeatherCard.UpperAscii: upper-cases ASCII letters only, because the three
  condition names are ASCII. Full Unicode `toUpperCase` is not modelled.
- Mock fixtures are not modelled: the battery history, the power
  consumption table, the forecast, and the Home screen's fixed battery,
  weight and book counts. Of the two notification seeds, only the list
  screen's timestamp offsets are modelled, by
  `NotificationItem.SeedOffsets`; their titles and messages are not. The
  constructor of `NotificationCenter` takes the initial list as a
  parameter. The book seed is modelled as `Books.Seed`.
- The Weather screen (src/pages/Weather.tsx) is not part of this model. Its
  geolocation and location strings are browser I/O. Its one rule,
  `chanceOfRain > 50`, is the same threshold as
  `WeatherCard.ShowUmbrellaBanner`.
- Routing, theming and start-up (src/App.tsx, src/main.tsx,
  src/components/layout/BottomNav.tsx, src/components/ThemeProvider.tsx,
  src/pages/NotFound.tsx) are not part of this model.
