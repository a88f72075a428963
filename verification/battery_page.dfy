/** The Battery screen's simulation: every tick drains the battery while it
    is not charging and fills it while it is, clamping the level at 0 and 100
    and the estimated hours at 0 and 12; a button flips the charging flag.
    The screen's decimal steps are kept exact as whole numbers: the level is
    counted in tenths of a percent (a tick drains 1 and charges 5, full is
    1000) and the hours in hundredths (a tick drains 2 and charges 10, the cap
    is 1200). */
module BatteryPage {

  datatype Reading = Reading(level: int, hours: int, charging: bool)

  const FullLevel: int := 1000
  const MaxHours: int := 1200

  /** 75 %, 6 hours, not charging. */
  const Initial: Reading := Reading(750, 600, false)

  predicate InRange(r: Reading) {
    0 <= r.level <= FullLevel && 0 <= r.hours <= MaxHours
  }

  function Max0(x: int): int { if x < 0 then 0 else x }

  function MinCap(x: int, cap: int): int { if x > cap then cap else x }

  /** One interval tick. Draining takes exactly one tenth of a percent (the
      clamp at 0 never bites on a positive whole level) and two hundredths of
      an hour, stopping at 0; charging adds five tenths up to full and ten
      hundredths up to 12 hours. Nothing moves when the battery is empty and
      not charging, or full and charging. */
  function AfterTick(r: Reading): (n: Reading)
    ensures n.charging == r.charging
    ensures !r.charging && r.level > 0 ==> n.level == r.level - 1 && n.hours == Max0(r.hours - 2)
    ensures r.charging && r.level < FullLevel ==>
      n.level == MinCap(r.level + 5, FullLevel) && n.hours == MinCap(r.hours + 10, MaxHours)
    ensures (!r.charging && r.level <= 0) || (r.charging && r.level >= FullLevel) ==> n == r
    ensures InRange(r) ==> InRange(n)
    ensures InRange(r) && !r.charging ==> n.level <= r.level && n.hours <= r.hours
    ensures InRange(r) && r.charging ==> n.level >= r.level && n.hours >= r.hours
  {
    if !r.charging && r.level > 0 then
      r.(level := Max0(r.level - 1), hours := Max0(r.hours - 2))
    else if r.charging && r.level < FullLevel then
      r.(level := MinCap(r.level + 5, FullLevel), hours := MinCap(r.hours + 10, MaxHours))
    else r
  }

  /** The charging button flips the flag and nothing else. */
  function AfterToggle(r: Reading): (n: Reading)
    ensures n.charging == !r.charging
    ensures n.level == r.level && n.hours == r.hours
  {
    r.(charging := !r.charging)
  }

  datatype Event = Tick | ToggleCharging

  function Next(r: Reading, e: Event): Reading {
    match e
    case Tick => AfterTick(r)
    case ToggleCharging => AfterToggle(r)
  }

  /** The reading after a sequence of ticks and button presses. */
  function Run(r: Reading, events: seq<Event>): Reading
    decreases |events|
  {
    if events == [] then r else Run(Next(r, events[0]), events[1..])
  }

  /** No sequence of ticks and presses takes the level out of [0, 100] or the
      estimate out of [0, 12]. */
  lemma {:induction false} RunStaysInRange(r: Reading, events: seq<Event>)
    requires InRange(r)
    ensures InRange(Run(r, events))
    decreases |events|
  {
    if events != [] {
      RunStaysInRange(Next(r, events[0]), events[1..]);
    }
  }

  /** In particular from the screen's starting reading. */
  lemma RunFromInitialStaysInRange(events: seq<Event>)
    ensures InRange(Run(Initial, events))
  {
    RunStaysInRange(Initial, events);
  }

  /** `n` ticks in a row. */
  function Ticks(r: Reading, n: nat): Reading
    decreases n
  {
    if n == 0 then r else Ticks(AfterTick(r), n - 1)
  }

  function Min(a: int, b: int): int { if a < b then a else b }

  /** While not charging, `n` ticks take the level down by `n` tenths and
      the estimate down by two hundredths for each tick that found charge
      left, both stopping at 0. */
  lemma {:induction false} DrainAfterTicks(r: Reading, n: nat)
    requires InRange(r) && !r.charging
    ensures Ticks(r, n).level == Max0(r.level - n)
    ensures Ticks(r, n).hours == Max0(r.hours - 2 * Min(n, r.level))
    ensures !Ticks(r, n).charging
    decreases n
  {
    if n > 0 {
      DrainAfterTicks(AfterTick(r), n - 1);
    }
  }

  /** While charging, `n` ticks raise the level by five tenths each up to
      full, and the estimate never falls nor passes 12 hours. */
  lemma {:induction false} ChargeAfterTicks(r: Reading, n: nat)
    requires InRange(r) && r.charging
    ensures Ticks(r, n).level == MinCap(r.level + 5 * n, FullLevel)
    ensures r.hours <= Ticks(r, n).hours <= MaxHours
    ensures Ticks(r, n).charging
    decreases n
  {
    if n > 0 {
      ChargeAfterTicks(AfterTick(r), n - 1);
    }
  }

  /** The level as the screen shows it, in percent. */
  function LevelPercent(r: Reading): (p: real)
    ensures p * 10.0 == r.level as real
    ensures InRange(r) ==> 0.0 <= p <= 100.0
  {
    r.level as real / 10.0
  }

  /** The label under the time estimate. */
  function TimeCardLabel(levelPercent: real): (t: string)
    ensures t == "Critical" <==> levelPercent < 15.0
    ensures t == "Low" <==> 15.0 <= levelPercent < 30.0
    ensures t == "Normal" <==> levelPercent >= 30.0
  {
    if levelPercent < 15.0 then "Critical"
    else if levelPercent < 30.0 then "Low"
    else "Normal"
  }

  /** The simulated battery of one Battery screen. */
  class BatteryMonitor {
    var level: int
    var hours: int
    var charging: bool

    function Current(): Reading
      reads this
    {
      Reading(level, hours, charging)
    }

    ghost predicate Valid()
      reads this
    {
      InRange(Current())
    }

    constructor ()
      ensures Valid()
      ensures Current() == Initial
    {
      level, hours, charging := 750, 600, false;
    }

    method Tick()
      requires Valid()
      modifies this
      ensures Valid()
      ensures Current() == AfterTick(old(Current()))
    {
      if !charging && level > 0 {
        level := Max0(level - 1);
        hours := Max0(hours - 2);
      } else if charging && level < FullLevel {
        level := MinCap(level + 5, FullLevel);
        hours := MinCap(hours + 10, MaxHours);
      }
    }

    method ToggleCharging()
      requires Valid()
      modifies this
      ensures Valid()
      ensures Current() == AfterToggle(old(Current()))
    {
      charging := !charging;
    }
  }
}
