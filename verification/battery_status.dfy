/** The battery card: colour, icon and status text chosen from the charge
    level by the same two thresholds, 20 and 50 (each inclusive of the lower
    tier), plus the low-battery banner and the charging indicator. */
module BatteryStatus {
  import opened CircularProgress

  /** The three icons the card can show. */
  datatype Icon = BatteryLow | BatteryWarning | BatteryFull

  const LowLimit: real := 20.0
  const ModerateLimit: real := 50.0

  function BatteryColor(level: real): (c: Color)
    ensures c == Error <==> level <= LowLimit
    ensures c == Secondary <==> LowLimit < level <= ModerateLimit
    ensures c == Accent <==> level > ModerateLimit
  {
    if level <= 20.0 then Error
    else if level <= 50.0 then Secondary
    else Accent
  }

  function BatteryIcon(level: real): (i: Icon)
    ensures i == BatteryLow <==> BatteryColor(level) == Error
    ensures i == BatteryWarning <==> BatteryColor(level) == Secondary
    ensures i == BatteryFull <==> BatteryColor(level) == Accent
  {
    if level <= 20.0 then BatteryLow
    else if level <= 50.0 then BatteryWarning
    else BatteryFull
  }

  /** "Charging" overrides the tier; otherwise the text follows the colour
      tiers. */
  function StatusText(level: real, isCharging: bool): (t: string)
    ensures isCharging ==> t == "Charging"
    ensures !isCharging && BatteryColor(level) == Error ==> t == "Low Battery"
    ensures !isCharging && BatteryColor(level) == Secondary ==> t == "Moderate"
    ensures !isCharging && BatteryColor(level) == Accent ==> t == "Good"
  {
    if isCharging then "Charging"
    else if level <= 20.0 then "Low Battery"
    else if level <= 50.0 then "Moderate"
    else "Good"
  }

  /** The red banner depends on the level alone, not on charging, and shows
      exactly with the error colour. */
  function ShowLowBanner(level: real): (show: bool)
    ensures show <==> BatteryColor(level) == Error
  {
    level <= 20.0
  }

  /** The green "Charging" line under the gauge; while it shows, the gauge's
      label reads "Charging" whatever the level. */
  function ShowChargingIndicator(isCharging: bool): (show: bool)
    ensures show <==> isCharging
    ensures show ==> forall level :: StatusText(level, isCharging) == "Charging"
  {
    isCharging
  }

  /** The banner accompanies exactly the error colour, whether or not the
      battery is charging, and the tier boundaries fall where the card
      promises: 20 is low, 21 moderate, 50 moderate, 51 good. */
  lemma TierBoundaries(isCharging: bool)
    ensures forall level :: ShowLowBanner(level) <==> BatteryColor(level) == Error
    ensures StatusText(20.0, false) == "Low Battery" && StatusText(21.0, false) == "Moderate"
    ensures StatusText(50.0, false) == "Moderate" && StatusText(51.0, false) == "Good"
    ensures ShowLowBanner(20.0) && !ShowLowBanner(21.0)
    ensures StatusText(10.0, true) == "Charging" && ShowChargingIndicator(isCharging) == isCharging
  {
  }
}
