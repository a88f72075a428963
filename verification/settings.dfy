/** The Settings screen: six settings with their defaults, a reset that
    restores all of them, and one handler per control that writes only its
    own setting. The screen does not clamp the two thresholds itself; their
    sliders only offer values on a declared grid. */
module Settings {
  import opened Common

  datatype Values = Values(
    notificationsEnabled: bool,
    darkModeEnabled: bool,
    maxWeightAlert: real,
    lowBatteryThreshold: real,
    autoScanBooks: bool,
    bluetoothEnabled: bool)

  /** Notifications on, dark mode off, 5 kg, 20 %, auto-scan on, Bluetooth on. */
  const Defaults: Values := Values(true, false, 5.0, 20.0, true, true)

  /** A value a slider from `lo` to `hi` in steps of `step` can produce. */
  predicate OnSlider(v: real, lo: real, hi: real, step: real)
    requires step > 0.0
  {
    lo <= v <= hi && ((v - lo) / step).Floor as real == (v - lo) / step
  }

  /** The weight slider: 1 to 10 kg in half-kilogram steps. */
  predicate OnWeightSlider(v: real) {
    OnSlider(v, 1.0, 10.0, 0.5)
  }

  /** The battery slider: 5 to 50 % in steps of 5. */
  predicate OnBatterySlider(v: real) {
    OnSlider(v, 5.0, 50.0, 5.0)
  }

  predicate ThresholdsOnSliders(s: Values) {
    OnWeightSlider(s.maxWeightAlert) && OnBatterySlider(s.lowBatteryThreshold)
  }

  /** Both default thresholds are values their sliders offer. */
  lemma DefaultsOnSliders()
    ensures ThresholdsOnSliders(Defaults)
  {
    assert (5.0 - 1.0) / 0.5 == 8.0;
    assert (20.0 - 5.0) / 5.0 == 3.0;
  }

  const ResetToast: Toast :=
    Toast(Some("Settings Reset"), "All settings have been restored to defaults", 3000)

  /** The settings of one Settings screen. */
  class SettingsScreen {
    var notificationsEnabled: bool
    var darkModeEnabled: bool
    var maxWeightAlert: real
    var lowBatteryThreshold: real
    var autoScanBooks: bool
    var bluetoothEnabled: bool

    function Current(): Values
      reads this
    {
      Values(notificationsEnabled, darkModeEnabled, maxWeightAlert,
             lowBatteryThreshold, autoScanBooks, bluetoothEnabled)
    }

    constructor ()
      ensures Current() == Defaults
      ensures ThresholdsOnSliders(Current())
    {
      notificationsEnabled := true;
      darkModeEnabled := false;
      maxWeightAlert := 5.0;
      lowBatteryThreshold := 20.0;
      autoScanBooks := true;
      bluetoothEnabled := true;
      DefaultsOnSliders();
    }

    /** Every setting back to its default, whatever it was: resetting twice
        is the same as resetting once. */
    method Reset() returns (toast: Toast)
      modifies this
      ensures Current() == Defaults
      ensures ThresholdsOnSliders(Current())
      ensures toast == ResetToast
    {
      toast := ResetToast;
      notificationsEnabled := true;
      darkModeEnabled := false;
      maxWeightAlert := 5.0;
      lowBatteryThreshold := 20.0;
      autoScanBooks := true;
      bluetoothEnabled := true;
      DefaultsOnSliders();
    }

    method SetNotificationsEnabled(on: bool)
      modifies this
      ensures Current() == old(Current()).(notificationsEnabled := on)
    {
      notificationsEnabled := on;
    }

    method SetDarkModeEnabled(on: bool)
      modifies this
      ensures Current() == old(Current()).(darkModeEnabled := on)
    {
      darkModeEnabled := on;
    }

    /** Stores the slider's value as it comes; it stays on the declared grid
        as long as the slider offers only values on it. */
    method SetMaxWeightAlert(v: real)
      modifies this
      ensures Current() == old(Current()).(maxWeightAlert := v)
      ensures old(ThresholdsOnSliders(Current())) && OnWeightSlider(v) ==> ThresholdsOnSliders(Current())
    {
      maxWeightAlert := v;
    }

    method SetLowBatteryThreshold(v: real)
      modifies this
      ensures Current() == old(Current()).(lowBatteryThreshold := v)
      ensures old(ThresholdsOnSliders(Current())) && OnBatterySlider(v) ==> ThresholdsOnSliders(Current())
    {
      lowBatteryThreshold := v;
    }

    method SetAutoScanBooks(on: bool)
      modifies this
      ensures Current() == old(Current()).(autoScanBooks := on)
    {
      autoScanBooks := on;
    }

    method SetBluetoothEnabled(on: bool)
      modifies this
      ensures Current() == old(Current()).(bluetoothEnabled := on)
    {
      bluetoothEnabled := on;
    }
  }
}
