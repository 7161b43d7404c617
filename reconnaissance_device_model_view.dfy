/** The rules inside the reconnaissance-device page
    (views/src/ReconnaissanceDeviceModelView.cpp): the callbacks that keep a
    range's maximum above its minimum while the user edits it, the repair
    the edit dialog applies to a stored device's ranges, the id read back
    from the selected list row, and which action a click on the list
    triggers. The widgets themselves are left out; a spin button is kept as
    the value it holds and the range it clamps to. */
module ReconnaissanceDeviceModelView {
  import opened Common
  import opened Decimal
  import opened ReconnaissanceDeviceModel

  /** A value clamped into [lower, upper], as a GtkAdjustment stores it. */
  function Clamp(lower: real, upper: real, v: real): (r: real)
    requires lower <= upper
    ensures lower <= r <= upper
    ensures lower <= v <= upper ==> r == v
    ensures v < lower ==> r == lower
    ensures v > upper ==> r == upper
  {
    if v < lower then lower else if v > upper then upper else v
  }

  /** A GtkSpinButton made by gtk_spin_button_new_with_range: its value
      starts at the lower bound and every value set is clamped into the
      range. */
  class SpinButton {
    const lower: real
    const upper: real
    var value: real

    predicate Valid()
      reads this
    {
      lower <= value <= upper
    }

    constructor(lower: real, upper: real)
      requires lower <= upper
      ensures this.lower == lower && this.upper == upper && value == lower
      ensures Valid()
    {
      this.lower := lower;
      this.upper := upper;
      value := lower;
    }

    method SetValue(v: real)
      requires Valid()
      modifies this
      ensures value == Clamp(lower, upper, v)
      ensures Valid()
    {
      value := Clamp(lower, upper, v);
    }
  }

  // ---------------------------------------------------------------------
  // Keeping the maximum above the minimum while editing

  /** The value on_min_freq_changed asks the maximum to take: 0.1 above a
      minimum that caught up with it, the old maximum otherwise. */
  function FrequencyFollow(minValue: real, maxValue: real): (r: real)
    ensures r > minValue
    ensures maxValue > minValue ==> r == maxValue
    ensures maxValue <= minValue ==> r - minValue == 0.1
  {
    if maxValue <= minValue then minValue + 0.1 else maxValue
  }

  /** The value on_min_azimuth_changed (cap 360) and
      on_min_elevation_changed (cap 90) ask the maximum to take: one degree
      above a minimum that caught up with it, but never beyond the cap. */
  function AngleFollow(minValue: real, maxValue: real, cap: real): (r: real)
    ensures maxValue > minValue ==> r == maxValue
    ensures maxValue <= minValue ==> r <= cap
    ensures minValue < cap ==> r > minValue
  {
    if maxValue <= minValue then (if minValue < cap - 1.0 then minValue + 1.0 else cap) else maxValue
  }

  const AzimuthCap: real := 360.0
  const ElevationCap: real := 90.0

  /** on_min_freq_changed: the maximum is touched only when it no longer
      exceeds the minimum. */
  method OnMinFreqChanged(minSpin: SpinButton, maxSpin: SpinButton)
    requires minSpin != maxSpin && maxSpin.Valid()
    modifies maxSpin
    ensures maxSpin.Valid()
    ensures maxSpin.value == Clamp(maxSpin.lower, maxSpin.upper, FrequencyFollow(minSpin.value, old(maxSpin.value)))
  {
    var minValue := minSpin.value;
    var maxValue := maxSpin.value;
    if maxValue <= minValue {
      maxSpin.SetValue(minValue + 0.1);
    }
  }

  /** on_min_azimuth_changed. */
  method OnMinAzimuthChanged(minSpin: SpinButton, maxSpin: SpinButton)
    requires minSpin != maxSpin && maxSpin.Valid()
    modifies maxSpin
    ensures maxSpin.Valid()
    ensures maxSpin.value == Clamp(maxSpin.lower, maxSpin.upper, AngleFollow(minSpin.value, old(maxSpin.value), AzimuthCap))
  {
    var minValue := minSpin.value;
    var maxValue := maxSpin.value;
    if maxValue <= minValue {
      maxSpin.SetValue(if minValue < 359.0 then minValue + 1.0 else 360.0);
    }
  }

  /** on_min_elevation_changed. */
  method OnMinElevationChanged(minSpin: SpinButton, maxSpin: SpinButton)
    requires minSpin != maxSpin && maxSpin.Valid()
    modifies maxSpin
    ensures maxSpin.Valid()
    ensures maxSpin.value == Clamp(maxSpin.lower, maxSpin.upper, AngleFollow(minSpin.value, old(maxSpin.value), ElevationCap))
  {
    var minValue := minSpin.value;
    var maxValue := maxSpin.value;
    if maxValue <= minValue {
      maxSpin.SetValue(if minValue < 89.0 then minValue + 1.0 else 90.0);
    }
  }

  /** With the dialog's azimuth spins (minimum in [0, 359], maximum in
      [0, 360]) the maximum exceeds the minimum after the callback. */
  lemma AzimuthCallbackOrders(minValue: real, maxValue: real)
    requires 0.0 <= minValue <= 359.0 && 0.0 <= maxValue <= 360.0
    ensures Clamp(0.0, 360.0, AngleFollow(minValue, maxValue, AzimuthCap)) > minValue
  {
  }

  /** With the dialog's elevation spins (minimum in [-90, 89], maximum in
      [-89, 90]) the maximum exceeds the minimum after the callback. */
  lemma ElevationCallbackOrders(minValue: real, maxValue: real)
    requires -90.0 <= minValue <= 89.0 && -89.0 <= maxValue <= 90.0
    ensures Clamp(-89.0, 90.0, AngleFollow(minValue, maxValue, ElevationCap)) > minValue
  {
  }

  /** With the dialog's frequency spins (both in [0, 100] GHz) the maximum
      exceeds the minimum after the callback as long as the minimum is at
      most 99.9; at a minimum of 100 the clamped maximum equals it. */
  lemma FrequencyCallbackOrders(minValue: real, maxValue: real)
    requires 0.0 <= minValue <= 100.0 && 0.0 <= maxValue <= 100.0
    ensures minValue <= 99.9 ==> Clamp(0.0, 100.0, FrequencyFollow(minValue, maxValue)) > minValue
    ensures minValue == 100.0 ==> Clamp(0.0, 100.0, FrequencyFollow(minValue, maxValue)) == minValue
  {
  }

  // ---------------------------------------------------------------------
  // Switching between a fixed and a mobile device

  /** A frame of the dialog, kept as whether it accepts input. */
  class FrameWidget {
    var sensitive: bool

    constructor(sensitive: bool)
      ensures this.sensitive == sensitive
    {
      this.sensitive := sensitive;
    }
  }

  /** One motion spin button after the toggle: set to 0 when the device
      was made fixed, untouched otherwise. */
  predicate MotionSpinAfterToggle(fixedActive: bool, spin: SpinButton?, oldValue: real)
    reads spin
  {
    spin != null ==>
      spin.Valid() && spin.value == if fixedActive then Clamp(spin.lower, spin.upper, 0.0) else oldValue
  }

  /** on_device_type_toggled, connected to the "fixed" radio button: the
      motion frame accepts input exactly while the device is mobile, and
      making the device fixed sets each motion spin button registered on
      the dialog to 0; a spin button whose range holds 0 then reads 0, so
      a fixed device is read back without motion. */
  method OnDeviceTypeToggled(fixedActive: bool, motionFrame: FrameWidget,
                             speedSpin: SpinButton?, azimuthSpin: SpinButton?, elevationSpin: SpinButton?)
    requires speedSpin != null ==> speedSpin.Valid() && speedSpin != azimuthSpin && speedSpin != elevationSpin
    requires azimuthSpin != null ==> azimuthSpin.Valid() && azimuthSpin != elevationSpin
    requires elevationSpin != null ==> elevationSpin.Valid()
    modifies motionFrame, speedSpin, azimuthSpin, elevationSpin
    ensures motionFrame.sensitive == !fixedActive
    ensures MotionSpinAfterToggle(fixedActive, speedSpin, old(if speedSpin != null then speedSpin.value else 0.0))
    ensures MotionSpinAfterToggle(fixedActive, azimuthSpin, old(if azimuthSpin != null then azimuthSpin.value else 0.0))
    ensures MotionSpinAfterToggle(fixedActive, elevationSpin, old(if elevationSpin != null then elevationSpin.value else 0.0))
    ensures fixedActive ==>
              (speedSpin != null && speedSpin.lower <= 0.0 <= speedSpin.upper ==> speedSpin.value == 0.0) &&
              (azimuthSpin != null && azimuthSpin.lower <= 0.0 <= azimuthSpin.upper ==> azimuthSpin.value == 0.0) &&
              (elevationSpin != null && elevationSpin.lower <= 0.0 <= elevationSpin.upper ==> elevationSpin.value == 0.0)
  {
    motionFrame.sensitive := !fixedActive;
    if fixedActive {
      if speedSpin != null {
        speedSpin.SetValue(0.0);
      }
      if azimuthSpin != null {
        azimuthSpin.SetValue(0.0);
      }
      if elevationSpin != null {
        elevationSpin.SetValue(0.0);
      }
    }
  }

  // ---------------------------------------------------------------------
  // The ranges the edit dialog starts from

  /** A device with id 0 is a new one. */
  predicate IsNewDevice(device: Device)
  {
    device.id == 0
  }

  /** The frequency range the dialog shows: (0, 0) for a new device,
      otherwise the stored range with a maximum that does not exceed the
      minimum moved to 0.1 above it. */
  function DialogFrequency(isNew: bool, minFreq: real, maxFreq: real): (r: (real, real))
    ensures isNew ==> r == (0.0, 0.0)
    ensures !isNew ==> r.0 == minFreq && r.0 < r.1
    ensures !isNew && maxFreq > minFreq ==> r.1 == maxFreq
    ensures !isNew && maxFreq <= minFreq ==> r.1 - r.0 == 0.1
  {
    if isNew then (0.0, 0.0)
    else if maxFreq <= minFreq then (minFreq, minFreq + 0.1)
    else (minFreq, maxFreq)
  }

  /** An angle range the dialog shows: (0, 0) for a new device, an
      ordered stored range unchanged, otherwise a one-degree range starting
      at the stored minimum, moved down so that it ends at the cap at the
      latest. */
  function DialogAngle(isNew: bool, minAngle: real, maxAngle: real, cap: real): (r: (real, real))
    ensures isNew ==> r == (0.0, 0.0)
    ensures !isNew && maxAngle > minAngle ==> r == (minAngle, maxAngle)
    ensures !isNew && maxAngle <= minAngle ==>
              r.0 == Min(minAngle, cap - 1.0) && r.1 - r.0 == 1.0 && r.1 <= cap
  {
    if isNew then (0.0, 0.0)
    else if maxAngle <= minAngle then
      (if minAngle + 1.0 > cap then (cap - 1.0, cap) else (minAngle, minAngle + 1.0))
    else (minAngle, maxAngle)
  }

  /** Every range the dialog shows for a stored device is ordered. */
  lemma DialogRangesOrdered(device: Device)
    requires !IsNewDevice(device)
    ensures var f := DialogFrequency(false, device.freqMin, device.freqMax); f.0 < f.1
    ensures var a := DialogAngle(false, device.azimuthMin, device.azimuthMax, AzimuthCap); a.0 < a.1
    ensures var e := DialogAngle(false, device.elevationMin, device.elevationMax, ElevationCap); e.0 < e.1
  {
  }

  /** Showing a repaired range again leaves it as it is. */
  lemma DialogAngleStable(minAngle: real, maxAngle: real, cap: real)
    ensures var r := DialogAngle(false, minAngle, maxAngle, cap);
            DialogAngle(false, r.0, r.1, cap) == r
  {
  }

  /** createEditDialog's range set-up: the locals that feed the six spin
      buttons, reassigned where a stored range needs repair. */
  method DialogRanges(device: Device)
    returns (minFreq: real, maxFreq: real, minAzimuth: real, maxAzimuth: real,
             minElevation: real, maxElevation: real)
    ensures (minFreq, maxFreq) == DialogFrequency(IsNewDevice(device), device.freqMin, device.freqMax)
    ensures (minAzimuth, maxAzimuth) == DialogAngle(IsNewDevice(device), device.azimuthMin, device.azimuthMax, AzimuthCap)
    ensures (minElevation, maxElevation) == DialogAngle(IsNewDevice(device), device.elevationMin, device.elevationMax, ElevationCap)
  {
    var isNewDevice := device.id == 0;
    if !isNewDevice {
      minFreq := device.freqMin;
      maxFreq := device.freqMax;
      if maxFreq <= minFreq {
        maxFreq := minFreq + 0.1;
      }
    } else {
      minFreq := 0.0;
      maxFreq := 0.0;
    }
    if !isNewDevice {
      minAzimuth := device.azimuthMin;
      maxAzimuth := device.azimuthMax;
      if maxAzimuth <= minAzimuth {
        maxAzimuth := minAzimuth + 1.0;
        if maxAzimuth > 360.0 {
          maxAzimuth := 360.0;
          minAzimuth := 359.0;
        }
      }
    } else {
      minAzimuth := 0.0;
      maxAzimuth := 0.0;
    }
    if !isNewDevice {
      minElevation := device.elevationMin;
      maxElevation := device.elevationMax;
      if maxElevation <= minElevation {
        maxElevation := minElevation + 1.0;
        if maxElevation > 90.0 {
          maxElevation := 90.0;
          minElevation := 89.0;
        }
      }
    } else {
      minElevation := 0.0;
      maxElevation := 0.0;
    }
  }

  // ---------------------------------------------------------------------
  // The device list

  /** The text of a list row's id column: std::to_string of the id. */
  function IdText(id: int): string
  {
    if id >= 0 then NatText(id) else "-" + NatText(-id)
  }

  /** The id column of the placeholder row shown when there are no
      devices. */
  const PlaceholderIdText: string := ""

  /** getSelectedDeviceId: -1 when no row is selected or its id text is
      empty, otherwise atoi of the text. */
  function SelectedDeviceId(selectedIdText: Option<string>): (r: int)
    ensures selectedIdText.None? ==> r == -1
    ensures selectedIdText == Some(PlaceholderIdText) ==> r == -1
  {
    match selectedIdText
    case None => -1
    case Some(text) => if |text| > 0 then Atoi(text) else -1
  }

  /** The id read back from a device's row is the device's id. */
  lemma SelectedRowId(id: int)
    ensures SelectedDeviceId(Some(IdText(id))) == id
  {
    if id >= 0 {
      AtoiNatText(id);
    } else {
      AtoiNegativeText(-id);
    }
  }

  /** The index of the clicked column among the view's columns, -1 when
      it is none of them. */
  method ColumnIndex(columns: seq<nat>, clicked: nat) returns (columnIndex: int)
    ensures columnIndex == -1 <==> clicked !in columns
    ensures columnIndex != -1 ==>
              0 <= columnIndex < |columns| && columns[columnIndex] == clicked && clicked !in columns[..columnIndex]
  {
    columnIndex := -1;
    var i := 0;
    while i < |columns|
      invariant 0 <= i <= |columns|
      invariant clicked !in columns[..i]
      decreases |columns| - i
    {
      if columns[i] == clicked {
        columnIndex := i;
        return;
      }
      i := i + 1;
    }
    assert columns[..i] == columns;
  }

  /** What a click on the list asks the controller or the view to do. */
  datatype Action =
    | NoAction
    | ShowDetails(deviceId: int)
    | ShowEditDialog(deviceId: int)
    | DeleteDevice(deviceId: int)

  /** on_button_press: a left single click on the view, edit or delete
      column (4, 5, 6) of a row with an id is handled; deleting also needs
      the user's yes. `column` is the index of the clicked column, None
      when the click hit no row; `selectedIdText` is the id text of the row
      the click selected. The result is whether the event was handled and
      the action taken. */
  function OnButtonPress(leftSingleClick: bool, column: Option<int>, selectedIdText: Option<string>,
                         confirmed: bool): (r: (bool, Action))
    ensures r.0 <==> leftSingleClick && column.Some? && 4 <= column.value <= 6 &&
                     SelectedDeviceId(selectedIdText) >= 0
    ensures r.1 != NoAction ==> r.0 && r.1.deviceId == SelectedDeviceId(selectedIdText)
    ensures r.1.DeleteDevice? ==> confirmed && column == Some(6)
  {
    if !leftSingleClick || column.None? then (false, NoAction)
    else
      var columnIndex := column.value;
      if 4 <= columnIndex <= 6 then
        var deviceId := SelectedDeviceId(selectedIdText);
        if deviceId < 0 then (false, NoAction)
        else if columnIndex == 4 then (true, ShowDetails(deviceId))
        else if columnIndex == 5 then (true, ShowEditDialog(deviceId))
        else (true, if confirmed then DeleteDevice(deviceId) else NoAction)
      else (false, NoAction)
  }

  /** on_row_activated (a double click): the view, edit and delete columns
      act as for a single click, the data columns 0 to 3 show the details;
      nothing happens without a selected id. */
  function OnRowActivated(column: int, selectedIdText: Option<string>, confirmed: bool): (r: Action)
    ensures SelectedDeviceId(selectedIdText) < 0 ==> r == NoAction
    ensures r != NoAction ==> r.deviceId == SelectedDeviceId(selectedIdText) && 0 <= column <= 6
    ensures r.DeleteDevice? ==> confirmed && column == 6
  {
    var deviceId := SelectedDeviceId(selectedIdText);
    if deviceId < 0 then NoAction
    else if column == 4 then ShowDetails(deviceId)
    else if column == 5 then ShowEditDialog(deviceId)
    else if column == 6 then (if confirmed then DeleteDevice(deviceId) else NoAction)
    else if 0 <= column <= 3 then ShowDetails(deviceId)
    else NoAction
  }

  /** Clicking a device's row acts on that device; the placeholder row
      shown for an empty list never triggers anything. */
  lemma ClickActsOnClickedRow(id: int, column: Option<int>, confirmed: bool)
    ensures OnButtonPress(true, column, Some(IdText(id)), confirmed).1 != NoAction ==>
              OnButtonPress(true, column, Some(IdText(id)), confirmed).1.deviceId == id
    ensures OnButtonPress(true, column, Some(PlaceholderIdText), confirmed) == (false, NoAction)
    ensures OnRowActivated(if column.Some? then column.value else -1, Some(PlaceholderIdText), confirmed) == NoAction
  {
    SelectedRowId(id);
  }
}
