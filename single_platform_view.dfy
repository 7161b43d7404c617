/** The single-platform page (views/src/SinglePlatformView.cpp): the error
    items shown for the chosen technical system, the device and source
    combo boxes (only moving devices, only fixed sources), the device name
    the page hands to the controller, the simulation time, and the map
    markers that follow the selections. */
module SinglePlatformView {
  import opened Common
  import opened Decimal
  import D = ReconnaissanceDeviceModel
  import S = RadiationSourceModel
  import opened ComboBox
  import MV = MapView

  // ---------------------------------------------------------------------
  // The error table

  /** "时差" and "干涉", the marks of the TDOA and the interferometer systems. */
  const TdoaMark: string := "\U{65F6}\U{5DEE}"
  const InterferometerMark: string := "\U{5E72}\U{6D89}"
  /** "时差体制" and "干涉仪体制", the names in the technical-system combo box. */
  const TdoaSystem: string := "\U{65F6}\U{5DEE}\U{4F53}\U{5236}"
  const InterferometerSystem: string := "\U{5E72}\U{6D89}\U{4EEA}\U{4F53}\U{5236}"

  /** "测向误差", the direction-finding error every system lists last. */
  const DirectionError: string := "\U{6D4B}\U{5411}\U{8BEF}\U{5DEE}"

  /** Delay, channel thermal noise, time measurement, TDOA measurement and
      direction-finding error. */
  const TdoaErrorItems: seq<string> := [
    "\U{65F6}\U{5EF6}\U{8BEF}\U{5DEE}",
    "\U{901A}\U{9053}\U{70ED}\U{566A}\U{58F0}\U{8BEF}\U{5DEE}",
    "\U{65F6}\U{95F4}\U{6D4B}\U{91CF}\U{8BEF}\U{5DEE}",
    "\U{65F6}\U{5DEE}\U{6D4B}\U{91CF}\U{8BEF}\U{5DEE}",
    DirectionError]

  /** Centring, attitude measurement, cone effect, antenna-array direction
      finding and direction-finding error. */
  const InterferometerErrorItems: seq<string> := [
    "\U{5BF9}\U{4E2D}\U{8BEF}\U{5DEE}",
    "\U{59FF}\U{6001}\U{6D4B}\U{91CF}\U{8BEF}\U{5DEE}",
    "\U{5706}\U{9525}\U{6548}\U{5E94}\U{8BEF}\U{5DEE}",
    "\U{5929}\U{7EBF}\U{9635}\U{6D4B}\U{5411}\U{8BEF}\U{5DEE}",
    DirectionError]

  /** Measurement, systematic, random, location and direction-finding
      error. */
  const GenericErrorItems: seq<string> := [
    "\U{6D4B}\U{91CF}\U{8BEF}\U{5DEE}",
    "\U{7CFB}\U{7EDF}\U{8BEF}\U{5DEE}",
    "\U{968F}\U{673A}\U{8BEF}\U{5DEE}",
    "\U{5B9A}\U{4F4D}\U{8BEF}\U{5DEE}",
    DirectionError]

  /** std::string::find(pattern) != npos. */
  predicate Contains(s: string, pattern: string)
  {
    MV.Find(s, pattern, 0).Some?
  }

  /** A string contains itself. */
  lemma ContainsItself(s: string)
    ensures Contains(s, s)
  {
    assert s[0..|s|] == s;
    assert MV.IsAt(s, s, 0);
  }

  /** The error items updateErrorTable lists for a technical system: the
      TDOA items when the name is or contains "时差", else the
      interferometer items when it is or contains "干涉", else the generic
      ones. */
  function ErrorItems(techSystem: string): seq<string>
  {
    if techSystem == TdoaSystem || Contains(techSystem, TdoaMark) then TdoaErrorItems
    else if techSystem == InterferometerSystem || Contains(techSystem, InterferometerMark) then InterferometerErrorItems
    else GenericErrorItems
  }

  /** There are always five items, the last one the direction-finding
      error; which list is shown depends only on the marks the name
      contains, the TDOA mark taking precedence. */
  lemma ErrorItemsChoice(techSystem: string)
    ensures |ErrorItems(techSystem)| == 5 && ErrorItems(techSystem)[4] == DirectionError
    ensures Contains(techSystem, TdoaMark) ==> ErrorItems(techSystem) == TdoaErrorItems
    ensures !Contains(techSystem, TdoaMark) && Contains(techSystem, InterferometerMark) ==>
              ErrorItems(techSystem) == InterferometerErrorItems
    ensures !Contains(techSystem, TdoaMark) && !Contains(techSystem, InterferometerMark) ==>
              ErrorItems(techSystem) == GenericErrorItems
  {
    if techSystem == TdoaSystem {
      assert MV.IsAt(techSystem, TdoaMark, 0) by {
        assert techSystem[0..2] == TdoaMark;
      }
    }
    if techSystem == InterferometerSystem {
      assert MV.IsAt(techSystem, InterferometerMark, 0) by {
        assert techSystem[0..2] == InterferometerMark;
      }
    }
  }

  /** The page opens with the interferometer items. */
  lemma InitialErrorItems()
    ensures ErrorItems(InterferometerSystem) == InterferometerErrorItems
  {
    var t := InterferometerSystem;
    forall i | 0 <= i
      ensures !MV.IsAt(t, TdoaMark, i)
    {
      if i + 2 <= |t| {
        assert t[i..i + 2][0] == t[i];
      }
    }
  }

  // ---------------------------------------------------------------------
  // Combo box contents

  /** "无侦察设备" and "无辐射源", shown when there is nothing to choose. */
  const NoDevicePlaceholder: string := "\U{65E0}\U{4FA6}\U{5BDF}\U{8BBE}\U{5907}"
  const NoSourcePlaceholder: string := "\U{65E0}\U{8F90}\U{5C04}\U{6E90}"

  /** The device combo box after updateDeviceCombo: the placeholder for
      an empty device list, otherwise the moving devices in order. */
  function DeviceComboItems(devices: seq<D.Device>): seq<string>
  {
    if |devices| == 0 then [NoDevicePlaceholder] else Filtered(devices, D.Mobile, D.DeviceName)
  }

  /** The source combo box after updateSourceCombo: the placeholder for an
      empty source list, otherwise the fixed sources in order. */
  function SourceComboItems(sources: seq<S.Source>): seq<string>
  {
    if |sources| == 0 then [NoSourcePlaceholder] else Filtered(sources, S.Stationary, S.SourceName)
  }

  /** A non-empty device list offers exactly the names of its moving
      devices, so the placeholder appears only when no moving device
      carries it; a list of fixed devices alone offers nothing. */
  lemma DeviceComboMeaning(devices: seq<D.Device>, name: string)
    requires |devices| > 0
    ensures name in DeviceComboItems(devices) <==>
              exists i :: 0 <= i < |devices| && !devices[i].isStationary && devices[i].name == name
    ensures (forall i :: 0 <= i < |devices| ==> devices[i].isStationary) ==> DeviceComboItems(devices) == []
  {
    FilteredMembers(devices, D.Mobile, D.DeviceName, name);
    FilteredExtremes(devices, D.Mobile, D.DeviceName);
  }

  /** A non-empty source list offers exactly the names of its fixed
      sources. */
  lemma SourceComboMeaning(sources: seq<S.Source>, name: string)
    requires |sources| > 0
    ensures name in SourceComboItems(sources) <==>
              exists i :: 0 <= i < |sources| && sources[i].isStationary && sources[i].name == name
    ensures (forall i :: 0 <= i < |sources| ==> !sources[i].isStationary) ==> SourceComboItems(sources) == []
  {
    FilteredMembers(sources, S.Stationary, S.SourceName, name);
    FilteredExtremes(sources, S.Stationary, S.SourceName);
  }

  // ---------------------------------------------------------------------
  // What the page reports

  /** getSelectedDevice: "" without devices or for an empty or placeholder
      selection, the selection when it names a device, otherwise the first
      device's name, whether or not that device moves. */
  function SelectedDevice(devices: seq<D.Device>, activeText: Option<string>): (r: string)
    ensures |devices| == 0 ==> r == ""
    ensures r != "" ==> exists i :: 0 <= i < |devices| && devices[i].name == r
  {
    var result := if activeText.Some? then activeText.value else "";
    if |devices| == 0 then ""
    else if result == "" || result == NoDevicePlaceholder then ""
    else if FirstLabelled(devices, D.DeviceName, result).Some? then result
    else devices[0].name
  }

  /** A selection naming a device is returned as it is; one naming none
      falls back to the first device. */
  lemma SelectedDeviceCases(devices: seq<D.Device>, text: string)
    requires |devices| > 0 && text != "" && text != NoDevicePlaceholder
    ensures (exists i :: 0 <= i < |devices| && devices[i].name == text) ==> SelectedDevice(devices, Some(text)) == text
    ensures (forall i :: 0 <= i < |devices| ==> devices[i].name != text) ==>
              SelectedDevice(devices, Some(text)) == devices[0].name
  {
    if exists i :: 0 <= i < |devices| && devices[i].name == text {
      var i :| 0 <= i < |devices| && devices[i].name == text;
      assert D.DeviceName(devices[i]) == text;
    }
  }

  /** getSimulationTime: atoi of the entry's text, 0 when there is no
      text. */
  function SimulationTime(entryText: Option<string>): (r: int)
    ensures entryText.None? ==> r == 0
  {
    if entryText.Some? then Atoi(entryText.value) else 0
  }

  /** A whole number of seconds typed into the entry is read back. */
  lemma SimulationTimeOfDigits(n: nat)
    ensures SimulationTime(Some(NatText(n))) == n
  {
    AtoiNatText(n);
  }

  /** After a refill whose first row is selected, the selection names an
      item of the list exactly when the refill offered something. */
  lemma FirstRowNamesItem<T>(xs: seq<T>, keep: T -> bool, nameOf: T -> string, selected: Option<string>)
    requires Filtered(xs, keep, nameOf) == [] ==> selected.None?
    requires Filtered(xs, keep, nameOf) != [] ==> selected == Some(Filtered(xs, keep, nameOf)[0])
    ensures SelectedIndex(xs, nameOf, selected).Some? <==> Filtered(xs, keep, nameOf) != []
  {
    if Filtered(xs, keep, nameOf) != [] {
      FilteredMembers(xs, keep, nameOf, selected.value);
    }
  }

  // ---------------------------------------------------------------------
  // The page

  class SinglePlatformView {
    var devices: seq<D.Device>
    var sources: seq<S.Source>
    /** The items of the error table. */
    var errorItems: seq<string>
    /** The markers drawn for the selected device and source, -1 for none. */
    var radarMarker: int
    var sourceMarker: int
    /** The text of the simulation-time entry, None when it gives none. */
    var timeText: Option<string>
    const hasErrorTable: bool
    const radarCombo: ComboBoxText?
    const sourceCombo: ComboBoxText?
    const mapView: MV.MapView?

    function MapFrame(): set<object>
    {
      if mapView == null then {} else {mapView, mapView.counter}
    }

    function RadarFrame(): set<object>
    {
      if radarCombo == null then {} else {radarCombo}
    }

    function SourceFrame(): set<object>
    {
      if sourceCombo == null then {} else {sourceCombo}
    }

    predicate Valid()
      reads this, RadarFrame(), SourceFrame(), MapFrame()
    {
      (radarCombo != null ==> radarCombo.Valid()) &&
      (sourceCombo != null ==> sourceCombo.Valid()) &&
      (radarCombo != null && sourceCombo != null ==> radarCombo != sourceCombo) &&
      (mapView != null ==> mapView.Valid())
    }

    /** The selected texts; NULL when a combo box is missing. */
    function RadarText(): Option<string>
      requires Valid()
      reads this, RadarFrame(), SourceFrame(), MapFrame()
    {
      if radarCombo == null then None else radarCombo.ActiveText()
    }

    function SourceText(): Option<string>
      requires Valid()
      reads this, RadarFrame(), SourceFrame(), MapFrame()
    {
      if sourceCombo == null then None else sourceCombo.ActiveText()
    }

    /** The constructor: no data and no markers. The widgets createView
        builds are passed in. */
    constructor(hasErrorTable: bool, radarCombo: ComboBoxText?, sourceCombo: ComboBoxText?, mapView: MV.MapView?)
      requires radarCombo != null ==> radarCombo.Valid()
      requires sourceCombo != null ==> sourceCombo.Valid()
      requires radarCombo != null && sourceCombo != null ==> radarCombo != sourceCombo
      requires mapView != null ==> mapView.Valid()
      ensures this.hasErrorTable == hasErrorTable && this.radarCombo == radarCombo &&
              this.sourceCombo == sourceCombo && this.mapView == mapView
      ensures devices == [] && sources == [] && errorItems == [] && timeText == None
      ensures radarMarker == -1 && sourceMarker == -1
      ensures Valid()
    {
      this.hasErrorTable := hasErrorTable;
      this.radarCombo := radarCombo;
      this.sourceCombo := sourceCombo;
      this.mapView := mapView;
      devices := [];
      sources := [];
      errorItems := [];
      timeText := None;
      radarMarker := -1;
      sourceMarker := -1;
    }

    /** updateErrorTable: the table is refilled with the system's five
        items; nothing happens without a table. */
    method UpdateErrorTable(techSystem: string)
      modifies this
      ensures errorItems == if hasErrorTable then ErrorItems(techSystem) else old(errorItems)
      ensures devices == old(devices) && sources == old(sources) && timeText == old(timeText)
      ensures radarMarker == old(radarMarker) && sourceMarker == old(sourceMarker)
    {
      if !hasErrorTable {
        return;
      }
      var items: seq<string>;
      if techSystem == TdoaSystem || Contains(techSystem, TdoaMark) {
        items := TdoaErrorItems;
      } else if techSystem == InterferometerSystem || Contains(techSystem, InterferometerMark) {
        items := InterferometerErrorItems;
      } else {
        items := GenericErrorItems;
      }
      var shown: seq<string> := [];
      for i := 0 to 5
        invariant shown == items[..i]
      {
        shown := shown + [items[i]];
      }
      errorItems := shown;
    }

    /** updateRadarMarker: without a map nothing happens; otherwise the
        previous marker is removed and the field reset to -1, and a new
        red marker is added for the device the selection names, if any. */
    method UpdateRadarMarker()
      requires Valid()
      modifies this, MapFrame()
      ensures Valid()
      ensures devices == old(devices) && sources == old(sources) && errorItems == old(errorItems)
      ensures timeText == old(timeText) && sourceMarker == old(sourceMarker)
      ensures mapView == null ==> radarMarker == old(radarMarker)
      ensures mapView != null ==> mapView.hasWebView == old(mapView.hasWebView)
      ensures mapView != null ==>
                radarMarker == if mapView.hasWebView && SelectedIndex(devices, D.DeviceName, RadarText()).Some?
                               then old(mapView.counter.next) else -1
      ensures mapView != null && radarMarker != -1 ==>
                |mapView.executed| > 0 && MV.AddsMarker(mapView.executed[|mapView.executed| - 1]) &&
                mapView.executed[|mapView.executed| - 1].id == radarMarker
      ensures mapView != null && old(radarMarker) != -1 && mapView.hasWebView ==>
                |mapView.executed| > |old(mapView.executed)| &&
                mapView.executed[|old(mapView.executed)|] ==
                  (if mapView.use3DMap then MV.RemoveEntity(old(radarMarker))
                   else MV.RemoveLeafletMarker(old(radarMarker)))
    {
      if mapView == null {
        return;
      }
      var name := if radarCombo == null then None else radarCombo.ActiveText();
      var target: Option<(real, real, string)> := None;
      if name.Some? {
        var found := IndexOfLabel(devices, D.DeviceName, name.value);
        if found.Some? {
          target := Some((devices[found.value].longitude, devices[found.value].latitude, name.value));
        }
      }
      radarMarker := MV.ReplaceMarker(mapView, radarMarker, target, "red");
    }

    /** updateSourceMarker: the same for the selected source, in blue. */
    method UpdateSourceMarker()
      requires Valid()
      modifies this, MapFrame()
      ensures Valid()
      ensures devices == old(devices) && sources == old(sources) && errorItems == old(errorItems)
      ensures timeText == old(timeText) && radarMarker == old(radarMarker)
      ensures mapView == null ==> sourceMarker == old(sourceMarker)
      ensures mapView != null ==> mapView.hasWebView == old(mapView.hasWebView)
      ensures mapView != null ==>
                sourceMarker == if mapView.hasWebView && SelectedIndex(sources, S.SourceName, SourceText()).Some?
                                then old(mapView.counter.next) else -1
      ensures mapView != null && sourceMarker != -1 ==>
                |mapView.executed| > 0 && MV.AddsMarker(mapView.executed[|mapView.executed| - 1]) &&
                mapView.executed[|mapView.executed| - 1].id == sourceMarker
      ensures mapView != null && old(sourceMarker) != -1 && mapView.hasWebView ==>
                |mapView.executed| > |old(mapView.executed)| &&
                mapView.executed[|old(mapView.executed)|] ==
                  (if mapView.use3DMap then MV.RemoveEntity(old(sourceMarker))
                   else MV.RemoveLeafletMarker(old(sourceMarker)))
    {
      if mapView == null {
        return;
      }
      var name := if sourceCombo == null then None else sourceCombo.ActiveText();
      var target: Option<(real, real, string)> := None;
      if name.Some? {
        var found := IndexOfLabel(sources, S.SourceName, name.value);
        if found.Some? {
          target := Some((sources[found.value].longitude, sources[found.value].latitude, name.value));
        }
      }
      sourceMarker := MV.ReplaceMarker(mapView, sourceMarker, target, "blue");
    }

    /** The rows of updateDeviceCombo: the placeholder or the filtered
        names, the first row selected. */
    method RefillDeviceCombo()
      requires Valid() && radarCombo != null
      modifies radarCombo
      ensures Valid()
      ensures radarCombo.items == DeviceComboItems(devices) &&
              radarCombo.active == (if |radarCombo.items| > 0 then 0 else -1)
    {
      radarCombo.RemoveAll();
      if |devices| == 0 {
        radarCombo.AppendText(NoDevicePlaceholder);
      } else {
        AppendFiltered(radarCombo, devices, D.Mobile, D.DeviceName);
      }
      radarCombo.SetActive(0);
    }

    /** updateDeviceCombo: the combo box is refilled and its first row
        selected; the marker follows, except when there are no devices. */
    method UpdateDeviceCombo()
      requires Valid()
      modifies this, RadarFrame(), MapFrame()
      ensures Valid()
      ensures devices == old(devices) && sources == old(sources) && errorItems == old(errorItems)
      ensures timeText == old(timeText) && sourceMarker == old(sourceMarker)
      ensures radarCombo != null ==>
                radarCombo.items == DeviceComboItems(devices) &&
                radarCombo.active == (if |radarCombo.items| > 0 then 0 else -1)
      ensures radarCombo == null || |devices| == 0 || mapView == null ==> radarMarker == old(radarMarker)
      ensures mapView != null ==> mapView.hasWebView == old(mapView.hasWebView)
      ensures radarCombo != null && |devices| > 0 && mapView != null ==>
                radarMarker == if mapView.hasWebView && DeviceComboItems(devices) != []
                               then old(mapView.counter.next) else -1
    {
      if radarCombo == null {
        return;
      }
      RefillDeviceCombo();
      if |devices| == 0 {
        return;
      }
      FirstRowNamesItem(devices, D.Mobile, D.DeviceName, RadarText());
      UpdateRadarMarker();
    }

    /** The rows of updateSourceCombo: the placeholder or the filtered
        names, the first row selected. */
    method RefillSourceCombo()
      requires Valid() && sourceCombo != null
      modifies sourceCombo
      ensures Valid()
      ensures sourceCombo.items == SourceComboItems(sources) &&
              sourceCombo.active == (if |sourceCombo.items| > 0 then 0 else -1)
    {
      sourceCombo.RemoveAll();
      if |sources| == 0 {
        sourceCombo.AppendText(NoSourcePlaceholder);
      } else {
        AppendFiltered(sourceCombo, sources, S.Stationary, S.SourceName);
      }
      sourceCombo.SetActive(0);
    }

    /** updateSourceCombo: the same for the fixed sources. */
    method UpdateSourceCombo()
      requires Valid()
      modifies this, SourceFrame(), MapFrame()
      ensures Valid()
      ensures devices == old(devices) && sources == old(sources) && errorItems == old(errorItems)
      ensures timeText == old(timeText) && radarMarker == old(radarMarker)
      ensures sourceCombo != null ==>
                sourceCombo.items == SourceComboItems(sources) &&
                sourceCombo.active == (if |sourceCombo.items| > 0 then 0 else -1)
      ensures sourceCombo == null || |sources| == 0 || mapView == null ==> sourceMarker == old(sourceMarker)
      ensures mapView != null ==> mapView.hasWebView == old(mapView.hasWebView)
      ensures sourceCombo != null && |sources| > 0 && mapView != null ==>
                sourceMarker == if mapView.hasWebView && SourceComboItems(sources) != []
                                then old(mapView.counter.next) else -1
    {
      if sourceCombo == null {
        return;
      }
      RefillSourceCombo();
      if |sources| == 0 {
        return;
      }
      FirstRowNamesItem(sources, S.Stationary, S.SourceName, SourceText());
      UpdateSourceMarker();
    }

    /** The data part of createView: the interferometer items, then the
        devices and sources read from the database and the combo boxes
        filled from them. */
    method LoadData(allDevices: seq<D.Device>, allSources: seq<S.Source>)
      requires Valid()
      modifies this, RadarFrame(), SourceFrame(), MapFrame()
      ensures Valid()
      ensures devices == allDevices && sources == allSources
      ensures hasErrorTable ==> errorItems == InterferometerErrorItems
      ensures radarCombo != null ==>
                radarCombo.items == DeviceComboItems(allDevices) &&
                radarCombo.active == (if |radarCombo.items| > 0 then 0 else -1)
      ensures sourceCombo != null ==>
                sourceCombo.items == SourceComboItems(allSources) &&
                sourceCombo.active == (if |sourceCombo.items| > 0 then 0 else -1)
      ensures mapView != null ==> mapView.hasWebView == old(mapView.hasWebView)
      ensures radarCombo == null || |allDevices| == 0 || mapView == null ==> radarMarker == old(radarMarker)
      ensures radarCombo != null && |allDevices| > 0 && mapView != null ==>
                (radarMarker != -1 <==> mapView.hasWebView && DeviceComboItems(allDevices) != [])
      ensures sourceCombo == null || |allSources| == 0 || mapView == null ==> sourceMarker == old(sourceMarker)
      ensures sourceCombo != null && |allSources| > 0 && mapView != null ==>
                (sourceMarker != -1 <==> mapView.hasWebView && SourceComboItems(allSources) != [])
    {
      UpdateErrorTable(InterferometerSystem);
      InitialErrorItems();
      devices := allDevices;
      sources := allSources;
      UpdateDeviceCombo();
      UpdateSourceCombo();
    }

    /** onTechSystemChanged: the error table and both combo boxes are
        rebuilt for the system chosen. */
    method OnTechSystemChanged(techText: Option<string>)
      requires Valid()
      modifies this, RadarFrame(), SourceFrame(), MapFrame()
      ensures Valid()
      ensures devices == old(devices) && sources == old(sources)
      ensures errorItems == if hasErrorTable then ErrorItems(if techText.Some? then techText.value else "") else old(errorItems)
      ensures radarCombo != null ==>
                radarCombo.items == DeviceComboItems(devices) &&
                radarCombo.active == (if |radarCombo.items| > 0 then 0 else -1)
      ensures sourceCombo != null ==>
                sourceCombo.items == SourceComboItems(sources) &&
                sourceCombo.active == (if |sourceCombo.items| > 0 then 0 else -1)
      ensures mapView != null ==> mapView.hasWebView == old(mapView.hasWebView)
      ensures radarCombo == null || |devices| == 0 || mapView == null ==> radarMarker == old(radarMarker)
      ensures radarCombo != null && |devices| > 0 && mapView != null ==>
                (radarMarker != -1 <==> mapView.hasWebView && DeviceComboItems(devices) != [])
      ensures sourceCombo == null || |sources| == 0 || mapView == null ==> sourceMarker == old(sourceMarker)
      ensures sourceCombo != null && |sources| > 0 && mapView != null ==>
                (sourceMarker != -1 <==> mapView.hasWebView && SourceComboItems(sources) != [])
    {
      var techSystem := if techText.Some? then techText.value else "";
      UpdateErrorTable(techSystem);
      UpdateDeviceCombo();
      UpdateSourceCombo();
    }

    /** getSelectedDevice, with its search loop. */
    method GetSelectedDevice() returns (name: string)
      requires Valid()
      ensures name == SelectedDevice(devices, RadarText())
    {
      var text := if radarCombo == null then None else radarCombo.ActiveText();
      var result := if text.Some? then text.value else "";
      if |devices| == 0 {
        return "";
      }
      if result == "" || result == NoDevicePlaceholder {
        return "";
      }
      var found := IndexOfLabel(devices, D.DeviceName, result);
      if found.Some? {
        return result;
      }
      return devices[0].name;
    }

    /** getSimulationTime. */
    method GetSimulationTime() returns (seconds: int)
      ensures seconds == SimulationTime(timeText)
    {
      seconds := SimulationTime(timeText);
    }
  }
}
