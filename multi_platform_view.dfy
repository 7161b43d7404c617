/** The multi-platform page (views/src/MultiPlatformView.cpp): the choice
    between the TDOA and the FDOA system, the four device slots of which
    three or four are shown, the devices and sources each slot offers, the
    check that enough different devices are chosen, the request handed to
    the controller, and the map markers that follow the selections. */
module MultiPlatformView {
  import opened Common
  import D = ReconnaissanceDeviceModel
  import S = RadiationSourceModel
  import opened ComboBox
  import MV = MapView

  /** "时差体制" and "频差体制", the two rows of the system combo box. */
  const TdoaSystem: string := "\U{65F6}\U{5DEE}\U{4F53}\U{5236}"
  const FdoaSystem: string := "\U{9891}\U{5DEE}\U{4F53}\U{5236}"
  const SystemItems: seq<string> := [TdoaSystem, FdoaSystem]

  /** "仿真执行时间(s):", the caption beside the time entry. */
  const TimeCaption: string := "\U{4EFF}\U{771F}\U{6267}\U{884C}\U{65F6}\U{95F4}(s):"
  /** The text the time entry starts with, and the time used when no
      number can be read. */
  const InitialTimeText: string := "20"
  const DefaultSimulationTime: real := 20.0

  /** The number of devices a system needs: four for TDOA (row 0), three
      otherwise. */
  function Required(techSystem: int): (r: nat)
    ensures r <= 4
    ensures r == 4 <==> techSystem == 0
  {
    if techSystem == 0 then 4 else 3
  }

  /** onTechSystemChanged: all four slots shown for TDOA, the first three
      otherwise. */
  function VisibleFrames(techSystem: int): (r: seq<bool>)
    ensures |r| == 4
    ensures forall i :: 0 <= i < 4 ==> (r[i] <==> i < Required(techSystem))
  {
    seq(4, i => techSystem == 0 || i < 3)
  }

  // ---------------------------------------------------------------------
  // What the slots offer

  /** updateDeviceCombos' filter: TDOA slots offer fixed devices only; the
      fourth FDOA slot offers nothing. */
  predicate SlotKeeps(techSystem: int, slot: int, d: D.Device)
  {
    !(techSystem == 0 && !d.isStationary) && !(techSystem == 1 && slot >= 3)
  }

  function SlotFilter(techSystem: int, slot: int): D.Device -> bool
  {
    d => SlotKeeps(techSystem, slot, d)
  }

  /** The names a device slot lists. */
  function SlotItems(devices: seq<D.Device>, techSystem: int, slot: int): seq<string>
  {
    Filtered(devices, SlotFilter(techSystem, slot), D.DeviceName)
  }

  /** Under TDOA a slot lists exactly the fixed devices' names; under FDOA
      the first three slots list every device in order and the fourth
      none. */
  lemma SlotItemsMeaning(devices: seq<D.Device>, techSystem: int, slot: int, name: string)
    ensures techSystem == 0 ==>
              (name in SlotItems(devices, techSystem, slot) <==>
               exists i :: 0 <= i < |devices| && devices[i].isStationary && devices[i].name == name)
    ensures techSystem == 1 && slot < 3 ==>
              SlotItems(devices, techSystem, slot) == seq(|devices|, i requires 0 <= i < |devices| => devices[i].name)
    ensures techSystem == 1 && slot >= 3 ==> SlotItems(devices, techSystem, slot) == []
  {
    FilteredMembers(devices, SlotFilter(techSystem, slot), D.DeviceName, name);
    FilteredExtremes(devices, SlotFilter(techSystem, slot), D.DeviceName);
  }

  /** updateSourceCombo's filter: TDOA offers fixed sources only. */
  predicate SourceKeeps(techSystem: int, s: S.Source)
  {
    !(techSystem == 0 && !s.isStationary)
  }

  function SourceFilter(techSystem: int): S.Source -> bool
  {
    s => SourceKeeps(techSystem, s)
  }

  function SourceItems(sources: seq<S.Source>, techSystem: int): seq<string>
  {
    Filtered(sources, SourceFilter(techSystem), S.SourceName)
  }

  /** Under TDOA the source list holds exactly the fixed sources' names;
      otherwise every source in order. */
  lemma SourceItemsMeaning(sources: seq<S.Source>, techSystem: int, name: string)
    ensures techSystem == 0 ==>
              (name in SourceItems(sources, techSystem) <==>
               exists i :: 0 <= i < |sources| && sources[i].isStationary && sources[i].name == name)
    ensures techSystem != 0 ==>
              SourceItems(sources, techSystem) == seq(|sources|, i requires 0 <= i < |sources| => sources[i].name)
  {
    FilteredMembers(sources, SourceFilter(techSystem), S.SourceName, name);
    FilteredExtremes(sources, SourceFilter(techSystem), S.SourceName);
  }

  // ---------------------------------------------------------------------
  // The device check

  predicate PairwiseDistinct(xs: seq<string>)
  {
    forall i, j :: 0 <= i < j < |xs| ==> xs[i] != xs[j]
  }

  function NameSet(xs: seq<string>): set<string>
  {
    set x | x in xs
  }

  /** Sorting and std::unique leave one copy of each name: never more
      than there are names, and as many exactly when no name repeats. */
  lemma {:induction false} NameSetSize(xs: seq<string>)
    ensures |NameSet(xs)| <= |xs|
    ensures |NameSet(xs)| == |xs| <==> PairwiseDistinct(xs)
  {
    if |xs| > 0 {
      var front := xs[..|xs| - 1];
      var last := xs[|xs| - 1];
      NameSetSize(front);
      assert NameSet(xs) == NameSet(front) + {last} by {
        assert xs == front + [last];
      }
      if last in front {
        var k :| 0 <= k < |front| && front[k] == last;
        assert xs[k] == xs[|xs| - 1];
        assert NameSet(xs) == NameSet(front);
      } else {
        assert last !in NameSet(front);
        if PairwiseDistinct(xs) {
          assert PairwiseDistinct(front) by {
            forall i, j | 0 <= i < j < |front|
              ensures front[i] != front[j]
            {
              assert xs[i] != xs[j];
            }
          }
        }
        if PairwiseDistinct(front) {
          forall i, j | 0 <= i < j < |xs|
            ensures xs[i] != xs[j]
          {
            if j < |xs| - 1 {
              assert front[i] != front[j];
            } else {
              assert front[i] in front;
            }
          }
        }
      }
    }
  }

  /** The selected names of the first `n` slots, the slots without a
      selection skipped: what onStartSimulation hands on. */
  function PresentNames(texts: seq<Option<string>>, n: nat): (r: seq<string>)
    requires n <= |texts|
    ensures |r| <= n
  {
    if n == 0 then []
    else PresentNames(texts, n - 1) + (if texts[n - 1].Some? then [texts[n - 1].value] else [])
  }

  /** checkRadarModels' collecting loop over the first `n` slots: hidden
      slots are skipped and a shown slot without a selection stops the
      check (None). */
  function Collected(visible: seq<bool>, texts: seq<Option<string>>, n: nat): Option<seq<string>>
    requires n <= |visible| && n <= |texts|
  {
    if n == 0 then Some([])
    else
      match Collected(visible, texts, n - 1)
      case None => None
      case Some(names) =>
        if !visible[n - 1] then Some(names)
        else if texts[n - 1].None? then None
        else Some(names + [texts[n - 1].value])
  }

  /** checkRadarModels: every shown slot among the first `required` has a
      selection, and they hold at least `required` different names. */
  predicate RadarCheck(visible: seq<bool>, texts: seq<Option<string>>, required: nat)
    requires required <= |visible| && required <= |texts|
  {
    match Collected(visible, texts, required)
    case None => false
    case Some(names) => |NameSet(names)| >= required
  }

  lemma {:induction false} CollectedShape(visible: seq<bool>, texts: seq<Option<string>>, n: nat)
    requires n <= |visible| && n <= |texts|
    ensures Collected(visible, texts, n).Some? <==> forall i :: 0 <= i < n && visible[i] ==> texts[i].Some?
    ensures Collected(visible, texts, n).Some? ==> |Collected(visible, texts, n).value| <= n
    ensures Collected(visible, texts, n).Some? && (exists i :: 0 <= i < n && !visible[i]) ==>
              |Collected(visible, texts, n).value| < n
    ensures (forall i :: 0 <= i < n ==> visible[i] && texts[i].Some?) ==>
              Collected(visible, texts, n) == Some(PresentNames(texts, n))
  {
    if n > 0 {
      CollectedShape(visible, texts, n - 1);
    }
  }

  /** With every one of the first `n` slots selected, the names are the
      selections in slot order. */
  lemma {:induction false} PresentNamesAll(texts: seq<Option<string>>, n: nat)
    requires n <= |texts|
    requires forall i :: 0 <= i < n ==> texts[i].Some?
    ensures |PresentNames(texts, n)| == n
    ensures forall i :: 0 <= i < n ==> PresentNames(texts, n)[i] == texts[i].value
  {
    if n > 0 {
      PresentNamesAll(texts, n - 1);
    }
  }

  /** The check passes exactly when each of the first `required` slots is
      shown and selected and no two of them hold the same device. */
  lemma RadarCheckMeaning(visible: seq<bool>, texts: seq<Option<string>>, required: nat)
    requires required <= |visible| && required <= |texts|
    ensures RadarCheck(visible, texts, required) <==>
              (forall i :: 0 <= i < required ==> visible[i] && texts[i].Some?) &&
              (forall i, j :: 0 <= i < j < required ==> texts[i] != texts[j])
  {
    CollectedShape(visible, texts, required);
    var collected := Collected(visible, texts, required);
    if collected.Some? {
      NameSetSize(collected.value);
    }
    if forall i :: 0 <= i < required ==> visible[i] && texts[i].Some? {
      PresentNamesAll(texts, required);
      var names := PresentNames(texts, required);
      assert PairwiseDistinct(names) <==> forall i, j :: 0 <= i < j < required ==> texts[i] != texts[j] by {
        assert forall i :: 0 <= i < required ==> texts[i] == Some(names[i]);
      }
    } else if collected.Some? {
      var k :| 0 <= k < required && !(visible[k] && texts[k].Some?);
      assert !visible[k];
    }
  }

  /** createView shows the first three slots while the system combo box
      already has TDOA (row 0) selected, and its "changed" handler is
      connected only after that selection. */
  function CreateViewVisibility(): seq<bool>
  {
    seq(4, i => i < 3)
  }

  /** Between createView and the window being shown, only three slots
      are visible while TDOA, which needs four devices, is selected, so
      the check cannot pass in that state. The application then shows the
      whole window with gtk_widget_show_all
      (controllers/src/ApplicationController.cpp:157), which makes all
      four slots visible again; the page opens in that state, the one the
      constructor below starts from. */
  lemma CreateViewBlocksTdoa(texts: seq<Option<string>>)
    requires |texts| == 4
    ensures !RadarCheck(CreateViewVisibility(), texts, Required(0))
  {
    RadarCheckMeaning(CreateViewVisibility(), texts, Required(0));
    assert !CreateViewVisibility()[3];
  }

  /** With the slots shown as the selected system requires, the check
      passes exactly when the required slots hold different devices. */
  lemma MatchingVisibilityCheck(techSystem: int, texts: seq<Option<string>>)
    requires |texts| == 4
    ensures RadarCheck(VisibleFrames(techSystem), texts, Required(techSystem)) <==>
              (forall i :: 0 <= i < Required(techSystem) ==> texts[i].Some?) &&
              (forall i, j :: 0 <= i < j < Required(techSystem) ==> texts[i] != texts[j])
  {
    RadarCheckMeaning(VisibleFrames(techSystem), texts, Required(techSystem));
  }

  // ---------------------------------------------------------------------
  // The simulation time

  /** The widgets onStartSimulation walks: a frame holds one child, boxes
      and grids hold several. */
  datatype Widget =
    | Frame(content: Widget)
    | Box(children: seq<Widget>)
    | Grid(cells: seq<Widget>)
    | Entry(text: string)
    | Label(caption: string)
    | ComboBoxWidget

  /** gtk_bin_get_child: a frame's child; NULL for a widget that is not a
      bin. */
  function BinChild(w: Widget): (r: Option<Widget>)
    ensures r.Some? <==> w.Frame?
  {
    match w
    case Frame(content) => Some(content)
    case _ => None
  }

  /** The text of the first entry among some widgets. */
  function FirstEntryText(children: seq<Widget>): (r: Option<string>)
    ensures r.None? <==> forall i :: 0 <= i < |children| ==> !children[i].Entry?
    ensures r.Some? ==> exists i :: 0 <= i < |children| && children[i] == Entry(r.value)
  {
    if |children| == 0 then None
    else if children[0].Entry? then Some(children[0].text)
    else
      var rest := FirstEntryText(children[1..]);
      assert rest.Some? ==> children[1..][0..] == children[1..];
      rest
  }

  /** The lookup of the time entry: the child of the given container, when
      it is a box, searched for its first entry. */
  function EntryTextBelow(container: Widget): Option<string>
  {
    match BinChild(container)
    case Some(Box(children)) => FirstEntryText(children)
    case _ => None
  }

  /** The search of onStartSimulation, with its loop over the box's
      children. */
  method FindEntryText(container: Widget) returns (text: Option<string>)
    ensures text == EntryTextBelow(container)
  {
    text := None;
    var child := BinChild(container);
    if child.Some? && child.value.Box? {
      var children := child.value.children;
      var i := 0;
      while i < |children|
        invariant 0 <= i <= |children|
        invariant FirstEntryText(children) == FirstEntryText(children[i..])
      {
        if children[i].Entry? {
          text := Some(children[i].text);
          return;
        }
        assert children[i..][1..] == children[i + 1..];
        i := i + 1;
      }
    }
  }

  /** The grid holding the four device slots, each a frame around a box
      with its combo box. */
  function RadarGrid(): Widget
  {
    Grid(seq(4, i => Frame(Box([ComboBoxWidget]))))
  }

  /** The parameter frame: a box with the caption and the time entry. */
  function TimeFrame(timeText: string): Widget
  {
    Frame(Box([Label(TimeCaption), Entry(timeText)]))
  }

  /** The time an entry's text gives: std::stod's value, or 20 seconds
      for no entry, an empty text or a text stod rejects. `stod` stands
      for std::stod. */
  function TimeOf(entryText: Option<string>, stod: string -> Option<real>): real
  {
    if entryText.Some? && entryText.value != "" && stod(entryText.value).Some? then stod(entryText.value).value
    else DefaultSimulationTime
  }

  /** As written, onStartSimulation looks for the entry below the parent of
      the first device frame, which is the device grid; a grid is not a
      bin, so no entry is found and the time is always 20 seconds,
      whatever the entry holds. */
  function SimulationTimeAsWritten(timeText: string, stod: string -> Option<real>): (r: real)
    ensures r == DefaultSimulationTime
  {
    TimeOf(EntryTextBelow(RadarGrid()), stod)
  }

  /** The typed time is ignored: an entry holding "60" that stod reads as
      60 still gives 20 seconds. */
  lemma TypedTimeIgnored(stod: string -> Option<real>)
    requires stod("60") == Some(60.0)
    ensures SimulationTimeAsWritten("60", stod) != TimeOf(Some("60"), stod)
  {
  }

  /** The time read from the parameter frame, where the entry is: the
      entry's number when stod reads one, 20 seconds otherwise. */
  function SimulationTime(timeText: string, stod: string -> Option<real>): (r: real)
    ensures timeText != "" && stod(timeText).Some? ==> r == stod(timeText).value
    ensures timeText == "" || stod(timeText).None? ==> r == DefaultSimulationTime
  {
    assert EntryTextBelow(TimeFrame(timeText)) == Some(timeText) by {
      assert [Label(TimeCaption), Entry(timeText)][1..] == [Entry(timeText)];
      assert FirstEntryText([Entry(timeText)]) == Some(timeText);
    }
    TimeOf(EntryTextBelow(TimeFrame(timeText)), stod)
  }

  /** What onStartSimulation hands to MultiPlatformController. */
  datatype StartRequest = StartRequest(
    deviceNames: seq<string>,
    sourceName: string,
    systemType: string,
    simulationTime: real)

  // ---------------------------------------------------------------------
  // Marker ids

  /** Four slot markers and a source marker, each -1 or an id below the
      map's next id (itself at least 1), no id held twice. */
  predicate MarkersIssued(markers: seq<int>, source: int, next: int)
  {
    |markers| == 4 && next >= 1 &&
    (forall i :: 0 <= i < 4 ==> markers[i] < next) &&
    source < next &&
    (forall i, j :: 0 <= i < 4 && 0 <= j < 4 && i != j && markers[i] != -1 ==> markers[i] != markers[j]) &&
    (forall i :: 0 <= i < 4 && source != -1 ==> source != markers[i])
  }

  /** Replacing a slot's marker by none, or by the id the counter handed
      out last, keeps the ids apart. */
  lemma SlotMarkerReplaced(markers: seq<int>, source: int, next: int, next': int, slot: nat, marker: int)
    requires MarkersIssued(markers, source, next) && slot < 4
    requires next' == if marker == -1 then next else marker + 1
    requires marker == -1 || marker == next
    ensures MarkersIssued(markers[slot := marker], source, next')
  {
    var updated := markers[slot := marker];
    forall i, j | 0 <= i < 4 && 0 <= j < 4 && i != j && updated[i] != -1
      ensures updated[i] != updated[j]
    {
      if i == slot {
        assert markers[j] < next;
      } else if j == slot {
        assert markers[i] < next;
      }
    }
    forall i | 0 <= i < 4 && source != -1
      ensures source != updated[i]
    {
      if i == slot {
        assert source < next;
      }
    }
  }

  /** The same for the source marker. */
  lemma SourceMarkerReplaced(markers: seq<int>, source: int, next: int, next': int, marker: int)
    requires MarkersIssued(markers, source, next)
    requires next' == if marker == -1 then next else marker + 1
    requires marker == -1 || marker == next
    ensures MarkersIssued(markers, marker, next')
  {
    forall i | 0 <= i < 4 && marker != -1
      ensures marker != markers[i]
    {
      assert markers[i] < next;
    }
  }

  // ---------------------------------------------------------------------
  // The page

  /** Where the markers of devices and sources go: longitude, latitude. */
  function DevicePosition(d: D.Device): (real, real)
  {
    (d.longitude, d.latitude)
  }

  function SourcePosition(s: S.Source): (real, real)
  {
    (s.longitude, s.latitude)
  }

  /** The marker target for a selection: the position and name of the
      first element carrying the selected text. */
  method TargetOf<T>(xs: seq<T>, nameOf: T -> string, position: T -> (real, real), selected: Option<string>)
    returns (target: Option<(real, real, string)>)
    ensures target.Some? <==> SelectedIndex(xs, nameOf, selected).Some?
    ensures target.Some? ==>
              var k := SelectedIndex(xs, nameOf, selected).value;
              target.value == (position(xs[k]).0, position(xs[k]).1, selected.value)
  {
    target := None;
    if selected.Some? {
      var found := IndexOfLabel(xs, nameOf, selected.value);
      if found.Some? {
        var (longitude, latitude) := position(xs[found.value]);
        target := Some((longitude, latitude, selected.value));
      }
    }
  }

  /** A fresh array of four "no marker" ids: the constructor's loop. */
  method NoMarkers() returns (markers: array<int>)
    ensures fresh(markers) && markers[..] == [-1, -1, -1, -1]
  {
    markers := new int[4];
    for i := 0 to 4
      invariant forall j :: 0 <= j < i ==> markers[j] == -1
    {
      markers[i] := -1;
    }
  }

  /** Four fresh, empty, distinct combo boxes for the device slots. */
  method NewSlotCombos() returns (combos: seq<ComboBoxText>)
    ensures |combos| == 4
    ensures forall j :: 0 <= j < 4 ==> fresh(combos[j]) && combos[j].Valid() && combos[j].items == []
    ensures forall j, k :: 0 <= j < k < 4 ==> combos[j] != combos[k]
  {
    combos := [];
    for i := 0 to 4
      invariant |combos| == i
      invariant forall j :: 0 <= j < i ==> fresh(combos[j]) && combos[j].Valid() && combos[j].items == []
      invariant forall j, k :: 0 <= j < k < i ==> combos[j] != combos[k]
    {
      var c := new ComboBoxText();
      combos := combos + [c];
    }
  }

  /** The system combo box createView builds, TDOA selected. */
  method NewSystemCombo() returns (combo: ComboBoxText)
    ensures fresh(combo) && combo.Valid()
    ensures combo.items == SystemItems && combo.active == 0
  {
    combo := new ComboBoxText();
    combo.AppendText(TdoaSystem);
    combo.AppendText(FdoaSystem);
    combo.SetActive(0);
  }

  class MultiPlatformView {
    var devices: seq<D.Device>
    var sources: seq<S.Source>
    /** The marker drawn for the selected source, -1 for none. */
    var sourceMarker: int
    /** The text of the simulation-time entry. */
    var timeText: string
    const algoCombo: ComboBoxText
    const radarCombos: seq<ComboBoxText>
    const sourceCombo: ComboBoxText
    /** The markers drawn for the four device slots, -1 for none. */
    const radarMarkers: array<int>
    /** Whether each device slot's frame is shown. */
    const frameVisible: array<bool>
    const mapView: MV.MapView

    predicate Valid()
      reads this, algoCombo, sourceCombo, radarCombos, mapView, mapView.counter
    {
      |radarCombos| == 4 && radarMarkers.Length == 4 && frameVisible.Length == 4 &&
      algoCombo.Valid() && sourceCombo.Valid() &&
      (forall i :: 0 <= i < 4 ==> radarCombos[i].Valid()) &&
      algoCombo.items == SystemItems && 0 <= algoCombo.active <= 1 &&
      algoCombo != sourceCombo &&
      (forall i :: 0 <= i < 4 ==> radarCombos[i] != algoCombo && radarCombos[i] != sourceCombo) &&
      (forall i, j :: 0 <= i < j < 4 ==> radarCombos[i] != radarCombos[j]) &&
      mapView.Valid()
    }

    /** Every marker this page holds was handed out by the map's counter,
        and no two of them share an id, so removing one slot's marker never
        removes another's. */
    predicate MarkersApart()
      reads this, radarMarkers, mapView.counter
    {
      MarkersIssued(radarMarkers[..], sourceMarker, mapView.counter.next)
    }

    function TechSystem(): int
      reads this, algoCombo
    {
      algoCombo.active
    }

    /** The selected texts of the four device slots. */
    function SlotText(slot: nat): Option<string>
      requires Valid() && slot < 4
      reads this, algoCombo, sourceCombo, radarCombos, mapView, mapView.counter
    {
      radarCombos[slot].ActiveText()
    }

    function SlotTexts(): (r: seq<Option<string>>)
      requires Valid()
      reads this, algoCombo, sourceCombo, radarCombos, mapView, mapView.counter
      ensures |r| == 4
    {
      [SlotText(0), SlotText(1), SlotText(2), SlotText(3)]
    }

    /** The constructor and the widget part of createView: the system
        combo box with TDOA selected, four empty device slots and an empty
        source combo box, no markers, and the time entry holding "20".
        All four slots are visible, as they are once the window has been
        shown with gtk_widget_show_all after createView (see
        CreateViewVisibility for createView's own visibility). */
    constructor(mapView: MV.MapView)
      requires mapView.Valid()
      ensures this.mapView == mapView
      ensures devices == [] && sources == [] && timeText == InitialTimeText
      ensures |radarCombos| == 4
      ensures algoCombo.items == SystemItems && algoCombo.active == 0
      ensures sourceCombo.items == [] && forall i :: 0 <= i < 4 ==> radarCombos[i].items == []
      ensures sourceMarker == -1 && radarMarkers[..] == [-1, -1, -1, -1]
      ensures frameVisible[..] == VisibleFrames(0)
      ensures Valid() && MarkersApart()
    {
      var markers := NoMarkers();
      var shown := new bool[4](i requires 0 <= i < 4 => VisibleFrames(0)[i]);
      var combos := NewSlotCombos();
      var algo := NewSystemCombo();
      var source := new ComboBoxText();
      algoCombo := algo;
      radarCombos := combos;
      sourceCombo := source;
      radarMarkers := markers;
      frameVisible := shown;
      this.mapView := mapView;
      devices := [];
      sources := [];
      sourceMarker := -1;
      timeText := InitialTimeText;
      new;
    }

    /** updateRadarMarker: the slot's previous marker is removed and a red
        one added for the device its selection names, if any. */
    method UpdateRadarMarker(slot: nat)
      requires Valid() && MarkersApart() && slot < 4
      modifies radarMarkers, mapView, mapView.counter
      ensures Valid() && MarkersApart()
      ensures mapView.hasWebView == old(mapView.hasWebView)
      ensures forall j :: 0 <= j < 4 && j != slot ==> radarMarkers[j] == old(radarMarkers[j])
      ensures radarMarkers[slot] != -1 <==>
                mapView.hasWebView && SelectedIndex(devices, D.DeviceName, SlotText(slot)).Some?
      ensures radarMarkers[slot] != -1 ==>
                |mapView.executed| > 0 && MV.AddsMarker(mapView.executed[|mapView.executed| - 1]) &&
                mapView.executed[|mapView.executed| - 1].id == radarMarkers[slot]
      ensures old(radarMarkers[slot]) != -1 && mapView.hasWebView ==>
                |mapView.executed| > |old(mapView.executed)| &&
                mapView.executed[|old(mapView.executed)|] ==
                  (if mapView.use3DMap then MV.RemoveEntity(old(radarMarkers[slot]))
                   else MV.RemoveLeafletMarker(old(radarMarkers[slot])))
    {
      var target := TargetOf(devices, D.DeviceName, DevicePosition, radarCombos[slot].ActiveText());
      ghost var markers := radarMarkers[..];
      var marker := MV.ReplaceMarker(mapView, radarMarkers[slot], target, "red");
      SlotMarkerReplaced(markers, sourceMarker, old(mapView.counter.next), mapView.counter.next, slot, marker);
      radarMarkers[slot] := marker;
      assert radarMarkers[..] == markers[slot := marker];
    }

    /** updateSourceMarker: the same for the selected source, in blue. */
    method UpdateSourceMarker()
      requires Valid() && MarkersApart()
      modifies this, mapView, mapView.counter
      ensures Valid() && MarkersApart()
      ensures mapView.hasWebView == old(mapView.hasWebView)
      ensures devices == old(devices) && sources == old(sources) && timeText == old(timeText)
      ensures sourceMarker != -1 <==>
                mapView.hasWebView && SelectedIndex(sources, S.SourceName, sourceCombo.ActiveText()).Some?
      ensures sourceMarker != -1 ==>
                |mapView.executed| > 0 && MV.AddsMarker(mapView.executed[|mapView.executed| - 1]) &&
                mapView.executed[|mapView.executed| - 1].id == sourceMarker
    {
      var target := TargetOf(sources, S.SourceName, SourcePosition, sourceCombo.ActiveText());
      var marker := MV.ReplaceMarker(mapView, sourceMarker, target, "blue");
      SourceMarkerReplaced(radarMarkers[..], sourceMarker, old(mapView.counter.next), mapView.counter.next, marker);
      sourceMarker := marker;
    }

    /** One pass of updateDeviceCombos' loop: the slot is emptied, refilled
        for the selected system, given its first row, and its marker
        updated. */
    method RefillSlot(slot: nat)
      requires Valid() && MarkersApart() && slot < 4
      modifies radarCombos[slot], radarMarkers, mapView, mapView.counter
      ensures Valid() && MarkersApart()
      ensures forall j :: 0 <= j < 4 && j != slot ==> radarMarkers[j] == old(radarMarkers[j])
      ensures mapView.hasWebView == old(mapView.hasWebView)
      ensures radarCombos[slot].items == SlotItems(devices, TechSystem(), slot)
      ensures radarCombos[slot].active == if |radarCombos[slot].items| > 0 then 0 else -1
      ensures radarMarkers[slot] != -1 <==>
                mapView.hasWebView && SelectedIndex(devices, D.DeviceName, SlotText(slot)).Some?
    {
      var combo := radarCombos[slot];
      combo.RemoveAll();
      AppendFiltered(combo, devices, SlotFilter(algoCombo.active, slot), D.DeviceName);
      if combo.active < 0 && combo.active != 0 {
        combo.SetActive(0);
      }
      UpdateRadarMarker(slot);
    }

    /** updateDeviceCombos: every slot refilled for the selected system,
        its first row selected and its marker following it. */
    method UpdateDeviceCombos()
      requires Valid() && MarkersApart()
      modifies radarCombos, radarMarkers, mapView, mapView.counter
      ensures Valid() && MarkersApart()
      ensures forall i :: 0 <= i < 4 ==>
                radarCombos[i].items == SlotItems(devices, TechSystem(), i) &&
                radarCombos[i].active == (if |radarCombos[i].items| > 0 then 0 else -1)
      ensures forall i :: 0 <= i < 4 ==>
                (radarMarkers[i] != -1 <==>
                 mapView.hasWebView && SelectedIndex(devices, D.DeviceName, SlotText(i)).Some?)
    {
      for slot := 0 to 4
        invariant Valid() && MarkersApart()
        invariant forall i :: 0 <= i < slot ==>
                    radarCombos[i].items == SlotItems(devices, TechSystem(), i) &&
                    radarCombos[i].active == (if |radarCombos[i].items| > 0 then 0 else -1)
        invariant forall i :: 0 <= i < slot ==>
                    (radarMarkers[i] != -1 <==>
                     mapView.hasWebView && SelectedIndex(devices, D.DeviceName, SlotText(i)).Some?)
      {
        RefillSlot(slot);
      }
    }

    /** updateSourceCombo: the source list refilled for the selected
        system, its first row selected and the marker following it. */
    method UpdateSourceCombo()
      requires Valid() && MarkersApart()
      modifies this, sourceCombo, mapView, mapView.counter
      ensures Valid() && MarkersApart()
      ensures devices == old(devices) && sources == old(sources) && timeText == old(timeText)
      ensures sourceCombo.items == SourceItems(sources, TechSystem())
      ensures sourceCombo.active == if |sourceCombo.items| > 0 then 0 else -1
      ensures sourceMarker != -1 <==>
                mapView.hasWebView && SelectedIndex(sources, S.SourceName, sourceCombo.ActiveText()).Some?
    {
      sourceCombo.RemoveAll();
      AppendFiltered(sourceCombo, sources, SourceFilter(algoCombo.active), S.SourceName);
      if sourceCombo.active < 0 && sourceCombo.active != 0 {
        sourceCombo.SetActive(0);
      }
      UpdateSourceMarker();
    }

    /** The data part of createView: the devices and sources read from the
        database, the combo boxes filled from them and every marker
        drawn. */
    method LoadData(allDevices: seq<D.Device>, allSources: seq<S.Source>)
      requires Valid() && MarkersApart()
      modifies this, algoCombo, sourceCombo, radarCombos, radarMarkers, mapView, mapView.counter
      ensures Valid() && MarkersApart()
      ensures devices == allDevices && sources == allSources && timeText == old(timeText)
      ensures TechSystem() == old(TechSystem())
      ensures forall i :: 0 <= i < 4 ==> radarCombos[i].items == SlotItems(allDevices, TechSystem(), i)
      ensures sourceCombo.items == SourceItems(allSources, TechSystem())
    {
      devices := allDevices;
      sources := allSources;
      UpdateDeviceCombos();
      UpdateSourceCombo();
      for slot := 0 to 4
        invariant Valid() && MarkersApart()
        invariant devices == allDevices && sources == allSources && timeText == old(timeText)
        invariant TechSystem() == old(TechSystem())
        invariant forall i :: 0 <= i < 4 ==> radarCombos[i].items == SlotItems(allDevices, TechSystem(), i)
        invariant sourceCombo.items == SourceItems(allSources, TechSystem())
      {
        UpdateRadarMarker(slot);
      }
      UpdateSourceMarker();
    }

    /** onTechSystemChanged, after the user picks row `choice` of the
        system combo box: the slots are shown as the system requires and
        every combo box is refilled for it. */
    method OnTechSystemChanged(choice: nat)
      requires Valid() && MarkersApart() && choice < 2
      modifies this, algoCombo, sourceCombo, radarCombos, radarMarkers, frameVisible, mapView, mapView.counter
      ensures Valid() && MarkersApart()
      ensures devices == old(devices) && sources == old(sources) && timeText == old(timeText)
      ensures TechSystem() == choice
      ensures frameVisible[..] == VisibleFrames(choice)
      ensures forall i :: 0 <= i < 4 ==> radarCombos[i].items == SlotItems(devices, choice, i)
      ensures sourceCombo.items == SourceItems(sources, choice)
    {
      algoCombo.SetActive(choice);
      ShowFrames(algoCombo.active);
      UpdateDeviceCombos();
      UpdateSourceCombo();
    }

    /** The visibility loop of onTechSystemChanged. */
    method ShowFrames(techSystem: int)
      requires frameVisible.Length == 4
      modifies frameVisible
      ensures frameVisible[..] == VisibleFrames(techSystem)
    {
      for i := 0 to 4
        invariant forall j :: 0 <= j < i ==> frameVisible[j] == VisibleFrames(techSystem)[j]
      {
        frameVisible[i] := if techSystem == 0 then i < 4 else i < 3;
      }
    }

    /** The user types into the time entry. */
    method SetTimeText(text: string)
      modifies this
      ensures timeText == text
      ensures devices == old(devices) && sources == old(sources) && sourceMarker == old(sourceMarker)
    {
      timeText := text;
    }

    /** checkRadarModels, with its collecting loop; the warnings it shows
        are not modelled. */
    method CheckRadarModels() returns (ok: bool)
      requires Valid()
      ensures ok == RadarCheck(frameVisible[..], SlotTexts(), Required(TechSystem()))
      ensures ok <==>
                (forall i :: 0 <= i < Required(TechSystem()) ==> frameVisible[i] && SlotTexts()[i].Some?) &&
                (forall i, j :: 0 <= i < j < Required(TechSystem()) ==> SlotTexts()[i] != SlotTexts()[j])
    {
      var required := if algoCombo.active == 0 then 4 else 3;
      var texts := SlotTexts();
      var selected: seq<string> := [];
      for i := 0 to required
        invariant Collected(frameVisible[..], texts, i) == Some(selected)
      {
        if !frameVisible[i] {
          continue;
        }
        var name := radarCombos[i].ActiveText();
        if name.None? {
          RadarCheckMeaning(frameVisible[..], texts, required);
          CollectedNone(frameVisible[..], texts, i + 1, required);
          return false;
        }
        selected := selected + [name.value];
      }
      var uniqueCount := |set x | x in selected|;
      ok := uniqueCount >= required;
      RadarCheckMeaning(frameVisible[..], texts, required);
    }

    /** onStartSimulation: nothing starts unless the check passes and a
        system and a source are selected; the request then carries the
        selected names of the slots the system uses, in slot order, the
        source, the system, and the time read from the entry. */
    method OnStartSimulation(stod: string -> Option<real>) returns (request: Option<StartRequest>)
      requires Valid()
      ensures request.Some? <==>
                RadarCheck(frameVisible[..], SlotTexts(), Required(TechSystem())) && sourceCombo.active >= 0
      ensures request.Some? ==>
                request.value == StartRequest(PresentNames(SlotTexts(), Required(TechSystem())),
                                              sourceCombo.items[sourceCombo.active],
                                              SystemItems[TechSystem()],
                                              SimulationTime(timeText, stod))
      ensures request.Some? ==>
                |request.value.deviceNames| == Required(TechSystem()) &&
                PairwiseDistinct(request.value.deviceNames)
    {
      var ok := CheckRadarModels();
      if !ok {
        return None;
      }
      var systemType := algoCombo.ActiveText();
      if systemType.None? {
        return None;
      }
      var sourceName := sourceCombo.ActiveText();
      if sourceName.None? {
        return None;
      }
      var required := if systemType.value == TdoaSystem then 4 else 3;
      var texts := SlotTexts();
      var deviceNames: seq<string> := [];
      for i := 0 to required
        invariant deviceNames == PresentNames(texts, i)
      {
        var deviceName := radarCombos[i].ActiveText();
        if deviceName.Some? {
          deviceNames := deviceNames + [deviceName.value];
        }
      }
      var entryText := FindEntryText(TimeFrame(timeText));
      var simulationTime := TimeOf(entryText, stod);
      assert simulationTime == SimulationTime(timeText, stod);
      StartedNames(frameVisible[..], texts, required);
      request := Some(StartRequest(deviceNames, sourceName.value, systemType.value, simulationTime));
    }
  }

  /** A shown slot without a selection stops the check for good. */
  lemma {:induction false} CollectedNone(visible: seq<bool>, texts: seq<Option<string>>, n: nat, required: nat)
    requires 0 < n <= required <= |visible| && required <= |texts|
    requires visible[n - 1] && texts[n - 1].None?
    ensures Collected(visible, texts, required).None?
  {
    CollectedShape(visible, texts, required);
  }

  /** The names of a request that passed the check: one per slot the
      system uses, no two alike. */
  lemma StartedNames(visible: seq<bool>, texts: seq<Option<string>>, required: nat)
    requires required <= |visible| && required <= |texts|
    requires RadarCheck(visible, texts, required)
    ensures |PresentNames(texts, required)| == required
    ensures PairwiseDistinct(PresentNames(texts, required))
  {
    RadarCheckMeaning(visible, texts, required);
    PresentNamesAll(texts, required);
    var names := PresentNames(texts, required);
    forall i, j | 0 <= i < j < |names|
      ensures names[i] != names[j]
    {
      assert texts[i] != texts[j];
    }
  }
}
