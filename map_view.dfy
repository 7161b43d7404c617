/** views/components/src/MapView.cpp: the map widget. The widget itself is
    a WebKit view showing a Cesium (3D) or Leaflet (2D) page; every
    operation talks to it by running a JavaScript snippet. The model keeps
    the view's state (whether the web view exists, which map is in use,
    the page path), the pages loaded and the snippets run, each snippet as
    a `Script` value carrying the data the C++ code writes into it.

    The file system is an input: which paths exist and what their absolute
    form is. */
module MapView {
  import opened Common
  import opened Decimal

  /** The JavaScript snippets the view runs, with the values spliced in. */
  datatype Script =
    | FlyTo(longitude: real, latitude: real, height: real)
    | SetView(latitude: real, longitude: real, zoom: real)
    | AddEntity(id: int, longitude: real, latitude: real, height: real, title: string, description: string, color: string)
    | AddLeafletMarker(id: int, latitude: real, longitude: real, title: string, description: string)
    | RemoveEntity(id: int)
    | RemoveLeafletMarker(id: int)
    | RemoveAllEntities
    | ClearLeafletMarkers

  predicate AddsMarker(s: Script)
  {
    s.AddEntity? || s.AddLeafletMarker?
  }

  /** The file system as the view sees it: which paths exist, and the
      absolute form of a path. */
  datatype FileSystem = FileSystem(pathExists: string -> bool, absolute: string -> string)

  // ---------------------------------------------------------------------
  // Resource directory

  /** The directories searched for the map pages, in order. */
  const ResourceCandidates: seq<string> :=
    ["./res", "../res", "../../res", "./share/passivelocation/res", "/usr/local/share/passivelocation/res",
     "/usr/share/passivelocation/res", "./wydw/res", "../wydw/res"]

  /** Used when no candidate exists. */
  const DefaultResourcePath: string := "./res"

  /** The first existing candidate from index k on. */
  function FirstExisting(fs: FileSystem, candidates: seq<string>, k: nat): (r: Option<nat>)
    requires k <= |candidates|
    ensures r.Some? ==> k <= r.value < |candidates| && fs.pathExists(candidates[r.value]) &&
                        forall j :: k <= j < r.value ==> !fs.pathExists(candidates[j])
    ensures r.None? ==> forall j :: k <= j < |candidates| ==> !fs.pathExists(candidates[j])
    decreases |candidates| - k
  {
    if k == |candidates| then None
    else if fs.pathExists(candidates[k]) then Some(k)
    else FirstExisting(fs, candidates, k + 1)
  }

  /** The resource directory: the absolute path of the first candidate
      that exists, or "./res" when none does. */
  function ResourcePath(fs: FileSystem): string
  {
    match FirstExisting(fs, ResourceCandidates, 0)
    case Some(k) => fs.absolute(ResourceCandidates[k])
    case None => DefaultResourcePath
  }

  /** getResourcePath: the search over the candidate directories. */
  method GetResourcePath(fs: FileSystem) returns (path: string)
    ensures path == ResourcePath(fs)
  {
    var possiblePaths := ResourceCandidates;
    for k := 0 to |possiblePaths|
      invariant FirstExisting(fs, possiblePaths, 0) == FirstExisting(fs, possiblePaths, k)
    {
      if fs.pathExists(possiblePaths[k]) {
        return fs.absolute(possiblePaths[k]);
      }
    }
    path := DefaultResourcePath;
  }

  const CesiumPage: string := "/cesium.html"
  const LeafletPage: string := "/index.html"

  // ---------------------------------------------------------------------
  // Height in a marker description

  /** The label after which a description gives the height (U+9AD8 U+5EA6 ':'). */
  const HeightLabel: string := "\U{9AD8}\U{5EA6}:"

  /** The characters of "0123456789.". */
  predicate NumberChar(c: char)
  {
    '0' <= c <= '9' || c == '.'
  }

  predicate IsAt(s: string, pattern: string, i: nat)
  {
    i + |pattern| <= |s| && s[i..i + |pattern|] == pattern
  }

  /** std::string::find: the first position from `from` on where the
      pattern occurs. */
  function Find(s: string, pattern: string, from: nat): (r: Option<nat>)
    ensures r.Some? ==> from <= r.value && IsAt(s, pattern, r.value) &&
                        forall i :: from <= i < r.value ==> !IsAt(s, pattern, i)
    ensures r.None? ==> forall i :: from <= i ==> !IsAt(s, pattern, i)
    decreases |s| - from
  {
    if from + |pattern| > |s| then None
    else if s[from..from + |pattern|] == pattern then Some(from)
    else Find(s, pattern, from + 1)
  }

  /** find_first_of("0123456789.", from). */
  function FindNumberChar(s: string, from: nat): (r: Option<nat>)
    ensures r.Some? ==> from <= r.value < |s| && NumberChar(s[r.value]) &&
                        forall i :: from <= i < r.value ==> !NumberChar(s[i])
    ensures r.None? ==> forall i :: from <= i < |s| ==> !NumberChar(s[i])
    decreases |s| - from
  {
    if from >= |s| then None
    else if NumberChar(s[from]) then Some(from)
    else FindNumberChar(s, from + 1)
  }

  /** find_first_not_of("0123456789.", from). */
  function FindNotNumberChar(s: string, from: nat): (r: Option<nat>)
    ensures r.Some? ==> from <= r.value < |s| && !NumberChar(s[r.value]) &&
                        forall i :: from <= i < r.value ==> NumberChar(s[i])
    ensures r.None? ==> forall i :: from <= i < |s| ==> NumberChar(s[i])
    decreases |s| - from
  {
    if from >= |s| then None
    else if !NumberChar(s[from]) then Some(from)
    else FindNotNumberChar(s, from + 1)
  }

  /** The span [start, end) of the text parsed as the height: from the
      first number character at or after the label up to the first
      character that is not one. None when there is no label, no number
      character after it, or the run of number characters reaches the end
      of the description. */
  function HeightSpan(description: string): Option<(nat, nat)>
  {
    match Find(description, HeightLabel, 0)
    case None => None
    case Some(heightPos) =>
      match FindNumberChar(description, heightPos)
      case None => None
      case Some(valueStart) =>
        match FindNotNumberChar(description, valueStart)
        case None => None
        case Some(valueEnd) => Some((valueStart, valueEnd))
  }

  /** The parsed text is a non-empty run of digits and points that starts
      at the first number character at or after the first label and is
      followed by a character that is not one. */
  lemma HeightSpanShape(description: string)
    ensures HeightSpan(description).Some? ==>
              var (valueStart, valueEnd) := HeightSpan(description).value;
              var heightPos := Find(description, HeightLabel, 0).value;
              Find(description, HeightLabel, 0).Some? &&
              heightPos <= valueStart < valueEnd < |description| &&
              (forall i :: heightPos <= i < valueStart ==> !NumberChar(description[i])) &&
              (forall i :: valueStart <= i < valueEnd ==> NumberChar(description[i])) &&
              !NumberChar(description[valueEnd])
    ensures Find(description, HeightLabel, 0).None? ==> HeightSpan(description).None?
  {}

  function Pow10(n: nat): (r: nat)
    ensures r >= 1
  {
    if n == 0 then 1 else 10 * Pow10(n - 1)
  }

  /** std::stod on a string of digits and points: the longest prefix of the
      form digits [ '.' digits ] with at least one digit is converted; a
      string with no such prefix throws, shown as None. */
  function Stod(s: string): (r: Option<real>)
    ensures r.Some? ==> r.value >= 0.0
  {
    var intEnd := DigitRunEnd(s, 0);
    if intEnd < |s| && s[intEnd] == '.' then
      var fracEnd := DigitRunEnd(s, intEnd + 1);
      if intEnd == 0 && fracEnd == 1 then None
      else Some(DigitsValue(s[..intEnd]) as real + DigitsValue(s[intEnd + 1..fracEnd]) as real / Pow10(fracEnd - intEnd - 1) as real)
    else if intEnd == 0 then None
    else Some(DigitsValue(s[..intEnd]) as real)
  }

  /** The height written into a 3D marker: the parsed value, or 0 when
      there is nothing to parse or the conversion throws. */
  function HeightOf(description: string): real
  {
    match HeightSpan(description)
    case None => 0.0
    case Some((valueStart, valueEnd)) =>
      match Stod(description[valueStart..valueEnd])
      case None => 0.0
      case Some(v) => v
  }

  /** The height is never negative: a sign is not a number character, so
      it is skipped. Without the label, or when the digits run to the end
      of the description, the height is 0. */
  lemma HeightOfCases(description: string)
    ensures HeightOf(description) >= 0.0
    ensures Find(description, HeightLabel, 0).None? ==> HeightOf(description) == 0.0
    ensures Find(description, HeightLabel, 0).Some? &&
            FindNumberChar(description, Find(description, HeightLabel, 0).value).Some? &&
            FindNotNumberChar(description, FindNumberChar(description, Find(description, HeightLabel, 0).value).value).None? ==>
              HeightOf(description) == 0.0
  {}

  /** std::stod reads back an integer written in decimal. */
  lemma StodNatText(n: nat)
    ensures Stod(NatText(n)) == Some(n as real)
  {
    NatTextRun(n);
    NatTextValue(n);
  }

  /** find_first_of stops at the first number character. */
  lemma FirstNumberAt(d: string, from: nat, at: nat)
    requires from <= at < |d| && NumberChar(d[at])
    requires forall i :: from <= i < at ==> !NumberChar(d[i])
    ensures FindNumberChar(d, from) == Some(at)
  {
    var r := FindNumberChar(d, from);
    assert r.Some?;
  }

  /** find_first_not_of stops at the first other character. */
  lemma FirstOtherAt(d: string, from: nat, at: nat)
    requires from <= at < |d| && !NumberChar(d[at])
    requires forall i :: from <= i < at ==> NumberChar(d[i])
    ensures FindNotNumberChar(d, from) == Some(at)
  {
    var r := FindNotNumberChar(d, from);
    assert r.Some?;
  }

  /** No character of the label is a number character. */
  lemma LabelHasNoNumber()
    ensures forall i :: 0 <= i < |HeightLabel| ==> !NumberChar(HeightLabel[i])
  {
    assert HeightLabel == ['\U{9AD8}', '\U{5EA6}', ':'];
  }

  /** Between the label and the digits there is no number character. */
  lemma NoNumberBefore(prefix: string, gap: string)
    requires forall i :: 0 <= i < |gap| ==> !NumberChar(gap[i])
    ensures var front := prefix + HeightLabel + gap;
            forall i :: |prefix| <= i < |front| ==> !NumberChar(front[i])
  {
    var front := prefix + HeightLabel + gap;
    var p := |prefix|;
    LabelHasNoNumber();
    forall i | p <= i < |front|
      ensures !NumberChar(front[i])
    {
      if i < p + |HeightLabel| {
        assert front[i] == HeightLabel[i - p];
      } else {
        assert front[i] == gap[i - p - |HeightLabel|];
      }
    }
  }

  /** The label is found after the prefix. */
  lemma LabelAfterPrefix(prefix: string, gap: string, rest: string)
    requires forall i :: 0 <= i < |prefix| ==> !IsAt(prefix + HeightLabel + gap + rest, HeightLabel, i)
    ensures Find(prefix + HeightLabel + gap + rest, HeightLabel, 0) == Some(|prefix|)
  {
    var d := prefix + HeightLabel + gap + rest;
    assert d[|prefix|..|prefix| + |HeightLabel|] == HeightLabel;
    assert IsAt(d, HeightLabel, |prefix|);
  }

  /** The number starts right after a stretch without number characters. */
  lemma NumberAfterGap(front: string, from: nat, rest: string)
    requires from <= |front|
    requires forall i :: from <= i < |front| ==> !NumberChar(front[i])
    requires |rest| > 0 && NumberChar(rest[0])
    ensures FindNumberChar(front + rest, from) == Some(|front|)
  {
    var d := front + rest;
    forall i | from <= i < |front|
      ensures !NumberChar(d[i])
    {
      assert d[i] == front[i];
    }
    FirstNumberAt(d, from, |front|);
  }

  /** The digits end at the unit. */
  lemma DigitsEnd(front: string, digits: string, unit: char)
    requires forall i :: 0 <= i < |digits| ==> Digit(digits[i])
    requires !NumberChar(unit)
    ensures var d := front + digits + [unit];
            FindNotNumberChar(d, |front|) == Some(|front| + |digits|) &&
            d[|front|..|front| + |digits|] == digits
  {
    var d := front + digits + [unit];
    assert forall i :: |front| <= i < |front| + |digits| ==> d[i] == digits[i - |front|];
    assert d[|front| + |digits|] == unit;
    FirstOtherAt(d, |front|, |front| + |digits|);
  }

  /** A description written as a prefix without the label, the label, a
      gap without number characters (such as the space the controllers
      write), the decimal digits of n and a unit gives the height n. A minus
      sign in the gap is skipped, so "-n" also gives n. */
  lemma LabelledHeight(prefix: string, gap: string, n: nat, unit: char)
    requires forall i :: 0 <= i < |prefix| ==> !IsAt(prefix + HeightLabel + gap + NatText(n) + [unit], HeightLabel, i)
    requires forall i :: 0 <= i < |gap| ==> !NumberChar(gap[i])
    requires !NumberChar(unit)
    ensures HeightOf(prefix + HeightLabel + gap + NatText(n) + [unit]) == n as real
  {
    var digits := NatText(n);
    var front := prefix + HeightLabel + gap;
    assert front + digits + [unit] == prefix + HeightLabel + gap + (digits + [unit]);
    LabelAfterPrefix(prefix, gap, digits + [unit]);
    NoNumberBefore(prefix, gap);
    NumberAfterGap(front, |prefix|, digits + [unit]);
    DigitsEnd(front, digits, unit);
    StodNatText(n);
  }

  // ---------------------------------------------------------------------
  // The view

  /** The counter behind the marker ids. It is a static variable of
      addMarker, so every view draws from the same counter. */
  class MarkerCounter {
    var next: int

    constructor()
      ensures next == 1
    {
      next := 1;
    }
  }

  class MapView {
    var hasWebView: bool
    var use3DMap: bool
    var htmlPath: string
    /** The URIs the web view was asked to load, in order. */
    var loaded: seq<string>
    /** The snippets run in the web view, in order. */
    var executed: seq<Script>
    const fs: FileSystem
    const counter: MarkerCounter

    /** The marker ids handed out are at least 1, below the counter, and
        increase in the order the markers were added. */
    predicate Valid()
      reads this, counter
    {
      counter.next >= 1 &&
      (forall k :: 0 <= k < |executed| && AddsMarker(executed[k]) ==> 1 <= executed[k].id < counter.next) &&
      (forall k1, k2 :: 0 <= k1 < k2 < |executed| && AddsMarker(executed[k1]) && AddsMarker(executed[k2]) ==>
         executed[k1].id < executed[k2].id)
    }

    /** No web view yet, the 3D map, and the Cesium page of the resource
        directory. */
    constructor(fs: FileSystem, counter: MarkerCounter)
      requires counter.next >= 1
      ensures this.fs == fs && this.counter == counter
      ensures !hasWebView && use3DMap && loaded == [] && executed == []
      ensures htmlPath == ResourcePath(fs) + CesiumPage
      ensures Valid()
    {
      this.fs := fs;
      this.counter := counter;
      hasWebView := false;
      use3DMap := true;
      var resourcePath := GetResourcePath(fs);
      htmlPath := resourcePath + CesiumPage;
      loaded := [];
      executed := [];
    }

    /** loadMap: nothing without a web view or when the page does not exist. */
    method LoadMap()
      modifies this
      ensures loaded == if old(hasWebView) && fs.pathExists(htmlPath) then old(loaded) + ["file://" + htmlPath]
                        else old(loaded)
      ensures hasWebView == old(hasWebView) && use3DMap == old(use3DMap) && htmlPath == old(htmlPath)
      ensures executed == old(executed)
    {
      if !hasWebView {
        return;
      }
      if !fs.pathExists(htmlPath) {
        return;
      }
      loaded := loaded + ["file://" + htmlPath];
    }

    /** create: makes the web view and loads the page. */
    method Create()
      modifies this
      ensures hasWebView && use3DMap == old(use3DMap) && htmlPath == old(htmlPath)
      ensures loaded == if fs.pathExists(htmlPath) then old(loaded) + ["file://" + htmlPath] else old(loaded)
      ensures executed == old(executed)
    {
      hasWebView := true;
      LoadMap();
    }

    /** executeScript: the snippet runs only when there is a web view. */
    method ExecuteScript(script: Script)
      modifies this
      ensures executed == if old(hasWebView) then old(executed) + [script] else old(executed)
      ensures hasWebView == old(hasWebView) && use3DMap == old(use3DMap) && htmlPath == old(htmlPath)
      ensures loaded == old(loaded)
    {
      if !hasWebView {
        return;
      }
      executed := executed + [script];
    }

    /** setCenter: a camera flight on the 3D map, a view change on the 2D map. */
    method SetCenter(longitude: real, latitude: real, height: real)
      modifies this
      ensures !old(hasWebView) ==> executed == old(executed)
      ensures old(hasWebView) ==>
                executed == old(executed) + [if use3DMap then FlyTo(longitude, latitude, height)
                                             else SetView(latitude, longitude, height)]
      ensures hasWebView == old(hasWebView) && use3DMap == old(use3DMap) && htmlPath == old(htmlPath)
      ensures loaded == old(loaded)
    {
      if !hasWebView {
        return;
      }
      var script := if use3DMap then FlyTo(longitude, latitude, height) else SetView(latitude, longitude, height);
      ExecuteScript(script);
    }

    /** addMarker: -1 and nothing else without a web view. Otherwise the
        next id is taken from the counter and a marker added: on the 3D map
        at the height the description gives, on the 2D map with the title
        and description as its popup. The new id exceeds every id this view
        handed out before. */
    method AddMarker(longitude: real, latitude: real, title: string, description: string, color: string)
      returns (markerId: int)
      requires Valid()
      modifies this, counter
      ensures Valid()
      ensures !old(hasWebView) ==> markerId == -1 && counter.next == old(counter.next) && executed == old(executed)
      ensures old(hasWebView) ==>
                markerId == old(counter.next) && counter.next == markerId + 1 &&
                executed == old(executed) +
                  [if use3DMap then AddEntity(markerId, longitude, latitude, HeightOf(description), title, description, color)
                   else AddLeafletMarker(markerId, latitude, longitude, title, description)]
      ensures old(hasWebView) ==>
                markerId >= 1 &&
                forall k :: 0 <= k < |old(executed)| && AddsMarker(old(executed)[k]) ==> old(executed)[k].id < markerId
      ensures hasWebView == old(hasWebView) && use3DMap == old(use3DMap) && htmlPath == old(htmlPath)
      ensures loaded == old(loaded)
    {
      if !hasWebView {
        return -1;
      }
      markerId := counter.next;
      counter.next := counter.next + 1;
      var script;
      if use3DMap {
        var height := ExtractHeight(description);
        script := AddEntity(markerId, longitude, latitude, height, title, description, color);
      } else {
        script := AddLeafletMarker(markerId, latitude, longitude, title, description);
      }
      ExecuteScript(script);
    }

    /** removeMarker: removes the entity or Leaflet layer with that id. */
    method RemoveMarker(markerId: int)
      requires Valid()
      modifies this
      ensures Valid()
      ensures !old(hasWebView) ==> executed == old(executed)
      ensures old(hasWebView) ==>
                executed == old(executed) + [if use3DMap then RemoveEntity(markerId) else RemoveLeafletMarker(markerId)]
      ensures hasWebView == old(hasWebView) && use3DMap == old(use3DMap) && htmlPath == old(htmlPath)
      ensures loaded == old(loaded)
    {
      if !hasWebView {
        return;
      }
      var script := if use3DMap then RemoveEntity(markerId) else RemoveLeafletMarker(markerId);
      ExecuteScript(script);
    }

    /** clearMarkers: removes every entity or Leaflet marker. */
    method ClearMarkers()
      requires Valid()
      modifies this
      ensures Valid()
      ensures !old(hasWebView) ==> executed == old(executed)
      ensures old(hasWebView) ==>
                executed == old(executed) + [if use3DMap then RemoveAllEntities else ClearLeafletMarkers]
      ensures hasWebView == old(hasWebView) && use3DMap == old(use3DMap) && htmlPath == old(htmlPath)
      ensures loaded == old(loaded)
    {
      if !hasWebView {
        return;
      }
      var script := if use3DMap then RemoveAllEntities else ClearLeafletMarkers;
      ExecuteScript(script);
    }

    /** setUse3DMap: nothing when the flag is unchanged; otherwise the
        other page of the resource directory is chosen and loaded. */
    method SetUse3DMap(use3D: bool)
      modifies this
      ensures old(use3DMap) == use3D ==>
                htmlPath == old(htmlPath) && loaded == old(loaded)
      ensures old(use3DMap) != use3D ==>
                htmlPath == ResourcePath(fs) + (if use3D then CesiumPage else LeafletPage) &&
                loaded == if hasWebView && fs.pathExists(htmlPath) then old(loaded) + ["file://" + htmlPath]
                          else old(loaded)
      ensures use3DMap == use3D && hasWebView == old(hasWebView) && executed == old(executed)
    {
      if use3DMap == use3D {
        return;
      }
      use3DMap := use3D;
      var resourcePath := GetResourcePath(fs);
      if use3DMap {
        htmlPath := resourcePath + CesiumPage;
      } else {
        htmlPath := resourcePath + LeafletPage;
      }
      LoadMap();
    }
  }

  /** The marker update the simulation pages share for each selection: the previous marker, if
      any, is removed, then a marker is added at the target's position
      titled with its name. The result is the new marker's id, or -1 when
      there is no target or no web view. */
  method ReplaceMarker(mapView: MapView, previous: int, target: Option<(real, real, string)>, color: string)
    returns (marker: int)
    requires mapView.Valid()
    modifies mapView, mapView.counter
    ensures mapView.Valid()
    ensures mapView.hasWebView == old(mapView.hasWebView)
    ensures marker == if mapView.hasWebView && target.Some? then old(mapView.counter.next) else -1
    ensures mapView.counter.next == if marker == -1 then old(mapView.counter.next) else marker + 1
    ensures marker != -1 ==>
              |mapView.executed| > 0 && AddsMarker(mapView.executed[|mapView.executed| - 1]) &&
              mapView.executed[|mapView.executed| - 1].id == marker
    ensures previous != -1 && mapView.hasWebView ==>
              |mapView.executed| > |old(mapView.executed)| &&
              mapView.executed[|old(mapView.executed)|] ==
                (if mapView.use3DMap then RemoveEntity(previous) else RemoveLeafletMarker(previous))
  {
    if previous != -1 {
      mapView.RemoveMarker(previous);
    }
    marker := -1;
    if target.Some? {
      var (longitude, latitude, name) := target.value;
      marker := mapView.AddMarker(longitude, latitude, name, "", color);
    }
  }

  /** The height extraction of addMarker: successive searches, each
      narrowing down where the number is, with the height left at 0 when
      any of them fails or the conversion throws. */
  method ExtractHeight(description: string) returns (height: real)
    ensures height == HeightOf(description)
    ensures height >= 0.0
  {
    height := 0.0;
    var heightPos := Find(description, HeightLabel, 0);
    if heightPos.Some? {
      var valueStart := FindNumberChar(description, heightPos.value);
      if valueStart.Some? {
        var valueEnd := FindNotNumberChar(description, valueStart.value);
        if valueEnd.Some? {
          var heightStr := description[valueStart.value..valueEnd.value];
          var parsed := Stod(heightStr);
          if parsed.Some? {
            height := parsed.value;
          }
        }
      }
    }
  }
}
