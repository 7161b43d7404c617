/** models/src/TDOAalgorithm.cpp: time-difference-of-arrival location with
    four or more stations. The numerical core (linear algebra, Chan, Taylor)
    is in TdoaSolver; this module holds the reference-station choice, the
    calculate pipeline and the algorithm object. */
module TdoaAlgorithm {
  import opened Common
  import opened TdoaSolver
  import ReconnaissanceDeviceModel
  import RadiationSourceModel

  // ---------------------------------------------------------------------
  // The Taylor loop as a recursion

  /** The Taylor loop from iteration `iter` at pos, as a recursion: the
      position it returns. */
  ghost function TaylorFrom(m: Math, stations: seq<Coord3>, tdoas: seq<real>, pos: Coord3, iter: nat): Coord3
    requires |stations| >= 4 && |tdoas| >= |stations| && iter <= MaxIterations
    decreases MaxIterations - iter
  {
    if iter == MaxIterations then pos
    else
      match Displacement(m, stations, tdoas, pos)
      case Err(_) => pos
      case Ok(d) =>
        if StepNorm(m, d) < ConvergenceTolerance then Moved(pos, d)
        else TaylorFrom(m, stations, tdoas, Moved(pos, d), iter + 1)
  }

  /** The loop returns the last position of the Taylor path. */
  lemma {:induction false} TaylorFromPath(m: Math, stations: seq<Coord3>, tdoas: seq<real>, pos: Coord3, iter: nat)
    requires |stations| >= 4 && |tdoas| >= |stations| && iter <= MaxIterations
    ensures TaylorFrom(m, stations, tdoas, pos, iter) == Last(TaylorPath(m, TaylorStep(m, stations, tdoas), pos, iter))
    decreases MaxIterations - iter
  {
    var step := TaylorStep(m, stations, tdoas);
    if iter < MaxIterations {
      assert step(pos) == Displacement(m, stations, tdoas, pos);
      if step(pos).Ok? && StepNorm(m, step(pos).value) >= ConvergenceTolerance {
        TaylorFromPath(m, stations, tdoas, Moved(pos, step(pos).value), iter + 1);
        TaylorPathContinues(m, step, pos, iter);
      }
    }
  }

  // ---------------------------------------------------------------------
  // Reference station and TDOA vector

  /** The station positions' centroid; the source divides by the station
      count, which calculate only reaches with at least four stations. */
  function Centroid(stations: seq<Coord3>): Coord3
  {
    if |stations| == 0 then Origin
    else
      var sum := SumCoords(stations);
      var k := |stations| as real;
      Coord3(sum.p1 / k, sum.p2 / k, sum.p3 / k)
  }

  function SumCoords(stations: seq<Coord3>): Coord3
  {
    if |stations| == 0 then Origin
    else
      var s := SumCoords(stations[..|stations| - 1]);
      var p := stations[|stations| - 1];
      Coord3(s.p1 + p.p1, s.p2 + p.p2, s.p3 + p.p3)
  }

  /** Each station's distance to the centroid of all stations. */
  function DistancesToCentroid(m: Math, stations: seq<Coord3>): (ds: seq<real>)
    requires Lawful(m)
    ensures |ds| == |stations|
    ensures forall j :: 0 <= j < |ds| ==> ds[j] >= 0.0
  {
    var centroid := Centroid(stations);
    seq(|stations|, j requires 0 <= j < |stations| =>
      DistanceLaws(m, centroid, stations[j]); Distance(m, centroid, stations[j]))
  }

  /** k holds the least value of ds, and no earlier index holds it. */
  predicate FirstMinimum(ds: seq<real>, k: int)
  {
    0 <= k < |ds| &&
    (forall j :: 0 <= j < |ds| ==> ds[k] <= ds[j]) &&
    (forall j :: 0 <= j < k ==> ds[k] < ds[j])
  }

  /** The reference-selection loop: the first station of least distance to
      the centroid. The sentinel -1 for "no minimum yet" works because
      distances are never negative. */
  method SelectReference(m: Math, stations: seq<Coord3>) returns (bestRefIdx: int)
    requires Lawful(m)
    ensures |stations| == 0 ==> bestRefIdx == 0
    ensures |stations| > 0 ==> FirstMinimum(DistancesToCentroid(m, stations), bestRefIdx)
  {
    var ds := DistancesToCentroid(m, stations);
    bestRefIdx := 0;
    var minDistToCentroid := -1.0;
    var i := 0;
    while i < |ds|
      invariant 0 <= i <= |ds|
      invariant i == 0 ==> bestRefIdx == 0 && minDistToCentroid == -1.0
      invariant i > 0 ==> 0 <= bestRefIdx < i && minDistToCentroid == ds[bestRefIdx]
      invariant forall j :: 0 <= j < i ==> minDistToCentroid <= ds[j]
      invariant forall j :: 0 <= j < bestRefIdx ==> minDistToCentroid < ds[j]
    {
      if minDistToCentroid < 0.0 || ds[i] < minDistToCentroid {
        minDistToCentroid := ds[i];
        bestRefIdx := i;
      }
      i := i + 1;
    }
  }

  /** final_tdoas: entry 0 is 0 and entry i is toa[i] - toa[0]. */
  method RelativeTdoas(toas: seq<real>) returns (tdoas: seq<real>)
    ensures |tdoas| == |toas|
    ensures |toas| > 0 ==> tdoas[0] == 0.0
    ensures forall i :: 1 <= i < |toas| ==> tdoas[i] == toas[i] - toas[0]
  {
    tdoas := seq(|toas|, _ => 0.0);
    var i := 1;
    while i < |toas|
      invariant 1 <= i <= |toas| || (|toas| == 0 && i == 1)
      invariant |tdoas| == |toas|
      invariant |toas| > 0 ==> tdoas[0] == 0.0
      invariant forall k :: 1 <= k < i && k < |toas| ==> tdoas[k] == toas[k] - toas[0]
      invariant forall k :: i <= k < |toas| ==> tdoas[k] == 0.0
    {
      tdoas := tdoas[i := toas[i] - toas[0]];
      i := i + 1;
    }
  }

  /** Relative to a swapped reference, the TDOA of the old reference is
      the negated TDOA the new reference had. */
  lemma SwapReference(toas: seq<real>, k: int)
    requires 0 < k < |toas|
    ensures var s := Swap(toas, 0, k);
            s[k] - s[0] == -(toas[k] - toas[0]) &&
            forall i :: 0 < i < |toas| && i != k ==> s[i] - s[0] == (toas[i] - toas[0]) - (toas[k] - toas[0])
  {
  }

  /** Only one index is the first minimum. */
  lemma FirstMinimumUnique(ds: seq<real>, k: int, k': int)
    requires FirstMinimum(ds, k) && FirstMinimum(ds, k')
    ensures k == k'
  {
    assert ds[k] <= ds[k'] && ds[k'] <= ds[k];
  }

  // ---------------------------------------------------------------------
  // The pipeline of calculate

  /** Each device's position converted to Cartesian coordinates. */
  function StationPositions(m: Math, devices: seq<ReconnaissanceDeviceModel.Device>): (ps: seq<Coord3>)
    ensures |ps| == |devices|
  {
    seq(|devices|, i requires 0 <= i < |devices| =>
      m.lbh2xyz(Coord3(devices[i].longitude, devices[i].latitude, devices[i].altitude)))
  }

  /** The ideal time of arrival at each station: distance over c. */
  function ArrivalTimes(m: Math, stations: seq<Coord3>, sourcePos: Coord3): (toas: seq<real>)
    ensures |toas| == |stations|
  {
    seq(|stations|, i requires 0 <= i < |stations| => Distance(m, stations[i], sourcePos) / C)
  }

  /** final_tdoas as a function of the arrival times. */
  function Relative(toas: seq<real>): (tdoas: seq<real>)
    ensures |tdoas| == |toas|
  {
    seq(|toas|, i requires 0 <= i < |toas| => if i == 0 then 0.0 else toas[i] - toas[0])
  }

  /** The position calculate computes once the stations and arrival times
      are known and station k is the reference: Chan's estimate refined by
      the Taylor loop (TaylorFrom), both on the lists with entries 0 and k
      swapped. */
  ghost function Fix(m: Math, stations: seq<Coord3>, toas: seq<real>, k: int): Coord3
    requires 0 <= k < |stations| == |toas|
  {
    var st, td := Swap(stations, 0, k), Relative(Swap(toas, 0, k));
    var guess := ChanEstimate(st, td);
    if |st| < 4 then guess else TaylorFrom(m, st, td, guess, 0)
  }

  /** The fix is the Taylor refinement of Chan's estimate: what
      tdoaRefinePosition_taylor returns when started from what
      tdoaLocate_chan_initial returns. */
  lemma FixRefinesChan(m: Math, stations: seq<Coord3>, toas: seq<real>, k: int)
    requires 0 <= k < |stations| == |toas|
    ensures var st, td := Swap(stations, 0, k), Relative(Swap(toas, 0, k));
            Fix(m, stations, toas, k) == TaylorRefinement(m, st, td, ChanEstimate(st, td))
  {
    var st, td := Swap(stations, 0, k), Relative(Swap(toas, 0, k));
    if |st| >= 4 {
      TaylorFromPath(m, st, td, ChanEstimate(st, td), 0);
    }
  }

  /** The loop that converts every device position. */
  method ConvertStations(m: Math, devices: seq<ReconnaissanceDeviceModel.Device>) returns (ps: seq<Coord3>)
    ensures ps == StationPositions(m, devices)
  {
    ps := [];
    var i := 0;
    while i < |devices|
      invariant 0 <= i <= |devices| && |ps| == i
      invariant forall j :: 0 <= j < i ==> ps[j] == StationPositions(m, devices)[j]
    {
      ps := ps + [m.lbh2xyz(Coord3(devices[i].longitude, devices[i].latitude, devices[i].altitude))];
      i := i + 1;
    }
  }

  /** The loop that fills true_toas. */
  method ComputeArrivalTimes(m: Math, stations: seq<Coord3>, sourcePos: Coord3) returns (toas: seq<real>)
    ensures toas == ArrivalTimes(m, stations, sourcePos)
  {
    toas := seq(|stations|, _ => 0.0);
    var i := 0;
    while i < |stations|
      invariant 0 <= i <= |stations| && |toas| == |stations|
      invariant forall j :: 0 <= j < i ==> toas[j] == ArrivalTimes(m, stations, sourcePos)[j]
    {
      toas := toas[i := Distance(m, stations[i], sourcePos) / C];
      i := i + 1;
    }
  }

  /** Steps 4 and 5 of calculate: choose the reference nearest the
      centroid, swap it to the front, form the TDOAs, then Chan and
      Taylor. */
  method Locate(m: Math, stations: seq<Coord3>, toas: seq<real>) returns (fix: Coord3, reference: int)
    requires Lawful(m) && 0 < |stations| == |toas|
    ensures FirstMinimum(DistancesToCentroid(m, stations), reference)
    ensures fix == Fix(m, stations, toas, reference)
  {
    var bestRefIdx := SelectReference(m, stations);
    reference := bestRefIdx;
    var reorderedStations := Swap(stations, 0, bestRefIdx);
    var reorderedToas := Swap(toas, 0, bestRefIdx);
    var finalTdoas := RelativeTdoas(reorderedToas);
    assert finalTdoas == Relative(reorderedToas);
    var initialGuess := ChanInitial(reorderedStations, finalTdoas);
    fix := TaylorRefine(m, reorderedStations, finalTdoas, initialGuess);
    if |stations| >= 4 {
      TaylorFromPath(m, reorderedStations, finalTdoas, initialGuess, 0);
    }
  }

  /** Step 6 of calculate: the fix in geodetic coordinates, no motion,
      the simulation time, the distance from the Earth's centre and the
      error against the true source position. */
  function Report(m: Math, fix: Coord3, sourcePos: Coord3, time: real): (r: PositionFix)
    requires Lawful(m)
    ensures r.longitude == m.xyz2lbh(fix).p1 && r.latitude == m.xyz2lbh(fix).p2 && r.altitude == m.xyz2lbh(fix).p3
    ensures r.azimuth == 0.0 && r.elevation == 0.0 && r.velocity == 0.0 && r.locationTime == time
    ensures r.distance == Distance(m, fix, Origin) && r.distance >= 0.0
    ensures r.accuracy == Distance(m, sourcePos, fix) && r.accuracy >= 0.0
  {
    var lbh := m.xyz2lbh(fix);
    DistanceLaws(m, fix, sourcePos);
    DistanceLaws(m, fix, Origin);
    PositionFix(lbh.p1, lbh.p2, lbh.p3, 0.0, 0.0, 0.0, time, Distance(m, fix, Origin), Distance(m, fix, sourcePos))
  }

  // ---------------------------------------------------------------------
  // The algorithm object

  const MinStations: nat := 4

  class TdoaAlgorithm {
    var deviceNames: seq<string>
    var sourceName: string
    var systemType: string
    var simulationTime: real
    var devices: seq<ReconnaissanceDeviceModel.Device>
    var source: RadiationSourceModel.Source
    var result: PositionFix

    constructor ()
      ensures simulationTime == 0.0 && result == ZeroFix && devices == [] && deviceNames == []
    {
      deviceNames, sourceName, systemType := [], "", "";
      simulationTime := 0.0;
      devices := [];
      source := RadiationSourceModel.DefaultSource;
      result := ZeroFix;
    }

    /** init: store the parameters, forget loaded devices, zero the result. */
    method Init(deviceNames': seq<string>, sourceName': string, systemType': string, simulationTime': real)
      modifies this
      ensures deviceNames == deviceNames' && sourceName == sourceName' && systemType == systemType'
      ensures simulationTime == simulationTime' && devices == [] && result == ZeroFix
      ensures source == old(source)
    {
      deviceNames, sourceName, systemType := deviceNames', sourceName', systemType';
      simulationTime := simulationTime';
      devices := [];
      result := ZeroFix;
    }

    /** loadDeviceInfo: an empty table fails; otherwise the first row of
        each name is appended, in name order, stopping with failure at the
        first unknown name; fewer than four devices fail. The list is not
        cleared first: only init clears it. */
    method LoadDeviceInfo(allDevices: seq<ReconnaissanceDeviceModel.Device>) returns (ok: bool)
      modifies this`devices
      ensures |allDevices| == 0 ==> !ok && devices == old(devices)
      ensures |allDevices| > 0 ==> devices == old(devices) + ReconnaissanceDeviceModel.MatchNames(allDevices, deviceNames).0
      ensures ok <==> |allDevices| > 0 && ReconnaissanceDeviceModel.MatchNames(allDevices, deviceNames).1 &&
                      |devices| >= MinStations
    {
      if |allDevices| == 0 {
        return false;
      }
      var i := 0;
      while i < |deviceNames|
        invariant 0 <= i <= |deviceNames|
        invariant ReconnaissanceDeviceModel.MatchNames(allDevices, deviceNames[..i]).1
        invariant devices == old(devices) + ReconnaissanceDeviceModel.MatchNames(allDevices, deviceNames[..i]).0
      {
        assert deviceNames[..i + 1][..i] == deviceNames[..i];
        var found := ReconnaissanceDeviceModel.FindByName(allDevices, deviceNames[i]);
        if found.None? {
          ReconnaissanceDeviceModel.MatchNamesStops(allDevices, deviceNames, i);
          return false;
        }
        devices := devices + [found.value];
        i := i + 1;
      }
      assert deviceNames[..i] == deviceNames;
      ok := |devices| >= MinStations;
    }

    /** loadSourceInfo: the first source of that name. */
    method LoadSourceInfo(allSources: seq<RadiationSourceModel.Source>) returns (ok: bool)
      modifies this`source
      ensures ok <==> RadiationSourceModel.FindByName(allSources, sourceName).Some?
      ensures ok ==> source == RadiationSourceModel.FindByName(allSources, sourceName).value
      ensures !ok ==> source == old(source)
    {
      var found := RadiationSourceModel.FindByName(allSources, sourceName);
      if found.None? {
        return false;
      }
      source := found.value;
      return true;
    }

    /** The two loads at the start of calculate: the source is looked up
        only when the devices loaded. */
    method LoadInputs(allDevices: seq<ReconnaissanceDeviceModel.Device>,
                      allSources: seq<RadiationSourceModel.Source>) returns (ok: bool)
      modifies this`devices, this`source
      ensures ok <==> |allDevices| > 0 && ReconnaissanceDeviceModel.MatchNames(allDevices, deviceNames).1 &&
                      |old(devices) + ReconnaissanceDeviceModel.MatchNames(allDevices, deviceNames).0| >= MinStations &&
                      RadiationSourceModel.FindByName(allSources, sourceName).Some?
      ensures ok ==> devices == old(devices) + ReconnaissanceDeviceModel.MatchNames(allDevices, deviceNames).0 &&
                     source == RadiationSourceModel.FindByName(allSources, sourceName).value
      ensures devices == if |allDevices| == 0 then old(devices)
                         else old(devices) + ReconnaissanceDeviceModel.MatchNames(allDevices, deviceNames).0
      ensures !ok ==> source == old(source)
    {
      ok := LoadDeviceInfo(allDevices);
      if ok {
        ok := LoadSourceInfo(allSources);
      }
    }

    /** calculate: load, convert to Cartesian positions, compute ideal times
        of arrival, re-order around the station nearest the centroid, then
        Chan and Taylor, and store the result. It fails exactly when a load
        fails, and then leaves the result untouched. */
    method Calculate(m: Math, allDevices: seq<ReconnaissanceDeviceModel.Device>,
                     allSources: seq<RadiationSourceModel.Source>) returns (ok: bool, ghost fix: Coord3, ghost reference: int)
      requires Lawful(m)
      modifies this`devices, this`source, this`result
      ensures ok <==> |allDevices| > 0 && ReconnaissanceDeviceModel.MatchNames(allDevices, deviceNames).1 &&
                      |old(devices) + ReconnaissanceDeviceModel.MatchNames(allDevices, deviceNames).0| >= MinStations &&
                      RadiationSourceModel.FindByName(allSources, sourceName).Some?
      ensures !ok ==> result == old(result)
      ensures ok ==> devices == old(devices) + ReconnaissanceDeviceModel.MatchNames(allDevices, deviceNames).0 &&
                     source == RadiationSourceModel.FindByName(allSources, sourceName).value
      ensures devices == if |allDevices| == 0 then old(devices)
                         else old(devices) + ReconnaissanceDeviceModel.MatchNames(allDevices, deviceNames).0
      ensures !ok ==> source == old(source)
      ensures ok ==> var stations := StationPositions(m, devices);
                     var sourcePos := m.lbh2xyz(Coord3(source.longitude, source.latitude, source.altitude));
                     FirstMinimum(DistancesToCentroid(m, stations), reference) &&
                     fix == Fix(m, stations, ArrivalTimes(m, stations, sourcePos), reference)
      ensures ok ==> result == Report(m, fix, m.lbh2xyz(Coord3(source.longitude, source.latitude, source.altitude)), simulationTime)
    {
      fix, reference := Origin, 0;
      ok := LoadInputs(allDevices, allSources);
      if ok {
        fix, reference := LocateAndReport(m);
      }
    }

    /** Steps 2 to 6 of calculate, once both loads succeeded. */
    method LocateAndReport(m: Math) returns (fix: Coord3, ghost reference: int)
      requires Lawful(m) && |devices| > 0
      modifies this`result
      ensures var stations := StationPositions(m, devices);
              var sourcePos := m.lbh2xyz(Coord3(source.longitude, source.latitude, source.altitude));
              FirstMinimum(DistancesToCentroid(m, stations), reference) &&
              fix == Fix(m, stations, ArrivalTimes(m, stations, sourcePos), reference) &&
              result == Report(m, fix, sourcePos, simulationTime)
    {
      var sourcePos := m.lbh2xyz(Coord3(source.longitude, source.latitude, source.altitude));
      var stationPos := ConvertStations(m, devices);
      var trueToas := ComputeArrivalTimes(m, stationPos, sourcePos);
      fix, reference := Locate(m, stationPos, trueToas);
      result := Report(m, fix, sourcePos, simulationTime);
    }
  }
}
