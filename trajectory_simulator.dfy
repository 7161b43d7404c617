/** models/src/TrajectorySimulator.cpp: straight-line motion of a device or
    a source, one point per simulated second, in Earth-centred coordinates.
    The Cesium scripts the animate functions build are not modelled; what
    remains of them is their guard and the trajectories they compute. */
module TrajectorySimulator {
  import opened Common
  import ReconnaissanceDeviceModel
  import RadiationSourceModel

  /** A trajectory point: longitude and latitude. */
  type GroundPoint = (real, real)

  /** The geodetic position after `i` one-second steps from the
      Earth-centred start position along the Earth-centred velocity. */
  function PositionAt(m: Math, start: Coord3, velocity: Coord3, i: nat): Coord3
  {
    var t := i as real;
    m.xyz2lbh(Coord3(start.p1 + velocity.p1 * t, start.p2 + velocity.p2 * t, start.p3 + velocity.p3 * t))
  }

  function Ground(c: Coord3): GroundPoint
  {
    (c.p1, c.p2)
  }

  /** The starting point followed by the positions after 1, 2, …, steps
      seconds. */
  function Points(m: Math, longitude: real, latitude: real, start: Coord3, velocity: Coord3, steps: nat)
    : (ps: seq<GroundPoint>)
    ensures |ps| == steps + 1
    ensures ps[0] == (longitude, latitude)
    ensures forall i :: 1 <= i <= steps ==> ps[i] == Ground(PositionAt(m, start, velocity, i))
  {
    if steps == 0 then [(longitude, latitude)]
    else Points(m, longitude, latitude, start, velocity, steps - 1) + [Ground(PositionAt(m, start, velocity, steps))]
  }

  /** The number of one-second steps: a non-positive simulation time gives
      none, since the loop runs from 1 up to it. */
  function StepCount(simulationTime: int): nat
  {
    if simulationTime > 0 then simulationTime else 0
  }

  /** simulateMovement's result for a start position and a motion given as
      speed, azimuth and elevation in degrees. */
  function Trajectory(m: Math, longitude: real, latitude: real, altitude: real,
                      speed: real, azimuth: real, elevation: real, simulationTime: int): seq<GroundPoint>
  {
    Points(m, longitude, latitude, m.lbh2xyz(Coord3(longitude, latitude, altitude)),
           m.velocity(longitude, latitude, speed, azimuth, elevation), StepCount(simulationTime))
  }

  /** The trajectory of a device's own position and motion fields. */
  function DeviceTrajectory(m: Math, d: ReconnaissanceDeviceModel.Device, simulationTime: int): seq<GroundPoint>
  {
    Trajectory(m, d.longitude, d.latitude, d.altitude, d.movementSpeed, d.movementAzimuth,
               d.movementElevation, simulationTime)
  }

  /** The trajectory of a source's own position and motion fields. */
  function SourceTrajectory(m: Math, s: RadiationSourceModel.Source, simulationTime: int): seq<GroundPoint>
  {
    Trajectory(m, s.longitude, s.latitude, s.altitude, s.movementSpeed, s.movementAzimuth,
               s.movementElevation, simulationTime)
  }

  /** A trajectory has one point more than it has steps, whatever the sign
      of the simulation time, and starts at the initial position. */
  lemma TrajectoryShape(m: Math, longitude: real, latitude: real, altitude: real,
                        speed: real, azimuth: real, elevation: real, simulationTime: int)
    ensures var ps := Trajectory(m, longitude, latitude, altitude, speed, azimuth, elevation, simulationTime);
            |ps| == (if simulationTime > 0 then simulationTime else 0) + 1 &&
            ps[0] == (longitude, latitude)
  {
  }

  /** Simulating for longer only appends points: the trajectory for a
      shorter time is a prefix of the one for a longer time. */
  lemma {:induction false} PointsPrefix(m: Math, longitude: real, latitude: real, start: Coord3, velocity: Coord3,
                                        shorter: nat, longer: nat)
    requires shorter <= longer
    ensures Points(m, longitude, latitude, start, velocity, shorter) ==
            Points(m, longitude, latitude, start, velocity, longer)[..shorter + 1]
  {
    if shorter < longer {
      PointsPrefix(m, longitude, latitude, start, velocity, shorter, longer - 1);
      assert Points(m, longitude, latitude, start, velocity, longer)[..longer] ==
             Points(m, longitude, latitude, start, velocity, longer - 1);
    }
  }

  /** With a zero velocity every point after the first is the start
      position converted to Earth-centred coordinates and back. */
  lemma ZeroVelocityStaysPut(m: Math, longitude: real, latitude: real, start: Coord3, steps: nat, i: nat)
    requires 1 <= i <= steps
    ensures Points(m, longitude, latitude, start, Coord3(0.0, 0.0, 0.0), steps)[i] == Ground(m.xyz2lbh(start))
  {
    assert Coord3(start.p1 + 0.0 * (i as real), start.p2 + 0.0 * (i as real), start.p3 + 0.0 * (i as real)) == start;
  }

  /** The object simulateMovement may update: its `objectPtr` together with
      `isDevice`, which says which kind of object it addresses. */
  datatype Target =
    | NoTarget
    | DeviceTarget(device: ReconnaissanceDeviceModel.ReconnaissanceDevice)
    | SourceTarget(source: RadiationSourceModel.RadiationSource)

  function Footprint(target: Target): set<object>
  {
    match target
    case NoTarget => {}
    case DeviceTarget(d) => {d}
    case SourceTarget(s) => {s}
  }

  /** Whether the position is written back: only on the last of at least
      one step, when asked for and when there is an object. */
  predicate WritesBack(simulationTime: int, updatePosition: bool, target: Target)
  {
    simulationTime >= 1 && updatePosition && !target.NoTarget?
  }

  /** simulateMovement. The returned points are the trajectory; when the
      position is written back, the object's longitude, latitude and
      altitude become the last position and nothing else of it changes;
      otherwise the object is untouched. */
  method SimulateMovement(m: Math, initialLongitude: real, initialLatitude: real, initialAltitude: real,
                          speed: real, azimuth: real, elevation: real, simulationTime: int,
                          updatePosition: bool, target: Target)
    returns (trajectoryPoints: seq<GroundPoint>)
    modifies Footprint(target)
    ensures trajectoryPoints == Trajectory(m, initialLongitude, initialLatitude, initialAltitude,
                                           speed, azimuth, elevation, simulationTime)
    ensures var last := PositionAt(m, m.lbh2xyz(Coord3(initialLongitude, initialLatitude, initialAltitude)),
                                   m.velocity(initialLongitude, initialLatitude, speed, azimuth, elevation),
                                   StepCount(simulationTime));
            target.DeviceTarget? ==>
              target.device.Snapshot() ==
                if WritesBack(simulationTime, updatePosition, target)
                then old(target.device.Snapshot()).(longitude := last.p1, latitude := last.p2, altitude := last.p3)
                else old(target.device.Snapshot())
    ensures var last := PositionAt(m, m.lbh2xyz(Coord3(initialLongitude, initialLatitude, initialAltitude)),
                                   m.velocity(initialLongitude, initialLatitude, speed, azimuth, elevation),
                                   StepCount(simulationTime));
            target.SourceTarget? ==>
              target.source.Snapshot() ==
                if WritesBack(simulationTime, updatePosition, target)
                then old(target.source.Snapshot()).(longitude := last.p1, latitude := last.p2, altitude := last.p3)
                else old(target.source.Snapshot())
  {
    var start := m.lbh2xyz(Coord3(initialLongitude, initialLatitude, initialAltitude));
    var velocity := m.velocity(initialLongitude, initialLatitude, speed, azimuth, elevation);
    trajectoryPoints := [(initialLongitude, initialLatitude)];
    var numSteps := simulationTime;
    var i := 1;
    while i <= numSteps
      invariant 1 <= i <= StepCount(numSteps) + 1
      invariant trajectoryPoints == Points(m, initialLongitude, initialLatitude, start, velocity, i - 1)
      invariant target.DeviceTarget? ==>
                  target.device.Snapshot() ==
                    if i > numSteps && WritesBack(numSteps, updatePosition, target)
                    then var last := PositionAt(m, start, velocity, StepCount(numSteps));
                         old(target.device.Snapshot()).(longitude := last.p1, latitude := last.p2, altitude := last.p3)
                    else old(target.device.Snapshot())
      invariant target.SourceTarget? ==>
                  target.source.Snapshot() ==
                    if i > numSteps && WritesBack(numSteps, updatePosition, target)
                    then var last := PositionAt(m, start, velocity, StepCount(numSteps));
                         old(target.source.Snapshot()).(longitude := last.p1, latitude := last.p2, altitude := last.p3)
                    else old(target.source.Snapshot())
    {
      var position := PositionAt(m, start, velocity, i);
      if i == numSteps && updatePosition && !target.NoTarget? {
        match target {
          case DeviceTarget(device) =>
            device.SetLongitude(position.p1);
            device.SetLatitude(position.p2);
            device.SetAltitude(position.p3);
          case SourceTarget(source) =>
            source.SetLongitude(position.p1);
            source.SetLatitude(position.p2);
            source.SetAltitude(position.p3);
        }
      }
      trajectoryPoints := trajectoryPoints + [Ground(position)];
      i := i + 1;
    }
  }

  /** simulateDeviceMovement: the device's own position and motion, always
      written back. */
  method SimulateDeviceMovement(m: Math, device: ReconnaissanceDeviceModel.ReconnaissanceDevice, simulationTime: int)
    returns (trajectoryPoints: seq<GroundPoint>)
    modifies device
    ensures trajectoryPoints == DeviceTrajectory(m, old(device.Snapshot()), simulationTime)
    ensures var d := old(device.Snapshot());
            var last := PositionAt(m, m.lbh2xyz(Coord3(d.longitude, d.latitude, d.altitude)),
                                   m.velocity(d.longitude, d.latitude, d.movementSpeed, d.movementAzimuth, d.movementElevation),
                                   StepCount(simulationTime));
            device.Snapshot() ==
              if simulationTime >= 1 then d.(longitude := last.p1, latitude := last.p2, altitude := last.p3) else d
  {
    trajectoryPoints := SimulateMovement(m, device.longitude, device.latitude, device.altitude, device.movementSpeed,
                                         device.movementAzimuth, device.movementElevation, simulationTime,
                                         true, DeviceTarget(device));
  }

  /** simulateSourceMovement: the source's own position and motion, always
      written back. */
  method SimulateSourceMovement(m: Math, source: RadiationSourceModel.RadiationSource, simulationTime: int)
    returns (trajectoryPoints: seq<GroundPoint>)
    modifies source
    ensures trajectoryPoints == SourceTrajectory(m, old(source.Snapshot()), simulationTime)
    ensures var s := old(source.Snapshot());
            var last := PositionAt(m, m.lbh2xyz(Coord3(s.longitude, s.latitude, s.altitude)),
                                   m.velocity(s.longitude, s.latitude, s.movementSpeed, s.movementAzimuth, s.movementElevation),
                                   StepCount(simulationTime));
            source.Snapshot() ==
              if simulationTime >= 1 then s.(longitude := last.p1, latitude := last.p2, altitude := last.p3) else s
  {
    trajectoryPoints := SimulateMovement(m, source.longitude, source.latitude, source.altitude, source.movementSpeed,
                                         source.movementAzimuth, source.movementElevation, simulationTime,
                                         true, SourceTarget(source));
  }

  /** Both animate functions return at once, doing nothing, without a map
      view or with nothing to animate. */
  predicate AnimationRuns(hasMapView: bool, items: nat)
  {
    hasMapView && items > 0
  }

  /** animateDeviceMovement, up to the script it builds: the loop writing
      the script's point array lists the given trajectory, every point in
      order, so the final marker sits on its last point. */
  method AnimateDeviceMovement(hasMapView: bool, trajectoryPoints: seq<GroundPoint>)
    returns (started: bool, scriptPoints: seq<GroundPoint>)
    ensures started <==> AnimationRuns(hasMapView, |trajectoryPoints|)
    ensures started ==> scriptPoints == trajectoryPoints
    ensures !started ==> scriptPoints == []
  {
    if !hasMapView || |trajectoryPoints| == 0 {
      return false, [];
    }
    started := true;
    scriptPoints := [];
    var i := 0;
    while i < |trajectoryPoints|
      invariant 0 <= i <= |trajectoryPoints|
      invariant scriptPoints == trajectoryPoints[..i]
    {
      scriptPoints := scriptPoints + [trajectoryPoints[i]];
      i := i + 1;
    }
  }

  /** animateMultipleDevicesMovement, up to the script it builds: every
      device and the source are simulated on copies, so the caller's
      objects keep their positions, and the trajectories are those of their
      own fields. */
  method AnimateMultipleDevicesMovement(m: Math, hasMapView: bool,
                                        devices: seq<ReconnaissanceDeviceModel.ReconnaissanceDevice>,
                                        source: RadiationSourceModel.RadiationSource, simulationTime: int)
    returns (started: bool, deviceTrajectories: seq<seq<GroundPoint>>, sourceTrajectory: seq<GroundPoint>)
    ensures started <==> AnimationRuns(hasMapView, |devices|)
    ensures started ==> |deviceTrajectories| == |devices| &&
                        (forall k :: 0 <= k < |devices| ==>
                           deviceTrajectories[k] == DeviceTrajectory(m, devices[k].Snapshot(), simulationTime)) &&
                        sourceTrajectory == SourceTrajectory(m, source.Snapshot(), simulationTime)
    ensures !started ==> deviceTrajectories == [] && sourceTrajectory == []
    ensures forall k :: 0 <= k < |devices| ==> devices[k].Snapshot() == old(devices[k].Snapshot())
    ensures source.Snapshot() == old(source.Snapshot())
  {
    if !hasMapView || |devices| == 0 {
      return false, [], [];
    }
    started := true;
    deviceTrajectories := [];
    var deviceIdx := 0;
    while deviceIdx < |devices|
      invariant 0 <= deviceIdx <= |devices|
      invariant |deviceTrajectories| == deviceIdx
      invariant forall k :: 0 <= k < deviceIdx ==>
                  deviceTrajectories[k] == DeviceTrajectory(m, devices[k].Snapshot(), simulationTime)
    {
      var deviceCopy := new ReconnaissanceDeviceModel.ReconnaissanceDevice.FromRow(devices[deviceIdx].Snapshot());
      var points := SimulateDeviceMovement(m, deviceCopy, simulationTime);
      deviceTrajectories := deviceTrajectories + [points];
      deviceIdx := deviceIdx + 1;
    }
    var sourceCopy := new RadiationSourceModel.RadiationSource.FromRow(source.Snapshot());
    sourceTrajectory := SimulateSourceMovement(m, sourceCopy, simulationTime);
  }
}
