/** models/src/RadiationSourceModel.cpp: the radiation source (one row of
    radiation_source_models). As for devices, `Source` is the value the
    program copies around and `RadiationSource` the object its setters
    change in place. */
module RadiationSourceModel {
  import opened Common

  datatype Source = Source(
    id: int,
    name: string,
    isStationary: bool,
    transmitPower: real,
    scanPeriod: real,
    carrierFrequency: real,
    azimuthStart: real,
    azimuthEnd: real,
    elevationStart: real,
    elevationEnd: real,
    movementSpeed: real,
    movementAzimuth: real,
    movementElevation: real,
    longitude: real,
    latitude: real,
    altitude: real,
    createdAt: string,
    lastUpdated: string)

  /** The field values of a default-constructed source. */
  const DefaultSource: Source := Source(
    0, "", true, 0.0, 0.0, 0.0, 0.0, 360.0, -90.0, 90.0,
    0.0, 0.0, 0.0, 0.0, 0.0, 0.0, "", "")

  /** A stationary source does not move. */
  predicate MotionConsistent(s: Source)
  {
    s.isStationary ==> s.movementSpeed == 0.0 && s.movementAzimuth == 0.0 && s.movementElevation == 0.0
  }

  /** The name and the kind of a source, as the pages list them. */
  function SourceName(s: Source): string
  {
    s.name
  }

  predicate Stationary(s: Source)
  {
    s.isStationary
  }

  /** RadiationSourceDAO::getRadiationSourceById over the rows `all`: the
      first row with that id, or a default-constructed source (id 0). */
  function FindById(all: seq<Source>, id: int): (s: Source)
    ensures (exists i :: 0 <= i < |all| && all[i].id == id) ==>
              exists i :: 0 <= i < |all| && all[i] == s && s.id == id && forall j :: 0 <= j < i ==> all[j].id != id
    ensures (forall i :: 0 <= i < |all| ==> all[i].id != id) ==> s == DefaultSource
  {
    if |all| == 0 then DefaultSource
    else if all[0].id == id then all[0]
    else
      var s := FindById(all[1..], id);
      assert forall i :: 1 <= i < |all| ==> all[i] == all[1..][i - 1];
      s
  }

  /** The find_if by name the algorithms use: the first row with that name. */
  function FindByName(all: seq<Source>, name: string): (r: Option<Source>)
    ensures r.None? <==> forall i :: 0 <= i < |all| ==> all[i].name != name
    ensures r.Some? ==> exists i :: 0 <= i < |all| && all[i] == r.value && r.value.name == name &&
                                    forall j :: 0 <= j < i ==> all[j].name != name
  {
    match FirstLabelled(all, SourceName, name)
    case None => None
    case Some(i) => Some(all[i])
  }

  class RadiationSource {
    var radiationId: int
    var radiationName: string
    var isStationary: bool
    var transmitPower: real
    var scanPeriod: real
    var carrierFrequency: real
    var azimuthStart: real
    var azimuthEnd: real
    var elevationStart: real
    var elevationEnd: real
    var movementSpeed: real
    var movementAzimuth: real
    var movementElevation: real
    var longitude: real
    var latitude: real
    var altitude: real
    var createdAt: string
    var lastUpdated: string

    function Snapshot(): Source
      reads this
    {
      Source(radiationId, radiationName, isStationary, transmitPower, scanPeriod, carrierFrequency,
             azimuthStart, azimuthEnd, elevationStart, elevationEnd, movementSpeed, movementAzimuth,
             movementElevation, longitude, latitude, altitude, createdAt, lastUpdated)
    }

    ghost predicate Valid()
      reads this
    {
      MotionConsistent(Snapshot())
    }

    /** A fresh source is stationary, radiates over azimuth [0,360] and
        elevation [-90,90], does not move and has id 0. */
    constructor ()
      ensures Snapshot() == DefaultSource
      ensures Valid()
    {
      radiationId, radiationName, isStationary := 0, "", true;
      transmitPower, scanPeriod, carrierFrequency := 0.0, 0.0, 0.0;
      azimuthStart, azimuthEnd := 0.0, 360.0;
      elevationStart, elevationEnd := -90.0, 90.0;
      movementSpeed, movementAzimuth, movementElevation := 0.0, 0.0, 0.0;
      longitude, latitude, altitude := 0.0, 0.0, 0.0;
      createdAt, lastUpdated := "", "";
    }

    /** A copy of a row, as `source = *it` does. */
    constructor FromRow(s: Source)
      ensures Snapshot() == s
    {
      radiationId, radiationName, isStationary := s.id, s.name, s.isStationary;
      transmitPower, scanPeriod, carrierFrequency := s.transmitPower, s.scanPeriod, s.carrierFrequency;
      azimuthStart, azimuthEnd := s.azimuthStart, s.azimuthEnd;
      elevationStart, elevationEnd := s.elevationStart, s.elevationEnd;
      movementSpeed, movementAzimuth, movementElevation := s.movementSpeed, s.movementAzimuth, s.movementElevation;
      longitude, latitude, altitude := s.longitude, s.latitude, s.altitude;
      createdAt, lastUpdated := s.createdAt, s.lastUpdated;
    }

    method SetRadiationId(id: int)
      modifies this
      ensures Snapshot() == old(Snapshot()).(id := id)
    {
      radiationId := id;
    }

    method SetRadiationName(name: string)
      modifies this
      ensures Snapshot() == old(Snapshot()).(name := name)
    {
      radiationName := name;
    }

    /** Making a source stationary also zeroes its three motion fields;
        making it mobile keeps them. */
    method SetIsStationary(stationary: bool)
      modifies this
      ensures stationary ==> Snapshot() == old(Snapshot()).(isStationary := true, movementSpeed := 0.0,
                                                            movementAzimuth := 0.0, movementElevation := 0.0)
      ensures !stationary ==> Snapshot() == old(Snapshot()).(isStationary := false)
      ensures Valid()
    {
      isStationary := stationary;
      if stationary {
        movementSpeed := 0.0;
        movementAzimuth := 0.0;
        movementElevation := 0.0;
      }
    }

    method SetTransmitPower(power: real)
      modifies this
      ensures Snapshot() == old(Snapshot()).(transmitPower := power)
    {
      transmitPower := power;
    }

    method SetScanPeriod(period: real)
      modifies this
      ensures Snapshot() == old(Snapshot()).(scanPeriod := period)
    {
      scanPeriod := period;
    }

    method SetCarrierFrequency(freq: real)
      modifies this
      ensures Snapshot() == old(Snapshot()).(carrierFrequency := freq)
    {
      carrierFrequency := freq;
    }

    /** The sector start is stored unconditionally, even past the end. */
    method SetAzimuthStart(start: real)
      modifies this
      ensures Snapshot() == old(Snapshot()).(azimuthStart := start)
    {
      azimuthStart := start;
    }

    /** The sector end is stored only when it exceeds the start. */
    method SetAzimuthEnd(end: real)
      modifies this
      ensures end > old(azimuthStart) ==> Snapshot() == old(Snapshot()).(azimuthEnd := end)
      ensures end <= old(azimuthStart) ==> Snapshot() == old(Snapshot())
    {
      if end <= azimuthStart {
        return;
      }
      azimuthEnd := end;
    }

    method SetElevationStart(start: real)
      modifies this
      ensures Snapshot() == old(Snapshot()).(elevationStart := start)
    {
      elevationStart := start;
    }

    method SetElevationEnd(end: real)
      modifies this
      ensures end > old(elevationStart) ==> Snapshot() == old(Snapshot()).(elevationEnd := end)
      ensures end <= old(elevationStart) ==> Snapshot() == old(Snapshot())
    {
      if end <= elevationStart {
        return;
      }
      elevationEnd := end;
    }

    /** A non-zero speed is refused while the source is stationary. */
    method SetMovementSpeed(speed: real)
      modifies this
      ensures old(isStationary) && speed != 0.0 ==> Snapshot() == old(Snapshot())
      ensures !(old(isStationary) && speed != 0.0) ==> Snapshot() == old(Snapshot()).(movementSpeed := speed)
      ensures old(Valid()) ==> Valid()
    {
      if isStationary && speed != 0.0 {
        return;
      }
      movementSpeed := speed;
    }

    method SetMovementAzimuth(azimuth: real)
      modifies this
      ensures old(isStationary) && azimuth != 0.0 ==> Snapshot() == old(Snapshot())
      ensures !(old(isStationary) && azimuth != 0.0) ==> Snapshot() == old(Snapshot()).(movementAzimuth := azimuth)
      ensures old(Valid()) ==> Valid()
    {
      if isStationary && azimuth != 0.0 {
        return;
      }
      movementAzimuth := azimuth;
    }

    method SetMovementElevation(elevation: real)
      modifies this
      ensures old(isStationary) && elevation != 0.0 ==> Snapshot() == old(Snapshot())
      ensures !(old(isStationary) && elevation != 0.0) ==> Snapshot() == old(Snapshot()).(movementElevation := elevation)
      ensures old(Valid()) ==> Valid()
    {
      if isStationary && elevation != 0.0 {
        return;
      }
      movementElevation := elevation;
    }

    /** Out-of-range longitudes are reported on stderr but stored anyway. */
    method SetLongitude(longitude': real)
      modifies this
      ensures Snapshot() == old(Snapshot()).(longitude := longitude')
      ensures old(Valid()) ==> Valid()
    {
      longitude := longitude';
    }

    /** Out-of-range latitudes are reported on stderr but stored anyway. */
    method SetLatitude(latitude': real)
      modifies this
      ensures Snapshot() == old(Snapshot()).(latitude := latitude')
      ensures old(Valid()) ==> Valid()
    {
      latitude := latitude';
    }

    method SetAltitude(altitude': real)
      modifies this
      ensures Snapshot() == old(Snapshot()).(altitude := altitude')
      ensures old(Valid()) ==> Valid()
    {
      altitude := altitude';
    }

    method SetCreatedAt(t: string)
      modifies this
      ensures Snapshot() == old(Snapshot()).(createdAt := t)
    {
      createdAt := t;
    }

    method SetLastUpdated(t: string)
      modifies this
      ensures Snapshot() == old(Snapshot()).(lastUpdated := t)
    {
      lastUpdated := t;
    }
  }
}
