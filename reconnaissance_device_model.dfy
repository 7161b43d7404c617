/** models/src/ReconnaissanceDeviceModel.cpp: the reconnaissance device
    (one row of reconnaissance_device_models).

    The program handles a device in two ways. Vectors returned by the DAO and
    passed to the algorithms hold copies, modelled as the value `Device`.
    The setters change one object in place, modelled as the class
    `ReconnaissanceDevice`, whose `Snapshot()` is the `Device` it currently
    holds. */
module ReconnaissanceDeviceModel {
  import opened Common

  datatype Device = Device(
    id: int,
    name: string,
    isStationary: bool,
    baselineLength: real,
    noisePsd: real,
    sampleRate: real,
    freqMin: real,
    freqMax: real,
    azimuthMin: real,
    azimuthMax: real,
    elevationMin: real,
    elevationMax: real,
    movementSpeed: real,
    movementAzimuth: real,
    movementElevation: real,
    longitude: real,
    latitude: real,
    altitude: real,
    createdAt: string,
    updatedAt: string)

  /** The field values of a default-constructed device. */
  const DefaultDevice: Device := Device(
    0, "", true, 0.0, 0.0, 0.0, 0.0, 0.0, 0.0, 360.0, -90.0, 90.0,
    0.0, 0.0, 0.0, 0.0, 0.0, 0.0, "", "")

  /** The database rule the setters enforce: a stationary device does not move. */
  predicate MotionConsistent(d: Device)
  {
    d.isStationary ==> d.movementSpeed == 0.0 && d.movementAzimuth == 0.0 && d.movementElevation == 0.0
  }

  /** The name and the kind of a device, as the pages list them. */
  function DeviceName(d: Device): string
  {
    d.name
  }

  predicate Stationary(d: Device)
  {
    d.isStationary
  }

  predicate Mobile(d: Device)
  {
    !d.isStationary
  }

  /** getDeviceTypeString. */
  function DeviceTypeString(d: Device): (s: string)
    ensures s == "固定设备" <==> d.isStationary
    ensures s == "移动设备" <==> !d.isStationary
  {
    if d.isStationary then "固定设备" else "移动设备"
  }

  /** A DAO lookup by id over the rows `all`: the first row with that id, or
      a default-constructed device (id 0) when there is none. */
  function FindById(all: seq<Device>, id: int): (d: Device)
    ensures (exists i :: 0 <= i < |all| && all[i].id == id) ==>
              exists i :: 0 <= i < |all| && all[i] == d && d.id == id && forall j :: 0 <= j < i ==> all[j].id != id
    ensures (forall i :: 0 <= i < |all| ==> all[i].id != id) ==> d == DefaultDevice
  {
    if |all| == 0 then DefaultDevice
    else if all[0].id == id then all[0]
    else
      var d := FindById(all[1..], id);
      assert forall i :: 1 <= i < |all| ==> all[i] == all[1..][i - 1];
      d
  }

  /** The devices a list of ids designates, each looked up in turn. */
  function LookUpAll(all: seq<Device>, ids: seq<int>): (ds: seq<Device>)
    ensures |ds| == |ids|
    ensures forall i :: 0 <= i < |ids| ==> ds[i] == FindById(all, ids[i])
  {
    seq(|ids|, i requires 0 <= i < |ids| => FindById(all, ids[i]))
  }

  /** The name-matching loop of the algorithms' loadDeviceInfo: for each
      name in turn, the first row carrying it; the scan stops at the first
      name no row carries. Returns the rows matched so far and whether every
      name was matched. */
  function MatchNames(all: seq<Device>, names: seq<string>): (seq<Device>, bool)
  {
    if |names| == 0 then ([], true)
    else
      var (found, complete) := MatchNames(all, names[..|names| - 1]);
      if !complete then (found, false)
      else match FindByName(all, names[|names| - 1])
        case None => (found, false)
        case Some(d) => (found + [d], true)
  }

  /** The matching succeeds exactly when every name is carried by some
      row. */
  lemma {:induction false} MatchNamesComplete(all: seq<Device>, names: seq<string>)
    ensures MatchNames(all, names).1 <==> forall i :: 0 <= i < |names| ==> FindByName(all, names[i]).Some?
  {
    if |names| > 0 {
      var init := names[..|names| - 1];
      MatchNamesComplete(all, init);
      assert forall i :: 0 <= i < |init| ==> init[i] == names[i];
    }
  }

  /** A successful matching yields one row per name, in name order; any
      matching yields at most one row per name. */
  lemma {:induction false} MatchNamesRows(all: seq<Device>, names: seq<string>)
    ensures MatchNames(all, names).1 ==>
              |MatchNames(all, names).0| == |names| &&
              forall i :: 0 <= i < |names| ==>
                FindByName(all, names[i]).Some? && MatchNames(all, names).0[i] == FindByName(all, names[i]).value
    ensures |MatchNames(all, names).0| <= |names|
  {
    if |names| > 0 {
      var init := names[..|names| - 1];
      MatchNamesRows(all, init);
      assert forall i :: 0 <= i < |init| ==> init[i] == names[i];
    }
  }

  /** Once a name is unknown, the matching has failed with the rows
      matched before it. */
  lemma MatchNamesStops(all: seq<Device>, names: seq<string>, i: int)
    requires 0 <= i < |names| && MatchNames(all, names[..i]).1 && FindByName(all, names[i]).None?
    ensures MatchNames(all, names) == (MatchNames(all, names[..i]).0, false)
    decreases |names| - i
  {
    assert names[..i + 1][..i] == names[..i];
    if i + 1 < |names| {
      assert names[..|names| - 1][..i] == names[..i];
      MatchNamesStops(all, names[..|names| - 1], i);
    } else {
      assert names[..i + 1] == names;
    }
  }

  /** The variant that skips names no row carries. */
  function MatchKnownNames(all: seq<Device>, names: seq<string>): seq<Device>
  {
    if |names| == 0 then []
    else
      var found := MatchKnownNames(all, names[..|names| - 1]);
      match FindByName(all, names[|names| - 1])
        case None => found
        case Some(d) => found + [d]
  }

  /** Every kept row is the first match of some name, every known name
      contributes one row, and no more rows than names are kept. */
  lemma {:induction false} MatchKnownNamesMeaning(all: seq<Device>, names: seq<string>)
    ensures |MatchKnownNames(all, names)| <= |names|
    ensures forall d :: d in MatchKnownNames(all, names) ==>
              exists i :: 0 <= i < |names| && FindByName(all, names[i]) == Some(d)
    ensures (forall i :: 0 <= i < |names| ==> FindByName(all, names[i]).Some?) ==>
              MatchKnownNames(all, names) == MatchNames(all, names).0
  {
    if |names| > 0 {
      var init := names[..|names| - 1];
      MatchKnownNamesMeaning(all, init);
      assert forall i :: 0 <= i < |init| ==> init[i] == names[i];
      if forall i :: 0 <= i < |names| ==> FindByName(all, names[i]).Some? {
        MatchNamesComplete(all, init);
        MatchNamesRows(all, init);
      }
    }
  }

  /** The find_if by name the algorithms use: the first row with that name. */
  function FindByName(all: seq<Device>, name: string): (r: Option<Device>)
    ensures r.None? <==> forall i :: 0 <= i < |all| ==> all[i].name != name
    ensures r.Some? ==> exists i :: 0 <= i < |all| && all[i] == r.value && r.value.name == name &&
                                    forall j :: 0 <= j < i ==> all[j].name != name
  {
    match FirstLabelled(all, DeviceName, name)
    case None => None
    case Some(i) => Some(all[i])
  }

  class ReconnaissanceDevice {
    var deviceId: int
    var deviceName: string
    var isStationary: bool
    var baselineLength: real
    var noisePsd: real
    var sampleRate: real
    var freqRangeMin: real
    var freqRangeMax: real
    var angleAzimuthMin: real
    var angleAzimuthMax: real
    var angleElevationMin: real
    var angleElevationMax: real
    var movementSpeed: real
    var movementAzimuth: real
    var movementElevation: real
    var longitude: real
    var latitude: real
    var altitude: real
    var createdAt: string
    var updatedAt: string

    function Snapshot(): Device
      reads this
    {
      Device(deviceId, deviceName, isStationary, baselineLength, noisePsd, sampleRate,
             freqRangeMin, freqRangeMax, angleAzimuthMin, angleAzimuthMax,
             angleElevationMin, angleElevationMax, movementSpeed, movementAzimuth,
             movementElevation, longitude, latitude, altitude, createdAt, updatedAt)
    }

    ghost predicate Valid()
      reads this
    {
      MotionConsistent(Snapshot())
    }

    /** A fresh device is stationary, covers azimuth [0,360] and elevation
        [-90,90], does not move and has id 0. */
    constructor ()
      ensures Snapshot() == DefaultDevice
      ensures Valid()
    {
      deviceId, deviceName, isStationary := 0, "", true;
      baselineLength, noisePsd, sampleRate := 0.0, 0.0, 0.0;
      freqRangeMin, freqRangeMax := 0.0, 0.0;
      angleAzimuthMin, angleAzimuthMax := 0.0, 360.0;
      angleElevationMin, angleElevationMax := -90.0, 90.0;
      movementSpeed, movementAzimuth, movementElevation := 0.0, 0.0, 0.0;
      longitude, latitude, altitude := 0.0, 0.0, 0.0;
      createdAt, updatedAt := "", "";
    }

    /** A copy of a row, as `device = *it` does. */
    constructor FromRow(d: Device)
      ensures Snapshot() == d
    {
      deviceId, deviceName, isStationary := d.id, d.name, d.isStationary;
      baselineLength, noisePsd, sampleRate := d.baselineLength, d.noisePsd, d.sampleRate;
      freqRangeMin, freqRangeMax := d.freqMin, d.freqMax;
      angleAzimuthMin, angleAzimuthMax := d.azimuthMin, d.azimuthMax;
      angleElevationMin, angleElevationMax := d.elevationMin, d.elevationMax;
      movementSpeed, movementAzimuth, movementElevation := d.movementSpeed, d.movementAzimuth, d.movementElevation;
      longitude, latitude, altitude := d.longitude, d.latitude, d.altitude;
      createdAt, updatedAt := d.createdAt, d.updatedAt;
    }

    method SetDeviceId(id: int)
      modifies this
      ensures Snapshot() == old(Snapshot()).(id := id)
      ensures old(Valid()) ==> Valid()
    {
      deviceId := id;
    }

    method SetDeviceName(name: string)
      modifies this
      ensures Snapshot() == old(Snapshot()).(name := name)
      ensures old(Valid()) ==> Valid()
    {
      deviceName := name;
    }

    /** Making a device stationary also zeroes its three motion fields;
        making it mobile keeps them. */
    method SetIsStationary(s: bool)
      modifies this
      ensures s ==> Snapshot() == old(Snapshot()).(isStationary := true, movementSpeed := 0.0,
                                                   movementAzimuth := 0.0, movementElevation := 0.0)
      ensures !s ==> Snapshot() == old(Snapshot()).(isStationary := false)
      ensures Valid()
    {
      isStationary := s;
      if s {
        movementSpeed := 0.0;
        movementAzimuth := 0.0;
        movementElevation := 0.0;
      }
    }

    method SetBaselineLength(v: real)
      modifies this
      ensures Snapshot() == old(Snapshot()).(baselineLength := v)
      ensures old(Valid()) ==> Valid()
    {
      baselineLength := v;
    }

    /** The lower frequency bound is stored unconditionally, even when it
        reaches or passes the current upper bound. */
    method SetFreqRangeMin(v: real)
      modifies this
      ensures Snapshot() == old(Snapshot()).(freqMin := v)
      ensures old(Valid()) ==> Valid()
    {
      freqRangeMin := v;
    }

    /** The upper frequency bound is stored only when it exceeds the lower one. */
    method SetFreqRangeMax(v: real)
      modifies this
      ensures v > old(freqRangeMin) ==> Snapshot() == old(Snapshot()).(freqMax := v)
      ensures v <= old(freqRangeMin) ==> Snapshot() == old(Snapshot())
      ensures old(Valid()) ==> Valid()
    {
      if v <= freqRangeMin {
        return;
      }
      freqRangeMax := v;
    }

    method SetAngleAzimuthMin(v: real)
      modifies this
      ensures Snapshot() == old(Snapshot()).(azimuthMin := v)
      ensures old(Valid()) ==> Valid()
    {
      angleAzimuthMin := v;
    }

    method SetAngleAzimuthMax(v: real)
      modifies this
      ensures v > old(angleAzimuthMin) ==> Snapshot() == old(Snapshot()).(azimuthMax := v)
      ensures v <= old(angleAzimuthMin) ==> Snapshot() == old(Snapshot())
      ensures old(Valid()) ==> Valid()
    {
      if v <= angleAzimuthMin {
        return;
      }
      angleAzimuthMax := v;
    }

    method SetAngleElevationMin(v: real)
      modifies this
      ensures Snapshot() == old(Snapshot()).(elevationMin := v)
      ensures old(Valid()) ==> Valid()
    {
      angleElevationMin := v;
    }

    method SetAngleElevationMax(v: real)
      modifies this
      ensures v > old(angleElevationMin) ==> Snapshot() == old(Snapshot()).(elevationMax := v)
      ensures v <= old(angleElevationMin) ==> Snapshot() == old(Snapshot())
      ensures old(Valid()) ==> Valid()
    {
      if v <= angleElevationMin {
        return;
      }
      angleElevationMax := v;
    }

    method SetNoisePsd(v: real)
      modifies this
      ensures Snapshot() == old(Snapshot()).(noisePsd := v)
      ensures old(Valid()) ==> Valid()
    {
      noisePsd := v;
    }

    method SetSampleRate(v: real)
      modifies this
      ensures Snapshot() == old(Snapshot()).(sampleRate := v)
      ensures old(Valid()) ==> Valid()
    {
      sampleRate := v;
    }

    /** A non-zero speed is refused while the device is stationary. */
    method SetMovementSpeed(v: real)
      modifies this
      ensures old(isStationary) && v != 0.0 ==> Snapshot() == old(Snapshot())
      ensures !(old(isStationary) && v != 0.0) ==> Snapshot() == old(Snapshot()).(movementSpeed := v)
      ensures old(Valid()) ==> Valid()
    {
      if isStationary && v != 0.0 {
        return;
      }
      movementSpeed := v;
    }

    method SetMovementAzimuth(v: real)
      modifies this
      ensures old(isStationary) && v != 0.0 ==> Snapshot() == old(Snapshot())
      ensures !(old(isStationary) && v != 0.0) ==> Snapshot() == old(Snapshot()).(movementAzimuth := v)
      ensures old(Valid()) ==> Valid()
    {
      if isStationary && v != 0.0 {
        return;
      }
      movementAzimuth := v;
    }

    method SetMovementElevation(v: real)
      modifies this
      ensures old(isStationary) && v != 0.0 ==> Snapshot() == old(Snapshot())
      ensures !(old(isStationary) && v != 0.0) ==> Snapshot() == old(Snapshot()).(movementElevation := v)
      ensures old(Valid()) ==> Valid()
    {
      if isStationary && v != 0.0 {
        return;
      }
      movementElevation := v;
    }

    /** Out-of-range longitudes are reported on stderr but stored anyway. */
    method SetLongitude(v: real)
      modifies this
      ensures Snapshot() == old(Snapshot()).(longitude := v)
      ensures old(Valid()) ==> Valid()
    {
      longitude := v;
    }

    /** Out-of-range latitudes are reported on stderr but stored anyway. */
    method SetLatitude(v: real)
      modifies this
      ensures Snapshot() == old(Snapshot()).(latitude := v)
      ensures old(Valid()) ==> Valid()
    {
      latitude := v;
    }

    method SetAltitude(v: real)
      modifies this
      ensures Snapshot() == old(Snapshot()).(altitude := v)
      ensures old(Valid()) ==> Valid()
    {
      altitude := v;
    }

    method SetCreatedAt(t: string)
      modifies this
      ensures Snapshot() == old(Snapshot()).(createdAt := t)
      ensures old(Valid()) ==> Valid()
    {
      createdAt := t;
    }

    method SetUpdatedAt(t: string)
      modifies this
      ensures Snapshot() == old(Snapshot()).(updatedAt := t)
      ensures old(Valid()) ==> Valid()
    {
      updatedAt := t;
    }

    function GetDeviceTypeString(): (s: string)
      reads this
      ensures s == DeviceTypeString(Snapshot())
      ensures s == "固定设备" <==> isStationary
    {
      if isStationary then "固定设备" else "移动设备"
    }
  }

  /** Every setter keeps the motion rule: the ones that change a field
      other than the four motion fields, the three guarded motion setters,
      which refuse a non-zero value while the device is stationary, and
      setIsStationary, which zeroes the motion when it makes the device
      stationary. */
  lemma SetterKeepsMotionRule(d: Device, v: real, id: int, t: string)
    requires MotionConsistent(d)
    ensures MotionConsistent(d.(id := id)) && MotionConsistent(d.(name := t))
    ensures MotionConsistent(d.(baselineLength := v)) && MotionConsistent(d.(noisePsd := v)) &&
            MotionConsistent(d.(sampleRate := v))
    ensures MotionConsistent(d.(freqMin := v)) && MotionConsistent(d.(freqMax := v))
    ensures MotionConsistent(d.(azimuthMin := v)) && MotionConsistent(d.(azimuthMax := v))
    ensures MotionConsistent(d.(elevationMin := v)) && MotionConsistent(d.(elevationMax := v))
    ensures MotionConsistent(d.(longitude := v)) && MotionConsistent(d.(latitude := v)) &&
            MotionConsistent(d.(altitude := v))
    ensures MotionConsistent(d.(createdAt := t)) && MotionConsistent(d.(updatedAt := t))
    ensures !(d.isStationary && v != 0.0) ==> MotionConsistent(d.(movementSpeed := v))
    ensures !(d.isStationary && v != 0.0) ==> MotionConsistent(d.(movementAzimuth := v))
    ensures !(d.isStationary && v != 0.0) ==> MotionConsistent(d.(movementElevation := v))
    ensures MotionConsistent(d.(isStationary := true, movementSpeed := 0.0, movementAzimuth := 0.0, movementElevation := 0.0))
    ensures MotionConsistent(d.(isStationary := false))
  {
  }

  /** Raising the lower frequency bound above the upper one is accepted, so
      "min < max" is not an invariant of the class. */
  lemma LowerBoundMayPassUpper()
    ensures var d := DefaultDevice.(freqMax := 10.0).(freqMin := 20.0);
            MotionConsistent(d) && d.freqMin >= d.freqMax
  {
  }
}
