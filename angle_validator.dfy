/** utils/AngleValidator.cpp: whether a receiver's reception ranges and an
    emitter's working sector see each other. */
module AngleValidator {
  import opened Common
  import opened ReconnaissanceDeviceModel
  import opened RadiationSourceModel

  /** isAngleInRange: a range whose minimum exceeds its maximum is a sector
      that crosses 0 degrees. */
  function IsAngleInRange(angle: real, minAngle: real, maxAngle: real): bool
  {
    if minAngle > maxAngle then angle >= minAngle || angle <= maxAngle
    else angle >= minAngle && angle <= maxAngle
  }

  /** For an ordinary range the test is closed-interval membership. */
  lemma InRangeOrdinary(angle: real, minAngle: real, maxAngle: real)
    requires minAngle <= maxAngle
    ensures IsAngleInRange(angle, minAngle, maxAngle) <==> minAngle <= angle <= maxAngle
  {
  }

  /** A range crossing 0 degrees accepts everything except the open gap
      between its maximum and its minimum, and for angles in [0,360] it is
      the union of the two ordinary ranges [min,360] and [0,max]. */
  lemma InRangeWrapped(angle: real, minAngle: real, maxAngle: real)
    requires minAngle > maxAngle
    ensures IsAngleInRange(angle, minAngle, maxAngle) <==> !(maxAngle < angle < minAngle)
    ensures 0.0 <= angle <= 360.0 && maxAngle >= 0.0 && minAngle <= 360.0 ==>
              (IsAngleInRange(angle, minAngle, maxAngle) <==>
                 IsAngleInRange(angle, minAngle, 360.0) || IsAngleInRange(angle, 0.0, maxAngle))
  {
  }

  /** calculateAzimuthElevation from `a` to `b`: the azimuth is measured
      from north (+y) towards east (+x), shifted into [0,360); the elevation
      is the angle above the horizontal plane. */
  function AzimuthElevation(m: Math, a: Coord3, b: Coord3): (r: (real, real))
    requires Lawful(m)
    ensures 0.0 <= r.0 < 360.0
    ensures -90.0 <= r.1 <= 90.0
  {
    var dx, dy, dz := b.p1 - a.p1, b.p2 - a.p2, b.p3 - a.p3;
    var horizontal := m.sqrt(dx * dx + dy * dy);
    SquareSumNonNegative(dx, dy);
    var azimuth := m.atan2Deg(dx, dy);
    (if azimuth < 0.0 then azimuth + 360.0 else azimuth, m.atan2Deg(dz, horizontal))
  }

  lemma SquareSumNonNegative(a: real, b: real)
    ensures a * a + b * b >= 0.0
  {
    SquareNonNegative(a);
    SquareNonNegative(b);
  }

  /** Whether the view from `from` towards `to` falls inside the given
      azimuth and elevation ranges. */
  predicate Covers(m: Math, from: Coord3, to: Coord3, azMin: real, azMax: real, elMin: real, elMax: real)
    requires Lawful(m)
  {
    var ae := AzimuthElevation(m, from, to);
    IsAngleInRange(ae.0, azMin, azMax) && IsAngleInRange(ae.1, elMin, elMax)
  }

  /** canReceiveSignal. */
  function CanReceiveSignal(m: Math, receiver: Coord3,
                            receiverAzimuthMin: real, receiverAzimuthMax: real,
                            receiverElevationMin: real, receiverElevationMax: real,
                            emitter: Coord3,
                            emitterAzimuthMin: real, emitterAzimuthMax: real,
                            emitterElevationMin: real, emitterElevationMax: real): (r: bool)
    requires Lawful(m)
    ensures r <==> Covers(m, receiver, emitter, receiverAzimuthMin, receiverAzimuthMax,
                          receiverElevationMin, receiverElevationMax) &&
                   Covers(m, emitter, receiver, emitterAzimuthMin, emitterAzimuthMax,
                          emitterElevationMin, emitterElevationMax)
  {
    var toEmitter := AzimuthElevation(m, receiver, emitter);
    var toReceiver := AzimuthElevation(m, emitter, receiver);
    var receiverCanHear := IsAngleInRange(toEmitter.0, receiverAzimuthMin, receiverAzimuthMax) &&
                           IsAngleInRange(toEmitter.1, receiverElevationMin, receiverElevationMax);
    var emitterCanTransmit := IsAngleInRange(toReceiver.0, emitterAzimuthMin, emitterAzimuthMax) &&
                              IsAngleInRange(toReceiver.1, emitterElevationMin, emitterElevationMax);
    receiverCanHear && emitterCanTransmit
  }

  function DevicePosition(m: Math, d: Device): Coord3
  {
    m.lbh2xyz(Coord3(d.longitude, d.latitude, d.altitude))
  }

  function SourcePosition(m: Math, s: Source): Coord3
  {
    m.lbh2xyz(Coord3(s.longitude, s.latitude, s.altitude))
  }

  /** The per-device step of validateAngle: the receiver side is checked
      before the emitter side. */
  function AngleCheck(m: Math, s: Source, d: Device): Option<FailMessage>
    requires Lawful(m)
  {
    var dp, sp := DevicePosition(m, d), SourcePosition(m, s);
    var toEmitter := AzimuthElevation(m, dp, sp);
    var toReceiver := AzimuthElevation(m, sp, dp);
    if !Covers(m, dp, sp, d.azimuthMin, d.azimuthMax, d.elevationMin, d.elevationMax) then
      Some(ReceiverAngle(d.name, toEmitter.0, toEmitter.1))
    else if !Covers(m, sp, dp, s.azimuthStart, s.azimuthEnd, s.elevationStart, s.elevationEnd) then
      Some(EmitterAngle(d.name, toReceiver.0, toReceiver.1))
    else None
  }

  /** validateAngle: the source and every device are looked up by id, the
      devices are checked in order and the first failure is reported. */
  method ValidateAngle(m: Math, sources: seq<Source>, devices: seq<Device>, deviceIds: seq<int>, sourceId: int)
    returns (ok: bool, failMessage: Option<FailMessage>)
    requires Lawful(m)
    ensures failMessage == FirstFailure(LookUpAll(devices, deviceIds),
                                        d => AngleCheck(m, RadiationSourceModel.FindById(sources, sourceId), d))
    ensures ok <==> failMessage.None?
  {
    var source := RadiationSourceModel.FindById(sources, sourceId);
    ghost var ds := LookUpAll(devices, deviceIds);
    var check := d => AngleCheck(m, source, d);
    var i := 0;
    while i < |deviceIds|
      invariant 0 <= i <= |deviceIds|
      invariant FirstFailure(ds[..i], check).None?
    {
      var device := ReconnaissanceDeviceModel.FindById(devices, deviceIds[i]);
      var verdict := AngleCheck(m, source, device);
      FirstFailureStep(ds, i, check);
      if verdict.Some? {
        return false, verdict;
      }
      i := i + 1;
    }
    assert ds[..i] == ds;
    return true, None;
  }

  /** validateAngle passes exactly when canReceiveSignal holds for the
      source and each listed device; otherwise the reported failure belongs
      to the first device for which it does not hold. */
  lemma {:induction false} ValidateAngleMeaning(m: Math, sources: seq<Source>, devices: seq<Device>,
                                                deviceIds: seq<int>, sourceId: int)
    requires Lawful(m)
    ensures var s := RadiationSourceModel.FindById(sources, sourceId);
            var ds := LookUpAll(devices, deviceIds);
            var v := FirstFailure(ds, d => AngleCheck(m, s, d));
            (v.None? <==> forall i :: 0 <= i < |ds| ==> ReceivesFrom(m, s, ds[i])) &&
            (v.Some? ==> exists k :: 0 <= k < |ds| && !ReceivesFrom(m, s, ds[k]) &&
                                     v == AngleCheck(m, s, ds[k]) &&
                                     forall j :: 0 <= j < k ==> ReceivesFrom(m, s, ds[j]))
  {
    var s := RadiationSourceModel.FindById(sources, sourceId);
    var ds := LookUpAll(devices, deviceIds);
    var check := d => AngleCheck(m, s, d);
    FirstFailureMeaning(ds, check);
    forall d | true
      ensures check(d).None? <==> ReceivesFrom(m, s, d)
    {
      CheckMeansReceives(m, s, d);
    }
  }

  /** canReceiveSignal for a source and a device row. */
  predicate ReceivesFrom(m: Math, s: Source, d: Device)
    requires Lawful(m)
  {
    CanReceiveSignal(m, DevicePosition(m, d), d.azimuthMin, d.azimuthMax, d.elevationMin, d.elevationMax,
                     SourcePosition(m, s), s.azimuthStart, s.azimuthEnd, s.elevationStart, s.elevationEnd)
  }

  lemma CheckMeansReceives(m: Math, s: Source, d: Device)
    requires Lawful(m)
    ensures AngleCheck(m, s, d).None? <==> ReceivesFrom(m, s, d)
  {
  }
}
