/** utils/SimulationValidator.cpp: validateAll, the pre-simulation check
    that combines the frequency intersection, each device's own frequency
    range, both angle checks and the SNR check, in that order. */
module SimulationValidator {
  import opened Common
  import opened ReconnaissanceDeviceModel
  import opened RadiationSourceModel
  import AngleValidator
  import SnrValidator

  /** The four checks of one device, the first failing one reported:
      the source's carrier in the device's own closed range, the receiver
      side and the emitter side of the angles, and the SNR computed with
      the Cartesian distance and the common bandwidth. */
  function DeviceCheck(m: Math, model: SnrValidator.SnrModel, s: Source, bandwidth: real, d: Device): Option<FailMessage>
    requires Lawful(m)
  {
    if s.carrierFrequency < d.freqMin || s.carrierFrequency > d.freqMax then
      Some(FrequencyOutOfRange(d.name, s.name, d.freqMin, d.freqMax, s.carrierFrequency))
    else if AngleValidator.AngleCheck(m, s, d).Some? then
      AngleValidator.AngleCheck(m, s, d)
    else
      var distance := Distance(m, AngleValidator.DevicePosition(m, d), AngleValidator.SourcePosition(m, s));
      var snr := model.snr(distance, s.transmitPower, s.carrierFrequency, d.noisePsd, bandwidth);
      var maxDistance := model.maxRange(s.transmitPower, s.carrierFrequency, d.noisePsd, bandwidth);
      if snr < SnrThreshold then Some(SnrTooLow(s.name, d.name, maxDistance, distance, snr)) else None
  }

  /** What validateAll reports for the devices `ds`. */
  function AllVerdict(m: Math, model: SnrValidator.SnrModel, s: Source, ds: seq<Device>): Option<FailMessage>
    requires Lawful(m)
  {
    var band := SnrValidator.BandOf(ds);
    if SnrValidator.IsEmpty(band) then Some(NoCommonBand)
    else FirstFailure(ds, d => DeviceCheck(m, model, s, SnrValidator.Bandwidth(band), d))
  }

  /** validateAll. */
  method ValidateAll(m: Math, model: SnrValidator.SnrModel, sources: seq<Source>, devices: seq<Device>,
                     deviceIds: seq<int>, sourceId: int)
    returns (ok: bool, failMessage: Option<FailMessage>)
    requires Lawful(m)
    ensures failMessage == AllVerdict(m, model, RadiationSourceModel.FindById(sources, sourceId),
                                      LookUpAll(devices, deviceIds))
    ensures ok <==> failMessage.None?
  {
    var source := RadiationSourceModel.FindById(sources, sourceId);
    ghost var ds := LookUpAll(devices, deviceIds);
    var intersectFreqMin: Option<real> := None;
    var intersectFreqMax: Option<real> := None;
    var i := 0;
    while i < |deviceIds|
      invariant 0 <= i <= |deviceIds|
      invariant SnrValidator.Band(intersectFreqMin, intersectFreqMax) == SnrValidator.BandOf(ds[..i])
    {
      var device := ReconnaissanceDeviceModel.FindById(devices, deviceIds[i]);
      intersectFreqMin := Some(if intersectFreqMin.None? then device.freqMin else Max(intersectFreqMin.value, device.freqMin));
      intersectFreqMax := Some(if intersectFreqMax.None? then device.freqMax else Min(intersectFreqMax.value, device.freqMax));
      assert ds[..i + 1][..i] == ds[..i];
      i := i + 1;
    }
    assert ds[..i] == ds;
    var band := SnrValidator.Band(intersectFreqMin, intersectFreqMax);
    if SnrValidator.IsEmpty(band) {
      return false, Some(NoCommonBand);
    }
    var commonBandwidth := SnrValidator.Bandwidth(band);
    ghost var check := d => DeviceCheck(m, model, source, commonBandwidth, d);
    i := 0;
    while i < |deviceIds|
      invariant 0 <= i <= |deviceIds|
      invariant FirstFailure(ds[..i], check).None?
    {
      var device := ReconnaissanceDeviceModel.FindById(devices, deviceIds[i]);
      var verdict := DeviceCheck(m, model, source, commonBandwidth, device);
      FirstFailureStep(ds, i, check);
      if verdict.Some? {
        return false, verdict;
      }
      i := i + 1;
    }
    assert ds[..i] == ds;
    return true, None;
  }

  /** The SNR check of one device, with the Cartesian distance. */
  predicate SnrHolds(m: Math, model: SnrValidator.SnrModel, s: Source, bandwidth: real, d: Device)
  {
    var distance := Distance(m, AngleValidator.DevicePosition(m, d), AngleValidator.SourcePosition(m, s));
    model.snr(distance, s.transmitPower, s.carrierFrequency, d.noisePsd, bandwidth) >= SnrThreshold
  }

  /** validateAll passes exactly when some frequency is received by every
      device and each device receives the carrier, sees and is seen by the
      source (canReceiveSignal) and has enough SNR at the common bandwidth. */
  lemma ValidateAllMeaning(m: Math, model: SnrValidator.SnrModel, s: Source, ds: seq<Device>)
    requires Lawful(m)
    ensures AllVerdict(m, model, s, ds).None? <==>
              (exists x :: SnrValidator.ReceivedByAll(ds, x)) &&
              forall i :: 0 <= i < |ds| ==>
                ds[i].freqMin <= s.carrierFrequency <= ds[i].freqMax &&
                AngleValidator.ReceivesFrom(m, s, ds[i]) &&
                SnrHolds(m, model, s, SnrValidator.Bandwidth(SnrValidator.BandOf(ds)), ds[i])
  {
    var bw := SnrValidator.Bandwidth(SnrValidator.BandOf(ds));
    SnrValidator.BandEmptyMeaning(ds);
    FirstFailureMeaning(ds, d => DeviceCheck(m, model, s, bw, d));
    forall d | true
      ensures DeviceCheck(m, model, s, bw, d).None? <==>
                d.freqMin <= s.carrierFrequency <= d.freqMax && AngleValidator.ReceivesFrom(m, s, d) &&
                SnrHolds(m, model, s, bw, d)
    {
      AngleValidator.CheckMeansReceives(m, s, d);
    }
  }

  /** The checks run in the fixed order: a device whose carrier is outside
      its range is reported for frequency even if its angles or SNR fail
      too, and an angle failure is reported before an SNR failure. */
  lemma CheckOrder(m: Math, model: SnrValidator.SnrModel, s: Source, bandwidth: real, d: Device)
    requires Lawful(m)
    ensures !(d.freqMin <= s.carrierFrequency <= d.freqMax) ==>
              DeviceCheck(m, model, s, bandwidth, d).value.FrequencyOutOfRange?
    ensures d.freqMin <= s.carrierFrequency <= d.freqMax && !AngleValidator.ReceivesFrom(m, s, d) ==>
              var r := DeviceCheck(m, model, s, bandwidth, d).value;
              r.ReceiverAngle? || r.EmitterAngle?
  {
    AngleValidator.CheckMeansReceives(m, s, d);
  }
}
