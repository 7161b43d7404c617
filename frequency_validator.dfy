/** utils/FrequencyValidator.cpp: whether one device can receive one
    source's carrier frequency. The DAO tables are passed in as rows. */
module FrequencyValidator {
  import opened Common
  import ReconnaissanceDeviceModel
  import RadiationSourceModel

  /** getSourceCarrierFrequency: 0 when the looked-up source has id 0. */
  function GetSourceCarrierFrequency(sources: seq<RadiationSourceModel.Source>, sourceId: int): (f: real)
    ensures var s := RadiationSourceModel.FindById(sources, sourceId);
            f == (if s.id == 0 then 0.0 else s.carrierFrequency)
  {
    var source := RadiationSourceModel.FindById(sources, sourceId);
    if source.id == 0 then 0.0 else source.carrierFrequency
  }

  /** A source id that no row carries gives carrier frequency 0. */
  lemma UnknownSourceHasNoCarrier(sources: seq<RadiationSourceModel.Source>, sourceId: int)
    requires forall i :: 0 <= i < |sources| ==> sources[i].id != sourceId
    ensures GetSourceCarrierFrequency(sources, sourceId) == 0.0
  {
  }

  /** getDeviceFrequencyRange with its two reference out-parameters: the
      caller's `minFreq`/`maxFreq` come in and go out unchanged when the
      looked-up device has id 0. */
  method GetDeviceFrequencyRange(devices: seq<ReconnaissanceDeviceModel.Device>, deviceId: int,
                                 minFreq: real, maxFreq: real)
    returns (found: bool, minOut: real, maxOut: real)
    ensures var d := ReconnaissanceDeviceModel.FindById(devices, deviceId);
            found <==> d.id != 0
    ensures !found ==> minOut == minFreq && maxOut == maxFreq
    ensures found ==> minOut == ReconnaissanceDeviceModel.FindById(devices, deviceId).freqMin &&
                      maxOut == ReconnaissanceDeviceModel.FindById(devices, deviceId).freqMax
  {
    var device := ReconnaissanceDeviceModel.FindById(devices, deviceId);
    if device.id == 0 {
      return false, minFreq, maxFreq;
    }
    minOut := device.freqMin;
    maxOut := device.freqMax;
    found := true;
  }

  /** Which of the three exits validateFrequency takes. */
  datatype Verdict = NoCarrier | NoDevice | Checked(valid: bool)

  /** validateFrequency, with the exit it takes: a non-positive carrier is
      refused before the device is looked up. */
  method ValidateFrequency(sources: seq<RadiationSourceModel.Source>, devices: seq<ReconnaissanceDeviceModel.Device>,
                           deviceId: int, sourceId: int)
    returns (valid: bool, exit: Verdict)
    ensures exit == FrequencyVerdict(sources, devices, deviceId, sourceId)
    ensures valid <==> exit == Checked(true)
  {
    var carrierFrequency := GetSourceCarrierFrequency(sources, sourceId);
    if carrierFrequency <= 0.0 {
      return false, NoCarrier;
    }
    var found, minFreq, maxFreq := GetDeviceFrequencyRange(devices, deviceId, 0.0, 0.0);
    if !found {
      return false, NoDevice;
    }
    valid := carrierFrequency >= minFreq && carrierFrequency <= maxFreq;
    exit := Checked(valid);
  }

  /** The decision validateFrequency makes, as a function of the rows. */
  function FrequencyVerdict(sources: seq<RadiationSourceModel.Source>, devices: seq<ReconnaissanceDeviceModel.Device>,
                            deviceId: int, sourceId: int): Verdict
  {
    var carrier := GetSourceCarrierFrequency(sources, sourceId);
    var d := ReconnaissanceDeviceModel.FindById(devices, deviceId);
    if carrier <= 0.0 then NoCarrier
    else if d.id == 0 then NoDevice
    else Checked(d.freqMin <= carrier <= d.freqMax)
  }

  /** The frequency check passes exactly when the source exists with a
      positive carrier, the device exists, and the carrier lies in the
      device's closed reception range. */
  lemma FrequencyVerdictMeaning(sources: seq<RadiationSourceModel.Source>, devices: seq<ReconnaissanceDeviceModel.Device>,
                                deviceId: int, sourceId: int)
    ensures var s := RadiationSourceModel.FindById(sources, sourceId);
            var d := ReconnaissanceDeviceModel.FindById(devices, deviceId);
            FrequencyVerdict(sources, devices, deviceId, sourceId) == Checked(true) <==>
              s.id != 0 && s.carrierFrequency > 0.0 && d.id != 0 &&
              d.freqMin <= s.carrierFrequency <= d.freqMax
    ensures GetSourceCarrierFrequency(sources, sourceId) <= 0.0 ==>
              FrequencyVerdict(sources, devices, deviceId, sourceId) == NoCarrier
  {
  }
}
