/** utils/SNRValidator.cpp: the common reception band of a set of devices
    and the first device whose signal-to-noise ratio falls below the
    threshold. The link-budget formulas themselves (calculateSNR and
    calculateMaxDetectionRange) are received as an `SnrModel`. */
module SnrValidator {
  import opened Common
  import opened ReconnaissanceDeviceModel
  import opened RadiationSourceModel

  /** calculateSNR(distance, power, frequency, noisePsd, bandwidth) and
      calculateMaxDetectionRange(power, frequency, noisePsd, bandwidth). */
  datatype SnrModel = SnrModel(
    snr: (real, real, real, real, real) -> real,
    maxRange: (real, real, real, real) -> real)

  /** A frequency interval whose missing bound stands for -infinity (lo) or
      +infinity (hi), as the intersection starts from (-inf, +inf). */
  datatype Band = Band(lo: Option<real>, hi: Option<real>)

  const Unbounded: Band := Band(None, None)

  /** One step of the intersection loop: std::max with the device's minimum
      and std::min with its maximum. */
  function Narrow(b: Band, d: Device): Band
  {
    Band(Some(if b.lo.None? then d.freqMin else Max(b.lo.value, d.freqMin)),
         Some(if b.hi.None? then d.freqMax else Min(b.hi.value, d.freqMax)))
  }

  /** The band after the loop has visited `ds` in order. */
  function BandOf(ds: seq<Device>): Band
  {
    if |ds| == 0 then Unbounded else Narrow(BandOf(ds[..|ds| - 1]), ds[|ds| - 1])
  }

  predicate InBand(x: real, b: Band)
  {
    (b.lo.None? || b.lo.value <= x) && (b.hi.None? || x <= b.hi.value)
  }

  /** The emptiness test `intersectFreqMin > intersectFreqMax`. */
  predicate IsEmpty(b: Band)
  {
    b.lo.Some? && b.hi.Some? && b.lo.value > b.hi.value
  }

  /** `intersectFreqMax - intersectFreqMin`. Both bounds are finite as soon
      as one device was visited; the infinite width of an empty device list
      is never used, since the loop that would use it has no iteration. */
  function Bandwidth(b: Band): real
  {
    if b.lo.Some? && b.hi.Some? then b.hi.value - b.lo.value else 0.0
  }

  /** Every device's closed reception range contains `x`. */
  predicate ReceivedByAll(ds: seq<Device>, x: real)
  {
    forall i :: 0 <= i < |ds| ==> ds[i].freqMin <= x <= ds[i].freqMax
  }

  /** A frequency lies in the intersection exactly when it lies in the
      closed range of every device. */
  lemma {:induction false} BandOfMeaning(ds: seq<Device>, x: real)
    ensures InBand(x, BandOf(ds)) <==> ReceivedByAll(ds, x)
  {
    if |ds| > 0 {
      var init := ds[..|ds| - 1];
      BandOfMeaning(init, x);
      assert forall i :: 0 <= i < |init| ==> init[i] == ds[i];
    }
  }

  /** The bounds are finite exactly when some device was visited, and then
      the lower bound is the largest minimum and the upper bound the
      smallest maximum. */
  lemma {:induction false} BandOfBounds(ds: seq<Device>)
    ensures BandOf(ds).lo.Some? <==> |ds| > 0
    ensures BandOf(ds).hi.Some? <==> |ds| > 0
    ensures |ds| > 0 ==> (exists i :: 0 <= i < |ds| && BandOf(ds).lo.value == ds[i].freqMin) &&
                         forall i :: 0 <= i < |ds| ==> ds[i].freqMin <= BandOf(ds).lo.value
    ensures |ds| > 0 ==> (exists i :: 0 <= i < |ds| && BandOf(ds).hi.value == ds[i].freqMax) &&
                         forall i :: 0 <= i < |ds| ==> BandOf(ds).hi.value <= ds[i].freqMax
  {
    if |ds| > 0 {
      var init := ds[..|ds| - 1];
      BandOfBounds(init);
      assert forall i :: 0 <= i < |init| ==> init[i] == ds[i];
      var last := |ds| - 1;
      if |init| > 0 {
        var j :| 0 <= j < |init| && BandOf(init).lo.value == init[j].freqMin;
        var k :| 0 <= k < |init| && BandOf(init).hi.value == init[k].freqMax;
        assert BandOf(ds).lo.value == ds[j].freqMin || BandOf(ds).lo.value == ds[last].freqMin;
        assert BandOf(ds).hi.value == ds[k].freqMax || BandOf(ds).hi.value == ds[last].freqMax;
      } else {
        assert BandOf(ds).lo.value == ds[last].freqMin;
        assert BandOf(ds).hi.value == ds[last].freqMax;
      }
    }
  }

  /** The band is reported empty exactly when no frequency is received by
      every device; a band that is not empty has a non-negative width, and
      touching ranges (min == max) pass with width 0. */
  lemma BandEmptyMeaning(ds: seq<Device>)
    ensures IsEmpty(BandOf(ds)) <==> forall x :: !ReceivedByAll(ds, x)
    ensures !IsEmpty(BandOf(ds)) ==> Bandwidth(BandOf(ds)) >= 0.0
  {
    var b := BandOf(ds);
    if IsEmpty(b) {
      forall x
        ensures !ReceivedByAll(ds, x)
      {
        BandOfMeaning(ds, x);
      }
    } else {
      var w := if b.lo.Some? then b.lo.value else if b.hi.Some? then b.hi.value else 0.0;
      assert InBand(w, b);
      BandOfMeaning(ds, w);
    }
  }

  /** The SNR check of one device, with the geodesic distance between the
      device and the source and the common bandwidth. */
  function SnrCheck(m: Math, model: SnrModel, s: Source, bandwidth: real, d: Device): Option<FailMessage>
  {
    var distance := m.distanceLbh(Coord3(d.longitude, d.latitude, d.altitude),
                                  Coord3(s.longitude, s.latitude, s.altitude));
    var maxDistance := model.maxRange(s.transmitPower, s.carrierFrequency, d.noisePsd, bandwidth);
    var snr := model.snr(distance, s.transmitPower, s.carrierFrequency, d.noisePsd, bandwidth);
    if snr < SnrThreshold then Some(SnrTooLow(s.name, d.name, maxDistance, distance, snr)) else None
  }

  /** What validateSNR reports for the devices `ds`. */
  function SnrVerdict(m: Math, model: SnrModel, s: Source, ds: seq<Device>): Option<FailMessage>
  {
    var band := BandOf(ds);
    if IsEmpty(band) then Some(NoCommonBand)
    else FirstFailure(ds, d => SnrCheck(m, model, s, Bandwidth(band), d))
  }

  /** validateSNR: first the intersection over all devices, then the SNR of
      each device in order, stopping at the first one below the threshold. */
  method ValidateSnr(m: Math, model: SnrModel, sources: seq<Source>, devices: seq<Device>,
                     deviceIds: seq<int>, sourceId: int)
    returns (ok: bool, failMessage: Option<FailMessage>)
    ensures failMessage == SnrVerdict(m, model, RadiationSourceModel.FindById(sources, sourceId),
                                      LookUpAll(devices, deviceIds))
    ensures ok <==> failMessage.None?
  {
    var source := RadiationSourceModel.FindById(sources, sourceId);
    ghost var ds := LookUpAll(devices, deviceIds);
    var intersectFreqMin: Option<real> := None;
    var intersectFreqMax: Option<real> := None;
    var i := 0;
    while i < |deviceIds|
      invariant 0 <= i <= |deviceIds|
      invariant Band(intersectFreqMin, intersectFreqMax) == BandOf(ds[..i])
    {
      var device := ReconnaissanceDeviceModel.FindById(devices, deviceIds[i]);
      intersectFreqMin := Some(if intersectFreqMin.None? then device.freqMin else Max(intersectFreqMin.value, device.freqMin));
      intersectFreqMax := Some(if intersectFreqMax.None? then device.freqMax else Min(intersectFreqMax.value, device.freqMax));
      assert ds[..i + 1][..i] == ds[..i];
      i := i + 1;
    }
    assert ds[..i] == ds;
    var band := Band(intersectFreqMin, intersectFreqMax);
    if IsEmpty(band) {
      return false, Some(NoCommonBand);
    }
    var commonBandwidth := Bandwidth(band);
    ghost var check := d => SnrCheck(m, model, source, commonBandwidth, d);
    i := 0;
    while i < |deviceIds|
      invariant 0 <= i <= |deviceIds|
      invariant FirstFailure(ds[..i], check).None?
    {
      var device := ReconnaissanceDeviceModel.FindById(devices, deviceIds[i]);
      var verdict := SnrCheck(m, model, source, commonBandwidth, device);
      FirstFailureStep(ds, i, check);
      if verdict.Some? {
        return false, verdict;
      }
      i := i + 1;
    }
    assert ds[..i] == ds;
    return true, None;
  }

  /** validateSNR passes exactly when some frequency is received by every
      device and no device's SNR is below the threshold; with no devices it
      passes. */
  lemma ValidateSnrMeaning(m: Math, model: SnrModel, s: Source, ds: seq<Device>)
    ensures SnrVerdict(m, model, s, ds).None? <==>
              (exists x :: ReceivedByAll(ds, x)) &&
              forall i :: 0 <= i < |ds| ==> SnrCheck(m, model, s, Bandwidth(BandOf(ds)), ds[i]).None?
    ensures |ds| == 0 ==> SnrVerdict(m, model, s, ds).None?
  {
    BandEmptyMeaning(ds);
    FirstFailureMeaning(ds, d => SnrCheck(m, model, s, Bandwidth(BandOf(ds)), d));
  }

  /** A device fails the SNR check exactly when the modelled SNR for its
      distance to the source and the common bandwidth is below the threshold. */
  lemma SnrCheckMeaning(m: Math, model: SnrModel, s: Source, bandwidth: real, d: Device)
    ensures SnrCheck(m, model, s, bandwidth, d).Some? <==>
              model.snr(m.distanceLbh(Coord3(d.longitude, d.latitude, d.altitude),
                                      Coord3(s.longitude, s.latitude, s.altitude)),
                        s.transmitPower, s.carrierFrequency, d.noisePsd, bandwidth) < SnrThreshold
  {
  }
}
